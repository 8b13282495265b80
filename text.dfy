/**
 * The string operations the ledger relies on:
 *  - `Trim`, Java's `String.trim()`, applied to every text field before it is checked;
 *  - `Utf16Length`, Java's `String.length()`, which counts UTF-16 code units;
 *  - `StrLe`, SQLite's BINARY collation on TEXT (byte-wise comparison of UTF-8, which
 *    orders strings exactly as lexicographic comparison of their code points does),
 *    used by `ORDER BY date DESC`.
 */
module Text {

  /** Java's `trim()` treats every character up to U+0020 as removable. */
  predicate IsTrimmable(c: char) {
    c <= ' '
  }

  /** Every character of `s` is removable by `trim()`. */
  ghost predicate Blank(s: string) {
    forall i :: 0 <= i < |s| ==> IsTrimmable(s[i])
  }

  /** Every character of `s` at a position in [lo, hi) is removable by `trim()`. */
  ghost predicate BlankBetween(s: string, lo: int, hi: int)
    requires 0 <= lo <= hi <= |s|
  {
    forall i :: lo <= i < hi ==> IsTrimmable(s[i])
  }

  /** The leading removable characters cut off: what is left is a suffix of `s`. */
  function TrimStart(s: string): (r: string)
    ensures |r| <= |s| && r == s[|s| - |r|..]
    ensures r == [] || !IsTrimmable(r[0])
    ensures BlankBetween(s, 0, |s| - |r|)
  {
    if s != [] && IsTrimmable(s[0]) then
      var r := TrimStart(s[1..]);
      assert r == s[|s| - |r|..] by {
        assert s[1..][|s| - 1 - |r|..] == s[|s| - |r|..];
      }
      assert BlankBetween(s, 0, |s| - |r|) by {
        forall i | 1 <= i < |s| - |r| ensures IsTrimmable(s[i]) {
          assert s[1..][i - 1] == s[i];
        }
      }
      r
    else s
  }

  /** The trailing removable characters cut off: what is left is a prefix of `s`. */
  function TrimEnd(s: string): (r: string)
    ensures |r| <= |s| && r == s[..|r|]
    ensures r == [] || !IsTrimmable(r[|r| - 1])
    ensures BlankBetween(s, |r|, |s|)
  {
    if s != [] && IsTrimmable(s[|s| - 1]) then
      var r := TrimEnd(s[..|s| - 1]);
      assert r == s[..|r|] by {
        assert s[..|s| - 1][..|r|] == s[..|r|];
      }
      assert BlankBetween(s, |r|, |s|) by {
        forall i | |r| <= i < |s| - 1 ensures IsTrimmable(s[i]) {
          assert s[..|s| - 1][i] == s[i];
        }
      }
      r
    else s
  }

  /**
   * A prefix `r` of the suffix `a` of `s`, with blanks before `a` and after `r` in
   * it, sits in `s` at the offset where `a` starts, with blanks on both sides.
   */
  lemma TrimmedSlice(s: string, a: string, r: string)
    requires |a| <= |s| && a == s[|s| - |a|..] && BlankBetween(s, 0, |s| - |a|)
    requires |r| <= |a| && r == a[..|r|] && BlankBetween(a, |r|, |a|)
    ensures r == s[|s| - |a|..|s| - |a| + |r|]
    ensures BlankBetween(s, |s| - |a| + |r|, |s|)
  {
    var k := |s| - |a|;
    forall i | 0 <= i < |r| ensures r[i] == s[k + i] {
      assert r[i] == a[i];
    }
    forall i | k + |r| <= i < |s| ensures IsTrimmable(s[i]) {
      assert a[i - k] == s[i];
    }
  }

  /**
   * `String.trim()`: the longest slice of `s` that neither starts nor ends with a
   * removable character; what is cut off on both sides is removable.
   */
  function Trim(s: string): (r: string)
    ensures |r| <= |s|
    ensures r == [] || (!IsTrimmable(r[0]) && !IsTrimmable(r[|r| - 1]))
    ensures exists k :: 0 <= k <= |s| - |r| && r == s[k..k + |r|] && BlankBetween(s, 0, k) && BlankBetween(s, k + |r|, |s|)
  {
    var a := TrimStart(s);
    var r := TrimEnd(a);
    TrimmedSlice(s, a, r);
    assert r == [] || r[0] == a[0];
    r
  }

  /** A field is empty after trimming exactly when it holds only removable characters. */
  lemma TrimEmptyIffBlank(s: string)
    ensures Trim(s) == [] <==> Blank(s)
  {
    if Trim(s) == [] {
      var k :| 0 <= k <= |s| && BlankBetween(s, 0, k) && BlankBetween(s, k, |s|);
      forall i | 0 <= i < |s| ensures IsTrimmable(s[i]) {
        if i < k { assert BlankBetween(s, 0, k); } else { assert BlankBetween(s, k, |s|); }
      }
    } else {
      assert !IsTrimmable(Trim(s)[0]);
      var k :| 0 <= k <= |s| - |Trim(s)| && Trim(s) == s[k..k + |Trim(s)|];
      assert s[k] == Trim(s)[0];
    }
  }

  /** Trimming twice is trimming once. */
  lemma TrimIdempotent(s: string)
    ensures Trim(Trim(s)) == Trim(s)
  {
    var t := Trim(s);
    if t != [] {
      assert TrimStart(t) == t;
      assert TrimEnd(t) == t;
    }
  }

  /** Lexicographic order on code points: the order of SQLite's BINARY collation. */
  predicate StrLe(a: string, b: string) {
    if a == [] then true
    else if b == [] then false
    else if a[0] != b[0] then a[0] < b[0]
    else StrLe(a[1..], b[1..])
  }

  lemma {:induction false} StrLeReflexive(a: string)
    ensures StrLe(a, a)
  {
    if a != [] { StrLeReflexive(a[1..]); }
  }

  lemma {:induction false} StrLeTotal(a: string, b: string)
    ensures StrLe(a, b) || StrLe(b, a)
  {
    if a != [] && b != [] && a[0] == b[0] {
      StrLeTotal(a[1..], b[1..]);
    }
  }

  lemma {:induction false} StrLeTransitive(a: string, b: string, c: string)
    requires StrLe(a, b) && StrLe(b, c)
    ensures StrLe(a, c)
  {
    if a != [] && b != [] && c != [] && a[0] == b[0] && b[0] == c[0] {
      StrLeTransitive(a[1..], b[1..], c[1..]);
    }
  }

  lemma {:induction false} StrLeAntisymmetric(a: string, b: string)
    requires StrLe(a, b) && StrLe(b, a)
    ensures a == b
  {
    if a != [] && b != [] {
      StrLeAntisymmetric(a[1..], b[1..]);
      assert a == [a[0]] + a[1..];
      assert b == [b[0]] + b[1..];
    }
  }

  /** A character Java stores in one UTF-16 unit; any other takes a surrogate pair. */
  predicate InBasicPlane(c: char) {
    c as int <= 0xFFFF
  }

  /**
   * Java's `length()`: one unit per character of the basic plane, two per character
   * above U+FFFF. It equals the number of characters exactly when none lies above.
   */
  function Utf16Length(s: string): (n: nat)
    ensures |s| <= n <= 2 * |s|
    ensures n == |s| <==> forall i :: 0 <= i < |s| ==> InBasicPlane(s[i])
  {
    if s == [] then 0
    else
      var rest := Utf16Length(s[1..]);
      assert forall i :: 1 <= i < |s| ==> s[i] == s[1..][i - 1];
      (if InBasicPlane(s[0]) then 1 else 2) + rest
  }
}
