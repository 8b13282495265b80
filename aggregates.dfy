/**
 * The folds the dashboard and report screens compute over a fetched list of
 * records, stated as functions, with the arithmetic laws they obey. The screens'
 * loops (modules Dashboard and Reports) are proved to compute these functions.
 */
module Aggregates {
  import opened Expenses

  /** What one record adds to a total. */
  datatype Measure =
    | Spent      // dashboard expense total: |amount| of a negative amount, 0 otherwise
    | Earned     // dashboard income total: a positive amount, 0 otherwise
    | Magnitude  // |amount|: what the reports add up over the expense list
    | Amount     // the signed amount: what the reports add up over the income list

  function Contribution(m: Measure, e: ExpenseRecord): (r: real)
    ensures m == Spent ==> r >= 0.0 && (r > 0.0 <==> e.amount < 0.0) && (r > 0.0 ==> r == -e.amount)
    ensures m == Earned ==> r >= 0.0 && (r > 0.0 <==> e.amount > 0.0) && (r > 0.0 ==> r == e.amount)
    ensures m == Magnitude ==> r >= 0.0 && (r == e.amount || r == -e.amount)
  {
    match m
    case Spent => if e.amount < 0.0 then Abs(e.amount) else 0.0
    case Earned => if e.amount > 0.0 then e.amount else 0.0
    case Magnitude => Abs(e.amount)
    case Amount => e.amount
  }

  /** The total of `m` over `s`, accumulated front to back as the screens' loops do. */
  function Sum(s: seq<ExpenseRecord>, m: Measure): real {
    if s == [] then 0.0 else Sum(s[..|s| - 1], m) + Contribution(m, s[|s| - 1])
  }

  lemma {:induction false} SumAppend(a: seq<ExpenseRecord>, b: seq<ExpenseRecord>, m: Measure)
    ensures Sum(a + b, m) == Sum(a, m) + Sum(b, m)
  {
    if b == [] {
      assert a + b == a;
    } else {
      assert (a + b)[..|a + b| - 1] == a + b[..|b| - 1];
      SumAppend(a, b[..|b| - 1], m);
    }
  }

  /** Totals of magnitudes are never negative. */
  lemma {:induction false} SumNonNegative(s: seq<ExpenseRecord>, m: Measure)
    requires m != Amount
    ensures Sum(s, m) >= 0.0
  {
    if s != [] { SumNonNegative(s[..|s| - 1], m); }
  }

  /** Taking one record out of a list takes its contribution out of the total. */
  lemma SumRemoveAt(t: seq<ExpenseRecord>, i: int, m: Measure)
    requires 0 <= i < |t|
    ensures Sum(t, m) == Sum(t[..i] + t[i + 1..], m) + Contribution(m, t[i])
  {
    assert t == (t[..i] + [t[i]]) + t[i + 1..];
    SumAppend(t[..i] + [t[i]], t[i + 1..], m);
    SumAppend(t[..i], [t[i]], m);
    SumAppend(t[..i], t[i + 1..], m);
    assert Sum([t[i]], m) == Contribution(m, t[i]);
  }

  lemma MultisetRemoveLast(s: seq<ExpenseRecord>, t: seq<ExpenseRecord>, i: int)
    requires multiset(s) == multiset(t) && s != [] && 0 <= i < |t| && t[i] == s[|s| - 1]
    ensures multiset(s[..|s| - 1]) == multiset(t[..i] + t[i + 1..])
  {
    var x := s[|s| - 1];
    var init, rest := s[..|s| - 1], t[..i] + t[i + 1..];
    assert s == init + [x];
    assert t == t[..i] + [x] + t[i + 1..];
    calc {
      multiset(init);
      multiset(s) - multiset{x};
      multiset(t) - multiset{x};
      multiset(rest);
    }
  }

  /** A total does not depend on the order of the list it is taken over. */
  lemma {:induction false} SumPermutation(s: seq<ExpenseRecord>, t: seq<ExpenseRecord>, m: Measure)
    requires multiset(s) == multiset(t)
    ensures Sum(s, m) == Sum(t, m)
    decreases |s|
  {
    if s == [] {
      assert |t| == |multiset(t)| == 0;
    } else {
      var x := s[|s| - 1];
      assert x in multiset(t);
      var i :| 0 <= i < |t| && t[i] == x;
      MultisetRemoveLast(s, t, i);
      SumPermutation(s[..|s| - 1], t[..i] + t[i + 1..], m);
      SumRemoveAt(t, i, m);
    }
  }

  /** Balance: income total minus expense total is the signed sum of all amounts. */
  lemma {:induction false} BalanceIsSignedSum(s: seq<ExpenseRecord>)
    ensures Sum(s, Earned) - Sum(s, Spent) == Sum(s, Amount)
  {
    if s != [] { BalanceIsSignedSum(s[..|s| - 1]); }
  }

  /** The income list of the reports: the records with a positive amount, in order. */
  function IncomeList(s: seq<ExpenseRecord>): (r: seq<ExpenseRecord>)
    ensures |r| <= |s|
    ensures forall i :: 0 <= i < |r| ==> r[i].IsIncome()
  {
    if s == [] then []
    else if s[|s| - 1].IsIncome() then IncomeList(s[..|s| - 1]) + [s[|s| - 1]]
    else IncomeList(s[..|s| - 1])
  }

  /** The expense list of the reports: every other record, zero amounts included, in order. */
  function ExpenseList(s: seq<ExpenseRecord>): (r: seq<ExpenseRecord>)
    ensures |r| <= |s|
    ensures forall i :: 0 <= i < |r| ==> r[i].amount <= 0.0
  {
    if s == [] then []
    else if s[|s| - 1].IsIncome() then ExpenseList(s[..|s| - 1])
    else ExpenseList(s[..|s| - 1]) + [s[|s| - 1]]
  }

  /** Every record lands in exactly one of the two lists. */
  lemma {:induction false} PartitionIsExact(s: seq<ExpenseRecord>)
    ensures multiset(IncomeList(s)) + multiset(ExpenseList(s)) == multiset(s)
    ensures |IncomeList(s)| + |ExpenseList(s)| == |s|
  {
    if s != [] {
      PartitionIsExact(s[..|s| - 1]);
      assert s == s[..|s| - 1] + [s[|s| - 1]];
    }
  }

  /** Splitting keeps the order: the lists of a concatenation are the concatenated lists. */
  lemma {:induction false} PartitionKeepsOrder(a: seq<ExpenseRecord>, b: seq<ExpenseRecord>)
    ensures IncomeList(a + b) == IncomeList(a) + IncomeList(b)
    ensures ExpenseList(a + b) == ExpenseList(a) + ExpenseList(b)
  {
    if b == [] {
      assert a + b == a;
    } else {
      assert (a + b)[..|a + b| - 1] == a + b[..|b| - 1];
      PartitionKeepsOrder(a, b[..|b| - 1]);
    }
  }

  /**
   * The bar chart's totals (|amount| over the expense list, amount over the income list)
   * are the dashboard's expense and income totals over the whole list.
   */
  lemma {:induction false} BarTotalsAreDashboardTotals(s: seq<ExpenseRecord>)
    ensures Sum(ExpenseList(s), Magnitude) == Sum(s, Spent)
    ensures Sum(IncomeList(s), Amount) == Sum(s, Earned)
  {
    if s != [] {
      var init := s[..|s| - 1];
      BarTotalsAreDashboardTotals(init);
      var x := s[|s| - 1];
      if x.IsIncome() {
        assert IncomeList(s)[..|IncomeList(s)| - 1] == IncomeList(init);
      } else {
        assert ExpenseList(s)[..|ExpenseList(s)| - 1] == ExpenseList(init);
      }
    }
  }

  /** The reports' "highest": the largest contribution, starting from 0. */
  function Highest(s: seq<ExpenseRecord>, m: Measure): (r: real)
    ensures r >= 0.0
    ensures forall i :: 0 <= i < |s| ==> Contribution(m, s[i]) <= r
    ensures r == 0.0 || exists i :: 0 <= i < |s| && Contribution(m, s[i]) == r
  {
    if s == [] then 0.0
    else
      var h := Highest(s[..|s| - 1], m);
      var v := Contribution(m, s[|s| - 1]);
      assert forall i :: 0 <= i < |s| - 1 ==> s[..|s| - 1][i] == s[i];
      if v > h then v else h
  }

  /** Extending a list by one record: the larger of the old highest and its contribution. */
  lemma HighestAppend(s: seq<ExpenseRecord>, x: ExpenseRecord, m: Measure)
    ensures Highest(s + [x], m) == if Contribution(m, x) > Highest(s, m) then Contribution(m, x) else Highest(s, m)
  {
    assert (s + [x])[..|s + [x]| - 1] == s;
  }

  /** The reports' average: total over count, and 0 for an empty list. */
  function Average(s: seq<ExpenseRecord>, m: Measure): real {
    if |s| == 0 then 0.0 else Sum(s, m) / (|s| as real)
  }

  /** `n` copies of `b` added up; kept apart from `*` so that the inductive proofs stay linear. */
  function Repeated(n: nat, b: real): real {
    if n == 0 then 0.0 else Repeated(n - 1, b) + b
  }

  lemma {:induction false} RepeatedIsProduct(n: nat, b: real)
    ensures Repeated(n, b) == (n as real) * b
  {
    if n > 0 { RepeatedIsProduct(n - 1, b); }
  }

  lemma {:induction false} SumAtMostRepeatedBound(s: seq<ExpenseRecord>, m: Measure, bound: real)
    requires forall i :: 0 <= i < |s| ==> Contribution(m, s[i]) <= bound
    ensures Sum(s, m) <= Repeated(|s|, bound)
  {
    if s != [] {
      var init := s[..|s| - 1];
      assert forall i :: 0 <= i < |init| ==> init[i] == s[i];
      SumAtMostRepeatedBound(init, m, bound);
    }
  }

  lemma QuotientBetween(total: real, n: nat, h: real)
    requires n > 0 && 0.0 <= total <= Repeated(n, h)
    ensures 0.0 <= total / (n as real) <= h
  {
    RepeatedIsProduct(n, h);
  }

  lemma {:induction false} SumNonNegativeWhenContributionsAre(s: seq<ExpenseRecord>, m: Measure)
    requires forall i :: 0 <= i < |s| ==> Contribution(m, s[i]) >= 0.0
    ensures Sum(s, m) >= 0.0
  {
    if s != [] {
      assert forall i :: 0 <= i < |s| - 1 ==> s[..|s| - 1][i] == s[i];
      SumNonNegativeWhenContributionsAre(s[..|s| - 1], m);
    }
  }

  /** An average of non-negative contributions lies between 0 and the highest one. */
  lemma AverageBetweenZeroAndHighest(s: seq<ExpenseRecord>, m: Measure)
    requires forall i :: 0 <= i < |s| ==> Contribution(m, s[i]) >= 0.0
    ensures 0.0 <= Average(s, m) <= Highest(s, m)
  {
    if |s| > 0 {
      var total, h := Sum(s, m), Highest(s, m);
      SumAtMostRepeatedBound(s, m, h);
      SumNonNegativeWhenContributionsAre(s, m);
      QuotientBetween(total, |s|, h);
      assert Average(s, m) == total / (|s| as real);
    }
  }

  /** The categories occurring in a list. */
  ghost function Categories(s: seq<ExpenseRecord>): set<string> {
    set i | 0 <= i < |s| :: s[i].category
  }

  /** The total of `m` over the records of category `c`. */
  function CategorySum(s: seq<ExpenseRecord>, c: string, m: Measure): real {
    if s == [] then 0.0
    else CategorySum(s[..|s| - 1], c, m) + (if s[|s| - 1].category == c then Contribution(m, s[|s| - 1]) else 0.0)
  }

  lemma {:induction false} CategorySumAbsent(s: seq<ExpenseRecord>, c: string, m: Measure)
    requires c !in Categories(s)
    ensures CategorySum(s, c, m) == 0.0
  {
    if s != [] {
      var init := s[..|s| - 1];
      assert Categories(init) <= Categories(s) by {
        forall x | x in Categories(init) ensures x in Categories(s) {
          var i :| 0 <= i < |init| && init[i].category == x;
          assert s[i] == init[i];
        }
      }
      CategorySumAbsent(init, c, m);
    }
  }

  ghost predicate DistinctKeys(ks: seq<string>) {
    forall i, j :: 0 <= i < j < |ks| ==> ks[i] != ks[j]
  }

  /** The sum of the category totals of `s` over the keys `ks`. */
  function KeySum(ks: seq<string>, s: seq<ExpenseRecord>, m: Measure): real {
    if ks == [] then 0.0 else CategorySum(s, ks[0], m) + KeySum(ks[1..], s, m)
  }

  lemma {:induction false} KeySumOfEmpty(ks: seq<string>, m: Measure)
    ensures KeySum(ks, [], m) == 0.0
  {
    if ks != [] { KeySumOfEmpty(ks[1..], m); }
  }

  lemma {:induction false} KeySumSnoc(ks: seq<string>, s: seq<ExpenseRecord>, x: ExpenseRecord, m: Measure)
    requires DistinctKeys(ks)
    ensures KeySum(ks, s + [x], m) == KeySum(ks, s, m) + (if x.category in ks then Contribution(m, x) else 0.0)
  {
    if ks != [] {
      assert (s + [x])[..|s + [x]| - 1] == s;
      assert DistinctKeys(ks[1..]);
      KeySumSnoc(ks[1..], s, x, m);
      assert x.category in ks <==> x.category == ks[0] || x.category in ks[1..];
      assert x.category == ks[0] ==> x.category !in ks[1..];
    }
  }

  /** Adding up the category totals over a duplicate-free list of keys covering every category gives the total. */
  lemma {:induction false} CategorySumsAddUp(ks: seq<string>, s: seq<ExpenseRecord>, m: Measure)
    requires DistinctKeys(ks)
    requires forall i :: 0 <= i < |s| ==> s[i].category in ks
    ensures KeySum(ks, s, m) == Sum(s, m)
  {
    if s == [] {
      KeySumOfEmpty(ks, m);
    } else {
      var init := s[..|s| - 1];
      assert s == init + [s[|s| - 1]];
      CategorySumsAddUp(ks, init, m);
      KeySumSnoc(ks, init, s[|s| - 1], m);
    }
  }

  /** The values of `totals` at the keys `ks`, added up in that order. */
  function ValuesSum(totals: map<string, real>, ks: seq<string>): real
    requires forall i :: 0 <= i < |ks| ==> ks[i] in totals
  {
    if ks == [] then 0.0 else totals[ks[0]] + ValuesSum(totals, ks[1..])
  }

  /** `totals` is the category map of `s` under `m`: one key per category, each its total. */
  ghost predicate IsCategoryMap(totals: map<string, real>, s: seq<ExpenseRecord>, m: Measure) {
    && totals.Keys == Categories(s)
    && forall c :: c in totals ==> totals[c] == CategorySum(s, c, m)
  }

  lemma {:induction false} ValuesSumIsKeySum(totals: map<string, real>, ks: seq<string>, s: seq<ExpenseRecord>, m: Measure)
    requires IsCategoryMap(totals, s, m)
    requires forall i :: 0 <= i < |ks| ==> ks[i] in totals
    ensures ValuesSum(totals, ks) == KeySum(ks, s, m)
  {
    if ks != [] { ValuesSumIsKeySum(totals, ks[1..], s, m); }
  }

  /**
   * Whatever order a hash map visits its keys in, the category totals of `s` add up to
   * the total of `s`.
   */
  lemma CategoryMapAddsUp(totals: map<string, real>, s: seq<ExpenseRecord>, m: Measure, ks: seq<string>)
    requires IsCategoryMap(totals, s, m)
    requires DistinctKeys(ks) && (forall i :: 0 <= i < |ks| ==> ks[i] in totals)
    requires forall c :: c in totals ==> c in ks
    ensures ValuesSum(totals, ks) == Sum(s, m)
  {
    ValuesSumIsKeySum(totals, ks, s, m);
    forall i | 0 <= i < |s| ensures s[i].category in ks {
      assert s[i].category in Categories(s);
    }
    CategorySumsAddUp(ks, s, m);
  }
}
