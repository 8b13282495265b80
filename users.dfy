/**
 * The user account the signup and login screens work with. `User.java` and the
 * store's user table (`addUser`, `getUserByEmail`) are not part of this model: the
 * screens' calls to them are parameters of the operations that make them.
 */
module Users {

  datatype User = User(id: int, username: string, email: string, password: string)
}
