/** Shared vocabulary of the pages: optional values, error results and the
    "current user" blob that the pages keep in browser storage. */
module Common {

  datatype Option<+T> = None | Some(value: T)

  datatype Result<+R, +E> = Ok(value: R) | Err(error: E)

  /** The record stored under the 'user' key. Registration and login write
      only name, email and role; saving a profile writes the whole edit form,
      so the two dates are present only then. */
  datatype StoredUser = StoredUser(
    name: string,
    email: string,
    role: string,
    joinDate: Option<string>,
    lastActive: Option<string>)

  /** The browser's key-value storage, reduced to the one key the pages use. */
  class UserStorage {
    var user: Option<StoredUser>

    constructor ()
      ensures user == None
    {
      user := None;
    }

    method SetUser(u: StoredUser)
      modifies this
      ensures user == Some(u)
    {
      user := Some(u);
    }

    method RemoveUser()
      modifies this
      ensures user == None
    {
      user := None;
    }
  }
}
