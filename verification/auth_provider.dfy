/**
 * The client's local login state (src/components/auth/AuthProvider.tsx): `isAuthenticated`
 * and `user` over records kept in localStorage under the user's email. A thrown error is
 * modelled as a returned message. JSON serialisation is taken as exact: a stored record reads
 * back as the fields that were written.
 */
module AuthProvider {
  import opened Wrappers
  import Stats

  /** A record as parsed from localStorage; `None` is a field the record lacks. */
  datatype Record = Record(name: Option<string>, password: Option<string>, foodEntries: Option<seq<Stats.FoodItem>>)

  /** The signed-in user; `name` is whatever the record held, possibly nothing. */
  datatype User = User(email: string, name: Option<string>, foodEntries: seq<Stats.FoodItem>)

  const UserNotFound: string := "User not found. Please register first."
  const InvalidCredentials: string := "Invalid credentials. Please try again."

  /** `getUserData`: the parsed record, or the "not found" error when nothing is stored. */
  function GetUserData(storage: map<string, Record>, email: string): (r: Result<Record, string>)
    ensures r.Err? <==> email !in storage
    ensures r.Err? ==> r.error == UserNotFound
    ensures r.Ok? ==> r.value == storage[email]
  {
    if email in storage then Ok(storage[email]) else Err(UserNotFound)
  }

  /** `validateCredentials`: an error unless the stored password is exactly the given one. */
  function ValidateCredentials(storedPassword: Option<string>, password: string): (r: Option<string>)
    ensures r.None? <==> storedPassword == Some(password)
    ensures r.Some? ==> r.value == InvalidCredentials
  {
    if storedPassword != Some(password) then Some(InvalidCredentials) else None
  }

  /** `authenticateUser`: the user object built from the record's fields, entries defaulting to []. */
  function AuthenticatedUser(email: string, name: Option<string>, foodEntries: Option<seq<Stats.FoodItem>>): User {
    User(email, name, foodEntries.GetOr([]))
  }

  /** What `login` does: the user it signs in, or the error it throws. */
  function LoginResult(storage: map<string, Record>, email: string, password: string): (r: Result<User, string>)
    ensures email !in storage ==> r == Err(UserNotFound)
    ensures email in storage && storage[email].password != Some(password) ==> r == Err(InvalidCredentials)
    ensures r.Ok? <==> email in storage && storage[email].password == Some(password)
    ensures r.Ok? ==> r.value.email == email && r.value.name == storage[email].name
                      && r.value.foodEntries == storage[email].foodEntries.GetOr([])
  {
    var data := GetUserData(storage, email);
    if data.Err? then Err(data.error)
    else
      var check := ValidateCredentials(data.value.password, password);
      if check.Some? then Err(check.value)
      else Ok(AuthenticatedUser(email, data.value.name, data.value.foodEntries))
  }

  /** The record the registration form writes: name, password and an empty entry list. */
  function RegisteredRecord(name: string, password: string): Record {
    Record(Some(name), Some(password), Some([]))
  }

  /** A user registered through the form signs in with the same password, with no entries. */
  lemma RegisterThenLogin(storage: map<string, Record>, email: string, name: string, password: string)
    ensures LoginResult(storage[email := RegisteredRecord(name, password)], email, password)
         == Ok(User(email, Some(name), []))
  {
  }

  /** ... and with any other password is refused. */
  lemma RegisterThenWrongPassword(storage: map<string, Record>, email: string, name: string, password: string, other: string)
    requires other != password
    ensures LoginResult(storage[email := RegisteredRecord(name, password)], email, other) == Err(InvalidCredentials)
  {
  }

  /** The record `updateUserData` writes: the serialised user, which has no password field. */
  function StoredUser(u: User): Record {
    Record(u.name, None, Some(u.foodEntries))
  }

  /**
   * Once `updateUserData` has written a user's record, no password signs that user in again:
   * the serialised user object carries no password.
   */
  lemma UpdateLocksOut(storage: map<string, Record>, u: User, password: string)
    ensures LoginResult(storage[u.email := StoredUser(u)], u.email, password) == Err(InvalidCredentials)
  {
  }

  class Provider {
    var isAuthenticated: bool
    var user: Option<User>
    var storage: map<string, Record>

    constructor (storage: map<string, Record>)
      ensures !isAuthenticated && user.None? && this.storage == storage
    {
      isAuthenticated, user, this.storage := false, None, storage;
    }

    /** `login`: on success both flags are set from the record; on an error nothing changes. */
    method Login(email: string, password: string) returns (error: Option<string>)
      modifies this`isAuthenticated, this`user
      ensures LoginResult(storage, email, password).Ok? ==>
        error.None? && isAuthenticated && user == Some(LoginResult(storage, email, password).value)
      ensures LoginResult(storage, email, password).Err? ==>
        error == Some(LoginResult(storage, email, password).error)
        && isAuthenticated == old(isAuthenticated) && user == old(user)
    {
      if email !in storage {
        return Some(UserNotFound);
      }
      var record := storage[email];
      if record.password != Some(password) {
        return Some(InvalidCredentials);
      }
      isAuthenticated := true;
      user := Some(AuthenticatedUser(email, record.name, record.foodEntries));
      error := None;
    }

    /** `logout`: signed out with no user; storage is kept. */
    method Logout()
      modifies this`isAuthenticated, this`user
      ensures !isAuthenticated && user.None?
    {
      isAuthenticated := false;
      user := None;
    }

    /** `updateUserData`: the user is written under its email and becomes the current user. */
    method UpdateUserData(updated: User)
      modifies this`user, this`storage
      ensures storage == old(storage)[updated.email := StoredUser(updated)]
      ensures user == Some(updated)
    {
      storage := storage[updated.email := StoredUser(updated)];
      user := Some(updated);
    }
  }
}
