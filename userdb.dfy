/** The user database: plugin selection, and the password rules of user
    creation, authentication and password change over a plugin. bcrypt is a
    parameter: its hash generation, cost check and comparison. */
module Userdb {
  import opened Wrappers
  import opened Strings
  import opened Errors

  /** The core of a user record. Passwords are stored hashed. */
  datatype BasicUser = BasicUser(name: string, password: string, inactive: bool)

  /** The bcrypt functions the package uses. `generate` may fail; `cost`
      says whether a hash carries a valid cost; `compare(hash, password)`
      says whether the hash is one of the password. */
  datatype Bcrypt = Bcrypt(
    generate: string -> Result<string, Error>,
    cost: string -> bool,
    compare: (string, string) -> bool)

  /** The error bcrypt gives for a password that does not match. */
  const Mismatch: Error := Plain("crypto/bcrypt: hashedPassword is not the hash of the given password")

  /** The hashes bcrypt makes match their own password and no other. */
  ghost predicate IdealBcrypt(b: Bcrypt) {
    (forall p | b.generate(p).Ok? :: b.compare(b.generate(p).value, p)) &&
    (forall p, q | b.generate(p).Ok? && q != p :: !b.compare(b.generate(p).value, q))
  }

  /** `NewPlugin`: the plugin type is the configured type, else the scheme
      of the configured URL; the registered constructor for it is called
      with the URL. The result names the constructor and its argument.
      `scheme` is `url.Parse`'s scheme or error. */
  function NewPlugin(dbtype: string, dburl: string, scheme: string -> Result<string, Error>, registered: set<string>)
    : (r: Result<(string, string), Error>)
    ensures dbtype != "" ==> r == Dispatch(dbtype, dburl, registered)
    ensures dbtype == "" && dburl == "" ==> r == Err(Plain("The user database plugin does not configured"))
    ensures dbtype == "" && dburl != "" && scheme(dburl).Err? ==> r == Err(scheme(dburl).error)
    ensures dbtype == "" && dburl != "" && scheme(dburl).Ok? ==> r == Dispatch(scheme(dburl).value, dburl, registered)
    ensures r.Ok? ==> r.value.0 in registered && r.value.1 == dburl
  {
    var t := if dbtype == "" && dburl != "" then scheme(dburl) else Ok(dbtype);
    match t
    case Err(e) => Err(e)
    case Ok(t) => Dispatch(t, dburl, registered)
  }

  /** The registry lookup of `NewPlugin`. */
  function Dispatch(t: string, dburl: string, registered: set<string>): (r: Result<(string, string), Error>)
    ensures t == "" ==> r == Err(Plain("The user database plugin does not configured"))
    ensures t != "" && t in registered ==> r == Ok((t, dburl))
    ensures t != "" && t !in registered ==> r == Err(Plain("Unsupported user database scheme: " + t))
  {
    if t == "" then Err(Plain("The user database plugin does not configured"))
    else if t in registered then Ok((t, dburl))
    else Err(Plain("Unsupported user database scheme: " + t))
  }

  /** An explicit type wins over the URL's scheme. */
  lemma TypeOverridesScheme(t: string, dburl: string, scheme: string -> Result<string, Error>, registered: set<string>)
    requires t != "" && t in registered
    ensures NewPlugin(t, dburl, scheme, registered) == Ok((t, dburl))
  {
  }

  /** `hashPassword`: a password that already is a bcrypt hash with a valid
      cost is kept; any other is hashed. */
  function HashPassword(b: Bcrypt, password: string): (r: Result<string, Error>)
    ensures HasPrefix(password, "$2a$") && b.cost(password) ==> r == Ok(password)
    ensures !(HasPrefix(password, "$2a$") && b.cost(password)) ==> r == b.generate(password)
  {
    if HasPrefix(password, "$2a$") && b.cost(password) then Ok(password)
    else b.generate(password)
  }

  /** A password that is no bcrypt hash is stored as a hash that matches it
      and no other password. */
  lemma HashedPasswordMatches(b: Bcrypt, password: string, other: string)
    requires IdealBcrypt(b) && !HasPrefix(password, "$2a$") && HashPassword(b, password).Ok?
    ensures b.compare(HashPassword(b, password).value, password)
    ensures other != password ==> !b.compare(HashPassword(b, password).value, other)
  {
  }

  /** `Authenticate`'s decision on what the plugin found: a lookup error is
      passed on, an inactive user is refused before the password is looked
      at, a wrong password is refused. */
  function CheckLogin(b: Bcrypt, name: string, found: Result<BasicUser, Error>, password: string): (r: Result<BasicUser, Error>)
    ensures found.Err? ==> r == Err(found.error)
    ensures found.Ok? && found.value.inactive ==> r == Err(InactiveUser(name))
    ensures found.Ok? && !found.value.inactive ==>
              (r.Ok? <==> b.compare(found.value.password, password)) &&
              (r.Ok? ==> r.value == found.value) &&
              (r.Err? ==> r.error == Mismatch)
  {
    match found
    case Err(e) => Err(e)
    case Ok(user) =>
      if user.inactive then Err(InactiveUser(name))
      else if !b.compare(user.password, password) then Err(Mismatch)
      else Ok(user)
  }

  /** The user database over a plugin. The plugin is its table of users,
      with the interface's behaviour: creating an existing user fails with
      `DuplicateUserError`, finding or updating a missing one with
      `UserNotFoundError`. */
  class UserDatabase {
    var users: map<string, BasicUser>
    const bcrypt: Bcrypt

    constructor (bcrypt: Bcrypt)
      ensures users == map[] && this.bcrypt == bcrypt
    {
      users := map[];
      this.bcrypt := bcrypt;
    }

    /** `Find`, through the plugin. */
    function Find(name: string): (r: Result<BasicUser, Error>)
      reads this
      ensures r.Ok? <==> name in users
      ensures r.Ok? ==> r.value == users[name]
      ensures r.Err? ==> r.error == UserNotFound(name)
    {
      if name in users then Ok(users[name]) else Err(UserNotFound(name))
    }

    /** `Create`: a user needs a name and a password; it is stored active,
        with the password hashed. */
    method Create(user: BasicUser, password: string) returns (err: Option<Error>)
      modifies this
      ensures user.name == "" || password == "" ==>
                err == Some(Plain("missing required parameters")) && users == old(users)
      ensures user.name != "" && password != "" && HashPassword(bcrypt, password).Err? ==>
                err == Some(HashPassword(bcrypt, password).error) && users == old(users)
      ensures user.name != "" && password != "" && HashPassword(bcrypt, password).Ok? && user.name in old(users) ==>
                err == Some(DuplicateUser(user.name)) && users == old(users)
      ensures user.name != "" && password != "" && HashPassword(bcrypt, password).Ok? && user.name !in old(users) ==>
                err.None? && users == old(users)[user.name := BasicUser(user.name, HashPassword(bcrypt, password).value, false)]
    {
      if user.name == "" || |password| == 0 {
        return Some(Plain("missing required parameters"));
      }
      var hashed := HashPassword(bcrypt, password);
      if hashed.Err? {
        return Some(hashed.error);
      }
      var stored := BasicUser(user.name, hashed.value, false);
      if stored.name in users {
        return Some(DuplicateUser(stored.name));
      }
      users := users[stored.name := stored];
      return None;
    }

    /** `Remove`, through the plugin. */
    method Remove(name: string) returns (err: Option<Error>)
      modifies this
      ensures name !in old(users) ==> err == Some(UserNotFound(name)) && users == old(users)
      ensures name in old(users) ==> err.None? && users == old(users) - {name}
    {
      if name !in users {
        return Some(UserNotFound(name));
      }
      users := users - {name};
      return None;
    }

    /** `Authenticate`. */
    function Authenticate(name: string, password: string): (r: Result<BasicUser, Error>)
      reads this
      ensures name !in users ==> r == Err(UserNotFound(name))
      ensures name in users && users[name].inactive ==> r == Err(InactiveUser(name))
      ensures name in users && !users[name].inactive ==>
                (r.Ok? <==> bcrypt.compare(users[name].password, password)) && (r.Ok? ==> r.value == users[name])
    {
      CheckLogin(bcrypt, name, Find(name), password)
    }

    /** `ChangePassword`: the old password must match; then only the stored
        password changes. */
    method ChangePassword(name: string, oldPassword: string, newPassword: string) returns (err: Option<Error>)
      modifies this
      ensures name !in old(users) ==> err == Some(UserNotFound(name)) && users == old(users)
      ensures name in old(users) && !bcrypt.compare(old(users)[name].password, oldPassword) ==>
                err == Some(Mismatch) && users == old(users)
      ensures name in old(users) && bcrypt.compare(old(users)[name].password, oldPassword) ==>
                var hashed := HashPassword(bcrypt, newPassword);
                (hashed.Err? ==> err == Some(hashed.error) && users == old(users)) &&
                (hashed.Ok? ==> err.None? && users == old(users)[name := old(users)[name].(password := hashed.value)])
    {
      var found := Find(name);
      if found.Err? {
        return Some(found.error);
      }
      if !bcrypt.compare(found.value.password, oldPassword) {
        return Some(Mismatch);
      }
      var hashed := HashPassword(bcrypt, newPassword);
      if hashed.Err? {
        return Some(hashed.error);
      }
      users := users[name := found.value.(password := hashed.value)];
      return None;
    }
  }

  /** After a password change the new password logs in and the old one no
      longer does, for an active user and a new password that is no hash. */
  method ChangeThenAuthenticate(db: UserDatabase, name: string, oldPassword: string, newPassword: string)
    returns (withNew: Result<BasicUser, Error>, withOld: Result<BasicUser, Error>)
    requires IdealBcrypt(db.bcrypt) && name in db.users && !db.users[name].inactive
    requires db.bcrypt.compare(db.users[name].password, oldPassword)
    requires !HasPrefix(newPassword, "$2a$") && db.bcrypt.generate(newPassword).Ok? && oldPassword != newPassword
    modifies db
    ensures withNew.Ok? && withNew.value.name == old(db.users[name].name)
    ensures withOld == Err(Mismatch)
  {
    var err := db.ChangePassword(name, oldPassword, newPassword);
    withNew := db.Authenticate(name, newPassword);
    withOld := db.Authenticate(name, oldPassword);
  }

  /** A removed user is not found and cannot log in. */
  method RemoveThenAuthenticate(db: UserDatabase, name: string, password: string)
    returns (found: Result<BasicUser, Error>, login: Result<BasicUser, Error>)
    requires name in db.users
    modifies db
    ensures found == Err(UserNotFound(name)) && login == Err(UserNotFound(name))
  {
    var err := db.Remove(name);
    found := db.Find(name);
    login := db.Authenticate(name, password);
  }

  /** The status codes of the user database's errors. */
  lemma UserErrorStatuses(name: string)
    ensures DuplicateUser(name).StatusCode() == Some(StatusConflict)
    ensures UserNotFound(name).StatusCode() == Some(StatusNotFound)
    ensures InactiveUser(name).StatusCode() == Some(StatusUnauthorized)
    ensures Unsupported.StatusCode() == Some(StatusInternalServerError)
  {
  }
}
