/** The user database plugin backed by a configuration file: user passwords
    in its `users` section, base64-encoded secrets in its `secrets`
    section. A missing option reads as "", so an entry holding "" counts as
    missing. Saving the file is not modelled. */
module UserdbFile {
  import opened Wrappers
  import opened Errors
  import Base64
  import Values
  import Userdb

  /** A value in the update fields of `Update`. */
  datatype Field = Bytes(b: string) | OtherField

  /** The `fields` argument of `Update`: an `Args` map, or anything else. */
  datatype Fields = Args(args: map<string, Field>) | NotArgs

  class FileDb {
    /** The `users` section: name to password hash. */
    var users: map<string, string>
    /** The `secrets` section: key to base64 text. */
    var secrets: map<string, string>

    constructor (users: map<string, string>, secrets: map<string, string>)
      ensures this.users == users && this.secrets == secrets
    {
      this.users := users;
      this.secrets := secrets;
    }

    /** `GetOption("users", name)`. */
    function UserOption(name: string): string
      reads this
    {
      if name in users then users[name] else ""
    }

    /** `Create`: a name with a stored password is a duplicate. */
    method Create(user: Userdb.BasicUser) returns (err: Option<Error>)
      modifies this
      ensures secrets == old(secrets)
      ensures old(UserOption(user.name)) != "" ==> err == Some(DuplicateUser(user.name)) && users == old(users)
      ensures old(UserOption(user.name)) == "" ==> err.None? && users == old(users)[user.name := user.password]
    {
      if UserOption(user.name) != "" {
        return Some(DuplicateUser(user.name));
      }
      users := users[user.name := user.password];
      return None;
    }

    /** `Find`: the name and password of a stored user; the file keeps no
        other field, so the user found is active. */
    function Find(name: string): (r: Result<Userdb.BasicUser, Error>)
      reads this
      ensures r.Err? <==> UserOption(name) == ""
      ensures r.Err? ==> r.error == UserNotFound(name)
      ensures r.Ok? ==> r.value == Userdb.BasicUser(name, users[name], false)
    {
      var password := UserOption(name);
      if password == "" then Err(UserNotFound(name)) else Ok(Userdb.BasicUser(name, password, false))
    }

    /** `Search`: not supported by this backend. */
    function Search(filter: Fields): (r: Result<seq<Userdb.BasicUser>, Error>)
      ensures r == Err(Unsupported)
    {
      Err(Unsupported)
    }

    /** `Remove`. */
    method Remove(name: string) returns (err: Option<Error>)
      modifies this
      ensures secrets == old(secrets)
      ensures old(UserOption(name)) == "" ==> err == Some(UserNotFound(name)) && users == old(users)
      ensures old(UserOption(name)) != "" ==> err.None? && users == old(users) - {name}
    {
      if UserOption(name) == "" {
        return Some(UserNotFound(name));
      }
      users := users - {name};
      return None;
    }

    /** `Update`: only a new password, given in an `Args` map, is stored;
        any other update is unsupported. A password that is not a byte
        slice makes the type assertion panic. */
    method Update(name: string, fields: Fields) returns (err: Option<Error>)
      modifies this
      ensures secrets == old(secrets)
      ensures old(UserOption(name)) == "" ==> err == Some(UserNotFound(name)) && users == old(users)
      ensures old(UserOption(name)) != "" && fields.Args? && "password" in fields.args && fields.args["password"].Bytes? ==>
                err.None? && users == old(users)[name := fields.args["password"].b]
      ensures old(UserOption(name)) != "" && fields.Args? && "password" in fields.args && fields.args["password"].OtherField? ==>
                err.Some? && err.value.Panic? && users == old(users)
      ensures old(UserOption(name)) != "" && !(fields.Args? && "password" in fields.args) ==>
                err == Some(Unsupported) && users == old(users)
    {
      if UserOption(name) == "" {
        return Some(UserNotFound(name));
      }
      if fields.Args? && "password" in fields.args {
        match fields.args["password"] {
          case Bytes(p) =>
            users := users[name := p];
            return None;
          case OtherField =>
            return Some(Panic("interface conversion: interface {} is not []uint8"));
        }
      }
      return Some(Unsupported);
    }

    /** `GetSecret`: a stored secret is decoded; otherwise the generated
        bytes `generated` (the one call of `gen`) are stored encoded and
        returned. */
    method GetSecret(key: string, generated: seq<Values.Byte>) returns (secret: Result<seq<Values.Byte>, Error>)
      modifies this
      ensures users == old(users)
      ensures key in old(secrets) && old(secrets)[key] != "" ==>
                secrets == old(secrets) &&
                secret == match Base64.Decode(old(secrets)[key])
                          case Some(b) => Ok(b)
                          case None => Err(Plain("illegal base64 data"))
      ensures !(key in old(secrets) && old(secrets)[key] != "") ==>
                secret == Ok(generated) && secrets == old(secrets)[key := Base64.Encode(generated)]
    {
      if key in secrets && secrets[key] != "" {
        match Base64.Decode(secrets[key]) {
          case Some(b) => return Ok(b);
          case None => return Err(Plain("illegal base64 data"));
        }
      }
      secrets := secrets[key := Base64.Encode(generated)];
      return Ok(generated);
    }
  }

  /** A secret, once generated, is read back unchanged and is not generated
      again, provided it is not empty (an empty secret encodes to "", which
      reads as missing). */
  method GetSecretTwice(db: FileDb, key: string, first: seq<Values.Byte>, second: seq<Values.Byte>)
    returns (a: Result<seq<Values.Byte>, Error>, b: Result<seq<Values.Byte>, Error>)
    requires key !in db.secrets && |first| > 0
    modifies db
    ensures a == Ok(first) && b == Ok(first)
  {
    a := db.GetSecret(key, first);
    Base64.DecodeEncode(first);
    b := db.GetSecret(key, second);
  }

  /** After `Remove` the user is no longer found. */
  method RemoveThenFind(db: FileDb, name: string) returns (r: Result<Userdb.BasicUser, Error>)
    requires db.UserOption(name) != ""
    modifies db
    ensures r == Err(UserNotFound(name))
  {
    var err := db.Remove(name);
    r := db.Find(name);
  }

  /** A found user logs in exactly with a password its stored hash matches. */
  lemma FileUserLogin(db: FileDb, b: Userdb.Bcrypt, name: string, password: string)
    requires db.UserOption(name) != ""
    ensures Userdb.CheckLogin(b, name, db.Find(name), password).Ok? <==> b.compare(db.users[name], password)
  {
  }
}
