/** `/api/register` POST: create an account unless the email is taken. */
module RegisterRoute {
  import opened Js
  import opened Models
  import opened Http
  import opened Store

  /** The success body: identity, name, email and role, and never the password. */
  datatype Registered = Registered(message: string, id: UserId, name: string, email: string, isAdmin: bool)

  /** The fields handed to `User.create`: the hashed password and `!!isAdmin`. */
  function RegistrationFields(name: string, email: string, hashed: string, isAdmin: JsValue): (f: UserFields)
    ensures f.isAdmin == Some(ToBoolean(isAdmin))
    ensures f.password == Some(hashed) && f.cart == []
    ensures NewUser(f).Some? <==> name != "" && email != "" && hashed != ""
    ensures NewUser(f).Some? ==> NewUser(f).value == UserRecord(name, email, hashed, ToBoolean(isAdmin), [], None, None)
  {
    UserFields(Some(name), Some(email), Some(hashed), Some(ToBoolean(isAdmin)), [], None, None)
  }

  /** POST `{ name, email, password, isAdmin }`. `hash` stands for the password
      hashing library and `newId` for the identity the store assigns. The role flag
      is taken from the request, so a client can register itself as an
      administrator. An empty name or email fails the schema's `required` check,
      which the framework answers with 500. */
  method Post(db: Db, name: string, email: string, password: string, isAdmin: JsValue,
              hash: string -> string, newId: UserId)
    returns (r: Response<Registered>)
    requires db.Valid()
    requires newId !in db.users
    modifies db`users
    ensures db.Valid()
    ensures old(db.EmailTaken(email)) ==> r == Error(400, "User exists") && db.users == old(db.users)
    ensures !old(db.EmailTaken(email)) && (name == "" || email == "" || hash(password) == "") ==>
      r == Error(500, InternalError) && db.users == old(db.users)
    ensures !old(db.EmailTaken(email)) && name != "" && email != "" && hash(password) != "" ==>
      && newId in db.users
      && fresh(db.users[newId])
      && db.users == old(db.users)[newId := db.users[newId]]
      && |db.users| == |old(db.users)| + 1
      && db.users[newId].Record() == UserRecord(name, email, hash(password), ToBoolean(isAdmin), [], None, None)
      && r == Ok(Registered("User created successfully", newId, name, email, ToBoolean(isAdmin)))
  {
    if db.EmailTaken(email) {
      return Error(400, "User exists");
    }
    var hashed := hash(password);
    var record := NewUser(RegistrationFields(name, email, hashed, isAdmin));
    if record.None? {
      return Error(500, InternalError);
    }
    var account := new Account(record.value);
    db.users := db.users[newId := account];
    r := Ok(Registered("User created successfully", newId, account.name, account.email, account.isAdmin));
  }
}
