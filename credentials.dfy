/** The credential store behind `POST /api/auth/register` and
    `POST /api/auth/login` (backend/routes/auth.js).

    The users collection is a sequence of documents in insertion order;
    `findOne({ email })` returns the first document with that email and
    `findById(id)` the first with that id. bcrypt and jsonwebtoken are not
    modelled: their functions are parameters (`Crypto`), and the two facts the
    handlers rely on are the predicate `Sound`. */
module Credentials {
  import opened Common

  type UserId = nat
  type Token = string

  /** A stored user: the store-generated id, the username, the email and the
      password exactly as stored (bcrypt's hash of what was submitted). */
  datatype User = User(id: UserId, username: string, email: string, password: string)

  /** What a successful login sends back about the user: no password. */
  datatype PublicUser = PublicUser(username: string, email: string)

  /** bcrypt's `hash`/`compare` and jsonwebtoken's `sign`/`verify`.
      `sign(id, seconds)` signs the payload `{ id }` with an expiry of
      `seconds`; `verify` yields the signed id, or None when the signature
      does not check, the token is malformed or it has expired. */
  datatype Crypto = Crypto(
    hash: string -> string,
    compare: (string, string) -> bool,
    sign: (UserId, nat) -> Token,
    verify: Token -> Option<UserId>)

  /** The facts about the libraries that the handlers depend on: a password
      matches its own hash, and a freshly signed token is a non-empty string
      (a JSON Web Token has three dot-separated parts) that verifies to its id
      (the clock is abstracted away, so "freshly" means within its lifetime). */
  ghost predicate Sound(c: Crypto) {
    && (forall p :: c.compare(p, c.hash(p)))
    && (forall id: UserId, seconds: nat :: c.verify(c.sign(id, seconds)) == Some(id))
    && (forall id: UserId, seconds: nat :: c.sign(id, seconds) != "")
  }

  /** `expiresIn: '1h'`. */
  const TokenLifetime: nat := 3600

  const EmailTaken := "Email déjà utilisé"
  const UserCreated := "Utilisateur créé avec succès"
  const ServerError := "Erreur serveur"
  const UnknownUser := "Utilisateur non trouvé"
  const WrongPassword := "Mot de passe incorrect"

  datatype ReplyBody =
    | Message(text: string)
    | Issued(token: Token, user: PublicUser)

  /** An HTTP response: status code and JSON body. */
  datatype Reply = Reply(status: nat, body: ReplyBody)

  /** Which awaited call of `/register` throws, if any: `findOne`, `bcrypt.hash`
      or `save` (a validation failure, a duplicate-key error from a concurrent
      insert, or a database error). */
  datatype RegisterFault = NoFault | LookupFails | HashFails | SaveFails

  datatype RegisterResult = RegisterResult(users: seq<User>, reply: Reply)

  ghost predicate EmailInUse(users: seq<User>, email: string) {
    exists u :: u in users && u.email == email
  }

  /** The store-level uniqueness constraint on `email`. */
  ghost predicate EmailsUnique(users: seq<User>) {
    forall i, j :: 0 <= i < j < |users| ==> users[i].email != users[j].email
  }

  /** Every stored id is below the next id the store hands out. */
  ghost predicate IdsBelow(users: seq<User>, bound: UserId) {
    forall u :: u in users ==> u.id < bound
  }

  /** `User.findOne({ email })`: the first user with that email. */
  function FindByEmail(users: seq<User>, email: string): (r: Option<User>)
    ensures r.Some? ==> r.value in users && r.value.email == email
    ensures r.None? <==> !EmailInUse(users, email)
  {
    if |users| == 0 then None
    else if users[0].email == email then Some(users[0])
    else FindByEmail(users[1..], email)
  }

  /** `User.findById(id)`: the first user with that id. */
  function FindById(users: seq<User>, id: UserId): (r: Option<User>)
    ensures r.Some? ==> r.value in users && r.value.id == id
    ensures r.None? <==> forall u :: u in users ==> u.id != id
  {
    if |users| == 0 then None
    else if users[0].id == id then Some(users[0])
    else FindById(users[1..], id)
  }

  lemma UniqueEmailsDetermineUser(users: seq<User>, u: User, v: User)
    requires EmailsUnique(users)
    requires u in users && v in users && u.email == v.email
    ensures u == v
  {
  }

  /** The `/register` handler: reject a taken email with 400, otherwise store
      the user with the hash of the password and answer 201; any thrown
      failure answers 500. `newId` is the id the store generates. */
  function Registration(users: seq<User>, newId: UserId, username: string, email: string,
                        password: string, crypto: Crypto, fault: RegisterFault): (r: RegisterResult)
    ensures fault == LookupFails ==> r == RegisterResult(users, Reply(500, Message(ServerError)))
    ensures fault != LookupFails && EmailInUse(users, email) ==>
              r == RegisterResult(users, Reply(400, Message(EmailTaken)))
    ensures fault in {HashFails, SaveFails} && !EmailInUse(users, email) ==>
              r == RegisterResult(users, Reply(500, Message(ServerError)))
    ensures fault == NoFault && !EmailInUse(users, email) ==>
              && r.users == users + [User(newId, username, email, crypto.hash(password))]
              && r.reply == Reply(201, Message(UserCreated))
    ensures r.reply.status == 201 <==> fault == NoFault && !EmailInUse(users, email)
    ensures EmailsUnique(users) ==> EmailsUnique(r.users)
  {
    if fault == LookupFails then RegisterResult(users, Reply(500, Message(ServerError)))
    else if FindByEmail(users, email).Some? then RegisterResult(users, Reply(400, Message(EmailTaken)))
    else if fault != NoFault then RegisterResult(users, Reply(500, Message(ServerError)))
    else
      var created := User(newId, username, email, crypto.hash(password));
      assert EmailsUnique(users) ==> EmailsUnique(users + [created]) by {
        if EmailsUnique(users) {
          forall i, j | 0 <= i < j < |users + [created]|
            ensures (users + [created])[i].email != (users + [created])[j].email
          {
            if j == |users| {
              assert users[i] in users;
            }
          }
        }
      }
      RegisterResult(users + [created], Reply(201, Message(UserCreated)))
  }

  /** The `/login` handler: look the email up, compare the password with the
      stored hash, and on success sign `{ id }` for one hour and send the token
      with the user's public fields. `fails` says that one of the calls inside
      the `try` throws: the lookup, the password comparison or the signing.
      It never changes the store. */
  function Login(users: seq<User>, email: string, password: string, crypto: Crypto,
                 fails: bool): (r: Reply)
    ensures r.body.Issued? <==> r.status == 200
    ensures fails ==> r == Reply(500, Message(ServerError))
    ensures !fails && !EmailInUse(users, email) ==> r == Reply(400, Message(UnknownUser))
    ensures r.body.Issued? ==>
              exists u :: u in users && u.email == email && crypto.compare(password, u.password) &&
                          r.body == Issued(crypto.sign(u.id, TokenLifetime), PublicUser(u.username, u.email))
    ensures !fails && EmailsUnique(users) ==>
              forall u :: u in users && u.email == email ==>
                r == if crypto.compare(password, u.password)
                     then Reply(200, Issued(crypto.sign(u.id, TokenLifetime), PublicUser(u.username, u.email)))
                     else Reply(400, Message(WrongPassword))
  {
    if fails then Reply(500, Message(ServerError))
    else match FindByEmail(users, email)
      case None => Reply(400, Message(UnknownUser))
      case Some(u) =>
        assert EmailsUnique(users) ==> forall v :: v in users && v.email == email ==> v == u by {
          if EmailsUnique(users) {
            forall v | v in users && v.email == email ensures v == u {
              UniqueEmailsDetermineUser(users, u, v);
            }
          }
        }
        if !crypto.compare(password, u.password) then Reply(400, Message(WrongPassword))
        else Reply(200, Issued(crypto.sign(u.id, TokenLifetime), PublicUser(u.username, u.email)))
  }

  /** Appending a user with another email does not change what `findOne`
      finds for an email. */
  lemma {:induction false} FindByEmailAppendOther(users: seq<User>, v: User, email: string)
    requires v.email != email
    ensures FindByEmail(users + [v], email) == FindByEmail(users, email)
  {
    if |users| > 0 {
      assert (users + [v])[1..] == users[1..] + [v];
      FindByEmailAppendOther(users[1..], v, email);
    }
  }

  /** Round trip: right after a successful registration, logging in with the
      same email and password succeeds and issues a token for the new id. */
  lemma RegisterThenLogin(users: seq<User>, newId: UserId, username: string, email: string,
                          password: string, crypto: Crypto)
    requires Sound(crypto) && EmailsUnique(users) && !EmailInUse(users, email)
    ensures Login(Registration(users, newId, username, email, password, crypto, NoFault).users,
                  email, password, crypto, false)
         == Reply(200, Issued(crypto.sign(newId, TokenLifetime), PublicUser(username, email)))
  {
  }

  /** Registering one email never changes how logins with any other email
      are answered. */
  lemma RegistrationKeepsOtherLogins(users: seq<User>, newId: UserId, username: string, email: string,
                                     password: string, crypto: Crypto, fault: RegisterFault,
                                     otherEmail: string, otherPassword: string, fails: bool)
    requires otherEmail != email
    ensures Login(Registration(users, newId, username, email, password, crypto, fault).users,
                  otherEmail, otherPassword, crypto, fails)
         == Login(users, otherEmail, otherPassword, crypto, fails)
  {
    var r := Registration(users, newId, username, email, password, crypto, fault);
    if r.users != users {
      FindByEmailAppendOther(users, User(newId, username, email, crypto.hash(password)), otherEmail);
    }
  }

  /** The users collection, updated in place by `/register`. */
  class UserStore {
    var users: seq<User>
    var nextId: UserId

    ghost predicate Valid()
      reads this
    {
      IdsBelow(users, nextId) && EmailsUnique(users)
    }

    constructor ()
      ensures Valid() && users == [] && nextId == 0
    {
      users := [];
      nextId := 0;
    }

    /** `router.post('/register', …)`: the same decisions as `Registration`,
        taken one awaited call at a time. */
    method Register(username: string, email: string, password: string, crypto: Crypto,
                    fault: RegisterFault) returns (reply: Reply)
      requires Valid()
      modifies this
      ensures Valid()
      ensures var r := Registration(old(users), old(nextId), username, email, password, crypto, fault);
              users == r.users && reply == r.reply
      ensures nextId == if reply.status == 201 then old(nextId) + 1 else old(nextId)
    {
      if fault == LookupFails {
        return Reply(500, Message(ServerError));
      }
      var existing := FindByEmail(users, email);
      if existing.Some? {
        return Reply(400, Message(EmailTaken));
      }
      if fault == HashFails {
        return Reply(500, Message(ServerError));
      }
      var hashed := crypto.hash(password);
      var created := User(nextId, username, email, hashed);
      if fault == SaveFails {
        return Reply(500, Message(ServerError));
      }
      users := users + [created];
      nextId := nextId + 1;
      reply := Reply(201, Message(UserCreated));
    }
  }
}
