/** The `auth` middleware (backend/middleware/authMiddleware.js): pick a token
    from the request, verify it, re-check that its user still exists, and
    either answer 401 or set `req.userId` and call `next()`. */
module AuthMiddleware {
  import opened Common
  import opened Credentials

  const AccessDenied := "Accès refusé"
  const InvalidToken := "Token invalide"
  const UserGone := "Utilisateur non trouvé"

  /** How one run of the middleware ends. */
  datatype AuthOutcome =
    | Reject(status: nat, message: string)
    | Forward(userId: UserId)

  /** `a || b || c` over the three token sources: the first truthy one, or
      None when none is truthy (the falsy last operand then fails `if (!token)`). */
  function SelectToken(headersAuthorization: Option<string>, headerAuthorization: Option<string>,
                       authorization: Option<string>): (t: Option<Token>)
    ensures t.Some? <==> Truthy(headersAuthorization) || Truthy(headerAuthorization) || Truthy(authorization)
    ensures Truthy(headersAuthorization) ==> t == headersAuthorization
    ensures !Truthy(headersAuthorization) && Truthy(headerAuthorization) ==> t == headerAuthorization
    ensures !Truthy(headersAuthorization) && !Truthy(headerAuthorization) && Truthy(authorization) ==>
              t == authorization
    ensures t.Some? ==> t.value != ""
  {
    if Truthy(headersAuthorization) then headersAuthorization
    else if Truthy(headerAuthorization) then headerAuthorization
    else if Truthy(authorization) then authorization
    else None
  }

  /** The decision the middleware takes. `lookupFails` says that
      `User.findById` throws (an id that is not a valid ObjectId, or a database
      error); the `catch` around it turns that into "Token invalide". */
  function Decide(token: Option<Token>, verify: Token -> Option<UserId>, users: seq<User>,
                  lookupFails: bool): (o: AuthOutcome)
    ensures o.Reject? ==> o.status == 401
    ensures o.Forward? <==>
              && token.Some? && verify(token.value).Some? && !lookupFails
              && exists u :: u in users && u.id == verify(token.value).value
    ensures o.Forward? ==> o.userId == verify(token.value).value
    ensures token.None? ==> o == Reject(401, AccessDenied)
    ensures token.Some? && (verify(token.value).None? || lookupFails) ==> o == Reject(401, InvalidToken)
    ensures (&& token.Some? && verify(token.value).Some? && !lookupFails
             && forall u :: u in users ==> u.id != verify(token.value).value) ==>
              o == Reject(401, UserGone)
  {
    match token
    case None => Reject(401, AccessDenied)
    case Some(t) =>
      match verify(t)
      case None => Reject(401, InvalidToken)
      case Some(id) =>
        if lookupFails then Reject(401, InvalidToken)
        else if FindById(users, id).None? then Reject(401, UserGone)
        else Forward(id)
  }

  /** The parts of an Express request the middleware reads and writes:
      `req.headers.authorization`, `req.header('Authorization')`,
      `req.authorization`, and the `userId` it sets. */
  class Request {
    const headersAuthorization: Option<string>
    const headerAuthorization: Option<string>
    const authorization: Option<string>
    var userId: Option<UserId>

    constructor (headersAuthorization: Option<string>, headerAuthorization: Option<string>,
                 authorization: Option<string>)
      ensures this.headersAuthorization == headersAuthorization
      ensures this.headerAuthorization == headerAuthorization
      ensures this.authorization == authorization
      ensures userId == None
    {
      this.headersAuthorization := headersAuthorization;
      this.headerAuthorization := headerAuthorization;
      this.authorization := authorization;
      userId := None;
    }

    function Token(): Option<Token>
      reads this
    {
      SelectToken(headersAuthorization, headerAuthorization, authorization)
    }
  }

  /** An Express response, as the log of `res.status(s).json({ message })`
      calls made on it. */
  class Response {
    var sent: seq<(nat, string)>

    constructor ()
      ensures sent == []
    {
      sent := [];
    }

    method StatusJson(status: nat, message: string)
      modifies this
      ensures sent == old(sent) + [(status, message)]
    {
      sent := sent + [(status, message)];
    }
  }

  /** The `next` callback, as the number of times it has been called. */
  class Next {
    var calls: nat

    constructor ()
      ensures calls == 0
    {
      calls := 0;
    }

    method Call()
      modifies this
      ensures calls == old(calls) + 1
    {
      calls := calls + 1;
    }
  }

  /** `auth(req, res, next)`: every run either sends exactly one 401 response
      and leaves `req.userId` and `next` alone, or sets `req.userId` to the
      verified id, calls `next` once and sends nothing. The store is only read. */
  method Auth(req: Request, res: Response, next: Next, store: UserStore,
              verify: Token -> Option<UserId>, lookupFails: bool)
    modifies req`userId, res, next
    ensures unchanged(store)
    ensures match Decide(req.Token(), verify, store.users, lookupFails)
            case Reject(status, message) =>
              && res.sent == old(res.sent) + [(status, message)]
              && req.userId == old(req.userId) && next.calls == old(next.calls)
            case Forward(id) =>
              && req.userId == Some(id) && next.calls == old(next.calls) + 1
              && res.sent == old(res.sent)
  {
    var token := req.Token();
    if token.None? {
      res.StatusJson(401, AccessDenied);
      return;
    }
    var verified := verify(token.value);
    if verified.None? || lookupFails {
      res.StatusJson(401, InvalidToken);
      return;
    }
    var user := FindById(store.users, verified.value);
    if user.None? {
      res.StatusJson(401, UserGone);
      return;
    }
    req.userId := verified;
    next.Call();
  }

  /** A token signed for a stored user is let through with that user's id. */
  lemma SignedTokenForwards(crypto: Crypto, users: seq<User>, u: User, seconds: nat)
    requires Sound(crypto) && u in users
    ensures Decide(Some(crypto.sign(u.id, seconds)), crypto.verify, users, false) == Forward(u.id)
  {
  }

  /** Whoever logs in successfully can use the token: a 200 from `/login`,
      for any stored user, carries a token that the middleware forwards with
      the id of the user the email names. */
  lemma LoginTokenAuthorizes(users: seq<User>, email: string, password: string, crypto: Crypto)
    requires Sound(crypto)
    ensures var reply := Login(users, email, password, crypto, false);
            reply.status == 200 ==>
              && FindByEmail(users, email).Some?
              && Decide(SelectToken(Some(reply.body.token), None, None), crypto.verify, users, false)
                 == Forward(FindByEmail(users, email).value.id)
  {
    var reply := Login(users, email, password, crypto, false);
    if reply.status == 200 {
      var u := FindByEmail(users, email).value;
      SignedTokenForwards(crypto, users, u, TokenLifetime);
    }
  }

  /** A token that still verifies is refused once its user is gone from the
      store: deleting a user revokes its outstanding tokens. */
  lemma RemovedUserTokenRejected(crypto: Crypto, users: seq<User>, id: UserId, seconds: nat)
    requires Sound(crypto) && forall u :: u in users ==> u.id != id
    ensures Decide(Some(crypto.sign(id, seconds)), crypto.verify, users, false) == Reject(401, UserGone)
  {
  }

  /** End to end: register a fresh email, log in with the same credentials,
      send the token in the `Authorization` header, and the middleware
      forwards the request with the new user's id. */
  lemma RegisterLoginAuthorizes(users: seq<User>, newId: UserId, username: string, email: string,
                                password: string, crypto: Crypto)
    requires Sound(crypto) && EmailsUnique(users) && !EmailInUse(users, email)
    ensures var stored := Registration(users, newId, username, email, password, crypto, NoFault).users;
            var reply := Login(stored, email, password, crypto, false);
            && reply.body.Issued?
            && Decide(SelectToken(Some(reply.body.token), None, None), crypto.verify, stored, false)
               == Forward(newId)
  {
    var stored := Registration(users, newId, username, email, password, crypto, NoFault).users;
    RegisterThenLogin(users, newId, username, email, password, crypto);
    SignedTokenForwards(crypto, stored, User(newId, username, email, crypto.hash(password)), TokenLifetime);
  }
}
