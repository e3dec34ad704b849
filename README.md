# CardZone authentication, credential and card stores, in Dafny

This project models the decision logic of CardZone, a small card marketplace.
It has an Express backend over a document database and a React frontend.
The model covers six parts:

- the `auth` middleware, which picks a token from the request, verifies it, re-checks that its user still exists, and either answers 401 or forwards the request with `req.userId` set (`auth_middleware.dfy`);
- the `/register` and `/login` handlers over the users collection (`credentials.dfy`);
- the card schema as a validity predicate with Mongoose's casting (`card_model.dfy`);
- the card routes: create, update in place, delete (`card_routes.dfy`);
- the frontend `AuthProvider` session: `user`, `isAuthenticated`, `error` and the `token`/`user` keys of `localStorage` (`auth_context.dfy`);
- the registration page's form update and submit gate (`register_form.dfy`).

The library calls are parameters, not code.

- bcrypt's `hash`/`compare` and jsonwebtoken's `sign`/`verify` are the fields of a `Crypto` value. The handlers rely on the facts in `Credentials.Sound`: a password matches its own hash, and a signed token is a non-empty string that verifies to the signed id.
- `jwtDecode`, `JSON.stringify` and `JSON.parse` are the fields of `AuthContext.ClientLibs`. `parse` can yield a user, JSON `null`, or throw. `AuthContext.JsonRoundTrips` states that parsing a stringified user gives it back.
- The outcome of each frontend API call is a parameter (`LoginOutcome`, `RegisterOutcome`).
- A thrown database or library error is a parameter (`RegisterFault`, `fails`, `lookupFails`).

Stateful parts are classes whose methods are proved against pure functions:

- `Credentials.UserStore` (the users collection);
- `CardRoutes.CardStore` (the cards collection);
- `AuthContext.AuthProvider` (component state plus storage);
- `AuthMiddleware.Request`, `Response` and `Next` (the Express objects the middleware mutates or calls).

The users collection is a sequence in insertion order. `findOne` and `findById` return the first match. The cards collection is a map from id to card.

Three points of the code worth noting:

- The middleware reads the token from three sources, not one: `req.headers.authorization`, `req.header('Authorization')` and `req.authorization` (backend/middleware/authMiddleware.js:7).
- A failure thrown by the user lookup is reported as "Token invalide", because the `catch` covers the lookup.
- The card routes are mounted without the middleware (backend/index.js:24), so the card model has no authentication.

## Model

| member | source | states |
|---|---|---|
| AuthMiddleware.SelectToken | backend/middleware/authMiddleware.js:7 | The token is the first truthy value among the three sources. There is a token exactly when one of them is truthy, and it is never the empty string. |
| AuthMiddleware.Decide | backend/middleware/authMiddleware.js:9-24 | Every rejection is a 401. With no token the message is "Accès refusé". A token that fails to verify, or a throwing lookup, gives "Token invalide". A verified id missing from the store gives "Utilisateur non trouvé". The request is forwarded exactly when the token verifies, the lookup succeeds and the id is stored, and then with the verified id. |
| AuthMiddleware.Auth | backend/middleware/authMiddleware.js:5-25 | Each run ends one of two ways, never both. Either exactly one 401 response is sent and `userId` and `next` are untouched, or `userId` is set to the verified id, `next` is called once and nothing is sent. The user store is unchanged. |
| AuthMiddleware.SignedTokenForwards | backend/middleware/authMiddleware.js:12-21 | A token signed for a stored user is forwarded with that user's id. |
| AuthMiddleware.LoginTokenAuthorizes | backend/routes/auth.js:54-73 | For any store, a 200 from `/login` carries a token that the middleware forwards with the id of the stored user the email names. |
| AuthMiddleware.RemovedUserTokenRejected | backend/middleware/authMiddleware.js:15-18 | A token that still verifies gets 401 "Utilisateur non trouvé" once its user is no longer in the store. |
| AuthMiddleware.RegisterLoginAuthorizes | backend/routes/auth.js:9-78 | Register a fresh email, log in with the same credentials, and send the token: the middleware forwards the request with the new user's id. |
| Credentials.FindByEmail | backend/routes/auth.js:18 | `findOne({ email })` returns a stored user with that email. It returns nothing exactly when no stored user has that email. |
| Credentials.FindById | backend/middleware/authMiddleware.js:15 | `findById(id)` returns a stored user with that id. It returns nothing exactly when no stored user has that id. |
| Credentials.Registration | backend/routes/auth.js:9-42 | A throwing lookup gives 500 "Erreur serveur". A taken email gives 400 "Email déjà utilisé". A hash or save failure gives 500. In all three cases the store is unchanged. Otherwise the store gains exactly the user with that username, email and the hash of the password, and the answer is 201 "Utilisateur créé avec succès". Email uniqueness is preserved. |
| Credentials.Login | backend/routes/auth.js:45-78 | A throw inside the `try` (lookup, password comparison or signing) gives 500. An unknown email gives 400 "Utilisateur non trouvé". With unique emails, the stored user's password decides between 200 and 400 "Mot de passe incorrect". A 200 carries a token signed over the user's id for 3600 s and the user's username and email, no password. A token is issued exactly when the status is 200. The store is a value, so login never changes it. |
| Credentials.FindByEmailAppendOther | backend/routes/auth.js:18 | Adding a user with another email does not change what `findOne` finds for an email. |
| Credentials.RegisterThenLogin | backend/routes/auth.js:9-78 | Round trip: right after a successful registration, login with the same email and password returns 200 with a token for the new id. |
| Credentials.RegistrationKeepsOtherLogins | backend/routes/auth.js:9-78 | A registration never changes the answer to a login with any other email. |
| Credentials.UserStore.Register | backend/routes/auth.js:9-42 | The handler run step by step on the collection. The new collection and the reply are those of `Registration`. The store invariant holds: ids below the next id, emails unique. |
| CardModel.CastPrice | backend/models/Card.js:6 | The cast of `price` to Number: a number is kept, a digit string becomes its decimal value, the empty string or a missing price is no value, and exactly the other non-empty strings are cast errors. |
| CardModel.Validate | backend/models/Card.js:3-7 | A card is accepted exactly when name and category are non-empty strings and the price casts to a number. An accepted card holds the submitted values. A rejected card reports each failing path: "required" for a missing name, category or price, and a cast error for a non-numeric price. |
| CardModel.MissingPriceRejected | backend/models/Card.js:6 | A card without a price is rejected with a "required" error on the price path. |
| CardModel.NonNumericPriceRejected | backend/models/Card.js:6 | The price "pas un nombre" is rejected with a cast error on the price path. |
| CardModel.NumericTextAccepted | backend/models/Card.js:6 | A price given as the digit string "150" is stored as the number 150. |
| CardRoutes.CardStore.Create | backend/routes/card.js:7-16 | A card that validates is stored under a fresh id (not in the store before) and returned with 201. Nothing else changes. An invalid card gives 500 and the store is unchanged. |
| CardRoutes.Patch | backend/routes/card.js:22-23 | The update `{ name, category, price }`: a present name or category replaces the stored one, a missing one keeps it; a price that casts replaces the stored price, a missing one keeps it; an empty update leaves the card as it was. |
| CardRoutes.CardStore.Update | backend/routes/card.js:19-29 | A malformed id or an uncastable price gives 500. A missing id gives 404 "Carte non trouvée". In both cases the store is unchanged. Otherwise the card is overwritten in place with the submitted fields, keeps its id, and is returned. Every other card is unchanged and the set of ids stays the same. |
| CardRoutes.CardStore.Delete | backend/routes/card.js:32-42 | A malformed id gives 500. A missing id gives 404 "Carte non trouvée". In both cases the store is unchanged. Otherwise exactly that id is removed and the answer is "Carte supprimée avec succès". |
| CardRoutes.DeleteTwice | backend/routes/card.js:32-37 | Deleting an existing card twice returns 200 and then 404, and the id is gone afterwards. |
| CardRoutes.CreateUpdateDelete | backend/routes/card.js:7-37 | Create a card, update it through the returned id, delete it through the same id: each step succeeds and the store ends as it began. |
| AuthContext.Initial | frontend/src/context/AuthContext.js:18-20 | The `useState` initial values: no user, not authenticated, no error, over the given storage; the session invariant holds. |
| AuthContext.Restore | frontend/src/context/AuthContext.js:30-45 | With both keys set, a token that decodes and a user text that parses, the session becomes authenticated with the parsed value as its user, which is no user when the text is JSON `null`. If either throws, both keys are removed and nothing else changes. With a key missing nothing happens. `error` is never touched. |
| AuthContext.AfterLogin | frontend/src/context/AuthContext.js:47-68 | A successful login writes `token` and the stringified `user`, sets the user, authenticates and clears `error`. A failed login sets `error` to the server message, or "Identifiants incorrects", and changes nothing else. |
| AuthContext.AfterRegister | frontend/src/context/AuthContext.js:70-84 | Register never changes the user, `isAuthenticated` or storage. `error` ends cleared on success. On failure it ends as the server message or "Email déjà utilisé". |
| AuthContext.AfterLogout | frontend/src/context/AuthContext.js:86-92 | Both storage keys are removed and every other key is kept. The user is cleared, the session is no longer authenticated, and `error` is kept. |
| AuthContext.LogoutIdempotent | frontend/src/context/AuthContext.js:86-92 | Logging out twice equals logging out once. |
| AuthContext.RestoreConsistentUnlessNull | frontend/src/context/AuthContext.js:30-45 | From a session in which an authenticated session has a user, the mount effect keeps that invariant exactly when it does not parse a stored JSON `null` beside a token that decodes. |
| AuthContext.NullUserAuthenticates | frontend/src/context/AuthContext.js:34-38 | A stored user text "null" with a token that decodes gives an authenticated session with no user. |
| AuthContext.TransitionsKeepConsistent | frontend/src/context/AuthContext.js:47-92 | Login, register and logout keep the invariant that an authenticated session has a user. A successful login or a logout establishes it from any state. |
| AuthContext.FailedLoginKeepsSession | frontend/src/context/AuthContext.js:61-66 | A failed login keeps authentication, user and storage as they were, and leaves a non-empty error. |
| AuthContext.LoginSurvivesReload | frontend/src/context/AuthContext.js:30-57 | After a successful login, a fresh provider over the same storage restores the same user, authenticated. |
| AuthContext.LogoutSurvivesReload | frontend/src/context/AuthContext.js:30-45 | After a logout, a fresh provider starts unauthenticated and leaves storage alone. |
| AuthContext.AuthProvider.constructor | frontend/src/context/AuthContext.js:17-20 | The provider starts with no user, unauthenticated and without error, over the storage it finds, with its invariant established. |
| AuthContext.AuthProvider.Mount | frontend/src/context/AuthContext.js:30-45 | The mount effect, step by step, leaves the state that `Restore` describes. From a state with the invariant, it keeps the invariant exactly when the stored user is not JSON `null`. |
| AuthContext.AuthProvider.Login | frontend/src/context/AuthContext.js:47-68 | The state afterwards is `AfterLogin` of the state before. It keeps the invariant, and success establishes it. Success navigates to `/dashboard`. Failure alerts the message (the server's or "Identifiants incorrects") and returns it as `error`. |
| AuthContext.AuthProvider.Register | frontend/src/context/AuthContext.js:70-84 | The state afterwards is `AfterRegister` of the state before, and the invariant is kept. Success alerts the server message (or "Utilisateur créé avec succès") and navigates to `/login`. Failure alerts the message (or "Email déjà utilisé") and returns it. |
| AuthContext.AuthProvider.Logout | frontend/src/context/AuthContext.js:86-92 | The state afterwards is `AfterLogout` of the state before, the invariant holds, and the page navigates to `/login`. |
| RegisterForm.HandleChange | frontend/src/pages/Register.js:9-11 | The named field takes the typed value and every other field keeps its value. |
| RegisterForm.HandleSubmit | frontend/src/pages/Register.js:13-30 | `registerUser` is called exactly when all three fields are non-empty, and then with exactly the form. An incomplete form alerts "Tous les champs sont obligatoires". Success alerts "Utilisateur créé avec succès" and navigates to `/login`. Failure alerts the server message, or "Erreur lors de l'inscription", and does not navigate. |
| RegisterForm.EmptyFormNotSent | frontend/src/pages/Register.js:6-20 | Submitting the untouched form never calls the API. |
| RegisterForm.TypedFormSent | frontend/src/pages/Register.js:6-23 | Typing the three fields into the untouched form and submitting sends exactly what was typed. |
| RegisterForm.ChangesCommute | frontend/src/pages/Register.js:9-11 | Edits to two different fields give the same form in either order. |

## Left out

- Cryptography and the clock: bcrypt hashing, JWT signatures and the expiry check are abstract functions with only the facts in `Credentials.Sound`. A token's one-hour lifetime is the constant passed to `sign`. Whether it has passed is part of what `verify` may reject.
- Credentials.Registration: a hash is a function of the password alone. bcrypt's salt is left out.
- Credentials.Registration, Credentials.Login: each handler's treatment of a missing `username`, `email` or `password` in the body is left out, including `findOne({ email: undefined })` and `bcrypt.compare(undefined, …)` in `/login`. The fields are strings. A save that throws for any reason, such as validation or a concurrent duplicate-key insert, is the `SaveFails` fault.
- Concurrency: the check-then-insert race in `/register` is not modelled. The model is sequential, and email uniqueness is proved only in that setting.
- AuthMiddleware.Auth: `next()` is assumed not to throw. Express catches errors inside `next`. If `next` did throw, the `catch` would also send "Token invalide".
- AuthMiddleware.Decide: every throw of `User.findById` is the `lookupFails` parameter. That covers a malformed id and a database error. Which ids are malformed is not modelled.
- CardModel.CastPrice, CardModel.Validate: a price given as a string casts only when it is a plain string of decimal digits. Mongoose's `Number(...)` also accepts signs, decimal points, exponents and surrounding spaces. The model treats those as cast errors.
- CardModel.Validate: `name` and `category` are strings or missing. Mongoose's String type also casts a JSON number or boolean to a string, and such inputs are left out.
- Prices are exact reals. JavaScript's floating point, `NaN` and the `timestamps` fields are left out.
- CardRoutes.Patch, CardRoutes.CardStore.Update: validators are not run on update, which is `findByIdAndUpdate`'s default. Fields missing from the body are left unchanged, as Mongoose 6 and later strip `undefined` keys. An empty-string price in an update counts as missing, where Mongoose would store `null`. The input types cannot express a JSON `null` for `name`, `category` or `price`; Mongoose stores such a `null` and clears the field, where the model keeps the old value.
- CardRoutes.CardStore: the 500 replies of create, update and delete carry only the message; the `error: err.message` field they also send is not modelled.
- Card routes: database outages (a `catch` reached by anything other than a cast error or a validation failure) are not modelled.
- AuthContext: `JSON.parse` is modelled as yielding a user, yielding `null`, or throwing. A stored text that parses to another JSON value (a number, a string, an object of another shape) is left out.
- AuthContext: `setState` batching and re-rendering are left out. The setters apply in order.
- AuthContext.AuthProvider.Login, AuthContext.AuthProvider.Register: the return value on success (`response.data`) is not modelled. `Feedback` records only the returned error. No code in the model reads either value.
- The `api.js` request interceptor, which copies `token` from storage into the `Authorization` header, is not modelled. Nor is the mapping from HTTP responses to the API outcomes.
- backend/routes/protected.js is not part of this model. It passes the middleware's module object where a handler is expected and reads `req.user.id`, which the middleware never sets.
- Server setup and lifecycle (backend/index.js), the other pages and components, and the card listing, filtering and search that some tests expect are not part of this model. The code does not implement them.
