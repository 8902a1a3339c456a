# Login handler model

A Dafny model of the login handler `authUser` of a MERN back end. The handler
takes a user record and its stored credential (a salt and a bcrypt hash). It
checks the submitted password. On a match it signs a JSON Web Token, pushes
that token onto the user's `loggedSessions` list in the credential store, and
answers with the user's public fields, the token and a `maxAge` hint. Any
exception on the way gives a generic 500 reply.

Files:

- `completion.dfy`: `Option` (JavaScript `null`) and `Completion` (a call returns or throws).
- `js_values.dfy`: the JavaScript values `req.body.remember` can hold, with ToBoolean (`Truthy`) and `===` (`StrictEquals`) as ECMA-262 defines them.
- `remember_flag.dfy`: the two readings of the remember flag. The strict one picks the token lifetime and the truthy one picks `maxAge`. Lemmas relate the two.
- `authentication.dfy`: `Login`, the handler as a function of the session lists before the call, with lemmas for each outcome. The class `UserPasswordModel` holds the session lists as a `map` field. The method `AuthUser` runs the handler step by step against that object and is proved equal to `Login`. `LoginSequence` and `NoLostUpdates` cover logins that interleave at the store.

The collaborators are values of the datatype `Collaborators`. They are the
password comparison, the token signer with its secret, and the way the store
update ends. Each is an arbitrary function, so every property holds whatever
they compute and wherever they throw. The two exceptions are
`PasswordDecidesAcceptance` and `SaltOrderMatters`. They assume that the
comparison answers whether an injective (collision-free) hash of the
candidate equals the stored hash, and that it never throws. The signing secret is a field of
`Collaborators` rather than an environment read.

## Model

| member | source | states |
|---|---|---|
| JsValues.Truthy | backend/src/controllers/middlewaresControllers/createAuthMiddleware/authUser.js:48 | a value is falsy exactly when it is undefined, null, false, 0 (either sign), NaN, 0n or the empty string |
| JsValues.StrictEquals | backend/src/controllers/middlewaresControllers/createAuthMiddleware/authUser.js:17 | `===` holds exactly for identical values other than NaN; there is no coercion between types |
| RememberFlag.TokenDuration | backend/src/controllers/middlewaresControllers/createAuthMiddleware/authUser.js:17 | the lifetime is "8760h" exactly when remember is boolean true or the string "true", and "24h" for every other value |
| RememberFlag.MaxAge | backend/src/controllers/middlewaresControllers/createAuthMiddleware/authUser.js:48 | maxAge is 365 exactly when remember is truthy, and null exactly for the falsy values |
| RememberFlag.LongTokenHasMaxAge | backend/src/controllers/middlewaresControllers/createAuthMiddleware/authUser.js:17-48 | an 8760h token always comes with maxAge 365; a null maxAge always means a 24h token |
| RememberFlag.TestsDisagreeExactly | backend/src/controllers/middlewaresControllers/createAuthMiddleware/authUser.js:17-48 | a 24h token with maxAge 365 happens exactly for truthy values other than true and "true"; an 8760h token with null maxAge never happens |
| RememberFlag.DisagreementExamples | backend/src/controllers/middlewaresControllers/createAuthMiddleware/authUser.js:17-48 | "false", 1, "yes" and any object each give a 24h token together with maxAge 365 |
| Authentication.PushSession | backend/src/controllers/middlewaresControllers/createAuthMiddleware/authUser.js:29-35 | `$push` keyed by user appends the token at the end of that user's list only; other lists and the set of records are unchanged; no matching record means no change |
| Authentication.Login | backend/src/controllers/middlewaresControllers/createAuthMiddleware/authUser.js:4-60 | every path gives exactly one reply with status 200, 403 or 500; success is true iff the status is 200; a result is present iff success; each status carries its own fixed message; no record is created or removed |
| Authentication.MismatchIsForbidden | backend/src/controllers/middlewaresControllers/createAuthMiddleware/authUser.js:6-14 | status 403 happens exactly when comparing salt + password with the stored hash returns false; then the reply is the fixed invalid-credentials reply and every session list is unchanged |
| Authentication.SuccessfulLogin | backend/src/controllers/middlewaresControllers/createAuthMiddleware/authUser.js:17-51 | status 200 happens exactly when the comparison matched, the signer returned a token for claims holding only the user id with the chosen duration, and the push completed; the result copies _id, name, surname, role, email and photo, carries that token and maxAge; the token is appended to that user's list when a record for that user exists, and other lists are unchanged |
| Authentication.InternalErrorLogin | backend/src/controllers/middlewaresControllers/createAuthMiddleware/authUser.js:52-58 | status 500 happens exactly when the comparison throws, or it matched and the signer or the store update throws; the reply is the fixed internal-error reply; the lists are unchanged unless the store threw after writing, in which case the signed token is recorded |
| Authentication.SessionsOnlyGrowAfterMatch | backend/src/controllers/middlewaresControllers/createAuthMiddleware/authUser.js:6-35 | every session list only grows; a list changes only after a matching comparison and a successful signing, and then by appending the signed token |
| Authentication.PasswordDecidesAcceptance | backend/src/controllers/middlewaresControllers/createAuthMiddleware/authUser.js:6-14 | with a collision-free hash and a record hashed from salt + secret, the reply is 403 exactly when the submitted password differs from the secret |
| Authentication.SaltOrderMatters | backend/src/controllers/middlewaresControllers/createAuthMiddleware/authUser.js:6 | a record hashed from password + salt rejects that password whenever the two orders give different strings, because the salt is prefixed |
| Authentication.LoginSequence | backend/src/controllers/middlewaresControllers/createAuthMiddleware/authUser.js:29-35 | logins whose atomic pushes reach the store one after another each give exactly one reply, in order: the first reply is that of the first login run on the initial lists, and every 200 reply carries the id of the user of its own attempt; no record is created or removed |
| Authentication.NoLostUpdates | backend/src/controllers/middlewaresControllers/createAuthMiddleware/authUser.js:29-35 | after any interleaving of logins each list only grows, a user's list gains at least one token per 200 reply that user received, and every token returned with a 200 reply is in its user's list at the end (when a record for that user exists) |
| Authentication.UserPasswordModel.FindOneAndUpdatePush | backend/src/controllers/middlewaresControllers/createAuthMiddleware/authUser.js:29-35 | the store's lists become the pushed ones unless the update threw before writing; a completed update returns the new list, or null when no record matches |
| Authentication.AuthUser | backend/src/controllers/middlewaresControllers/createAuthMiddleware/authUser.js:4-60 | the handler's reply and the store's new lists are exactly those of Login; a 403 leaves the store unchanged; a 200 appends the returned token to the user's list |

## Behaviour as coded

- The `maxAge` hint follows JavaScript truthiness, not the strict test that picks the token lifetime. Line 17 tests `remember` strictly against `true` and `"true"`, while line 48 tests its truthiness. So a request with `remember` set to `"false"`, `1` or `"yes"` gets a 24-hour token with `maxAge` 365. See `TestsDisagreeExactly` and `DisagreementExamples`.
- When no credential record matches the user id, the store update changes nothing and does not throw, and the handler still answers 200 with the token (`PushSession`, `SuccessfulLogin`).

## Left out

- bcrypt's hashing and comparison are not modelled: the comparison is an arbitrary function of the candidate string and the stored hash, which may throw. bcrypt's 72-byte input limit is therefore not captured.
- JWT encoding, the expiry-time arithmetic and the clock are not modelled: signing is an arbitrary function of the claims, the secret and the `expiresIn` string, which may throw. The secret is passed in instead of read from `process.env.JWT_SECRET`.
- MongoDB and Mongoose are reduced to a map from user id to the session list, updated in one step. Concurrency is modelled only as logins whose pushes reach the store one after another (`LoginSequence`), which is what an atomic `$push` gives. Whether concurrent logins get distinct tokens depends on the signer and is not claimed.
- Express's `req` and `res` objects are not modelled. The reply is a returned `Response` value, and `req.body.remember` is a `JsValue` parameter.
- The user and credential records are assumed to be present, with string salt, hash and id. A null record or a non-string salt would throw or coerce in JavaScript, and those paths are not modelled. The submitted password is a string.
- Numbers are reals: double rounding is not modelled. +0 and -0 are one value, which changes neither `===` nor truthiness.
- Strings are Dafny strings of characters. JavaScript strings are sequences of UTF-16 code units, and a string holding a lone surrogate cannot be written as a Dafny `string`.
- A request without a body makes line 17 throw after a matching comparison, which gives the 500 reply. The model takes `req.body.remember` as a value and does not model a missing body.
- The `console.error` call in the catch block is logging only and is left out.
