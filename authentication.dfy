/**
 * The login handler `authUser`: check the submitted password against the
 * stored salted hash, sign a session token whose lifetime depends on the
 * remember flag, push the token onto the user's `loggedSessions` list, and
 * answer with one JSON reply.
 *
 * The collaborators the handler calls (the password-hash comparison, the
 * token signer and the store's update) are values of `Collaborators`: each is
 * an arbitrary function, so every property below holds whatever they compute
 * and whenever they throw.
 */
module Authentication {
  import opened Completion
  import opened JsValues
  import opened RememberFlag

  type UserId = string

  /** The user record the caller looked up; the display fields are passed through untouched. */
  datatype User = User(
    id: UserId,
    name: JsValue,
    surname: JsValue,
    role: JsValue,
    email: JsValue,
    photo: JsValue)

  /** The stored credential: a salt and the hash of salt followed by password. */
  datatype PasswordRecord = PasswordRecord(salt: string, password: string)

  /** The payload of a signed session token. */
  datatype Claims = Claims(id: UserId)

  /** The `result` object of a successful reply. */
  datatype LoginResult = LoginResult(
    id: UserId,
    name: JsValue,
    surname: JsValue,
    role: JsValue,
    email: JsValue,
    photo: JsValue,
    token: string,
    maxAge: Option<int>)

  /** The HTTP status together with the JSON body `{ success, result, message }`. */
  datatype Response = Response(status: int, success: bool, result: Option<LoginResult>, message: string)

  /**
   * How the store's `$push` update ends: it completes, it throws before the
   * write reached the store, or it throws after the write was applied (the
   * acknowledgement was lost).
   */
  datatype StoreEffect = Pushed | ThrewBeforeWrite | ThrewAfterWrite

  /**
   * The handler's collaborators. `compare(candidate, hash)` is the password-hash
   * comparison, `sign(claims, secret, expiresIn)` the token signer, `secret` the
   * signing secret, and `push(id, token)` decides how the store update ends.
   */
  datatype Collaborators = Collaborators(
    compare: (string, string) -> Completion<bool>,
    secret: string,
    sign: (Claims, string, string) -> Completion<string>,
    push: (UserId, string) -> StoreEffect)

  const InvalidCredentials: Response := Response(403, false, None, "Invalid credentials.")
  const InternalError: Response := Response(500, false, None, "Internal server error during login.")
  const LoginSucceeded: string := "Successfully login user"

  /** What one login attempt answers and what the session lists are afterwards. */
  datatype Outcome = Outcome(reply: Response, sessions: map<UserId, seq<string>>)

  /**
   * `$push: { loggedSessions: token }` on the record whose `user` is `id`. When
   * no record matches, the update changes nothing and does not fail.
   */
  function PushSession(sessions: map<UserId, seq<string>>, id: UserId, token: string)
    : (r: map<UserId, seq<string>>)
    ensures r.Keys == sessions.Keys
    ensures id in sessions ==> r[id] == sessions[id] + [token]
    ensures forall other :: other in sessions && other != id ==> r[other] == sessions[other]
  {
    if id in sessions then sessions[id := sessions[id] + [token]] else sessions
  }

  /** Every list in `before` is a prefix of the same user's list in `after`, and no record appears or vanishes. */
  ghost predicate OnlyGrown(before: map<UserId, seq<string>>, after: map<UserId, seq<string>>)
  {
    after.Keys == before.Keys &&
    forall id :: id in before ==> before[id] <= after[id]
  }

  /** The reply to a successful login for `user` with the given token. */
  function SuccessReply(user: User, token: string, remember: JsValue): Response
  {
    Response(200, true,
      Some(LoginResult(user.id, user.name, user.surname, user.role, user.email, user.photo,
                       token, MaxAge(remember))),
      LoginSucceeded)
  }

  /** The candidate the comparison is asked about: the salt first, then the submitted password. */
  function Candidate(databasePassword: PasswordRecord, password: string): string
  {
    databasePassword.salt + password
  }

  /**
   * The handler as a function of the session lists before the call: each
   * `await` that throws lands in the `catch` block and its 500 reply.
   */
  function Login(sessions: map<UserId, seq<string>>, remember: JsValue, user: User,
                 databasePassword: PasswordRecord, password: string, env: Collaborators)
    : (o: Outcome)
    ensures o.reply.status in {200, 403, 500}
    ensures o.reply.success <==> o.reply.status == 200
    ensures o.reply.result.Some? <==> o.reply.success
    ensures o.reply.status == 403 ==> o.reply.message == "Invalid credentials."
    ensures o.reply.status == 500 ==> o.reply.message == "Internal server error during login."
    ensures o.reply.status == 200 ==> o.reply.message == "Successfully login user"
    ensures o.sessions.Keys == sessions.Keys
  {
    match env.compare(Candidate(databasePassword, password), databasePassword.password)
    case Throw => Outcome(InternalError, sessions)
    case Normal(isMatch) =>
      if !isMatch then Outcome(InvalidCredentials, sessions)
      else
        match env.sign(Claims(user.id), env.secret, TokenDuration(remember))
        case Throw => Outcome(InternalError, sessions)
        case Normal(token) =>
          match env.push(user.id, token)
          case ThrewBeforeWrite => Outcome(InternalError, sessions)
          case ThrewAfterWrite => Outcome(InternalError, PushSession(sessions, user.id, token))
          case Pushed => Outcome(SuccessReply(user, token, remember), PushSession(sessions, user.id, token))
  }

  /**
   * A mismatch is answered with 403 and nothing else happens; a 403 happens
   * for no other reason.
   */
  lemma MismatchIsForbidden(sessions: map<UserId, seq<string>>, remember: JsValue, user: User,
                            databasePassword: PasswordRecord, password: string, env: Collaborators)
    ensures var o := Login(sessions, remember, user, databasePassword, password, env);
      o.reply.status == 403
      <==> env.compare(Candidate(databasePassword, password), databasePassword.password) == Normal(false)
    ensures var o := Login(sessions, remember, user, databasePassword, password, env);
      o.reply.status == 403 ==> o == Outcome(InvalidCredentials, sessions)
  {
  }

  /**
   * A 200 reply happens exactly when the comparison matched, the signer
   * returned a token for the claims `{ id: user._id }` and the chosen
   * duration, and the store took the push. The reply copies the user's
   * fields, carries that token and the maxAge hint, and the token is the new
   * last entry of that user's list; every other list is unchanged.
   */
  lemma SuccessfulLogin(sessions: map<UserId, seq<string>>, remember: JsValue, user: User,
                        databasePassword: PasswordRecord, password: string, env: Collaborators)
    ensures var o := Login(sessions, remember, user, databasePassword, password, env);
      var signed := env.sign(Claims(user.id), env.secret, TokenDuration(remember));
      o.reply.status == 200
      <==> env.compare(Candidate(databasePassword, password), databasePassword.password) == Normal(true)
           && signed.Normal? && env.push(user.id, signed.value) == Pushed
    ensures var o := Login(sessions, remember, user, databasePassword, password, env);
      var signed := env.sign(Claims(user.id), env.secret, TokenDuration(remember));
      o.reply.status == 200 ==>
        && signed.Normal?
        && o.reply.result == Some(LoginResult(user.id, user.name, user.surname, user.role,
                                              user.email, user.photo, signed.value, MaxAge(remember)))
        && (user.id in sessions ==> o.sessions[user.id] == sessions[user.id] + [signed.value])
        && (forall other :: other in sessions && other != user.id ==> o.sessions[other] == sessions[other])
  {
  }

  /**
   * A 500 reply: the comparison threw, or it matched and then the signer or
   * the store threw. The lists are then unchanged, except when the store
   * threw after applying the push: the signed token is recorded although the
   * caller was told the login failed.
   */
  lemma InternalErrorLogin(sessions: map<UserId, seq<string>>, remember: JsValue, user: User,
                           databasePassword: PasswordRecord, password: string, env: Collaborators)
    ensures var o := Login(sessions, remember, user, databasePassword, password, env);
      var isMatch := env.compare(Candidate(databasePassword, password), databasePassword.password);
      var signed := env.sign(Claims(user.id), env.secret, TokenDuration(remember));
      o.reply.status == 500
      <==> isMatch == Throw
           || (isMatch == Normal(true) && (signed == Throw || env.push(user.id, signed.value) != Pushed))
    ensures var o := Login(sessions, remember, user, databasePassword, password, env);
      var signed := env.sign(Claims(user.id), env.secret, TokenDuration(remember));
      o.reply.status == 500 ==>
        o.reply == InternalError &&
        (o.sessions == sessions
         || (signed.Normal? && env.push(user.id, signed.value) == ThrewAfterWrite
             && o.sessions == PushSession(sessions, user.id, signed.value)))
  {
  }

  /**
   * Session lists only grow, and they change only after the comparison
   * matched and the signer produced a token; what is appended is that token.
   */
  lemma SessionsOnlyGrowAfterMatch(sessions: map<UserId, seq<string>>, remember: JsValue, user: User,
                                   databasePassword: PasswordRecord, password: string, env: Collaborators)
    ensures OnlyGrown(sessions, Login(sessions, remember, user, databasePassword, password, env).sessions)
    ensures var o := Login(sessions, remember, user, databasePassword, password, env);
      var signed := env.sign(Claims(user.id), env.secret, TokenDuration(remember));
      o.sessions != sessions ==>
        && env.compare(Candidate(databasePassword, password), databasePassword.password) == Normal(true)
        && signed.Normal?
        && o.sessions == PushSession(sessions, user.id, signed.value)
  {
  }

  /**
   * With a comparison that checks `hash(candidate) == stored` for a
   * collision-free `hash`, and a record whose stored hash was made from
   * `salt + secretPassword`, the submitted password is rejected with 403
   * exactly when it differs from the one the hash was made from.
   */
  lemma PasswordDecidesAcceptance(sessions: map<UserId, seq<string>>, remember: JsValue, user: User,
                                  salt: string, secretPassword: string, password: string,
                                  hash: string -> string, env: Collaborators)
    requires forall a, b :: hash(a) == hash(b) ==> a == b
    requires forall c, h :: env.compare(c, h) == Normal(hash(c) == h)
    ensures var o := Login(sessions, remember, user, PasswordRecord(salt, hash(salt + secretPassword)), password, env);
      o.reply.status == 403 <==> password != secretPassword
  {
    var record := PasswordRecord(salt, hash(salt + secretPassword));
    MismatchIsForbidden(sessions, remember, user, record, password, env);
    if password != secretPassword {
      assert (salt + password)[|salt|..] == password;
      assert (salt + secretPassword)[|salt|..] == secretPassword;
    }
  }

  /**
   * The salt goes first: a record whose hash was made from password then
   * salt does not accept that password, as soon as the two orders differ.
   */
  lemma SaltOrderMatters(sessions: map<UserId, seq<string>>, remember: JsValue, user: User,
                         salt: string, password: string, hash: string -> string, env: Collaborators)
    requires forall a, b :: hash(a) == hash(b) ==> a == b
    requires forall c, h :: env.compare(c, h) == Normal(hash(c) == h)
    requires password + salt != salt + password
    ensures Login(sessions, remember, user, PasswordRecord(salt, hash(password + salt)), password, env)
      == Outcome(InvalidCredentials, sessions)
  {
  }

  /** One call of the handler, with everything it is given. */
  datatype Attempt = Attempt(remember: JsValue, user: User, databasePassword: PasswordRecord,
                             password: string, env: Collaborators)

  /**
   * Several logins whose pushes reach the store one after the other (each
   * `$push` is applied atomically, so concurrent logins interleave this way).
   */
  function LoginSequence(sessions: map<UserId, seq<string>>, attempts: seq<Attempt>)
    : (r: (map<UserId, seq<string>>, seq<Response>))
    ensures |r.1| == |attempts|
    ensures r.0.Keys == sessions.Keys
    ensures attempts != [] ==>
      r.1[0] == Login(sessions, attempts[0].remember, attempts[0].user, attempts[0].databasePassword,
                      attempts[0].password, attempts[0].env).reply
    ensures forall i :: 0 <= i < |r.1| && r.1[i].status == 200 ==>
      r.1[i].result.Some? && r.1[i].result.value.id == attempts[i].user.id
  {
    if attempts == [] then (sessions, [])
    else
      var a := attempts[0];
      var o := Login(sessions, a.remember, a.user, a.databasePassword, a.password, a.env);
      var rest := LoginSequence(o.sessions, attempts[1..]);
      (rest.0, [o.reply] + rest.1)
  }

  /** The number of 200 replies issued to user `id`. */
  function SuccessesFor(replies: seq<Response>, id: UserId): nat
  {
    if replies == [] then 0
    else (if replies[0].status == 200 && replies[0].result.Some? && replies[0].result.value.id == id
          then 1 else 0) + SuccessesFor(replies[1..], id)
  }

  /**
   * No lost updates: after any sequence of logins every list has only grown,
   * a user's list gained at least one token per 200 reply that user got, and
   * every token handed out with a 200 reply is in its user's list at the end.
   */
  lemma {:induction false} NoLostUpdates(sessions: map<UserId, seq<string>>, attempts: seq<Attempt>, id: UserId)
    requires id in sessions
    ensures var r := LoginSequence(sessions, attempts);
      OnlyGrown(sessions, r.0) && |r.0[id]| >= |sessions[id]| + SuccessesFor(r.1, id)
    ensures var r := LoginSequence(sessions, attempts);
      forall i :: 0 <= i < |attempts| && attempts[i].user.id in sessions && r.1[i].status == 200 ==>
        r.1[i].result.value.token in r.0[attempts[i].user.id]
  {
    if attempts != [] {
      var a := attempts[0];
      var o := Login(sessions, a.remember, a.user, a.databasePassword, a.password, a.env);
      SessionsOnlyGrowAfterMatch(sessions, a.remember, a.user, a.databasePassword, a.password, a.env);
      SuccessfulLogin(sessions, a.remember, a.user, a.databasePassword, a.password, a.env);
      NoLostUpdates(o.sessions, attempts[1..], id);
      var r := LoginSequence(sessions, attempts);
      var rest := LoginSequence(o.sessions, attempts[1..]);
      assert r.1 == [o.reply] + rest.1;
      assert r.1[1..] == rest.1;
      forall k | k in sessions
        ensures sessions[k] <= r.0[k]
      {
        assert sessions[k] <= o.sessions[k];
      }
      forall i | 0 <= i < |attempts| && attempts[i].user.id in sessions && r.1[i].status == 200
        ensures r.1[i].result.value.token in r.0[attempts[i].user.id]
      {
        var uid := attempts[i].user.id;
        if i == 0 {
          // the token is the last entry of the list after the first login, and later logins only grow it
          NoLostUpdates(o.sessions, attempts[1..], uid);
          assert o.sessions[uid][|o.sessions[uid]| - 1] == r.1[0].result.value.token;
          assert o.sessions[uid] <= r.0[uid];
        } else {
          NoLostUpdates(o.sessions, attempts[1..], uid);
          assert attempts[1..][i - 1] == attempts[i];
          assert rest.1[i - 1] == r.1[i];
        }
      }
    }
  }

  /** The store of credential records, reduced to each user's `loggedSessions` list. */
  class UserPasswordModel {
    var loggedSessions: map<UserId, seq<string>>

    constructor (sessions: map<UserId, seq<string>>)
      ensures loggedSessions == sessions
    {
      loggedSessions := sessions;
    }

    /**
     * `findOneAndUpdate({ user: id }, { $push: { loggedSessions: token } }, { new: true }).exec()`:
     * returns the updated list, `null` when no record matches, or throws as
     * `effect` says.
     */
    method FindOneAndUpdatePush(id: UserId, token: string, effect: StoreEffect)
      returns (updated: Completion<Option<seq<string>>>)
      modifies this
      ensures loggedSessions ==
        if effect == ThrewBeforeWrite then old(loggedSessions) else PushSession(old(loggedSessions), id, token)
      ensures effect == Pushed ==>
        updated == Normal(if id in old(loggedSessions) then Some(old(loggedSessions)[id] + [token]) else None)
      ensures effect != Pushed ==> updated == Throw
    {
      if effect == ThrewBeforeWrite {
        return Throw;
      }
      loggedSessions := PushSession(loggedSessions, id, token);
      if effect == ThrewAfterWrite {
        return Throw;
      }
      updated := Normal(if id in loggedSessions then Some(loggedSessions[id]) else None);
    }
  }

  /**
   * The handler itself, step by step against the store object. Its reply and
   * the store's new lists are those of `Login`.
   */
  method AuthUser(remember: JsValue, user: User, databasePassword: PasswordRecord, password: string,
                  env: Collaborators, model: UserPasswordModel)
    returns (res: Response)
    modifies model
    ensures Outcome(res, model.loggedSessions)
      == Login(old(model.loggedSessions), remember, user, databasePassword, password, env)
    ensures res.status == 403 ==> res == InvalidCredentials && model.loggedSessions == old(model.loggedSessions)
    ensures res.status == 200 && user.id in old(model.loggedSessions) ==>
      model.loggedSessions[user.id] == old(model.loggedSessions)[user.id] + [res.result.value.token]
  {
    var isMatch := env.compare(Candidate(databasePassword, password), databasePassword.password);
    if isMatch.Throw? {
      return InternalError;
    }
    if !isMatch.value {
      return InvalidCredentials;
    }
    var duration := TokenDuration(remember);
    var signed := env.sign(Claims(user.id), env.secret, duration);
    if signed.Throw? {
      return InternalError;
    }
    var token := signed.value;
    var updated := model.FindOneAndUpdatePush(user.id, token, env.push(user.id, token));
    if updated.Throw? {
      return InternalError;
    }
    res := SuccessReply(user, token, remember);
  }
}
