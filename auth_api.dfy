/**
 * The account and token endpoints of src/api/auth.py over an abstract store: users keyed by
 * id (e-mail unique), refresh tokens and password-reset tokens keyed by their token string.
 *
 * Request bodies are taken as already validated by their models (see `Schemas`). Password
 * hashing and checking are oracles; fresh user ids and token strings are parameters.
 */
module AuthApi {
  import opened Wrappers
  import opened Config

  datatype User = User(email: string, passwordHash: string, createdAt: int)
  datatype RefreshToken = RefreshToken(userId: string, expiresAt: int)
  datatype ResetToken = ResetToken(userId: string, expiresAt: int, used: bool)

  /** The three tables the endpoints read and write. */
  datatype Store = Store(
    users: map<string, User>,
    refreshTokens: map<string, RefreshToken>,
    resetTokens: map<string, ResetToken>)

  /** An `HTTPException`: the status and the `error`/`message` of its detail. */
  datatype ApiError = ApiError(status: int, error: string, message: string)

  const EmailExists: ApiError := ApiError(409, "email_exists", "Email already exists")
  const InvalidCredentials: ApiError := ApiError(401, "invalid_credentials", "Invalid email or password")
  const InvalidRefresh: ApiError := ApiError(401, "invalid_token", "Invalid or expired refresh token")
  const InvalidReset: ApiError := ApiError(401, "invalid_token", "Invalid or expired reset token")
  /** An unhandled exception, answered by the framework with a bare 500. */
  const InternalError: ApiError := ApiError(500, "", "Internal Server Error")

  const LoggedOut: string := "Logged out successfully"
  const ResetInstructions: string := "If an account exists with this email, you'll receive password reset instructions"
  const PasswordUpdated: string := "Password updated successfully"
  /** `create_password_reset_token`: one hour. */
  const ResetTokenLifetime: int := 60 * 60

  /** The claims of an access token from `create_access_token`. */
  datatype AccessClaims = AccessClaims(sub: string, exp: int)

  datatype UserInfo = UserInfo(id: string, email: string, createdAt: int)

  /** `TokenResponse`, and the body of a refresh. */
  datatype TokenResponse = TokenResponse(access: AccessClaims, refreshToken: string, user: UserInfo)
  datatype RefreshResponse = RefreshResponse(access: AccessClaims, refreshToken: string)

  /** A store after an endpoint, with its answer. */
  datatype Outcome<R> = Outcome(store: Store, response: Result<R, ApiError>)

  /** `is_token_expired`. */
  predicate Expired(expiresAt: int, now: int) { now > expiresAt }

  function AccessFor(userId: string, now: int): (c: AccessClaims)
    ensures c.sub == userId && c.exp == now + AccessTokenExpireMinutes * 60
  {
    AccessClaims(userId, now + AccessTokenLifetime)
  }

  // ---------------------------------------------------------------- store invariant

  predicate HasEmail(users: map<string, User>, id: string, email: string) {
    id in users && users[id].email == email
  }

  predicate EmailTaken(users: map<string, User>, email: string) {
    exists id :: id in users && users[id].email == email
  }

  predicate UniqueEmails(users: map<string, User>) {
    forall a, b :: a in users && b in users && users[a].email == users[b].email ==> a == b
  }

  /** The `unique` e-mail column, and the foreign keys of both token tables. */
  predicate Valid(s: Store) {
    && UniqueEmails(s.users)
    && (forall t :: t in s.refreshTokens ==> s.refreshTokens[t].userId in s.users)
    && (forall t :: t in s.resetTokens ==> s.resetTokens[t].userId in s.users)
  }

  /** The user with an e-mail address, if any. */
  function FindByEmail(users: map<string, User>, email: string): (r: Option<string>)
    requires UniqueEmails(users)
    ensures r.Some? <==> EmailTaken(users, email)
    ensures r.Some? ==> HasEmail(users, r.value, email)
    ensures r.Some? ==> forall id :: HasEmail(users, id, email) ==> id == r.value
  {
    if EmailTaken(users, email) then
      var id :| id in users && users[id].email == email;
      Some(id)
    else None
  }

  // ---------------------------------------------------------------- the endpoints

  /**
   * `signup`: an e-mail already in use is refused and nothing is stored; otherwise the user and
   * exactly one refresh token for that user are stored, and both tokens are returned.
   */
  function SignupOutcome(s: Store, email: string, password: string, userId: string, token: string, now: int,
                  hash: string -> string): (o: Outcome<TokenResponse>)
    requires Valid(s) && userId !in s.users && token !in s.refreshTokens
    ensures Valid(o.store)
    ensures o.response.Err? <==> EmailTaken(s.users, email)
    ensures o.response.Err? ==> o.response.error == EmailExists && o.store == s
    ensures o.response.Ok? ==>
      && o.store.users.Keys == s.users.Keys + {userId}
      && o.store.users[userId] == User(email, hash(password), now)
      && (forall id :: id in s.users ==> o.store.users[id] == s.users[id])
      && o.store.refreshTokens.Keys == s.refreshTokens.Keys + {token}
      && o.store.refreshTokens[token] == RefreshToken(userId, now + RefreshTokenLifetime)
      && (forall t :: t in s.refreshTokens ==> o.store.refreshTokens[t] == s.refreshTokens[t])
      && o.store.resetTokens == s.resetTokens
      && o.response.value == TokenResponse(AccessFor(userId, now), token, UserInfo(userId, email, now))
  {
    if EmailTaken(s.users, email) then Outcome(s, Err(EmailExists))
    else
      var s1 := s.(users := s.users[userId := User(email, hash(password), now)],
                   refreshTokens := s.refreshTokens[token := RefreshToken(userId, now + RefreshTokenLifetime)]);
      Outcome(s1, Ok(TokenResponse(AccessFor(userId, now), token, UserInfo(userId, email, now))))
  }

  /**
   * `signin`: an unknown e-mail and a wrong password get the same refusal and change nothing;
   * otherwise exactly one new refresh token is stored for the user.
   */
  function SigninOutcome(s: Store, email: string, password: string, token: string, now: int,
                  verify: (string, string) -> bool): (o: Outcome<TokenResponse>)
    requires Valid(s) && token !in s.refreshTokens
    ensures Valid(o.store)
    ensures o.response.Err? <==>
      !EmailTaken(s.users, email) || !verify(password, s.users[FindByEmail(s.users, email).value].passwordHash)
    ensures o.response.Err? ==> o.response.error == InvalidCredentials && o.store == s
    ensures o.response.Ok? ==>
      var id := FindByEmail(s.users, email).value;
      && o.store.users == s.users && o.store.resetTokens == s.resetTokens
      && o.store.refreshTokens == s.refreshTokens[token := RefreshToken(id, now + RefreshTokenLifetime)]
      && o.response.value == TokenResponse(AccessFor(id, now), token, UserInfo(id, email, s.users[id].createdAt))
  {
    var found := FindByEmail(s.users, email);
    if found.None? || !verify(password, s.users[found.value].passwordHash) then Outcome(s, Err(InvalidCredentials))
    else
      var id := found.value;
      Outcome(s.(refreshTokens := s.refreshTokens[token := RefreshToken(id, now + RefreshTokenLifetime)]),
              Ok(TokenResponse(AccessFor(id, now), token, UserInfo(id, email, s.users[id].createdAt))))
  }

  /**
   * `refresh_token`: an unknown or expired token is refused; otherwise it is deleted and a new
   * one is stored for the same user.
   */
  function RefreshOutcome(s: Store, presented: string, token: string, now: int): (o: Outcome<RefreshResponse>)
    requires Valid(s) && token !in s.refreshTokens
    ensures Valid(o.store)
    ensures o.response.Err? <==> presented !in s.refreshTokens || Expired(s.refreshTokens[presented].expiresAt, now)
    ensures o.response.Err? ==> o.response.error == InvalidRefresh && o.store == s
    ensures o.response.Ok? ==>
      var userId := s.refreshTokens[presented].userId;
      && o.store.users == s.users && o.store.resetTokens == s.resetTokens
      && presented !in o.store.refreshTokens
      && o.store.refreshTokens == (s.refreshTokens - {presented})[token := RefreshToken(userId, now + RefreshTokenLifetime)]
      && o.response.value == RefreshResponse(AccessFor(userId, now), token)
  {
    if presented !in s.refreshTokens || Expired(s.refreshTokens[presented].expiresAt, now) then Outcome(s, Err(InvalidRefresh))
    else
      var userId := s.refreshTokens[presented].userId;
      Outcome(s.(refreshTokens := (s.refreshTokens - {presented})[token := RefreshToken(userId, now + RefreshTokenLifetime)]),
              Ok(RefreshResponse(AccessFor(userId, now), token)))
  }

  /** `logout`: the same answer always; the token is gone afterwards, whether or not it was there. */
  function LogoutOutcome(s: Store, presented: string): (o: Outcome<string>)
    requires Valid(s)
    ensures Valid(o.store)
    ensures o.response == Ok(LoggedOut)
    ensures o.store.refreshTokens.Keys == s.refreshTokens.Keys - {presented}
    ensures forall t :: t in o.store.refreshTokens ==> o.store.refreshTokens[t] == s.refreshTokens[t]
    ensures o.store.users == s.users && o.store.resetTokens == s.resetTokens
  {
    if presented in s.refreshTokens then Outcome(s.(refreshTokens := s.refreshTokens - {presented}), Ok(LoggedOut))
    else Outcome(s, Ok(LoggedOut))
  }

  /**
   * `forgot_password`: the same answer whether or not the address is known; a reset token valid
   * for an hour is stored only for a known one.
   */
  function ForgotPasswordOutcome(s: Store, email: string, token: string, now: int): (o: Outcome<string>)
    requires Valid(s) && token !in s.resetTokens
    ensures Valid(o.store)
    ensures o.response == Ok(ResetInstructions)
    ensures o.store.users == s.users && o.store.refreshTokens == s.refreshTokens
    ensures !EmailTaken(s.users, email) ==> o.store == s
    ensures EmailTaken(s.users, email) ==>
      o.store.resetTokens == s.resetTokens[token := ResetToken(FindByEmail(s.users, email).value, now + ResetTokenLifetime, false)]
  {
    var found := FindByEmail(s.users, email);
    if found.None? then Outcome(s, Ok(ResetInstructions))
    else Outcome(s.(resetTokens := s.resetTokens[token := ResetToken(found.value, now + ResetTokenLifetime, false)]), Ok(ResetInstructions))
  }

  /** The reset token the query finds: one with that string that is not yet used. */
  predicate Usable(s: Store, token: string, now: int) {
    && token in s.resetTokens && !s.resetTokens[token].used
    && !Expired(s.resetTokens[token].expiresAt, now)
    && s.resetTokens[token].userId in s.users
  }

  /**
   * `reset_password`: only an existing, unused, unexpired token of an existing user is
   * accepted; the user's hash is replaced and the token is marked used.
   */
  function ResetPasswordOutcome(s: Store, token: string, newPassword: string, now: int, hash: string -> string): (o: Outcome<string>)
    requires Valid(s)
    ensures Valid(o.store)
    ensures o.response.Ok? <==> Usable(s, token, now)
    ensures o.response.Err? ==> o.response.error == InvalidReset && o.store == s
    ensures o.response.Ok? ==>
      var reset := s.resetTokens[token];
      && o.response.value == PasswordUpdated
      && o.store.users.Keys == s.users.Keys
      && o.store.users[reset.userId] == s.users[reset.userId].(passwordHash := hash(newPassword))
      && (forall id :: id in s.users && id != reset.userId ==> o.store.users[id] == s.users[id])
      && o.store.resetTokens == s.resetTokens[token := reset.(used := true)]
      && o.store.refreshTokens == s.refreshTokens
  {
    if !Usable(s, token, now) then Outcome(s, Err(InvalidReset))
    else
      var reset := s.resetTokens[token];
      var users := s.users[reset.userId := s.users[reset.userId].(passwordHash := hash(newPassword))];
      assert forall id :: id in users ==> users[id].email == s.users[id].email;
      Outcome(s.(users := users, resetTokens := s.resetTokens[token := reset.(used := true)]), Ok(PasswordUpdated))
  }

  // ---------------------------------------------------------------- properties across calls

  /** A second sign-up with the same address is refused, whatever the password. */
  lemma SignupTwiceRefused(s: Store, email: string, password: string, password2: string, userId: string, userId2: string,
                           token: string, token2: string, now: int, now2: int, hash: string -> string)
    requires Valid(s) && userId !in s.users && token !in s.refreshTokens
    requires var s1 := SignupOutcome(s, email, password, userId, token, now, hash).store;
      userId2 !in s1.users && token2 !in s1.refreshTokens
    ensures var s1 := SignupOutcome(s, email, password, userId, token, now, hash).store;
      SignupOutcome(s1, email, password2, userId2, token2, now2, hash) == Outcome(s1, Err(EmailExists))
  {
    var s1 := SignupOutcome(s, email, password, userId, token, now, hash).store;
    if !EmailTaken(s.users, email) {
      assert HasEmail(s1.users, userId, email);
    }
  }

  /** After a sign-up, signing in with the same password succeeds for the new user (given a sound hash). */
  lemma SignupThenSignin(s: Store, email: string, password: string, userId: string, token: string, token2: string,
                         now: int, now2: int, hash: string -> string, verify: (string, string) -> bool)
    requires Valid(s) && userId !in s.users && token !in s.refreshTokens && token2 != token && token2 !in s.refreshTokens
    requires !EmailTaken(s.users, email)
    requires verify(password, hash(password))
    ensures var s1 := SignupOutcome(s, email, password, userId, token, now, hash).store;
      var o := SigninOutcome(s1, email, password, token2, now2, verify);
      o.response.Ok? && o.response.value.user.id == userId && o.store.refreshTokens[token2].userId == userId
  {
    var s1 := SignupOutcome(s, email, password, userId, token, now, hash).store;
    assert HasEmail(s1.users, userId, email);
  }

  /** The two ways a sign-in can fail cannot be told apart: same answer, nothing stored. */
  lemma SigninRefusalsAlike(s: Store, email1: string, password1: string, email2: string, password2: string,
                            token: string, now1: int, now2: int, verify: (string, string) -> bool)
    requires Valid(s) && token !in s.refreshTokens
    requires SigninOutcome(s, email1, password1, token, now1, verify).response.Err?
    requires SigninOutcome(s, email2, password2, token, now2, verify).response.Err?
    ensures SigninOutcome(s, email1, password1, token, now1, verify) == SigninOutcome(s, email2, password2, token, now2, verify)
  {
  }

  /**
   * Rotation: a refresh token works once. After a refresh the old token is refused, and the
   * new one is accepted until its own expiry.
   */
  lemma RefreshRotates(s: Store, presented: string, token: string, token2: string, now: int, later: int)
    requires Valid(s) && token !in s.refreshTokens && token2 != token && token2 !in s.refreshTokens
    requires RefreshOutcome(s, presented, token, now).response.Ok?
    ensures var s1 := RefreshOutcome(s, presented, token, now).store;
      && RefreshOutcome(s1, presented, token2, later).response == Err(InvalidRefresh)
      && (RefreshOutcome(s1, token, token2, later).response.Ok? <==> later <= now + RefreshTokenLifetime)
      && (RefreshOutcome(s1, token, token2, later).response.Ok? ==>
            RefreshOutcome(s1, token, token2, later).response.value.access.sub == s.refreshTokens[presented].userId)
  {
  }

  /** Logging out twice is logging out once. */
  lemma LogoutIdempotent(s: Store, presented: string)
    requires Valid(s)
    ensures LogoutOutcome(LogoutOutcome(s, presented).store, presented) == LogoutOutcome(s, presented)
  {
  }

  /** A logged-out token no longer refreshes. */
  lemma LogoutThenRefreshRefused(s: Store, presented: string, token: string, now: int)
    requires Valid(s) && token !in LogoutOutcome(s, presented).store.refreshTokens
    ensures RefreshOutcome(LogoutOutcome(s, presented).store, presented, token, now).response == Err(InvalidRefresh)
  {
  }

  /** The answer to a password-reset request says nothing about whether the address is known. */
  lemma ForgotPasswordAlike(s: Store, email1: string, email2: string, token: string, now1: int, now2: int)
    requires Valid(s) && token !in s.resetTokens
    ensures ForgotPasswordOutcome(s, email1, token, now1).response == ForgotPasswordOutcome(s, email2, token, now2).response
  {
  }

  /** A reset token issued for a known address resets that user's password, and only once. */
  lemma ResetSingleUse(s: Store, email: string, token: string, now: int, at: int, password: string, password2: string,
                       at2: int, hash: string -> string)
    requires Valid(s) && token !in s.resetTokens && EmailTaken(s.users, email)
    requires now <= at <= now + ResetTokenLifetime
    ensures var s1 := ForgotPasswordOutcome(s, email, token, now).store;
      var o := ResetPasswordOutcome(s1, token, password, at, hash);
      && o.response == Ok(PasswordUpdated)
      && o.store.users[FindByEmail(s.users, email).value].passwordHash == hash(password)
      && ResetPasswordOutcome(o.store, token, password2, at2, hash) == Outcome(o.store, Err(InvalidReset))
  {
  }

  // ---------------------------------------------------------------- the user in a token response

  /** The fields `UserResponse` requires, and the fields the handlers pass to it. */
  const UserResponseFields: seq<string> := ["id", "email", "name", "created_at"]
  const PassedUserFields: set<string> := {"id", "email", "created_at"}
  /** `UserResponse` without the `name` field, which no table holds. */
  const UserRowFields: seq<string> := ["id", "email", "created_at"]

  /** The required fields that are not given, in declaration order. */
  function MissingFields(required: seq<string>, given: set<string>): (r: seq<string>)
    ensures forall f :: f in r <==> f in required && f !in given
    ensures |r| <= |required|
  {
    if required == [] then []
    else (if required[0] in given then [] else [required[0]]) + MissingFields(required[1..], given)
  }

  /** Building the response model: a missing required field raises, and the request ends in a 500. */
  function BuildUserResponse(required: seq<string>, info: UserInfo): (r: Result<UserInfo, ApiError>)
    ensures r.Ok? <==> forall f :: f in required ==> f in PassedUserFields
    ensures r.Ok? ==> r.value == info
    ensures r.Err? ==> r.error == InternalError
  {
    if MissingFields(required, PassedUserFields) == [] then Ok(info)
    else
      assert MissingFields(required, PassedUserFields)[0] in MissingFields(required, PassedUserFields);
      Err(InternalError)
  }

  /** A token response as the handlers build it: after the commits, with `UserResponseFields`. */
  function AsWritten(o: Outcome<TokenResponse>): (r: Outcome<TokenResponse>)
    ensures r.store == o.store
    ensures o.response.Err? ==> r == o
  {
    if o.response.Err? then o
    else
      match BuildUserResponse(UserResponseFields, o.response.value.user)
      case Ok(_) => o
      case Err(e) => Outcome(o.store, Err(e))
  }

  /**
   * As written, every successful sign-up answers 500, yet the user and a refresh token are
   * stored: a retry is refused with "email_exists".
   */
  lemma SignupAsWrittenFails(s: Store, email: string, password: string, userId: string, token: string, now: int,
                             hash: string -> string, userId2: string, token2: string, now2: int)
    requires Valid(s) && userId !in s.users && token !in s.refreshTokens && !EmailTaken(s.users, email)
    requires userId2 != userId && userId2 !in s.users && token2 != token && token2 !in s.refreshTokens
    ensures var o := AsWritten(SignupOutcome(s, email, password, userId, token, now, hash));
      && o.response == Err(InternalError)
      && userId in o.store.users && token in o.store.refreshTokens
      && AsWritten(SignupOutcome(o.store, email, password, userId2, token2, now2, hash)).response == Err(EmailExists)
  {
    assert "name" in UserResponseFields && "name" !in PassedUserFields;
    SignupTwiceRefused(s, email, password, password, userId, userId2, token, token2, now, now2, hash);
  }

  /** As written, a sign-in with the right password answers 500 after storing a refresh token. */
  lemma SigninAsWrittenFails(s: Store, email: string, password: string, token: string, now: int,
                             verify: (string, string) -> bool)
    requires Valid(s) && token !in s.refreshTokens
    requires SigninOutcome(s, email, password, token, now, verify).response.Ok?
    ensures var o := AsWritten(SigninOutcome(s, email, password, token, now, verify));
      o.response == Err(InternalError) && token in o.store.refreshTokens
  {
    assert "name" in UserResponseFields && "name" !in PassedUserFields;
  }

  /** The response model without `name` is built from exactly the fields the handlers pass. */
  lemma UserRowResponseBuilds(info: UserInfo)
    ensures BuildUserResponse(UserRowFields, info) == Ok(info)
    ensures forall f :: f in UserRowFields <==> f in PassedUserFields
  {
  }

  // ---------------------------------------------------------------- the store itself

  /** The session's tables, which each endpoint updates in place. */
  class AuthStore {
    var users: map<string, User>
    var refreshTokens: map<string, RefreshToken>
    var resetTokens: map<string, ResetToken>

    function State(): Store
      reads this
    {
      Store(users, refreshTokens, resetTokens)
    }

    constructor()
      ensures State() == Store(map[], map[], map[]) && Valid(State())
    {
      users := map[];
      refreshTokens := map[];
      resetTokens := map[];
    }

    method Signup(email: string, password: string, userId: string, token: string, now: int, hash: string -> string)
      returns (r: Result<TokenResponse, ApiError>)
      requires Valid(State()) && userId !in users && token !in refreshTokens
      modifies this
      ensures Valid(State())
      ensures var o := SignupOutcome(old(State()), email, password, userId, token, now, hash);
        State() == o.store && r == o.response
    {
      if FindByEmail(users, email).Some? {
        return Err(EmailExists);
      }
      users := users[userId := User(email, hash(password), now)];
      refreshTokens := refreshTokens[token := RefreshToken(userId, now + RefreshTokenLifetime)];
      r := Ok(TokenResponse(AccessFor(userId, now), token, UserInfo(userId, email, now)));
    }

    method Signin(email: string, password: string, token: string, now: int, verify: (string, string) -> bool)
      returns (r: Result<TokenResponse, ApiError>)
      requires Valid(State()) && token !in refreshTokens
      modifies this
      ensures Valid(State())
      ensures var o := SigninOutcome(old(State()), email, password, token, now, verify);
        State() == o.store && r == o.response
    {
      var found := FindByEmail(users, email);
      if found.None? || !verify(password, users[found.value].passwordHash) {
        return Err(InvalidCredentials);
      }
      var id := found.value;
      refreshTokens := refreshTokens[token := RefreshToken(id, now + RefreshTokenLifetime)];
      r := Ok(TokenResponse(AccessFor(id, now), token, UserInfo(id, email, users[id].createdAt)));
    }

    method Refresh(presented: string, token: string, now: int) returns (r: Result<RefreshResponse, ApiError>)
      requires Valid(State()) && token !in refreshTokens
      modifies this
      ensures Valid(State())
      ensures var o := RefreshOutcome(old(State()), presented, token, now);
        State() == o.store && r == o.response
    {
      if presented !in refreshTokens || Expired(refreshTokens[presented].expiresAt, now) {
        return Err(InvalidRefresh);
      }
      var userId := refreshTokens[presented].userId;
      refreshTokens := refreshTokens - {presented};
      refreshTokens := refreshTokens[token := RefreshToken(userId, now + RefreshTokenLifetime)];
      r := Ok(RefreshResponse(AccessFor(userId, now), token));
    }

    method Logout(presented: string) returns (r: Result<string, ApiError>)
      requires Valid(State())
      modifies this
      ensures Valid(State())
      ensures var o := LogoutOutcome(old(State()), presented);
        State() == o.store && r == o.response
    {
      if presented in refreshTokens {
        refreshTokens := refreshTokens - {presented};
      }
      r := Ok(LoggedOut);
    }

    method ForgotPassword(email: string, token: string, now: int) returns (r: Result<string, ApiError>)
      requires Valid(State()) && token !in resetTokens
      modifies this
      ensures Valid(State())
      ensures var o := ForgotPasswordOutcome(old(State()), email, token, now);
        State() == o.store && r == o.response
    {
      var found := FindByEmail(users, email);
      if found.Some? {
        resetTokens := resetTokens[token := ResetToken(found.value, now + ResetTokenLifetime, false)];
      }
      r := Ok(ResetInstructions);
    }

    method ResetPassword(token: string, newPassword: string, now: int, hash: string -> string)
      returns (r: Result<string, ApiError>)
      requires Valid(State())
      modifies this
      ensures Valid(State())
      ensures var o := ResetPasswordOutcome(old(State()), token, newPassword, now, hash);
        State() == o.store && r == o.response
    {
      if token !in resetTokens || resetTokens[token].used || Expired(resetTokens[token].expiresAt, now) {
        return Err(InvalidReset);
      }
      var reset := resetTokens[token];
      if reset.userId !in users {
        return Err(InvalidReset);
      }
      users := users[reset.userId := users[reset.userId].(passwordHash := hash(newPassword))];
      resetTokens := resetTokens[token := reset.(used := true)];
      r := Ok(PasswordUpdated);
    }
  }
}
