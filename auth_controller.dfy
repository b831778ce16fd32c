/** The account handlers over the user store: registration, login with a single refresh-token
    slot, token rotation, logout, and the three password operations. Each handler is stated as
    a function from the old store to its reply and new store, and performed step by step by
    the methods of `Controller`. */
module AuthController {
  import opened Base
  import opened Crypto
  import opened Users
  import opened Accounts
  import opened AuthMiddleware

  /** A handler's reply together with the store it leaves. */
  datatype Step<+T> = Step(reply: Reply<T>, store: Store)

  datatype Session = Session(user: PublicUser, accessToken: string, refreshToken: string)
  datatype TokenPair = TokenPair(accessToken: string, refreshToken: string)
  datatype ForgotReply = ForgotReply(message: string, resetToken: Option<string>)

  const ServerError: string := "Erro interno do servidor"
  const ForgotMessage: string := "Se o email existir, um link de recuperação será enviado"

  /** The reset token's fixed lifetime, `'1h'`. */
  const ResetTtl: int := 3600

  /** The row `User.create` writes for a registration. */
  function NewAccount(id: Id, name: string, email: string, password: string, role: Role): Account {
    Account(id, name, email, CreateHook(Plain(password)), role, true, None)
  }

  /** Whether `User.create` succeeds: a fresh primary key, a role literal of the ENUM, an
      email `isEmail` accepts and a name of 2..100 characters. */
  predicate CreateSucceeds(store: Store, id: Id, name: string, email: string, role: string, isEmail: string -> bool) {
    id !in store && ParseRole(role).Some? && isEmail(email) && 2 <= |name| <= 100
  }

  /** `register`: a failing database is 500; an email already in use is 400; a row the model
      rejects is 500; otherwise one row is added under the fresh id, with role `candidate`
      unless one is given. `storeFails` stands for the lookup throwing. */
  function RegisterOutcome(store: Store, freshId: Id, name: string, email: string, password: string,
                           role: Option<string>, isEmail: string -> bool, storeFails: bool): (s: Step<PublicUser>)
    requires StoreOk(store)
    ensures StoreOk(s.store)
    ensures storeFails ==> s == Step(Failure(500, ServerError), store)
    ensures !storeFails && EmailTaken(store, email) ==> s == Step(Failure(400, "Email já está em uso"), store)
    ensures s.reply.Success? <==>
      !storeFails && !EmailTaken(store, email) && CreateSucceeds(store, freshId, name, email, role.GetOr("candidate"), isEmail)
    ensures s.reply.Success? ==>
      var a := NewAccount(freshId, name, email, password, ParseRole(role.GetOr("candidate")).value);
      s == Step(Success(201, Public(a)), store[freshId := a])
    ensures s.reply.Failure? && !EmailTaken(store, email) ==> s == Step(Failure(500, ServerError), store)
  {
    if storeFails then Step(Failure(500, ServerError), store)
    else if EmailTaken(store, email) then Step(Failure(400, "Email já está em uso"), store)
    else if !CreateSucceeds(store, freshId, name, email, role.GetOr("candidate"), isEmail) then Step(Failure(500, ServerError), store)
    else
      var a := NewAccount(freshId, name, email, password, ParseRole(role.GetOr("candidate")).value);
      Step(Success(201, Public(a)), store[freshId := a])
  }

  /** Leaving the role out registers a candidate; naming `admin` registers an administrator. */
  lemma RegisterRoleChoice(store: Store, freshId: Id, name: string, email: string, password: string, isEmail: string -> bool)
    requires StoreOk(store) && !EmailTaken(store, email) && CreateSucceeds(store, freshId, name, email, "candidate", isEmail)
    ensures RegisterOutcome(store, freshId, name, email, password, None, isEmail, false).store[freshId].role == Candidate
    ensures RegisterOutcome(store, freshId, name, email, password, Some("admin"), isEmail, false).store[freshId].role == Admin
  {}

  /** `login`: a failing database is 500; otherwise the same 401 for an unknown email and
      for a wrong password; on success both tokens are signed at `now` and the refresh token
      overwrites the user's slot. `storeFails` stands for the lookup throwing. */
  function LoginOutcome(store: Store, lib: Library, config: Config, email: string, password: string, now: Time,
                        storeFails: bool)
    : (s: Step<Session>)
    requires StoreOk(store) && ConfigOk(config)
    ensures StoreOk(s.store)
    ensures storeFails ==> s == Step(Failure(500, ServerError), store)
    ensures !storeFails && s.reply.Failure? ==> s == Step(Failure(401, "Credenciais inválidas"), store)
    ensures s.reply.Success? <==>
      !storeFails && EmailTaken(store, email) && Compare(password, store[FindByEmail(store, email).value].password)
    ensures s.reply.Success? ==>
      var id := FindByEmail(store, email).value;
      var refresh := Sign(lib, IdPayload(id), config.refreshSecret, now, config.refreshTtl);
      && s.store == store[id := store[id].(refreshToken := Some(refresh))]
      && s.reply.data == Session(Public(store[id]),
                                 Sign(lib, AccessPayload(store[id]), config.accessSecret, now, config.accessTtl), refresh)
  {
    if storeFails then Step(Failure(500, ServerError), store)
    else match FindByEmail(store, email)
    case None => Step(Failure(401, "Credenciais inválidas"), store)
    case Some(id) =>
      var user := store[id];
      if !Compare(password, user.password) then Step(Failure(401, "Credenciais inválidas"), store)
      else
        var access := Sign(lib, AccessPayload(user), config.accessSecret, now, config.accessTtl);
        var refresh := Sign(lib, IdPayload(id), config.refreshSecret, now, config.refreshTtl);
        UpdateKeepsStoreOk(store, id, user.(refreshToken := Some(refresh)));
        Step(Success(200, Session(Public(user.(refreshToken := Some(refresh))), access, refresh)),
             store[id := user.(refreshToken := Some(refresh))])
  }

  /** `refreshToken`: a falsy token is 401 'Refresh token é obrigatório'; every other failure,
      thrown or not, is 401 'Refresh token inválido', a failing database included. Success
      needs a token that verifies with the refresh secret and equals the slot of the user it
      names; both tokens are then reissued and the slot rotated. */
  function RefreshOutcome(store: Store, lib: Library, config: Config, token: Option<string>, now: Time,
                          storeFails: bool)
    : (s: Step<TokenPair>)
    requires StoreOk(store) && ConfigOk(config)
    ensures StoreOk(s.store)
    ensures s.reply.Failure? ==> s.store == store && s.reply.code == 401
    ensures !TruthyText(token) ==> s.reply == Failure(401, "Refresh token é obrigatório")
    ensures TruthyText(token) && s.reply.Failure? ==> s.reply.message == "Refresh token inválido"
    ensures TruthyText(token) && storeFails ==> s == Step(Failure(401, "Refresh token inválido"), store)
    ensures s.reply.Success? <==> TruthyText(token) && !storeFails && RefreshAccepted(store, lib, config, token.value, now)
    ensures s.reply.Success? ==>
      var uid := Verify(lib, token.value, config.refreshSecret, now).claims.payload.userId.value;
      var refresh := Sign(lib, IdPayload(uid), config.refreshSecret, now, config.refreshTtl);
      && s.store == store[uid := store[uid].(refreshToken := Some(refresh))]
      && s.reply.data == TokenPair(Sign(lib, AccessPayload(store[uid]), config.accessSecret, now, config.accessTtl), refresh)
  {
    if !TruthyText(token) then Step(Failure(401, "Refresh token é obrigatório"), store)
    else if storeFails || !RefreshAccepted(store, lib, config, token.value, now) then Step(Failure(401, "Refresh token inválido"), store)
    else
      var uid := Verify(lib, token.value, config.refreshSecret, now).claims.payload.userId.value;
      var user := store[uid];
      var access := Sign(lib, AccessPayload(user), config.accessSecret, now, config.accessTtl);
      var refresh := Sign(lib, IdPayload(uid), config.refreshSecret, now, config.refreshTtl);
      UpdateKeepsStoreOk(store, uid, user.(refreshToken := Some(refresh)));
      Step(Success(200, TokenPair(access, refresh)), store[uid := user.(refreshToken := Some(refresh))])
  }

  /** The refresh token verifies under the refresh secret, names a user, and is exactly what
      that user's slot holds. */
  predicate RefreshAccepted(store: Store, lib: Library, config: Config, token: string, now: Time) {
    var v := Verify(lib, token, config.refreshSecret, now);
    v.Verified? && v.claims.payload.userId.Some? && v.claims.payload.userId.value in store
    && store[v.claims.payload.userId.value].refreshToken == Some(token)
  }

  /** `logout`: a failing database is 500 and changes nothing; otherwise the caller's slot
      becomes null, and the reply is the same whether or not the row exists. */
  function LogoutOutcome(store: Store, userId: Id, storeFails: bool): (s: Step<()>)
    requires StoreOk(store)
    ensures StoreOk(s.store)
    ensures storeFails ==> s == Step(Failure(500, ServerError), store)
    ensures !storeFails ==> s.reply == Success(200, ())
    ensures !storeFails && userId in store ==> s.store == store[userId := store[userId].(refreshToken := None)]
    ensures userId !in store ==> s.store == store
  {
    if storeFails then Step(Failure(500, ServerError), store)
    else if userId in store then
      UpdateKeepsStoreOk(store, userId, store[userId].(refreshToken := None));
      Step(Success(200, ()), store[userId := store[userId].(refreshToken := None)])
    else Step(Success(200, ()), store)
  }

  /** `changePassword`: a failing database is 500; 404 for a missing row, 400 for a wrong
      current password; otherwise the new password goes through the update hook, and the
      refresh slot is left as it was. */
  function ChangePasswordOutcome(store: Store, userId: Id, current: string, newPassword: string, storeFails: bool)
    : (s: Step<()>)
    requires StoreOk(store)
    ensures StoreOk(s.store)
    ensures storeFails ==> s == Step(Failure(500, ServerError), store)
    ensures !storeFails && userId !in store ==> s == Step(Failure(404, "Usuário não encontrado"), store)
    ensures !storeFails && userId in store && !Compare(current, store[userId].password) ==>
      s == Step(Failure(400, "Senha atual incorreta"), store)
    ensures s.reply.Success? <==> !storeFails && userId in store && Compare(current, store[userId].password)
    ensures s.reply.Success? ==> s.store == store[userId := store[userId].(password := Hash(Plain(newPassword)))]
  {
    if storeFails then Step(Failure(500, ServerError), store)
    else if userId !in store then Step(Failure(404, "Usuário não encontrado"), store)
    else if !Compare(current, store[userId].password) then Step(Failure(400, "Senha atual incorreta"), store)
    else
      var user := store[userId];
      var updated := user.(password := UpdateHook(Plain(newPassword), user.password));
      UpdateKeepsStoreOk(store, userId, updated);
      Step(Success(200, ()), store[userId := updated])
  }

  /** `forgotPassword`: a failing database is 500; otherwise the same code and message either
      way, but a reset token, signed with the access secret for one hour, is present exactly
      when the email is registered. Nothing is written. */
  function ForgotPasswordOutcome(store: Store, lib: Library, config: Config, email: string, now: Time, storeFails: bool)
    : (s: Step<ForgotReply>)
    requires StoreOk(store) && ConfigOk(config)
    ensures s.store == store
    ensures storeFails ==> s.reply == Failure(500, ServerError)
    ensures !storeFails ==> s.reply.Success? && s.reply.code == 200 && s.reply.data.message == ForgotMessage
    ensures !storeFails ==> (s.reply.data.resetToken.Some? <==> EmailTaken(store, email))
    ensures s.reply.Success? && s.reply.data.resetToken.Some? ==>
      s.reply.data.resetToken.value == Sign(lib, IdPayload(FindByEmail(store, email).value), config.accessSecret, now, ResetTtl)
  {
    if storeFails then Step(Failure(500, ServerError), store)
    else match FindByEmail(store, email)
    case None => Step(Success(200, ForgotReply(ForgotMessage, None)), store)
    case Some(id) => Step(Success(200, ForgotReply(ForgotMessage, Some(Sign(lib, IdPayload(id), config.accessSecret, now, ResetTtl)))), store)
  }

  /** `resetPassword`: a missing, malformed, wrongly signed or expired token, and a failing
      database, are 400 'Token inválido ou expirado' (the `catch`); a token naming no row is
      400 'Token inválido'; otherwise the named user's password is replaced through the
      update hook. */
  function ResetPasswordOutcome(store: Store, lib: Library, config: Config, token: Option<string>, newPassword: string,
                                now: Time, storeFails: bool)
    : (s: Step<()>)
    requires StoreOk(store) && ConfigOk(config)
    ensures StoreOk(s.store)
    ensures s.reply.Failure? ==> s.store == store && s.reply.code == 400
    ensures Verify(lib, token.GetOr(""), config.accessSecret, now).Rejected? ==> s.reply == Failure(400, "Token inválido ou expirado")
    ensures storeFails ==> s == Step(Failure(400, "Token inválido ou expirado"), store)
    ensures !storeFails && Verify(lib, token.GetOr(""), config.accessSecret, now).Verified? && s.reply.Failure? ==>
      s.reply == Failure(400, "Token inválido")
    ensures s.reply.Success? <==> !storeFails && ResetAccepted(store, lib, config, token.GetOr(""), now)
    ensures s.reply.Success? ==>
      var uid := Verify(lib, token.GetOr(""), config.accessSecret, now).claims.payload.userId.value;
      s.store == store[uid := store[uid].(password := UpdateHook(Plain(newPassword), store[uid].password))]
  {
    match Verify(lib, token.GetOr(""), config.accessSecret, now)
    case Rejected(_) => Step(Failure(400, "Token inválido ou expirado"), store)
    case Verified(claims) =>
      if storeFails then Step(Failure(400, "Token inválido ou expirado"), store)
      else if claims.payload.userId.None? || claims.payload.userId.value !in store then Step(Failure(400, "Token inválido"), store)
      else
        var uid := claims.payload.userId.value;
        var updated := store[uid].(password := UpdateHook(Plain(newPassword), store[uid].password));
        UpdateKeepsStoreOk(store, uid, updated);
        Step(Success(200, ()), store[uid := updated])
  }

  /** The token verifies under the access secret and names an existing user. */
  predicate ResetAccepted(store: Store, lib: Library, config: Config, token: string, now: Time) {
    var v := Verify(lib, token, config.accessSecret, now);
    v.Verified? && v.claims.payload.userId.Some? && v.claims.payload.userId.value in store
  }

  // ---- Properties relating several handlers ----

  /** The refresh token handed out at login is accepted until it expires. */
  lemma LoginThenRefresh(store: Store, lib: Library, config: Config, email: string, password: string, issued: Time, now: Time)
    requires Sound(lib) && StoreOk(store) && ConfigOk(config)
    requires LoginOutcome(store, lib, config, email, password, issued, false).reply.Success?
    requires issued <= now < issued + config.refreshTtl
    ensures var s := LoginOutcome(store, lib, config, email, password, issued, false);
            RefreshOutcome(s.store, lib, config, Some(s.reply.data.refreshToken), now, false).reply.Success?
  {
    var s := LoginOutcome(store, lib, config, email, password, issued, false);
    var id := FindByEmail(store, email).value;
    SignThenVerify(lib, IdPayload(id), config.refreshSecret, issued, config.refreshTtl, now);
  }

  /** After a rotation, a refresh token issued at another second than the rotation is refused. */
  lemma RotationRevokesPreviousToken(store: Store, lib: Library, config: Config, token: string, now: Time, later: Time)
    requires Sound(lib) && StoreOk(store) && ConfigOk(config)
    requires RefreshOutcome(store, lib, config, Some(token), now, false).reply.Success?
    requires lib.decode(token).value.iat != now
    ensures var s := RefreshOutcome(store, lib, config, Some(token), now, false);
            RefreshOutcome(s.store, lib, config, Some(token), later, false).reply == Failure(401, "Refresh token inválido")
  {
    var s := RefreshOutcome(store, lib, config, Some(token), now, false);
    var uid := Verify(lib, token, config.refreshSecret, now).claims.payload.userId.value;
    var rotated := Sign(lib, IdPayload(uid), config.refreshSecret, now, config.refreshTtl);
    assert lib.decode(rotated).value.iat == now;
    assert s.store[uid].refreshToken == Some(rotated);
    assert rotated != token;
  }

  /** A refresh token names one user and matches only that user's slot, so at any time each
      user has at most one refresh token that is accepted. */
  lemma OneLiveRefreshTokenPerUser(store: Store, lib: Library, config: Config, t1: string, t2: string, now: Time)
    requires StoreOk(store) && ConfigOk(config)
    requires RefreshOutcome(store, lib, config, Some(t1), now, false).reply.Success?
    requires RefreshOutcome(store, lib, config, Some(t2), now, false).reply.Success?
    requires Verify(lib, t1, config.refreshSecret, now).claims.payload.userId == Verify(lib, t2, config.refreshSecret, now).claims.payload.userId
    ensures t1 == t2
  {
    assert RefreshAccepted(store, lib, config, t1, now) && RefreshAccepted(store, lib, config, t2, now);
  }

  /** After logout no refresh token for that user is accepted. */
  lemma LogoutRevokesRefresh(store: Store, lib: Library, config: Config, userId: Id, token: string, now: Time)
    requires StoreOk(store) && ConfigOk(config)
    requires Verify(lib, token, config.refreshSecret, now).Verified?
    requires Verify(lib, token, config.refreshSecret, now).claims.payload.userId == Some(userId)
    ensures RefreshOutcome(LogoutOutcome(store, userId, false).store, lib, config, Some(token), now, false).reply.Failure?
  {
    var after := LogoutOutcome(store, userId, false).store;
    assert !RefreshAccepted(after, lib, config, token, now);
  }

  /** Changing the password leaves sessions alive: a refresh token accepted before is still accepted. */
  lemma ChangePasswordKeepsSessions(store: Store, lib: Library, config: Config, userId: Id, current: string,
                                    newPassword: string, token: string, now: Time)
    requires StoreOk(store) && ConfigOk(config)
    requires RefreshAccepted(store, lib, config, token, now)
    ensures RefreshAccepted(ChangePasswordOutcome(store, userId, current, newPassword, false).store, lib, config, token, now)
  {}

  /** After a successful change, the new password logs in and the old one no longer does. */
  lemma ChangedPasswordLogsIn(store: Store, lib: Library, config: Config, userId: Id, current: string,
                              newPassword: string, now: Time)
    requires StoreOk(store) && ConfigOk(config) && current != newPassword
    requires ChangePasswordOutcome(store, userId, current, newPassword, false).reply.Success?
    ensures var after := ChangePasswordOutcome(store, userId, current, newPassword, false).store;
            && LoginOutcome(after, lib, config, store[userId].email, newPassword, now, false).reply.Success?
            && LoginOutcome(after, lib, config, store[userId].email, current, now, false).reply.Failure?
  {
    var after := ChangePasswordOutcome(store, userId, current, newPassword, false).store;
    var email := store[userId].email;
    assert after[userId].email == email;
    assert FindByEmail(after, email) == Some(userId);
  }

  /** The reset token from `forgotPassword` resets the password within the hour. */
  lemma ForgotThenReset(store: Store, lib: Library, config: Config, email: string, newPassword: string, issued: Time, now: Time)
    requires Sound(lib) && StoreOk(store) && ConfigOk(config) && EmailTaken(store, email)
    requires issued <= now < issued + ResetTtl
    ensures var t := ForgotPasswordOutcome(store, lib, config, email, issued, false).reply.data.resetToken;
            ResetPasswordOutcome(store, lib, config, t, newPassword, now, false).reply.Success?
  {
    var id := FindByEmail(store, email).value;
    SignThenVerify(lib, IdPayload(id), config.accessSecret, issued, ResetTtl, now);
  }

  /** Reset and access tokens share the access secret: an access token from login also
      resets the password. */
  lemma AccessTokenResetsPassword(store: Store, lib: Library, config: Config, email: string, password: string,
                                  newPassword: string, issued: Time, now: Time)
    requires Sound(lib) && StoreOk(store) && ConfigOk(config)
    requires LoginOutcome(store, lib, config, email, password, issued, false).reply.Success?
    requires issued <= now < issued + config.accessTtl
    ensures var s := LoginOutcome(store, lib, config, email, password, issued, false);
            ResetPasswordOutcome(s.store, lib, config, Some(s.reply.data.accessToken), newPassword, now, false).reply.Success?
  {
    var id := FindByEmail(store, email).value;
    SignThenVerify(lib, AccessPayload(store[id]), config.accessSecret, issued, config.accessTtl, now);
  }

  /** ... and a reset token passes the authentication gate like an access token. */
  lemma ResetTokenAuthenticates(store: Store, lib: Library, config: Config, email: string, issued: Time, now: Time)
    requires Sound(lib) && StoreOk(store) && ConfigOk(config) && EmailTaken(store, email)
    requires issued <= now < issued + ResetTtl
    ensures var t := ForgotPasswordOutcome(store, lib, config, email, issued, false).reply.data.resetToken.value;
            Authenticate(lib, config.accessSecret, store, Some(BearerPrefix + t), now, false).Next?
  {
    var id := FindByEmail(store, email).value;
    var t := Sign(lib, IdPayload(id), config.accessSecret, issued, ResetTtl);
    BearerTokenOfPrefixed(t);
    SignThenVerify(lib, IdPayload(id), config.accessSecret, issued, ResetTtl, now);
  }

  /** Login does not look at `isActive`: a deactivated account logs in like any other. */
  lemma InactiveAccountLogsIn(store: Store, lib: Library, config: Config, id: Id, password: string, now: Time)
    requires StoreOk(store) && ConfigOk(config) && id in store && !store[id].isActive
    requires Compare(password, store[id].password)
    ensures LoginOutcome(store, lib, config, store[id].email, password, now, false).reply.Success?
  {
    assert FindByEmail(store, store[id].email) == Some(id);
  }

  /** The handlers performed step by step on a mutable store. */
  class Controller {
    var users: Store
    const lib: Library
    const config: Config

    ghost predicate Valid()
      reads this
    {
      StoreOk(users) && ConfigOk(config)
    }

    constructor (lib: Library, config: Config)
      requires ConfigOk(config)
      ensures Valid() && users == map[] && this.lib == lib && this.config == config
    {
      this.lib := lib;
      this.config := config;
      users := map[];
    }

    method Register(freshId: Id, name: string, email: string, password: string, role: Option<string>,
                    isEmail: string -> bool, storeFails: bool) returns (reply: Reply<PublicUser>)
      requires Valid()
      modifies this
      ensures Valid()
      ensures Step(reply, users) == RegisterOutcome(old(users), freshId, name, email, password, role, isEmail, storeFails)
    {
      if storeFails {
        return Failure(500, ServerError);
      }
      if exists id :: id in users && users[id].email == email {
        return Failure(400, "Email já está em uso");
      }
      var roleText := role.GetOr("candidate");
      if freshId in users || ParseRole(roleText).None? || !isEmail(email) || !(2 <= |name| <= 100) {
        return Failure(500, ServerError);
      }
      var user := NewAccount(freshId, name, email, password, ParseRole(roleText).value);
      users := users[freshId := user];
      reply := Success(201, Public(user));
    }

    method Login(email: string, password: string, now: Time, storeFails: bool) returns (reply: Reply<Session>)
      requires Valid()
      modifies this
      ensures Valid()
      ensures Step(reply, users) == LoginOutcome(old(users), lib, config, email, password, now, storeFails)
    {
      if storeFails {
        return Failure(500, ServerError);
      }
      if !exists id :: id in users && users[id].email == email {
        return Failure(401, "Credenciais inválidas");
      }
      var id :| id in users && users[id].email == email;
      assert FindByEmail(users, email) == Some(id);
      var user := users[id];
      if user.password != Hash(Plain(password)) {
        return Failure(401, "Credenciais inválidas");
      }
      var accessToken := Sign(lib, AccessPayload(user), config.accessSecret, now, config.accessTtl);
      var refreshToken := Sign(lib, IdPayload(user.id), config.refreshSecret, now, config.refreshTtl);
      user := user.(refreshToken := Some(refreshToken));
      users := users[id := user];
      reply := Success(200, Session(Public(user), accessToken, refreshToken));
    }

    method RefreshToken(token: Option<string>, now: Time, storeFails: bool) returns (reply: Reply<TokenPair>)
      requires Valid()
      modifies this
      ensures Valid()
      ensures Step(reply, users) == RefreshOutcome(old(users), lib, config, token, now, storeFails)
    {
      if token.None? || token.value == "" {
        return Failure(401, "Refresh token é obrigatório");
      }
      if storeFails {
        return Failure(401, "Refresh token inválido");
      }
      var decoded := Verify(lib, token.value, config.refreshSecret, now);
      if decoded.Rejected? || decoded.claims.payload.userId.None? {
        return Failure(401, "Refresh token inválido");
      }
      var uid := decoded.claims.payload.userId.value;
      if uid !in users || users[uid].refreshToken != token {
        return Failure(401, "Refresh token inválido");
      }
      var user := users[uid];
      var accessToken := Sign(lib, AccessPayload(user), config.accessSecret, now, config.accessTtl);
      var refreshToken := Sign(lib, IdPayload(user.id), config.refreshSecret, now, config.refreshTtl);
      users := users[uid := user.(refreshToken := Some(refreshToken))];
      reply := Success(200, TokenPair(accessToken, refreshToken));
    }

    method Logout(userId: Id, storeFails: bool) returns (reply: Reply<()>)
      requires Valid()
      modifies this
      ensures Valid()
      ensures Step(reply, users) == LogoutOutcome(old(users), userId, storeFails)
    {
      if storeFails {
        return Failure(500, ServerError);
      }
      if userId in users {
        users := users[userId := users[userId].(refreshToken := None)];
      }
      reply := Success(200, ());
    }

    method ChangePassword(userId: Id, current: string, newPassword: string, storeFails: bool) returns (reply: Reply<()>)
      requires Valid()
      modifies this
      ensures Valid()
      ensures Step(reply, users) == ChangePasswordOutcome(old(users), userId, current, newPassword, storeFails)
    {
      if storeFails {
        return Failure(500, ServerError);
      }
      if userId !in users {
        return Failure(404, "Usuário não encontrado");
      }
      var user := users[userId];
      if user.password != Hash(Plain(current)) {
        return Failure(400, "Senha atual incorreta");
      }
      var stored := Plain(newPassword);
      if stored != user.password {
        stored := Hash(stored);
      }
      users := users[userId := user.(password := stored)];
      reply := Success(200, ());
    }

    method ForgotPassword(email: string, now: Time, storeFails: bool) returns (reply: Reply<ForgotReply>)
      requires Valid()
      ensures Step(reply, users) == ForgotPasswordOutcome(users, lib, config, email, now, storeFails)
    {
      if storeFails {
        return Failure(500, ServerError);
      }
      if !exists id :: id in users && users[id].email == email {
        return Success(200, ForgotReply(ForgotMessage, None));
      }
      var id :| id in users && users[id].email == email;
      assert FindByEmail(users, email) == Some(id);
      var resetToken := Sign(lib, IdPayload(id), config.accessSecret, now, ResetTtl);
      reply := Success(200, ForgotReply(ForgotMessage, Some(resetToken)));
    }

    method ResetPassword(token: Option<string>, newPassword: string, now: Time, storeFails: bool) returns (reply: Reply<()>)
      requires Valid()
      modifies this
      ensures Valid()
      ensures Step(reply, users) == ResetPasswordOutcome(old(users), lib, config, token, newPassword, now, storeFails)
    {
      var decoded := Verify(lib, token.GetOr(""), config.accessSecret, now);
      if decoded.Rejected? || storeFails {
        return Failure(400, "Token inválido ou expirado");
      }
      var uid := decoded.claims.payload.userId;
      if uid.None? || uid.value !in users {
        return Failure(400, "Token inválido");
      }
      var user := users[uid.value];
      var stored := Plain(newPassword);
      if stored != user.password {
        stored := Hash(stored);
      }
      users := users[uid.value := user.(password := stored)];
      reply := Success(200, ());
    }
  }
}
