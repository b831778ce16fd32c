/** The request gates: `authenticate` turns a bearer header into `req.user`, and
    `authorize`, `requireAdmin` and `requireCandidate` decide on its role. */
module AuthMiddleware {
  import opened Base
  import opened Text
  import opened Crypto
  import opened Users
  import opened Accounts

  /** `req.user`, filled from the stored row. */
  datatype AuthUser = AuthUser(userId: Id, email: string, role: Role, name: string)

  /** A gate either calls `next` (with the user it established) or answers with an error. */
  datatype Gate<+T> = Next(value: T) | Deny(code: nat, message: string)

  const BearerPrefix: string := "Bearer "

  /** `authHeader.startsWith('Bearer ')` followed by `substring(7)`. */
  function BearerToken(header: Option<string>): (token: Option<string>)
    ensures token.Some? <==> header.Some? && StartsWith(header.value, BearerPrefix)
    ensures token.Some? ==> header.value == BearerPrefix + token.value
  {
    if header.Some? && StartsWith(header.value, BearerPrefix) then
      assert header.value == header.value[..7] + header.value[7..];
      Some(header.value[7..])
    else None
  }

  lemma BearerTokenOfPrefixed(token: string)
    ensures BearerToken(Some(BearerPrefix + token)) == Some(token)
  {
    assert StartsWith(BearerPrefix + token, BearerPrefix) by {
      assert (BearerPrefix + token)[..|BearerPrefix|] == BearerPrefix;
    }
  }

  /** `authenticate` with the access secret at time `now`; `storeFails` stands for the
      lookup throwing. A token without a `userId` finds no row. */
  function Authenticate(lib: Library, secret: string, store: Store, header: Option<string>, now: Time, storeFails: bool)
    : (g: Gate<AuthUser>)
    ensures BearerToken(header).None? ==> g == Deny(401, "Token de acesso é obrigatório")
    ensures g.Next? <==>
      BearerToken(header).Some? && Verify(lib, BearerToken(header).value, secret, now).Verified? && !storeFails
      && var uid := Verify(lib, BearerToken(header).value, secret, now).claims.payload.userId;
         uid.Some? && uid.value in store
    ensures g.Next? ==>
      var a := store[Verify(lib, BearerToken(header).value, secret, now).claims.payload.userId.value];
      g.value == AuthUser(a.id, a.email, a.role, a.name)
    ensures BearerToken(header).Some? && Verify(lib, BearerToken(header).value, secret, now) == Rejected(JsonWebTokenError)
            ==> g == Deny(401, "Token inválido")
    ensures BearerToken(header).Some? && Verify(lib, BearerToken(header).value, secret, now) == Rejected(TokenExpiredError)
            ==> g == Deny(401, "Token expirado")
    ensures BearerToken(header).Some? && Verify(lib, BearerToken(header).value, secret, now) == Rejected(NotBeforeError)
            ==> g == Deny(500, "Erro interno do servidor")
    ensures BearerToken(header).Some? && Verify(lib, BearerToken(header).value, secret, now).Verified? && storeFails
            ==> g == Deny(500, "Erro interno do servidor")
    ensures BearerToken(header).Some? && Verify(lib, BearerToken(header).value, secret, now).Verified? && !storeFails && g.Deny?
            ==> g == Deny(401, "Token inválido")
    ensures g.Deny? ==> g.code in {401, 500}
  {
    match BearerToken(header)
    case None => Deny(401, "Token de acesso é obrigatório")
    case Some(token) =>
      match Verify(lib, token, secret, now)
      case Rejected(JsonWebTokenError) => Deny(401, "Token inválido")
      case Rejected(TokenExpiredError) => Deny(401, "Token expirado")
      case Rejected(NotBeforeError) => Deny(500, "Erro interno do servidor")
      case Verified(claims) =>
        if storeFails then Deny(500, "Erro interno do servidor")
        else if claims.payload.userId.None? || claims.payload.userId.value !in store then Deny(401, "Token inválido")
        else
          var a := store[claims.payload.userId.value];
          Next(AuthUser(a.id, a.email, a.role, a.name))
  }

  /** A valid, unexpired token for an id that has no row is refused as invalid. */
  lemma UnknownUserIsInvalid(lib: Library, secret: string, store: Store, header: Option<string>, now: Time)
    requires BearerToken(header).Some?
    requires Verify(lib, BearerToken(header).value, secret, now).Verified?
    requires Verify(lib, BearerToken(header).value, secret, now).claims.payload.userId.Some?
    requires Verify(lib, BearerToken(header).value, secret, now).claims.payload.userId.value !in store
    ensures Authenticate(lib, secret, store, header, now, false) == Deny(401, "Token inválido")
  {}

  /** An access token from login admits its owner until it expires. The role comes from
      the row, so a role changed since login wins over the token's claim, and an
      inactive user still gets through. */
  lemma AccessTokenAdmitsOwner(lib: Library, config: Config, store: Store, owner: Account, issued: Time, now: Time)
    requires Sound(lib) && ConfigOk(config) && StoreOk(store)
    requires owner.id in store && issued <= now < issued + config.accessTtl
    ensures Authenticate(lib, config.accessSecret, store,
                         Some(BearerPrefix + Sign(lib, AccessPayload(owner), config.accessSecret, issued, config.accessTtl)),
                         now, false)
            == Next(AuthUser(owner.id, store[owner.id].email, store[owner.id].role, store[owner.id].name))
  {
    var token := Sign(lib, AccessPayload(owner), config.accessSecret, issued, config.accessTtl);
    BearerTokenOfPrefixed(token);
    SignThenVerify(lib, AccessPayload(owner), config.accessSecret, issued, config.accessTtl, now);
  }

  /** The same token is refused once its lifetime has passed. */
  lemma AccessTokenExpires(lib: Library, config: Config, store: Store, owner: Account, issued: Time, now: Time)
    requires Sound(lib) && ConfigOk(config)
    requires now >= issued + config.accessTtl
    ensures Authenticate(lib, config.accessSecret, store,
                         Some(BearerPrefix + Sign(lib, AccessPayload(owner), config.accessSecret, issued, config.accessTtl)),
                         now, false)
            == Deny(401, "Token expirado")
  {
    var token := Sign(lib, AccessPayload(owner), config.accessSecret, issued, config.accessTtl);
    BearerTokenOfPrefixed(token);
    SignThenVerify(lib, AccessPayload(owner), config.accessSecret, issued, config.accessTtl, now);
  }

  /** A refresh token does not pass the gate while the two secrets differ. */
  lemma RefreshTokenIsNoAccessToken(lib: Library, config: Config, store: Store, id: Id, issued: Time, now: Time)
    requires Sound(lib) && ConfigOk(config) && config.accessSecret != config.refreshSecret
    ensures Authenticate(lib, config.accessSecret, store,
                         Some(BearerPrefix + Sign(lib, IdPayload(id), config.refreshSecret, issued, config.refreshTtl)),
                         now, false)
            == Deny(401, "Token inválido")
  {
    var token := Sign(lib, IdPayload(id), config.refreshSecret, issued, config.refreshTtl);
    BearerTokenOfPrefixed(token);
    OtherSecretRejects(lib, IdPayload(id), config.refreshSecret, config.accessSecret, issued, config.refreshTtl, now);
  }

  /** `authorize(roles)`: no user is 401; a non-empty list that lacks the role is 403. */
  function Authorize(roles: seq<string>, user: Option<AuthUser>): (g: Gate<()>)
    ensures user.None? ==> g == Deny(401, "Usuário não autenticado")
    ensures user.Some? ==> (g.Next? <==> |roles| == 0 || RoleName(user.value.role) in roles)
    ensures user.Some? && g.Deny? ==> g == Deny(403, "Acesso negado")
  {
    if user.None? then Deny(401, "Usuário não autenticado")
    else if |roles| > 0 && RoleName(user.value.role) !in roles then Deny(403, "Acesso negado")
    else Next(())
  }

  /** `requireAdmin`. */
  function RequireAdmin(user: Option<AuthUser>): (g: Gate<()>)
    ensures g.Next? <==> user.Some? && user.value.role == Admin
    ensures user.None? ==> g == Deny(401, "Usuário não autenticado")
    ensures user.Some? && g.Deny? ==> g == Deny(403, "Acesso restrito a administradores")
  {
    if user.None? then Deny(401, "Usuário não autenticado")
    else if RoleName(user.value.role) != "admin" then Deny(403, "Acesso restrito a administradores")
    else Next(())
  }

  /** `requireCandidate`. */
  function RequireCandidate(user: Option<AuthUser>): (g: Gate<()>)
    ensures g.Next? <==> user.Some? && user.value.role == Candidate
    ensures user.None? ==> g == Deny(401, "Usuário não autenticado")
    ensures user.Some? && g.Deny? ==> g == Deny(403, "Acesso restrito a candidatos")
  {
    if user.None? then Deny(401, "Usuário não autenticado")
    else if RoleName(user.value.role) != "candidate" then Deny(403, "Acesso restrito a candidatos")
    else Next(())
  }

  /** The two fixed gates admit exactly whom `authorize` with the one role admits, and an
      empty role list admits every authenticated user. */
  lemma GatesAgreeWithAuthorize(user: Option<AuthUser>)
    ensures RequireAdmin(user).Next? <==> Authorize(["admin"], user).Next?
    ensures RequireCandidate(user).Next? <==> Authorize(["candidate"], user).Next?
    ensures user.Some? ==> Authorize([], user).Next?
    ensures RequireAdmin(user).Next? ==> !RequireCandidate(user).Next?
  {}
}
