/** The user store as the auth controller and middleware see it: rows keyed by id with a
    `password` and a single `refreshToken` slot, plus the token configuration. */
module Accounts {
  import opened Base
  import opened Crypto
  import opened Users

  /** A user as the controllers read and write it. */
  datatype Account = Account(
    id: Id, name: string, email: string, password: Secret, role: Role,
    isActive: bool, refreshToken: Option<string>)

  type Store = map<Id, Account>

  /** Rows are stored under their own primary key, and the email index is unique. */
  predicate StoreOk(store: Store) {
    (forall id :: id in store ==> store[id].id == id)
    && (forall a, b :: a in store && b in store && a != b ==> store[a].email != store[b].email)
  }

  predicate EmailTaken(store: Store, email: string) {
    exists id :: id in store && store[id].email == email
  }

  /** `findOne({ where: { email } })` on a store whose email index is unique. */
  function FindByEmail(store: Store, email: string): (r: Option<Id>)
    requires StoreOk(store)
    ensures r.Some? <==> EmailTaken(store, email)
    ensures r.Some? ==> r.value in store && store[r.value].email == email
  {
    if EmailTaken(store, email) then
      var id :| id in store && store[id].email == email;
      Some(id)
    else None
  }

  /** Replacing one row with a copy that keeps its id and email keeps the store well formed. */
  lemma UpdateKeepsStoreOk(store: Store, id: Id, a: Account)
    requires StoreOk(store) && id in store && a.id == id && a.email == store[id].email
    ensures StoreOk(store[id := a])
  {}

  /** The user object in a response: `toJSON()` with `password` and `refreshToken` deleted. */
  datatype PublicUser = PublicUser(id: Id, name: string, email: string, role: Role, isActive: bool)

  function Public(a: Account): (p: PublicUser)
    ensures p.id == a.id && p.email == a.email && p.name == a.name && p.role == a.role
  {
    PublicUser(a.id, a.name, a.email, a.role, a.isActive)
  }

  /** Nothing in a response depends on the password or the refresh slot. */
  lemma PublicHidesSecrets(a: Account, password: Secret, slot: Option<string>)
    ensures Public(a.(password := password, refreshToken := slot)) == Public(a)
  {}

  /** The `jwt` block of the configuration: two signing secrets and two lifetimes in seconds. */
  datatype Config = Config(accessSecret: string, refreshSecret: string, accessTtl: int, refreshTtl: int)

  /** The values used when the environment sets nothing: `'1h'` and `'7d'`. */
  const DefaultConfig: Config :=
    Config("your-super-secret-jwt-key", "your-super-secret-refresh-key", 3600, 7 * 24 * 3600)

  /** Each secret falls back to a non-empty default, so neither is ever empty. */
  predicate ConfigOk(c: Config) {
    c.accessSecret != "" && c.refreshSecret != ""
  }

  lemma DefaultConfigOk()
    ensures ConfigOk(DefaultConfig) && DefaultConfig.accessSecret != DefaultConfig.refreshSecret
    ensures DefaultConfig.refreshTtl == 604800
  {
    assert DefaultConfig.accessSecret[18] != DefaultConfig.refreshSecret[18];
  }

  /** The claims of an access token and of a refresh or reset token. */
  function AccessPayload(a: Account): Payload {
    Payload(Some(a.id), Some(a.email), Some(RoleName(a.role)))
  }

  function IdPayload(id: Id): Payload {
    Payload(Some(id), None, None)
  }
}
