/** The User model: the `users` row with its own column names, the `toJSON` projection,
    the role predicates, the active-user lookup and the password-hashing hooks. */
module Users {
  import opened Base
  import opened Crypto

  datatype Role = Admin | Candidate

  const DefaultRole: Role := Candidate

  function RoleName(r: Role): (name: string)
    ensures name in ["admin", "candidate"]
  {
    match r
    case Admin => "admin"
    case Candidate => "candidate"
  }

  /** Reads a role literal; the ENUM admits exactly `admin` and `candidate`. */
  function ParseRole(text: string): (r: Option<Role>)
    ensures r.Some? <==> text in ["admin", "candidate"]
    ensures r.Some? ==> RoleName(r.value) == text
  {
    if text == "admin" then Some(Admin)
    else if text == "candidate" then Some(Candidate)
    else None
  }

  lemma ParseRoleName(r: Role)
    ensures ParseRole(RoleName(r)) == Some(r)
  {}

  /** A `users` row. */
  datatype User = User(
    id: Id, email: string, password_hash: Secret, name: string, role: Role,
    is_active: bool, last_login: Option<Time>, email_verified: bool,
    email_verification_token: Option<string>, password_reset_token: Option<string>,
    password_reset_expires: Option<Time>, createdAt: Time, updatedAt: Time)

  predicate IsAdmin(u: User) { RoleName(u.role) == "admin" }
  predicate IsCandidate(u: User) { RoleName(u.role) == "candidate" }

  lemma ExactlyOneRole(u: User)
    ensures IsAdmin(u) <==> u.role == Admin
    ensures IsCandidate(u) <==> u.role == Candidate
    ensures IsAdmin(u) != IsCandidate(u)
  {}

  /** The column validators: a valid email (`isEmail` belongs to the validator library) and a
      name of 2..100 characters. */
  predicate Valid(u: User, isEmail: string -> bool) {
    isEmail(u.email) && 2 <= |u.name| <= 100
  }

  /** One attribute value as `get()` returns it. */
  datatype Value = Text(text: string) | Flag(flag: bool) | Stamp(time: Time) | Null | Digest(secret: Secret)

  function TextOrNull(s: Option<string>): Value {
    if s.Some? then Text(s.value) else Null
  }

  function StampOrNull(t: Option<Time>): Value {
    if t.Some? then Stamp(t.value) else Null
  }

  /** `this.get()`: every attribute of the row, by column name. */
  function Attributes(u: User): map<string, Value> {
    map[
      "id" := Text(u.id), "email" := Text(u.email), "password_hash" := Digest(u.password_hash),
      "name" := Text(u.name), "role" := Text(RoleName(u.role)), "is_active" := Flag(u.is_active),
      "last_login" := StampOrNull(u.last_login), "email_verified" := Flag(u.email_verified),
      "email_verification_token" := TextOrNull(u.email_verification_token),
      "password_reset_token" := TextOrNull(u.password_reset_token),
      "password_reset_expires" := StampOrNull(u.password_reset_expires),
      "createdAt" := Stamp(u.createdAt), "updatedAt" := Stamp(u.updatedAt)]
  }

  const HiddenKeys: set<string> :=
    {"password_hash", "email_verification_token", "password_reset_token", "password_reset_expires"}

  /** `toJSON`: a copy of the attributes from which the four secret-bearing keys are deleted
      one by one; the row itself is a value and stays as it was. */
  method ToJSON(u: User) returns (values: map<string, Value>)
    ensures values.Keys == Attributes(u).Keys - HiddenKeys
    ensures forall k :: k in values ==> values[k] == Attributes(u)[k]
    ensures forall k :: k in values ==> !values[k].Digest?
  {
    values := Attributes(u);
    values := values - {"password_hash"};
    values := values - {"email_verification_token"};
    values := values - {"password_reset_token"};
    values := values - {"password_reset_expires"};
  }

  /** All four hidden keys are real columns, and the public ones survive the projection. */
  lemma ProjectionKeepsPublicColumns(u: User)
    ensures HiddenKeys <= Attributes(u).Keys
    ensures "email" in Attributes(u).Keys - HiddenKeys && "role" in Attributes(u).Keys - HiddenKeys
  {}

  /** `findActiveById`: the row with that id, provided it is active. */
  function FindActiveById(users: map<Id, User>, id: Id): (r: Option<User>)
    requires WellKeyed(users)
    ensures r.Some? <==> id in users && users[id].is_active
    ensures r.Some? ==> r.value.id == id && r.value.is_active
  {
    if id in users && users[id].is_active then Some(users[id]) else None
  }

  /** Rows are stored under their own primary key. */
  predicate WellKeyed(users: map<Id, User>) {
    forall id :: id in users ==> users[id].id == id
  }

  /** The unique index on `email`. */
  predicate UniqueEmails(users: map<Id, User>) {
    forall a, b :: a in users && b in users && a != b ==> users[a].email != users[b].email
  }

  /** `if (user.password_hash)`: an empty text is falsy; a hash never is. */
  predicate TruthySecret(s: Secret) {
    s != Plain("")
  }

  /** What `beforeCreate` stores: the hash of a truthy value, the empty text unchanged. */
  function CreateHook(given: Secret): (stored: Secret)
    ensures TruthySecret(given) ==> stored == Hash(given)
    ensures !TruthySecret(given) ==> stored == given
  {
    if TruthySecret(given) then Hash(given) else given
  }

  /** What `beforeUpdate` stores: a changed value is hashed, an unchanged one kept as is. */
  function UpdateHook(current: Secret, previous: Secret): (stored: Secret)
    ensures current != previous ==> stored == Hash(current)
    ensures current == previous ==> stored == previous
  {
    if current != previous then Hash(current) else current
  }

  /** A user created with a non-empty password can log in with exactly that password. */
  lemma CreatedPasswordVerifies(password: string, attempt: string)
    requires password != ""
    ensures Compare(password, CreateHook(Plain(password)))
    ensures Compare(attempt, CreateHook(Plain(password))) <==> attempt == password
  {}

  /** An empty password is stored in the clear, and no password then matches it. */
  lemma EmptyPasswordNeverVerifies(attempt: string)
    ensures CreateHook(Plain("")) == Plain("")
    ensures !Compare(attempt, CreateHook(Plain("")))
  {}

  /** Saving without touching the column keeps the stored hash, so it still verifies. */
  lemma UnchangedHashStillVerifies(password: string, stored: Secret)
    requires Compare(password, stored)
    ensures UpdateHook(stored, stored) == stored && Compare(password, UpdateHook(stored, stored))
  {}

  /** A model instance: the current values and the last persisted `password_hash`, which
      `changed('password_hash')` compares against. */
  class Instance {
    var row: User
    var persistedHash: Secret

    constructor Load(u: User)
      ensures row == u && persistedHash == u.password_hash
    {
      row := u;
      persistedHash := u.password_hash;
    }

    /** `User.create(values)`: the `beforeCreate` hook runs and the row is persisted. */
    constructor Create(u: User)
      ensures row == u.(password_hash := CreateHook(u.password_hash))
      ensures persistedHash == row.password_hash
    {
      row := u.(password_hash := CreateHook(u.password_hash));
      persistedHash := CreateHook(u.password_hash);
    }

    /** `validatePassword`. */
    method ValidatePassword(password: string) returns (ok: bool)
      ensures ok <==> Compare(password, row.password_hash)
    {
      ok := row.password_hash == Hashed(Plain(password));
    }

    /** `update({ password_hash })` followed by the `beforeUpdate` hook and the write. */
    method UpdatePasswordHash(given: Secret)
      modifies this
      ensures row == old(row).(password_hash := UpdateHook(given, old(persistedHash)))
      ensures persistedHash == row.password_hash
    {
      row := row.(password_hash := given);
      if row.password_hash != persistedHash {
        row := row.(password_hash := Hash(row.password_hash));
      }
      persistedHash := row.password_hash;
    }
  }
}
