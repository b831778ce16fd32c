/** The two foreign libraries as abstract values: bcrypt as a symbolic one-way hash, and
    jsonwebtoken as an oracle of encode/decode/signature-check functions driven by a clock. */
module Crypto {
  import opened Base

  /** A value stored in a password column: the text as given, or the hash of another value. */
  datatype Secret = Plain(text: string) | Hashed(of: Secret)

  /** How many times the original text has been hashed. */
  function Rounds(s: Secret): nat {
    match s
    case Plain(_) => 0
    case Hashed(inner) => Rounds(inner) + 1
  }

  /** `bcrypt.hash`. Salting is not modelled: hashing the same value twice gives the same result. */
  function Hash(s: Secret): (h: Secret)
    ensures h != s && h.Hashed? && h.of == s
    ensures Rounds(h) == Rounds(s) + 1
  {
    assert Rounds(Hashed(s)) != Rounds(s);
    Hashed(s)
  }

  /** `bcrypt.compare(password, stored)`: the stored value is the hash of exactly that text. */
  predicate Compare(password: string, stored: Secret) {
    stored == Hash(Plain(password))
  }

  lemma CompareAcceptsOnlyTheHashedPassword(password: string, other: string)
    ensures Compare(password, Hash(Plain(password)))
    ensures Compare(other, Hash(Plain(password))) ==> other == password
    ensures !Compare(password, Plain(password))
    ensures !Compare(password, Hash(Hash(Plain(password))))
  {}

  /** The claims this system puts in a token; every one may be missing from a foreign token. */
  datatype Payload = Payload(userId: Option<Id>, email: Option<string>, role: Option<string>)

  /** A decoded token body: the payload with the registered `iat`, `nbf` and `exp` claims. */
  datatype Claims = Claims(payload: Payload, iat: Time, nbf: Option<Time>, exp: Option<Time>)

  /** The token format as an oracle: `encode` serialises and signs, `decode` parses without
      checking, `signedWith(token, secret)` checks the signature. */
  datatype Library = Library(
    encode: (Claims, string) -> string,
    decode: string -> Option<Claims>,
    signedWith: (string, string) -> bool)

  /** What the model relies on: encoding yields a non-empty token, decoding inverts encoding,
      an encoded token carries a valid signature for its secret, and no token carries valid
      signatures for two secrets. */
  ghost predicate Sound(lib: Library) {
    (forall c: Claims, k: string :: lib.encode(c, k) != "")
    && (forall c: Claims, k: string :: lib.decode(lib.encode(c, k)) == Some(c))
    && (forall c: Claims, k: string :: lib.signedWith(lib.encode(c, k), k))
    && (forall t: string, k1: string, k2: string :: lib.signedWith(t, k1) && lib.signedWith(t, k2) ==> k1 == k2)
  }

  /** `jwt.sign(payload, secret, { expiresIn: ttl })` at time `now`: `iat` is the signing time
      and `exp` lies `ttl` seconds later. An empty secret makes `jwt.sign` throw; the secrets
      come from configuration with non-empty fallbacks, so callers never pass one. */
  function Sign(lib: Library, payload: Payload, secret: string, now: Time, ttl: int): (token: string)
    requires secret != ""
    ensures Sound(lib) ==> lib.decode(token) == Some(Claims(payload, now, None, Some(now + ttl)))
    ensures Sound(lib) ==> lib.signedWith(token, secret) && token != ""
  {
    lib.encode(Claims(payload, now, None, Some(now + ttl)), secret)
  }

  /** The error classes `jwt.verify` throws, by their `name`. */
  datatype VerifyError = JsonWebTokenError | NotBeforeError | TokenExpiredError

  datatype Verdict = Verified(claims: Claims) | Rejected(error: VerifyError)

  /** `jwt.verify(token, secret)` at time `now`, checking in the library's order: a token and a
      secret must be given, the token must parse, the signature must match, `nbf` must not lie
      in the future, and `exp` must lie strictly in the future. */
  function Verify(lib: Library, token: string, secret: string, now: Time): (v: Verdict)
    ensures v.Verified? <==> token != "" && secret != "" && lib.decode(token).Some? && lib.signedWith(token, secret)
                             && !(lib.decode(token).value.nbf.Some? && lib.decode(token).value.nbf.value > now)
                             && !(lib.decode(token).value.exp.Some? && now >= lib.decode(token).value.exp.value)
    ensures v.Verified? ==> lib.decode(token) == Some(v.claims)
    ensures v == Rejected(TokenExpiredError) ==> lib.signedWith(token, secret)
  {
    if token == "" || secret == "" then Rejected(JsonWebTokenError)
    else match lib.decode(token)
      case None => Rejected(JsonWebTokenError)
      case Some(claims) =>
        if !lib.signedWith(token, secret) then Rejected(JsonWebTokenError)
        else if claims.nbf.Some? && claims.nbf.value > now then Rejected(NotBeforeError)
        else if claims.exp.Some? && now >= claims.exp.value then Rejected(TokenExpiredError)
        else Verified(claims)
  }

  /** A token verifies with its own secret until `ttl` seconds have passed, and never after. */
  lemma SignThenVerify(lib: Library, payload: Payload, secret: string, issued: Time, ttl: int, now: Time)
    requires Sound(lib) && secret != ""
    ensures now < issued + ttl ==>
      Verify(lib, Sign(lib, payload, secret, issued, ttl), secret, now) == Verified(Claims(payload, issued, None, Some(issued + ttl)))
    ensures now >= issued + ttl ==>
      Verify(lib, Sign(lib, payload, secret, issued, ttl), secret, now) == Rejected(TokenExpiredError)
  {}

  /** A token signed with one secret is refused under any other one. */
  lemma OtherSecretRejects(lib: Library, payload: Payload, secret: string, other: string, issued: Time, ttl: int, now: Time)
    requires Sound(lib) && secret != "" && other != secret
    ensures Verify(lib, Sign(lib, payload, secret, issued, ttl), other, now) == Rejected(JsonWebTokenError)
  {
    var token := Sign(lib, payload, secret, issued, ttl);
    assert lib.signedWith(token, secret);
  }

  /** Tokens that decode to different claims are different strings. */
  lemma DistinctClaimsDistinctTokens(lib: Library, c1: Claims, c2: Claims, k1: string, k2: string)
    requires Sound(lib) && c1 != c2
    ensures lib.encode(c1, k1) != lib.encode(c2, k2)
  {
    assert lib.decode(lib.encode(c1, k1)) == Some(c1);
    assert lib.decode(lib.encode(c2, k2)) == Some(c2);
  }
}
