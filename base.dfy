/** Shared vocabulary of the model: optional values (JavaScript `null`/`undefined`),
    the outcome of a request handler, identifiers, clock readings and truthiness. */
module Base {

  datatype Option<+T> = None | Some(value: T) {
    function GetOr(default: T): T {
      match this
      case Some(v) => v
      case None => default
    }
  }

  /** Outcome of an HTTP handler: a status code with either a payload or an error message. */
  datatype Reply<+T> = Success(code: nat, data: T) | Failure(code: nat, message: string)
  {
    function Code(): nat {
      match this
      case Success(c, _) => c
      case Failure(c, _) => c
    }
  }

  /** Primary keys (UUID text) are opaque strings. */
  type Id = string

  /** A clock reading in whole seconds, as `jsonwebtoken` uses for `iat` and `exp`. */
  type Time = int

  /** JavaScript truthiness of a nullable string: present and non-empty. */
  predicate TruthyText(s: Option<string>) {
    s.Some? && s.value != ""
  }

  /** JavaScript truthiness of a nullable number: present and non-zero. */
  predicate TruthyNumber(n: Option<int>) {
    n.Some? && n.value != 0
  }

  /** `if (x) field = x`: the given value when truthy, otherwise the current one. */
  function IfTruthy(given: Option<string>, current: Option<string>): (r: Option<string>)
    ensures TruthyText(given) ==> r == given
    ensures !TruthyText(given) ==> r == current
  {
    if TruthyText(given) then given else current
  }

  /** A `where` clause applied to rows: the rows `keep` admits, in their given order. */
  function Select<T(!new)>(rows: seq<T>, keep: T -> bool): (r: seq<T>)
    ensures |r| <= |rows|
    ensures forall x :: x in r <==> x in rows && keep(x)
  {
    if rows == [] then []
    else
      var rest := Select(rows[1..], keep);
      assert forall x :: x in rows <==> x == rows[0] || x in rows[1..];
      if keep(rows[0]) then [rows[0]] + rest else rest
  }
}
