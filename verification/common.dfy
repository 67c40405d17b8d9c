/** Small wrapper datatypes shared by every handler model.
    `Option` stands for a JavaScript value that may be `undefined`/`null`;
    `Outcome` is an HTTP handler's answer: either a 200 body or an error
    status with its message. */
module Common {

  datatype Option<+T> = None | Some(value: T) {

    /** The value, or `default` when absent (the source's `x || d` / `x ?? d`
        on a value that is never falsy when present). */
    function GetOr(default: T): T {
      match this
      case Some(v) => v
      case None => default
    }
  }

  /** A route handler's response: a success body, or an HTTP error status
      with the message the handler puts under `error`. */
  datatype Outcome<+T> = Ok(body: T) | Err(status: int, message: string) {

    function Status(): int {
      match this
      case Ok(_) => 200
      case Err(s, _) => s
    }
  }

  /** JavaScript truthiness of an optional string: present and non-empty. */
  predicate Truthy(s: Option<string>) {
    s.Some? && s.value != ""
  }

  /** `s || ""` on an optional string. */
  function OrEmpty(s: Option<string>): string {
    s.GetOr("")
  }

  /** `a || b` on optional strings: `a` when it is truthy, else `b`. */
  function Or(a: Option<string>, b: Option<string>): (r: Option<string>)
    ensures Truthy(a) ==> r == a
    ensures !Truthy(a) ==> r == b
  {
    if Truthy(a) then a else b
  }

  /** `a || null`: the value when truthy, otherwise absent. */
  function TruthyOrNone(a: Option<string>): (r: Option<string>)
    ensures Truthy(a) <==> r.Some?
    ensures r.Some? ==> r == a
  {
    if Truthy(a) then a else None
  }

  /** JavaScript truthiness of an optional number: present and non-zero
      (NaN is represented by absence). */
  predicate TruthyNum(n: Option<int>) {
    n.Some? && n.value != 0
  }

  /** `n || 0` on an optional number. */
  function NumOrZero(n: Option<int>): int {
    if n.Some? then n.value else 0
  }
}
