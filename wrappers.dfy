/** Small value wrappers shared by every module of the model. */
module Wrappers {
  /** A value that may be absent: SQL NULL, a missing JSON key, Rust's `Option`. */
  datatype Option<T> = None | Some(value: T)

  /**
   * The outcome of an HTTP handler: a successful body, or the status code and
   * message the handler answers with.
   */
  datatype Outcome<T> = Ok(value: T) | Fail(status: int, message: string)
  {
    predicate IsOk() { this.Ok? }
  }

  /** JavaScript truthiness of an optional string: absent and "" are falsy. */
  predicate TruthyText(s: Option<string>)
  {
    s.Some? && s.value != ""
  }

  /** `s || fallback` for an optional string. */
  function TextOr(s: Option<string>, fallback: string): (r: string)
    ensures TruthyText(s) ==> r == s.value
    ensures !TruthyText(s) ==> r == fallback
  {
    if TruthyText(s) then s.value else fallback
  }

  /** `n || fallback` for an optional number: absent and 0 are falsy. */
  function NumberOr(n: Option<real>, fallback: real): (r: real)
    ensures n.Some? && n.value != 0.0 ==> r == n.value
    ensures (n.None? || n.value == 0.0) ==> r == fallback
  {
    if n.Some? && n.value != 0.0 then n.value else fallback
  }

  /** `n || fallback` for an optional integer. */
  function IntOr(n: Option<int>, fallback: int): (r: int)
    ensures n.Some? && n.value != 0 ==> r == n.value
    ensures (n.None? || n.value == 0) ==> r == fallback
  {
    if n.Some? && n.value != 0 then n.value else fallback
  }

  /** Rust's `unwrap_or("")` / JavaScript's `x || ''` on an optional string. */
  function OrEmpty(s: Option<string>): (r: string)
    ensures s.Some? ==> r == s.value
    ensures s.None? ==> r == ""
  {
    if s.Some? then s.value else ""
  }

  /**
   * A statement of a handler that can fail is numbered 0, 1, 2, ... in the
   * order it runs; `fault` names the one that fails, if any. A run of `steps`
   * statements is aborted when the failing one is among them.
   */
  predicate Aborts(fault: Option<nat>, steps: nat)
  {
    fault.Some? && fault.value < steps
  }
}
