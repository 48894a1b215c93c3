/** Small wrapper datatypes shared by the lexer and parser models. */
module Outcomes {

  /** The conventional optional value; stands for a Go pointer that may be nil. */
  datatype Option<+T> = None | Some(value: T)

  /** The outcome of running a step of the original program that may loop forever.
      The lexer's quoted-string scan has no end-of-input check, so on an
      unterminated string the Go code never returns; that case is `Diverges`.
      `Halting` is failure-compatible, so `:-` threads divergence through the
      lexer and parser the way a non-returning call would. */
  datatype Halting<+T> = Done(value: T) | Diverges {

    predicate IsFailure() {
      Diverges?
    }

    function PropagateFailure<U>(): Halting<U>
      requires Diverges?
    {
      Diverges
    }

    function Extract(): T
      requires Done?
    {
      value
    }
  }
}
