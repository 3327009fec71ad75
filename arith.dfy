/**
 * The arithmetic the calculator engine relies on: its four operators, the
 * `calculate` helper, and the JavaScript number conversions it calls.
 */
module Arith {
  import opened Wrappers

  /** The operator keys '+', '-', '*' and '/'. */
  datatype Op = Add | Sub | Mul | Div

  /**
   * The JavaScript number conversions the handlers call: `parseFloat` on the
   * display string, `String(number)` to turn a result back into a string, and
   * `isFinite` to detect overflow. Their floating-point behaviour is not
   * modelled: the engine takes them as parameters, so every property proved
   * below holds whatever they compute.
   */
  datatype Conversions = Conversions(
    parse: string -> real,
    show: real -> string,
    finite: real -> bool)

  /**
   * Applies `op` to `first` and `second`; `None` is the null returned for a
   * division by zero. Each successful result is characterised by the inverse
   * operation that recovers the left operand.
   */
  function Calculate(first: real, second: real, op: Op): (r: Option<real>)
    ensures r.None? <==> op == Div && second == 0.0
    ensures r.Some? && op == Add ==> r.value - second == first
    ensures r.Some? && op == Sub ==> r.value + second == first
    ensures r.Some? && op == Mul && second != 0.0 ==> r.value / second == first
    ensures r.Some? && op == Mul && second == 0.0 ==> r.value == 0.0
    ensures r.Some? && op == Div ==> r.value * second == first
  {
    match op
    case Add => Some(first + second)
    case Sub => Some(first - second)
    case Mul =>
      MulCancels(first, second);
      Some(first * second)
    case Div =>
      if second == 0.0 then None
      else
        DivCancels(first, second);
        Some(first / second)
  }

  lemma MulCancels(a: real, b: real)
    ensures b != 0.0 ==> a * b / b == a
  {
  }

  lemma DivCancels(a: real, b: real)
    requires b != 0.0
    ensures a / b * b == a
  {
  }
}
