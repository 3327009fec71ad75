/**
 * The calculator engine as a pure state machine: the five state variables
 * of the script as one value, and one function per handler giving the state
 * that handler leaves behind. The class in module Machine is proved to
 * follow these functions step by step.
 */
module Engine {
  import opened Wrappers
  import opened Arith

  /** The most characters an entry may hold, its first decimal point not counted. */
  const MaxInputLength := 9

  /** The key of a digit button, '0' to '9'. */
  type Digit = c: char | '0' <= c <= '9' witness '0'

  /** The script's five state variables. */
  datatype State = State(
    currentValue: string,
    previousValue: Option<real>,
    operator: Option<Op>,
    waitingForOperand: bool,
    isError: bool)

  /** The values the variables are declared with. */
  const Initial := State("0", None, None, false, false)

  /** The single state an arithmetic failure leads to. */
  const ErrorState := State("Error", None, None, false, true)

  /**
   * What every handler keeps: an operand is stored exactly when an operator
   * is pending, and the error flag means the error state and nothing else.
   */
  predicate Inv(s: State) {
    (s.previousValue.None? <==> s.operator.None?) &&
    (s.isError ==> s == ErrorState)
  }

  // ---------------------------------------------------------------------
  // String operations the handlers use

  /** `s.indexOf(c)`: the first position of `c` in `s`, or -1. */
  function IndexOf(s: string, c: char): (r: int)
    ensures -1 <= r < |s|
    ensures r == -1 <==> c !in s
    ensures 0 <= r ==> s[r] == c && c !in s[..r]
  {
    if |s| == 0 then -1
    else if s[0] == c then 0
    else
      var k := IndexOf(s[1..], c);
      assert s == [s[0]] + s[1..];
      if k == -1 then -1
      else
        assert s[..k + 1] == [s[0]] + s[1..][..k];
        k + 1
  }

  /** `s.replace(c, '')` with a one-character pattern: drops the first `c` only. */
  function RemoveFirst(s: string, c: char): (r: string)
    ensures c !in s ==> r == s
    ensures c in s ==> |r| == |s| - 1 && multiset(r) == multiset(s) - multiset{c}
    ensures c in s ==> exists i :: 0 <= i < |s| && s[i] == c && c !in s[..i] && r == s[..i] + s[i + 1..]
  {
    var i := IndexOf(s, c);
    if i == -1 then s
    else
      assert s == s[..i] + [s[i]] + s[i + 1..];
      s[..i] + s[i + 1..]
  }

  /** The length the input cap is measured on: the entry without its first '.'. */
  function EntryLength(value: string): (n: nat)
    ensures n == if '.' in value then |value| - 1 else |value|
  {
    |RemoveFirst(value, '.')|
  }

  // ---------------------------------------------------------------------
  // Handlers

  /** `clearAll`: every variable back to its declared value. */
  function ClearAll(): (r: State)
    ensures r == Initial
    ensures Inv(r) && IsTyping(r) && ClearLabel(r) == "AC"
  {
    State("0", None, None, false, false)
  }

  /** The reset `inputDigit` and `inputDot` perform first when in the error state. */
  function ClearIfError(s: State): (r: State)
    ensures !r.isError
    ensures Inv(s) ==> Inv(r)
  {
    if s.isError then ClearAll() else s
  }

  /** The error branch of `performOperation` and `computeEquals`. */
  function Fail(s: State): (r: State)
    ensures !s.waitingForOperand ==> r == ErrorState
    ensures r.isError && r.currentValue == "Error"
  {
    s.(isError := true, currentValue := "Error", previousValue := None, operator := None)
  }

  /**
   * `inputDigit`: the digit starts a new entry, replaces a lone "0", or is
   * appended while the entry is below the length cap.
   */
  function InputDigit(s: State, d: Digit): (r: State)
    ensures Inv(s) ==> Inv(r)
    ensures IsTyping(r)
  {
    var b := ClearIfError(s);
    if b.waitingForOperand then
      b.(currentValue := [d], waitingForOperand := false)
    else if b.currentValue == "0" then
      b.(currentValue := [d])
    else if EntryLength(b.currentValue) < MaxInputLength then
      b.(currentValue := b.currentValue + [d])
    else
      b
  }

  /**
   * `inputDot`: "0." starts a new entry after an operator or equals;
   * otherwise '.' is appended unless the entry already holds one.
   */
  function InputDot(s: State): (r: State)
    ensures Inv(s) ==> Inv(r)
    ensures IsTyping(r)
    ensures var b := ClearIfError(s);
      r.previousValue == b.previousValue && r.operator == b.operator
    ensures '.' in r.currentValue
    ensures multiset(r.currentValue)['.'] == 1 || r.currentValue == ClearIfError(s).currentValue
    ensures var b := ClearIfError(s);
      !b.waitingForOperand ==> r.currentValue == b.currentValue || r.currentValue == b.currentValue + "."
  {
    var b := ClearIfError(s);
    if b.waitingForOperand then
      b.(currentValue := "0.", waitingForOperand := false)
    else if IndexOf(b.currentValue, '.') == -1 then
      b.(currentValue := b.currentValue + ".")
    else
      b
  }

  /**
   * `performOperation`: stores the entry as the left operand, or first
   * evaluates the pending operation when a new operand has been typed; then
   * `nextOp` becomes the pending operator.
   */
  function PerformOperation(nums: Conversions, s: State, nextOp: Op): (r: State)
    ensures s.isError ==> r == s
    ensures Inv(s) ==> Inv(r)
    ensures !r.isError ==>
      r.operator == Some(nextOp) && r.previousValue.Some? && r.waitingForOperand
    ensures !s.isError && s.waitingForOperand && s.previousValue.Some? ==>
      r == s.(operator := Some(nextOp))
    ensures r.isError && !s.isError ==>
      s.previousValue.Some? && s.operator.Some? && !s.waitingForOperand &&
      var c := Calculate(s.previousValue.value, nums.parse(s.currentValue), s.operator.value);
      c.None? || !nums.finite(c.value)
  {
    var inputValue := nums.parse(s.currentValue);
    if s.isError then s
    else if s.previousValue.None? then
      s.(previousValue := Some(inputValue), waitingForOperand := true, operator := Some(nextOp))
    else if s.operator.Some? && !s.waitingForOperand then
      var result := Calculate(s.previousValue.value, inputValue, s.operator.value);
      if result.None? || !nums.finite(result.value) then Fail(s)
      else
        s.(currentValue := nums.show(result.value), previousValue := result,
           waitingForOperand := true, operator := Some(nextOp))
    else
      s.(waitingForOperand := true, operator := Some(nextOp))
  }

  /**
   * `computeEquals`: evaluates the pending operation once a right operand
   * has been typed, and leaves no operation pending.
   */
  function ComputeEquals(nums: Conversions, s: State): (r: State)
    ensures Inv(s) ==> Inv(r)
    ensures s.isError || s.operator.None? || s.previousValue.None? || s.waitingForOperand ==> r == s
    ensures !s.isError && s.operator.Some? && s.previousValue.Some? && !s.waitingForOperand ==>
      r.previousValue.None? && r.operator.None? && (r.isError || r.waitingForOperand)
    ensures r.isError && !s.isError ==>
      var c := Calculate(s.previousValue.value, nums.parse(s.currentValue), s.operator.value);
      c.None? || !nums.finite(c.value)
  {
    var inputValue := nums.parse(s.currentValue);
    if s.isError then s
    else if s.operator.Some? && s.previousValue.Some? && !s.waitingForOperand then
      var result := Calculate(s.previousValue.value, inputValue, s.operator.value);
      if result.None? || !nums.finite(result.value) then Fail(s)
      else
        s.(currentValue := nums.show(result.value), previousValue := None,
           operator := None, waitingForOperand := true)
    else
      s
  }

  /** `toggleSign`: shows the negated entry unless it reads as zero. */
  function ToggleSign(nums: Conversions, s: State): (r: State)
    ensures Inv(s) ==> Inv(r)
    ensures r == s.(currentValue := r.currentValue)
    ensures s.isError || nums.parse(s.currentValue) == 0.0 ==> r == s
    ensures !s.isError && nums.parse(s.currentValue) != 0.0 ==>
      r.currentValue == nums.show(-nums.parse(s.currentValue))
  {
    if s.isError then s
    else
      var value := nums.parse(s.currentValue);
      if value != 0.0 then s.(currentValue := nums.show(value * -1.0)) else s
  }

  /** `value` percent of `base`, computed as `(base * value) / 100`. */
  function PercentOf(base: real, value: real): (p: real)
    ensures 100.0 * p == base * value
  {
    (base * value) / 100.0
  }

  /** An addition or subtraction is pending and its right operand has been typed. */
  function RelativePercent(s: State): (b: bool)
    ensures b ==> s.previousValue.Some? && (s.operator == Some(Add) || s.operator == Some(Sub))
    ensures b ==> IsTyping(s) || s.isError
  {
    s.previousValue.Some? && s.operator.Some? && !s.waitingForOperand &&
    (s.operator.value == Add || s.operator.value == Sub)
  }

  /**
   * `percent`: shows the entry divided by 100; while an addition or
   * subtraction awaits this operand, that share of the left operand instead.
   */
  function Percent(nums: Conversions, s: State): (r: State)
    ensures Inv(s) ==> Inv(r)
    ensures r == s.(currentValue := r.currentValue)
    ensures s.isError ==> r == s
    ensures !s.isError ==> exists p: real {:trigger nums.show(p)} ::
      r.currentValue == nums.show(p) &&
      100.0 * p == (if RelativePercent(s) then s.previousValue.value else 1.0) * nums.parse(s.currentValue)
  {
    if s.isError then s
    else
      var value := nums.parse(s.currentValue);
      if s.previousValue.Some? && s.operator.Some? && !s.waitingForOperand then
        if s.operator.value == Add || s.operator.value == Sub then
          s.(currentValue := nums.show(PercentOf(s.previousValue.value, value)))
        else
          s.(currentValue := nums.show(value / 100.0))
      else
        s.(currentValue := nums.show(value / 100.0))
  }

  /** The entry never shows nothing or a lone minus sign. */
  predicate Shown(value: string) {
    value != "" && value != "-"
  }

  /**
   * `backspace`: drops the last character of an entry being typed, falling
   * back to "0" rather than leaving it empty or a lone "-".
   */
  function Backspace(s: State): (r: State)
    ensures Inv(s) ==> Inv(r)
    ensures s.isError ==> r == Initial
    ensures !s.isError ==> r == s.(currentValue := r.currentValue)
    ensures !s.isError && (s.waitingForOperand || s.currentValue == "0") ==> r == s
    ensures !s.isError && !s.waitingForOperand && s.currentValue != "0" ==>
      Shown(r.currentValue) &&
      (r.currentValue == "0" || (|r.currentValue| + 1 == |s.currentValue| && r.currentValue <= s.currentValue))
    ensures !s.isError && !s.waitingForOperand && s.currentValue != "0" && |s.currentValue| > 1 ==>
      var shorter := s.currentValue[..|s.currentValue| - 1];
      shorter != "-" ==> r.currentValue == shorter
  {
    if s.isError then ClearAll()
    else if !s.waitingForOperand && s.currentValue != "0" then
      if |s.currentValue| > 1 then
        var shorter := s.currentValue[..|s.currentValue| - 1];
        s.(currentValue := if shorter == "-" then "0" else shorter)
      else
        s.(currentValue := "0")
    else
      s
  }

  // ---------------------------------------------------------------------
  // Display decisions

  /** Whether the display shows the raw entry rather than a formatted number. */
  function IsTyping(s: State): (b: bool)
    ensures s == ErrorState ==> !b
    ensures s == Initial ==> b
  {
    !s.waitingForOperand && !s.isError
  }

  /** The label of the clear button. */
  function ClearLabel(s: State): (l: string)
    ensures l == "AC" || l == "C"
    ensures l == "AC" <==> s.currentValue == "0" && s.previousValue.None?
    ensures s.previousValue.Some? ==> l == "C"
  {
    if s.currentValue == "0" && s.previousValue.None? then "AC" else "C"
  }
}
