/**
 * Properties of single handlers and of pairs of handlers, stated over the
 * pure engine.
 */
module Laws {
  import opened Wrappers
  import opened Arith
  import opened Engine

  /**
   * Once a right operand has been typed, equals and a chained operator end in
   * the error state exactly when the calculation is null (division by zero)
   * or its result is not finite (overflow).
   */
  lemma EvaluationFailure(nums: Conversions, s: State, nextOp: Op)
    requires !s.isError && s.previousValue.Some? && s.operator.Some? && !s.waitingForOperand
    ensures var c := Calculate(s.previousValue.value, nums.parse(s.currentValue), s.operator.value);
      ComputeEquals(nums, s) == ErrorState <==> c.None? || !nums.finite(c.value)
    ensures var c := Calculate(s.previousValue.value, nums.parse(s.currentValue), s.operator.value);
      PerformOperation(nums, s, nextOp) == ErrorState <==> c.None? || !nums.finite(c.value)
  {
  }

  /**
   * In the error state the operator, equals, sign and percent keys change
   * nothing, while digit, dot and backspace act as after a clear.
   */
  lemma ErrorGate(nums: Conversions, s: State, d: Digit, op: Op)
    requires s.isError
    ensures PerformOperation(nums, s, op) == s
    ensures ComputeEquals(nums, s) == s
    ensures ToggleSign(nums, s) == s
    ensures Percent(nums, s) == s
    ensures InputDigit(s, d) == InputDigit(ClearAll(), d)
    ensures InputDot(s) == InputDot(ClearAll())
    ensures Backspace(s) == ClearAll()
  {
  }

  /** Dividing by an entry that reads as zero ends in the error state, by equals or by a chained operator. */
  lemma DivisionByZeroFails(nums: Conversions, s: State, nextOp: Op)
    requires !s.isError && s.previousValue.Some? && s.operator == Some(Div) && !s.waitingForOperand
    requires nums.parse(s.currentValue) == 0.0
    ensures ComputeEquals(nums, s) == ErrorState
    ensures PerformOperation(nums, s, nextOp) == ErrorState
  {
  }

  /** The first operator key stores the entry's number as the left operand. */
  lemma FirstOperatorStoresOperand(nums: Conversions, s: State, nextOp: Op)
    requires !s.isError && s.previousValue.None?
    ensures PerformOperation(nums, s, nextOp) ==
      s.(previousValue := Some(nums.parse(s.currentValue)), operator := Some(nextOp), waitingForOperand := true)
  {
  }

  /**
   * An operator key after a new operand evaluates the pending operation:
   * its result is shown and becomes the left operand of `nextOp`.
   */
  lemma ChainedOperatorEvaluates(nums: Conversions, s: State, nextOp: Op, v: real)
    requires !s.isError && s.previousValue.Some? && s.operator.Some? && !s.waitingForOperand
    requires Calculate(s.previousValue.value, nums.parse(s.currentValue), s.operator.value) == Some(v)
    requires nums.finite(v)
    ensures PerformOperation(nums, s, nextOp) ==
      State(nums.show(v), Some(v), Some(nextOp), true, false)
  {
  }

  /** Equals that succeeds shows the result with nothing pending, ready for a new entry. */
  lemma EqualsStoresResult(nums: Conversions, s: State, v: real)
    requires !s.isError && s.previousValue.Some? && s.operator.Some? && !s.waitingForOperand
    requires Calculate(s.previousValue.value, nums.parse(s.currentValue), s.operator.value) == Some(v)
    requires nums.finite(v)
    ensures ComputeEquals(nums, s) == State(nums.show(v), None, None, true, false)
  {
  }

  /** A failed evaluation leaves only the error state, whatever the state was. */
  lemma FailureIsErrorState(nums: Conversions, s: State, nextOp: Op)
    requires Inv(s)
    ensures ComputeEquals(nums, s).isError ==> ComputeEquals(nums, s) == ErrorState
    ensures PerformOperation(nums, s, nextOp).isError ==> PerformOperation(nums, s, nextOp) == ErrorState
  {
  }

  /** `inputDigit` starts a new entry, replaces a lone "0", or appends below the cap. */
  lemma InputDigitCases(s: State, d: Digit)
    requires !s.isError
    ensures s.waitingForOperand ==>
      InputDigit(s, d) == s.(currentValue := [d], waitingForOperand := false)
    ensures !s.waitingForOperand && s.currentValue == "0" ==>
      InputDigit(s, d) == s.(currentValue := [d])
    ensures !s.waitingForOperand && s.currentValue != "0" && EntryLength(s.currentValue) < MaxInputLength ==>
      InputDigit(s, d) == s.(currentValue := s.currentValue + [d])
    ensures !s.waitingForOperand && s.currentValue != "0" && EntryLength(s.currentValue) >= MaxInputLength ==>
      InputDigit(s, d) == s
  {
  }

  /**
   * The input cap: a digit key never takes an entry past nine characters
   * (its first '.' not counted); at the cap it changes nothing.
   */
  lemma InputDigitCap(s: State, d: Digit)
    ensures EntryLength(InputDigit(s, d).currentValue) <= MaxInputLength || InputDigit(s, d) == ClearIfError(s)
  {
    var b := ClearIfError(s);
    if !b.waitingForOperand && b.currentValue != "0" && EntryLength(b.currentValue) < MaxInputLength {
      assert '.' in b.currentValue + [d] <==> '.' in b.currentValue;
    }
  }

  /** `inputDot` after an operator or equals starts "0."; otherwise it adds '.' only to an entry without one. */
  lemma InputDotCases(s: State)
    requires !s.isError
    ensures s.waitingForOperand ==>
      InputDot(s) == s.(currentValue := "0.", waitingForOperand := false)
    ensures !s.waitingForOperand && '.' !in s.currentValue ==>
      InputDot(s) == s.(currentValue := s.currentValue + ".")
    ensures !s.waitingForOperand && '.' in s.currentValue ==>
      InputDot(s) == s
  {
  }

  /** A digit key never adds a decimal point to the entry. */
  lemma DigitAddsNoDot(s: State, d: Digit)
    ensures multiset(InputDigit(s, d).currentValue)['.'] <= multiset(s.currentValue)['.']
  {
    var b := ClearIfError(s);
    if !b.waitingForOperand && b.currentValue != "0" && EntryLength(b.currentValue) < MaxInputLength {
      assert multiset(b.currentValue + [d]) == multiset(b.currentValue) + multiset{d};
    }
  }

  /** Backspace never adds a decimal point to the entry. */
  lemma BackspaceAddsNoDot(s: State)
    ensures multiset(Backspace(s).currentValue)['.'] <= multiset(s.currentValue)['.']
  {
    var v := s.currentValue;
    var w := Backspace(s).currentValue;
    if !s.isError && w != "0" && w != v {
      assert v == w + v[|w|..];
      assert multiset(v) == multiset(w) + multiset(v[|w|..]);
    }
  }

  /** Backspace removes the digit that was just typed. */
  lemma BackspaceUndoesDigit(s: State, d: Digit)
    requires !s.isError && !s.waitingForOperand && Shown(s.currentValue)
    requires s.currentValue == "0" || EntryLength(s.currentValue) < MaxInputLength
    ensures Backspace(InputDigit(s, d)) == s
  {
    if s.currentValue != "0" {
      var t := s.currentValue + [d];
      assert t[..|t| - 1] == s.currentValue;
    }
  }

  /** Backspace removes the decimal point that was just typed. */
  lemma BackspaceUndoesDot(s: State)
    requires !s.isError && !s.waitingForOperand && Shown(s.currentValue)
    requires '.' !in s.currentValue
    ensures Backspace(InputDot(s)) == s
  {
    var t := s.currentValue + ".";
    assert t[..|t| - 1] == s.currentValue;
  }

  /** Deleting the digit of "-5" leaves "0", not a lone minus sign. */
  lemma BackspaceDropsLoneMinus(s: State)
    requires !s.isError && !s.waitingForOperand && s.currentValue == "-5"
    ensures Backspace(s).currentValue == "0"
  {
  }

  /**
   * Last operator wins: two operator keys in a row act as the second alone,
   * whether the first stored an operand, evaluated a chain or failed.
   */
  lemma LastOperatorWins(nums: Conversions, s: State, first: Op, second: Op)
    ensures PerformOperation(nums, PerformOperation(nums, s, first), second) == PerformOperation(nums, s, second)
  {
  }

  /** Pressing equals a second time changes nothing. */
  lemma EqualsIdempotent(nums: Conversions, s: State)
    ensures ComputeEquals(nums, ComputeEquals(nums, s)) == ComputeEquals(nums, s)
  {
  }

  /**
   * Toggling the sign twice shows the entry's number again, provided the
   * conversions read back the negated number they showed.
   */
  lemma ToggleSignTwice(nums: Conversions, s: State)
    requires !s.isError && nums.parse(s.currentValue) != 0.0
    requires nums.parse(nums.show(-nums.parse(s.currentValue))) == -nums.parse(s.currentValue)
    ensures ToggleSign(nums, ToggleSign(nums, s)) == s.(currentValue := nums.show(nums.parse(s.currentValue)))
  {
  }

  /** 10% while 200 + is pending is 20; 50% with nothing pending is 0.5. */
  lemma PercentExamples(nums: Conversions)
    requires nums.parse("10") == 10.0 && nums.parse("50") == 50.0
    ensures Percent(nums, State("10", Some(200.0), Some(Add), false, false)).currentValue == nums.show(20.0)
    ensures Percent(nums, State("50", None, None, false, false)).currentValue == nums.show(0.5)
  {
  }

  /**
   * The raw entry is shown after digit and dot keys; a number is formatted
   * after an operator key and after an equals that acted.
   */
  lemma TypingFlag(nums: Conversions, s: State, d: Digit, op: Op)
    ensures IsTyping(InputDigit(s, d)) && IsTyping(InputDot(s))
    ensures !IsTyping(PerformOperation(nums, s, op))
    ensures ComputeEquals(nums, s) != s ==> !IsTyping(ComputeEquals(nums, s))
  {
  }

  /**
   * The clear key reads "AC" only when nothing is pending and the entry is
   * "0": never in the error state, never after an operator key or a nonzero digit.
   */
  lemma ClearLabelCases(nums: Conversions, s: State, d: Digit, op: Op)
    requires Inv(s)
    ensures ClearLabel(s) == "AC" ==> !s.isError && s.operator.None? && s.currentValue == "0"
    ensures ClearLabel(PerformOperation(nums, s, op)) == "C"
    ensures d != '0' ==> ClearLabel(InputDigit(s, d)) == "C"
  {
    var b := ClearIfError(s);
    if d != '0' && !b.waitingForOperand && b.currentValue != "0" && EntryLength(b.currentValue) < MaxInputLength {
      var v := b.currentValue + [d];
      assert v[|v| - 1] == d;
      assert v != "0";
    }
  }
}
