/**
 * Sequences of key presses. Each key calls one handler; these lemmas follow
 * the state through any number of them.
 */
module Runs {
  import opened Wrappers
  import opened Arith
  import opened Engine
  import Laws

  /** A key press, named by the handler it calls. */
  datatype Key =
    | DigitKey(d: Digit)
    | DotKey
    | OperatorKey(op: Op)
    | EqualsKey
    | ClearKey
    | SignKey
    | PercentKey
    | BackspaceKey

  function Press(nums: Conversions, s: State, k: Key): State {
    match k
    case DigitKey(d) => InputDigit(s, d)
    case DotKey => InputDot(s)
    case OperatorKey(op) => PerformOperation(nums, s, op)
    case EqualsKey => ComputeEquals(nums, s)
    case ClearKey => ClearAll()
    case SignKey => ToggleSign(nums, s)
    case PercentKey => Percent(nums, s)
    case BackspaceKey => Backspace(s)
  }

  /** The state after pressing `keys` in order, starting from `s`. */
  function Run(nums: Conversions, s: State, keys: seq<Key>): State
    decreases |keys|
  {
    if keys == [] then s else Run(nums, Press(nums, s, keys[0]), keys[1..])
  }

  /** The keys that type the digits `ds`. */
  function DigitKeys(ds: seq<Digit>): seq<Key> {
    if ds == [] then [] else [DigitKey(ds[0])] + DigitKeys(ds[1..])
  }

  function Min(a: nat, b: nat): nat {
    if a <= b then a else b
  }

  lemma RunStep(nums: Conversions, s: State, k: Key, keys: seq<Key>)
    ensures Run(nums, s, [k] + keys) == Run(nums, Press(nums, s, k), keys)
  {
    assert ([k] + keys)[1..] == keys;
  }

  /** Every sequence of keys keeps the engine's invariant. */
  lemma {:induction false} RunKeepsInv(nums: Conversions, s: State, keys: seq<Key>)
    requires Inv(s)
    ensures Inv(Run(nums, s, keys))
    decreases |keys|
  {
    if keys != [] {
      RunKeepsInv(nums, Press(nums, s, keys[0]), keys[1..]);
    }
  }

  /** Every state reachable from the start satisfies the invariant. */
  lemma Reachable(nums: Conversions, keys: seq<Key>)
    ensures Inv(Run(nums, Initial, keys))
  {
    RunKeepsInv(nums, Initial, keys);
  }

  /** A string of digits has no decimal point, so its whole length counts toward the cap. */
  lemma DigitsLength(ds: seq<Digit>)
    ensures EntryLength(ds) == |ds|
  {
    assert forall i :: 0 <= i < |ds| ==> ds[i] != '.';
  }

  /** The state after typing the digits `ds` in order. */
  function TypeDigits(s: State, ds: seq<Digit>): State
    decreases |ds|
  {
    if ds == [] then s else TypeDigits(InputDigit(s, ds[0]), ds[1..])
  }

  /** Pressing digit keys is typing their digits. */
  lemma {:induction false} RunDigitKeys(nums: Conversions, s: State, ds: seq<Digit>)
    ensures Run(nums, s, DigitKeys(ds)) == TypeDigits(s, ds)
    decreases |ds|
  {
    if ds != [] {
      assert DigitKeys(ds) == [DigitKey(ds[0])] + DigitKeys(ds[1..]);
      RunStep(nums, s, DigitKey(ds[0]), DigitKeys(ds[1..]));
      RunDigitKeys(nums, InputDigit(s, ds[0]), ds[1..]);
    }
  }

  /** A digit counts once toward the cap. */
  lemma EntryLengthGrows(v: string, d: Digit)
    ensures EntryLength(v + [d]) == EntryLength(v) + 1
  {
    assert '.' in v + [d] <==> '.' in v by {
      assert (v + [d])[|v|] == d;
      assert forall i :: 0 <= i < |v| ==> (v + [d])[i] == v[i];
    }
  }

  /**
   * Digits typed onto an entry with room for all of them are appended, and
   * nothing else changes; a decimal point already in the entry is not counted.
   */
  lemma {:induction false} AppendDigits(t: State, rest: seq<Digit>)
    requires !t.isError && !t.waitingForOperand && 0 < |t.currentValue| && t.currentValue != "0"
    requires EntryLength(t.currentValue) + |rest| <= MaxInputLength
    ensures TypeDigits(t, rest) == t.(currentValue := t.currentValue + rest)
    decreases |rest|
  {
    if rest == [] {
      assert t.currentValue + rest == t.currentValue;
    } else {
      var d := rest[0];
      var t1 := t.(currentValue := t.currentValue + [d]);
      assert InputDigit(t, d) == t1;
      EntryLengthGrows(t.currentValue, d);
      AppendDigits(t1, rest[1..]);
      assert [d] + rest[1..] == rest;
      assert t1.currentValue + rest[1..] == t.currentValue + rest;
    }
  }

  /** Digits typed onto an entry at the cap are ignored. */
  lemma {:induction false} DigitsIgnoredAtCap(t: State, rest: seq<Digit>)
    requires !t.isError && !t.waitingForOperand && t.currentValue != "0"
    requires EntryLength(t.currentValue) >= MaxInputLength
    ensures TypeDigits(t, rest) == t
    decreases |rest|
  {
    if rest != [] {
      assert InputDigit(t, rest[0]) == t;
      DigitsIgnoredAtCap(t, rest[1..]);
    }
  }

  lemma {:induction false} TypeDigitsAppend(s: State, a: seq<Digit>, b: seq<Digit>)
    ensures TypeDigits(s, a + b) == TypeDigits(TypeDigits(s, a), b)
    decreases |a|
  {
    if a == [] {
      assert a + b == b;
    } else {
      assert (a + b)[1..] == a[1..] + b;
      TypeDigitsAppend(InputDigit(s, a[0]), a[1..], b);
    }
  }

  /**
   * Typing a number that does not start with '0' at a fresh entry (after an
   * operator, equals, clear, an error, or at "0") shows exactly its first
   * nine digits; the digits after those are ignored.
   */
  lemma TypeNumber(nums: Conversions, s: State, ds: seq<Digit>)
    requires s.isError || s.waitingForOperand || s.currentValue == "0"
    requires ds != [] && ds[0] != '0'
    ensures Run(nums, s, DigitKeys(ds)) ==
      ClearIfError(s).(currentValue := ds[..Min(|ds|, MaxInputLength)], waitingForOperand := false)
  {
    var n := Min(|ds|, MaxInputLength);
    var typed := ClearIfError(s).(currentValue := ds[..n], waitingForOperand := false);
    RunDigitKeys(nums, s, ds);
    var t := ClearIfError(s).(currentValue := [ds[0]], waitingForOperand := false);
    DigitAtFreshEntry(s, ds[0]);
    assert EntryLength(t.currentValue) == 1 by {
      assert t.currentValue[0] == ds[0];
    }
    AppendDigits(t, ds[1..n]);
    assert [ds[0]] + ds[1..n] == ds[..n];
    assert TypeDigits(s, ds[..n]) == typed by {
      assert ds[..n][0] == ds[0] && ds[..n][1..] == ds[1..n];
    }
    assert ds == ds[..n] + ds[n..];
    TypeDigitsAppend(s, ds[..n], ds[n..]);
    if n < |ds| {
      DigitsLength(ds[..n]);
      DigitsIgnoredAtCap(typed, ds[n..]);
    } else {
      assert ds[n..] == [];
    }
  }

  /**
   * A decimal number typed at a fresh entry: '.' then digits shows "0."
   * followed by the digits, so "." 1 2 3 shows "0.123".
   */
  lemma TypeDecimal(nums: Conversions, s: State, ds: seq<Digit>)
    requires s.isError || s.waitingForOperand || s.currentValue == "0"
    requires |ds| < MaxInputLength
    ensures Run(nums, s, [DotKey] + DigitKeys(ds)) ==
      ClearIfError(s).(currentValue := "0." + ds, waitingForOperand := false)
  {
    var t := ClearIfError(s).(currentValue := "0.", waitingForOperand := false);
    RunStep(nums, s, DotKey, DigitKeys(ds));
    DotAtFreshEntry(s);
    RunDigitKeys(nums, t, ds);
    assert EntryLength(t.currentValue) == 1 by {
      assert t.currentValue[1] == '.';
    }
    AppendDigits(t, ds);
  }

  /** '.' at a fresh entry shows "0.". */
  lemma DotAtFreshEntry(s: State)
    requires s.isError || s.waitingForOperand || s.currentValue == "0"
    ensures InputDot(s) == ClearIfError(s).(currentValue := "0.", waitingForOperand := false)
  {
    var b := ClearIfError(s);
    if !b.waitingForOperand {
      assert b.currentValue == "0";
      assert IndexOf(b.currentValue, '.') == -1;
    }
  }

  /** A digit at a fresh entry replaces it. */
  lemma DigitAtFreshEntry(s: State, d: Digit)
    requires s.isError || s.waitingForOperand || s.currentValue == "0"
    ensures InputDigit(s, d) == ClearIfError(s).(currentValue := [d], waitingForOperand := false)
  {
  }

  /** Leading zeros are suppressed: zeros typed at a fresh entry leave "0". */
  lemma {:induction false} LeadingZeros(s: State, n: nat)
    requires !s.isError && !s.waitingForOperand && s.currentValue == "0"
    ensures TypeDigits(s, seq(n, _ => '0')) == s
    decreases n
  {
    if n > 0 {
      var zeros: seq<Digit> := seq(n, _ => '0');
      assert zeros[1..] == seq(n - 1, _ => '0');
      LeadingZeros(s, n - 1);
    }
  }

  /** The keys that do nothing in the error state. */
  predicate Blocked(k: Key) {
    k.OperatorKey? || k.EqualsKey? || k.SignKey? || k.PercentKey?
  }

  /** Once in the error state, only clear, digit, dot and backspace leave it. */
  lemma {:induction false} ErrorPersists(nums: Conversions, keys: seq<Key>)
    requires forall i :: 0 <= i < |keys| ==> Blocked(keys[i])
    ensures Run(nums, ErrorState, keys) == ErrorState
    decreases |keys|
  {
    if keys != [] {
      ErrorPersists(nums, keys[1..]);
    }
  }

  /** The keys that only edit the entry. */
  predicate Editing(k: Key) {
    k.DigitKey? || k.DotKey? || k.BackspaceKey? || k.ClearKey?
  }

  /** One editing key never makes a second decimal point. */
  lemma EditKeepsSingleDot(nums: Conversions, s: State, k: Key)
    requires multiset(s.currentValue)['.'] <= 1
    requires Editing(k)
    ensures multiset(Press(nums, s, k).currentValue)['.'] <= 1
  {
    match k
    case DigitKey(d) => Laws.DigitAddsNoDot(s, d);
    case DotKey =>
    case BackspaceKey => Laws.BackspaceAddsNoDot(s);
    case ClearKey =>
  }

  /** An entry edited only by digit, dot, backspace and clear keys never holds two decimal points. */
  lemma {:induction false} SingleDecimalPoint(nums: Conversions, s: State, keys: seq<Key>)
    requires multiset(s.currentValue)['.'] <= 1
    requires forall i :: 0 <= i < |keys| ==> Editing(keys[i])
    ensures multiset(Run(nums, s, keys).currentValue)['.'] <= 1
    decreases |keys|
  {
    if keys != [] {
      EditKeepsSingleDot(nums, s, keys[0]);
      SingleDecimalPoint(nums, Press(nums, s, keys[0]), keys[1..]);
    }
  }

  /**
   * The chained example: 5 + 3 + 2 = shows 10, the second + having
   * evaluated 5 + 3 into the pending operand 8.
   */
  lemma ChainedOperations(nums: Conversions)
    requires nums.parse("5") == 5.0 && nums.parse("3") == 3.0 && nums.parse("2") == 2.0
    requires nums.finite(8.0) && nums.finite(10.0)
    ensures Run(nums, Initial, [DigitKey('5'), OperatorKey(Add), DigitKey('3'), OperatorKey(Add), DigitKey('2'), EqualsKey])
      == State(nums.show(10.0), None, None, true, false)
  {
    var s1 := State("5", None, None, false, false);
    var s2 := State("5", Some(5.0), Some(Add), true, false);
    var s3 := State("3", Some(5.0), Some(Add), false, false);
    var s4 := State(nums.show(8.0), Some(8.0), Some(Add), true, false);
    var s5 := State("2", Some(8.0), Some(Add), false, false);
    var k5: seq<Key> := [EqualsKey];
    var k4 := [DigitKey('2')] + k5;
    var k3 := [OperatorKey(Add)] + k4;
    var k2 := [DigitKey('3')] + k3;
    var k1 := [OperatorKey(Add)] + k2;
    var k0 := [DigitKey('5')] + k1;
    assert k0 == [DigitKey('5'), OperatorKey(Add), DigitKey('3'), OperatorKey(Add), DigitKey('2'), EqualsKey];
    RunStep(nums, Initial, DigitKey('5'), k1);
    assert InputDigit(Initial, '5') == s1;
    RunStep(nums, s1, OperatorKey(Add), k2);
    assert PerformOperation(nums, s1, Add) == s2;
    RunStep(nums, s2, DigitKey('3'), k3);
    assert InputDigit(s2, '3') == s3;
    RunStep(nums, s3, OperatorKey(Add), k4);
    assert Calculate(5.0, 3.0, Add) == Some(8.0);
    assert PerformOperation(nums, s3, Add) == s4;
    RunStep(nums, s4, DigitKey('2'), k5);
    assert InputDigit(s4, '2') == s5;
    RunStep(nums, s5, EqualsKey, []);
    assert k5 == [EqualsKey] + [];
    assert Calculate(8.0, 2.0, Add) == Some(10.0);
  }
}
