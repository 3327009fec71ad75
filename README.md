# iOS-style calculator engine in Dafny

This project models the engine of a browser calculator written in JavaScript
(`script.js`). The engine is a small state machine over five variables:

- `currentValue`, the entry as a string;
- `previousValue`, the stored left operand, or null;
- `operator`, the pending `+ - * /`, or null;
- `waitingForOperand`, set after an operator or equals key;
- `isError`, set after a division by zero or a non-finite result.

Eight handlers update these variables: clear, digit, decimal point, operator,
equals, sign toggle, percent and backspace. The helper `calculate` applies an
operator. The display makes two small decisions: whether the raw entry is
shown (the "typing" flag) and whether the clear key reads AC or C.

The model has these files:

- `wrappers.dfy`: `Option`, standing for JavaScript's `null`.
- `arith.dfy` (module `Arith`): the operators, `Calculate`, and the datatype
  `Conversions`. `Conversions` bundles the three JavaScript number conversions
  the handlers call: `parseFloat`, `String(number)` and `isFinite`.
- `engine.dfy` (module `Engine`): the five variables as one `State` value. It
  has one function per handler, giving the state that handler leaves behind,
  and the invariant `Inv` that every handler keeps.
- `machine.dfy` (module `Machine`): class `Calculator`, with the five variables
  as mutable fields and one method per handler, written statement by statement
  like the script. Each method is proved to leave exactly the state that the
  matching `Engine` function gives.
- `laws.dfy` (module `Laws`): properties of one or two handler calls. These
  cover the error gate, last operator wins, idempotent equals, backspace
  undoing a key, and the input cap.
- `runs.dfy` (module `Runs`): properties of whole sequences of key presses. A
  `Key` names the handler it calls. These cover the invariant over every run,
  typed numbers, leading zeros, the error state persisting, a single decimal
  point, and the chained example 5 + 3 + 2 = 10.

The number conversions are parameters of the engine, so every property holds
whatever those conversions compute. Where a property needs a particular
conversion result (for example that `parseFloat("5")` is 5), the lemma
requires it explicitly.

## Where the code decides

- The input cap measures `currentValue` with its first `'.'` removed. Every
  other character counts, including a leading `'-'`, so a negative entry holds
  at most eight digits. The model follows the code.
- In the error state, the digit, decimal-point and backspace keys first clear
  the calculator and then act. The operator, equals, sign and percent keys do
  nothing. Only this single error-handling variant exists in the code, and it
  is the one modelled.
- A failed evaluation leaves `waitingForOperand` as it was. It is always false
  on that path, so the error state is a single state, `Engine.ErrorState`.

## Model

| member | source | states |
|---|---|---|
| `Arith.Calculate` | script.js:149-165 | the result is null exactly for a division by zero; every other result is characterised by the inverse operation that recovers the left operand |
| `Engine.IndexOf` | script.js:139 | `indexOf`: -1 exactly when the character is absent; otherwise the position of its first occurrence |
| `Engine.RemoveFirst` | script.js:118 | `replace('.', '')` removes only the first occurrence: when the character is present the result is the string with the character at its first position cut out (one character shorter, one fewer of that character); otherwise it is unchanged |
| `Engine.EntryLength` | script.js:118-119 | the length the cap is measured on counts every character of the entry except one decimal point, if there is one |
| `Engine.ClearAll` | script.js:90-95 | clear restores the declared initial state exactly, which keeps the invariant, is shown as typing, and labels the clear key AC |
| `Engine.ClearIfError` | script.js:105-107 | the reset done before digit and dot input leaves no error and keeps the invariant |
| `Engine.Fail` | script.js:185-192 | the error branch sets the error flag and shows "Error"; from a non-waiting state it is exactly the error state |
| `Engine.InputDigit` | script.js:103-125 | a digit key keeps the invariant and always leaves the raw entry shown (not waiting, no error) |
| `Engine.InputDot` | script.js:130-144 | the decimal-point key keeps the invariant and the pending operation; afterwards the entry holds a '.' and never a second one; outside a new entry it only appends |
| `Engine.PerformOperation` | script.js:170-210 | no-op in error; keeps the invariant; on success the new operator is pending with an operand and waiting set; while waiting with an operand stored, only the operator changes; it fails only when the chained calculation is null or not finite |
| `Engine.ComputeEquals` | script.js:215-244 | no-op in error, with nothing pending, or while waiting; otherwise it leaves no operation pending and either waits or errs; it fails only when the calculation is null or not finite |
| `Engine.ToggleSign` | script.js:249-257 | only `currentValue` changes; nothing happens in error or when the entry reads as zero; in every other state it shows the negated number |
| `Engine.PercentOf` | script.js:272 | the share computed is `value` percent of `base` |
| `Engine.RelativePercent` | script.js:267-271 | the percent of the left operand is taken only while an addition or subtraction is pending with an operand stored and its right operand being typed |
| `Engine.Percent` | script.js:262-282 | only `currentValue` changes; no-op in error; otherwise it shows a number p with 100·p equal to the entry, or to the entry times the left operand while an addition or subtraction awaits this operand |
| `Engine.Backspace` | script.js:287-305 | in error it clears; while waiting or at "0" nothing changes; otherwise it never leaves "" or "-": with more than one character it drops exactly the last one, unless that leaves a lone "-", and only then or for a one-character entry does it fall back to "0" |
| `Engine.IsTyping` | script.js:50 | the raw entry is shown from the initial state and never in the error state (which keys set and clear it: `Laws.TypingFlag`) |
| `Engine.ClearLabel` | script.js:84 | the label is "AC" or "C"; "AC" exactly when the entry is "0" and no operand is stored (so also after an equals that shows "0"), and always "C" while an operand is stored |
| `Machine.Calculator.constructor` | script.js:6-10 | the variables start at their declared values and satisfy the invariant |
| `Machine.Calculator.ClearAll` | script.js:90-98 | the fields become `Engine.ClearAll()` |
| `Machine.Calculator.InputDigit` | script.js:103-125 | the fields become `Engine.InputDigit` of the old fields, with the invariant kept |
| `Machine.Calculator.InputDot` | script.js:130-144 | the fields become `Engine.InputDot` of the old fields, with the invariant kept |
| `Machine.Calculator.PerformOperation` | script.js:170-210 | the fields become `Engine.PerformOperation` of the old fields, including the early returns, with the invariant kept |
| `Machine.Calculator.ComputeEquals` | script.js:215-244 | the fields become `Engine.ComputeEquals` of the old fields, with the invariant kept |
| `Machine.Calculator.ToggleSign` | script.js:249-257 | the fields become `Engine.ToggleSign` of the old fields, with the invariant kept |
| `Machine.Calculator.Percent` | script.js:262-282 | the fields become `Engine.Percent` of the old fields, with the invariant kept |
| `Machine.Calculator.Backspace` | script.js:287-305 | the fields become `Engine.Backspace` of the old fields, with the invariant kept |
| `Laws.EvaluationFailure` | script.js:181-192 | once a right operand is typed, a chained operator (and equals, lines 222-231) ends in the error state if and only if the calculation is null or its result is not finite |
| `Laws.ErrorGate` | script.js:174-176 | in error, operator, equals, sign and percent change nothing (also lines 219-221, 250, 263); digit and dot act as after a clear, and backspace clears (lines 105-107, 131-134, 288-291) |
| `Laws.FirstOperatorStoresOperand` | script.js:178-180 | with nothing pending, an operator key stores the parsed entry as the left operand, makes the operator pending and waits |
| `Laws.ChainedOperatorEvaluates` | script.js:181-200 | an operator key after a new operand shows the result of the pending operation and makes it the left operand of the new operator |
| `Laws.EqualsStoresResult` | script.js:232-237 | a successful equals shows the result, clears the operand and operator, and waits |
| `Laws.DivisionByZeroFails` | script.js:223-231 | dividing by an entry that reads as zero ends in the error state, by equals or by a chained operator |
| `Laws.FailureIsErrorState` | script.js:185-192 | from any state satisfying the invariant, a failed evaluation leaves exactly "Error" with nothing pending |
| `Laws.InputDigitCases` | script.js:109-123 | the three ways a digit acts: it starts a new entry after an operator or equals, replaces a lone "0", or is appended only while the entry without its first '.' is under nine characters |
| `Laws.InputDigitCap` | script.js:117-121 | a digit key never takes the entry past nine characters (first '.' not counted), or else changes nothing |
| `Laws.InputDotCases` | script.js:136-142 | '.' after an operator or equals gives "0."; otherwise it is appended only to an entry without one |
| `Laws.DigitAddsNoDot` | script.js:109-123 | a digit key never increases the number of '.' in the entry |
| `Laws.BackspaceAddsNoDot` | script.js:293-302 | backspace never increases the number of '.' in the entry |
| `Laws.BackspaceUndoesDigit` | script.js:293-302 | backspace right after a digit that was accepted restores the previous state |
| `Laws.BackspaceUndoesDot` | script.js:293-302 | backspace right after an appended '.' restores the previous state |
| `Laws.BackspaceDropsLoneMinus` | script.js:296-299 | deleting the digit of "-5" leaves "0", not "-" |
| `Laws.LastOperatorWins` | script.js:178-200 | two operator keys in a row act exactly like the second one alone |
| `Laws.EqualsIdempotent` | script.js:223-237 | pressing equals twice is the same as pressing it once |
| `Laws.ToggleSignTwice` | script.js:252-255 | if the conversions read back the negated number, toggling twice shows the entry's number again |
| `Laws.PercentExamples` | script.js:267-279 | 10% while "200 +" is pending shows 20; 50% with nothing pending shows 0.5 |
| `Laws.TypingFlag` | script.js:50 | the raw entry is shown after digit and dot keys; a formatted number is shown after any operator key and after an equals that acted |
| `Laws.ClearLabelCases` | script.js:84 | the clear key reads AC only with nothing pending, no error and entry "0"; it reads C after an operator key and after a nonzero digit |
| `Runs.RunKeepsInv` | script.js:178-200 | every sequence of key presses keeps the invariant: operand stored exactly when an operator is pending, and the error flag only in the error state |
| `Runs.Reachable` | script.js:6-10 | every state reachable from the initial values satisfies the invariant |
| `Runs.AppendDigits` | script.js:117-121 | digits typed onto an entry that has room for all of them (its first '.' not counted) are appended in order, and nothing else changes |
| `Runs.DigitsIgnoredAtCap` | script.js:117-121 | digits typed onto an entry at the cap change nothing |
| `Runs.TypeNumber` | script.js:109-123 | typing a number that starts with a nonzero digit at a fresh entry (after an operator, equals, an error, or at "0") shows exactly its first nine digits |
| `Runs.TypeDecimal` | script.js:130-144 | '.' then up to eight digits at a fresh entry shows "0." followed by those digits (with lines 117-121) |
| `Runs.LeadingZeros` | script.js:114-115 | zeros typed at the entry "0" leave it unchanged |
| `Runs.ErrorPersists` | script.js:174-176 | from the error state, any sequence of operator, equals, sign and percent keys stays in the error state |
| `Runs.EditKeepsSingleDot` | script.js:139-142 | one digit, dot, backspace or clear key never makes a second decimal point |
| `Runs.SingleDecimalPoint` | script.js:139-142 | an entry edited only by digit, dot, backspace and clear keys never holds two decimal points |
| `Runs.ChainedOperations` | script.js:170-244 | typing 5 + 3 + 2 = from the initial state shows 10, waiting, with nothing pending (the second + has chained 5 + 3) |

## Left out

- `formatNumber` (script.js:18-43) is not modelled. It is floating-point
  presentation built on `toExponential`, `toFixed` and `toString`.
- The DOM work in `updateDisplay` is not modelled: the text, the error class,
  font sizing and the expression line (script.js:51-82). Only the typing flag
  (line 50) and the AC/C label (line 84) are modelled, as `Engine.IsTyping`
  and `Engine.ClearLabel`.
- The active-operator highlight is not modelled (script.js:96, 203-207, 240).
- Event wiring, the keyboard dispatch and the double-click guard are not
  modelled (script.js:308-380); they are browser plumbing. `Runs.Key` only
  names which handler a key press calls.
- `parseFloat`, `String(number)` and `isFinite` are parameters, not
  definitions. NaN, the infinities and negative zero are not represented: a
  parsed value is a real number. An entry such as "Infinit", left by backspace
  after an overflowing percent, therefore has no faithful counterpart.
- Arith.Calculate: uses exact real arithmetic instead of IEEE-754 doubles, so
  rounding is not modelled and its inverse-operation clauses are stronger than
  what doubles satisfy. Overflow is represented only through the `finite`
  parameter.
- The `default` branch of `calculate` (script.js:162-163) cannot be reached:
  `Op` has only the four operators that the operator keys pass.
- `Machine.Calculator` methods require `Valid()`, the invariant. The
  constructor establishes it and every method keeps it; the script performs no
  such check.
- `Laws.ToggleSignTwice`, `Laws.PercentExamples` and `Runs.ChainedOperations`
  hold under explicit assumptions about what the conversions return. No
  round trip of the conversions is claimed.
