/**
 * The calculator as the script holds it: five variables updated in place by
 * eight handlers. Each handler is proved to leave exactly the state the
 * matching function of module Engine describes, so every property proved
 * there holds of this object too.
 */
module Machine {
  import opened Wrappers
  import opened Arith
  import Engine

  class Calculator {
    /** The JavaScript number conversions the handlers call. */
    const nums: Conversions

    var currentValue: string
    var previousValue: Option<real>
    var operator: Option<Op>
    var waitingForOperand: bool
    var isError: bool

    /** The five variables as one value. */
    function Snapshot(): Engine.State
      reads this
    {
      Engine.State(currentValue, previousValue, operator, waitingForOperand, isError)
    }

    ghost predicate Valid()
      reads this
    {
      Engine.Inv(Snapshot())
    }

    /** The variables as declared, before any key is pressed. */
    constructor (nums: Conversions)
      ensures Valid() && Snapshot() == Engine.Initial
      ensures this.nums.parse == nums.parse && this.nums.show == nums.show
      ensures this.nums.finite == nums.finite
    {
      this.nums := nums;
      currentValue := "0";
      previousValue := None;
      operator := None;
      waitingForOperand := false;
      isError := false;
    }

    method ClearAll()
      requires Valid()
      modifies this
      ensures Valid()
      ensures Snapshot() == Engine.ClearAll()
    {
      currentValue := "0";
      previousValue := None;
      operator := None;
      waitingForOperand := false;
      isError := false;
    }

    method InputDigit(digit: Engine.Digit)
      requires Valid()
      modifies this
      ensures Valid()
      ensures Snapshot() == Engine.InputDigit(old(Snapshot()), digit)
    {
      if isError {
        ClearAll();
      }
      if waitingForOperand {
        currentValue := [digit];
        waitingForOperand := false;
      } else {
        if currentValue == "0" {
          currentValue := [digit];
        } else {
          var digitsOnly := Engine.RemoveFirst(currentValue, '.');
          if |digitsOnly| < Engine.MaxInputLength {
            currentValue := currentValue + [digit];
          }
        }
      }
    }

    method InputDot()
      requires Valid()
      modifies this
      ensures Valid()
      ensures Snapshot() == Engine.InputDot(old(Snapshot()))
    {
      if isError {
        ClearAll();
      }
      if waitingForOperand {
        currentValue := "0.";
        waitingForOperand := false;
      } else if Engine.IndexOf(currentValue, '.') == -1 {
        currentValue := currentValue + ".";
      }
    }

    method PerformOperation(nextOp: Op)
      requires Valid()
      modifies this
      ensures Valid()
      ensures Snapshot() == Engine.PerformOperation(nums, old(Snapshot()), nextOp)
    {
      var inputValue := nums.parse(currentValue);
      if isError {
        return;
      }
      if previousValue.None? {
        previousValue := Some(inputValue);
      } else if operator.Some? && !waitingForOperand {
        var result := Calculate(previousValue.value, inputValue, operator.value);
        if result.None? || !nums.finite(result.value) {
          isError := true;
          currentValue := "Error";
          previousValue := None;
          operator := None;
          return;
        }
        currentValue := nums.show(result.value);
        previousValue := result;
      }
      waitingForOperand := true;
      operator := Some(nextOp);
    }

    method ComputeEquals()
      requires Valid()
      modifies this
      ensures Valid()
      ensures Snapshot() == Engine.ComputeEquals(nums, old(Snapshot()))
    {
      var inputValue := nums.parse(currentValue);
      if isError {
        return;
      }
      if operator.Some? && previousValue.Some? && !waitingForOperand {
        var result := Calculate(previousValue.value, inputValue, operator.value);
        if result.None? || !nums.finite(result.value) {
          isError := true;
          currentValue := "Error";
          previousValue := None;
          operator := None;
        } else {
          currentValue := nums.show(result.value);
          previousValue := None;
          operator := None;
          waitingForOperand := true;
        }
      }
    }

    method ToggleSign()
      requires Valid()
      modifies this
      ensures Valid()
      ensures Snapshot() == Engine.ToggleSign(nums, old(Snapshot()))
    {
      if isError {
        return;
      }
      var value := nums.parse(currentValue);
      if value != 0.0 {
        currentValue := nums.show(value * -1.0);
      }
    }

    method Percent()
      requires Valid()
      modifies this
      ensures Valid()
      ensures Snapshot() == Engine.Percent(nums, old(Snapshot()))
    {
      if isError {
        return;
      }
      var value := nums.parse(currentValue);
      if previousValue.Some? && operator.Some? && !waitingForOperand {
        if operator.value == Add || operator.value == Sub {
          currentValue := nums.show(Engine.PercentOf(previousValue.value, value));
        } else {
          currentValue := nums.show(value / 100.0);
        }
      } else {
        currentValue := nums.show(value / 100.0);
      }
    }

    method Backspace()
      requires Valid()
      modifies this
      ensures Valid()
      ensures Snapshot() == Engine.Backspace(old(Snapshot()))
    {
      if isError {
        ClearAll();
        return;
      }
      if !waitingForOperand && currentValue != "0" {
        if |currentValue| > 1 {
          currentValue := currentValue[..|currentValue| - 1];
          if currentValue == "-" {
            currentValue := "0";
          }
        } else {
          currentValue := "0";
        }
      }
    }
  }
}
