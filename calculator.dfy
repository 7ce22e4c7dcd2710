/**
 * The calculator object of calculator.py: its fields are updated in place by
 * the button handlers. Each handler method is proved to move the object to the
 * state that the CalculatorState transition of the same name computes, and to
 * keep the displays consistent with the fields. The two display helpers each
 * set one display text and change no other field.
 */
module Calculator {
  import opened CalculatorState

  class AdvancedCalculator {
    /** The expression buffer. */
    var currentInput: string
    /** The single memory register. */
    var memory: string
    /** Every "expr=result" record, oldest first. */
    var history: seq<string>
    var theme: Theme
    /** The text of the result display. */
    var display: string
    /** The text of the history display. */
    var historyDisplay: string

    /** The object's fields as a state value. */
    function Model(): State
      reads this
    {
      State(currentInput, memory, history, theme, display, historyDisplay)
    }

    ghost predicate Valid()
      reads this
    {
      Inv(Model())
    }

    constructor ()
      ensures Valid()
      ensures Model() == Initial()
    {
      currentInput := "";
      memory := "";
      history := [];
      theme := Dark;
      display := "";
      historyDisplay := "";
    }

    /** Dispatch one button press. */
    method OnButtonClick(button: string, eval: Evaluator)
      requires Valid()
      modifies this
      ensures Valid()
      ensures Model() == CalculatorState.OnButtonClick(old(Model()), button, eval)
    {
      if button == "=" {
        Calculate(eval);
      } else if button == "C" || button == "CE" {
        ClearDisplay(button);
      } else if button == "M+" || button == "M-" || button == "MR" || button == "MC" {
        MemoryOperations(button);
      } else {
        currentInput := currentInput + button;
        UpdateDisplay();
      }
    }

    /** Evaluate the buffer; record and show the result, or show "Error". */
    method Calculate(eval: Evaluator)
      requires Valid()
      modifies this
      ensures Valid()
      ensures Model() == CalculatorState.Calculate(old(Model()), eval)
    {
      match eval(currentInput)
      case Some(result) =>
        history := history + [currentInput + "=" + result];
        currentInput := result;
        UpdateDisplay();
        UpdateHistoryDisplay();
      case None =>
        display := "Error";
    }

    /** "C" empties the buffer, "CE" drops its last character. */
    method ClearDisplay(clearType: string)
      requires Valid()
      modifies this
      ensures Valid()
      ensures Model() == CalculatorState.ClearDisplay(old(Model()), clearType)
    {
      if clearType == "C" {
        currentInput := "";
      } else if clearType == "CE" {
        currentInput := DropLast(currentInput);
      }
      UpdateDisplay();
    }

    /** Store, clear or recall the memory register. */
    method MemoryOperations(operation: string)
      requires Valid()
      modifies this
      ensures Valid()
      ensures Model() == CalculatorState.MemoryOperations(old(Model()), operation)
    {
      if operation == "M+" {
        memory := currentInput;
      } else if operation == "M-" {
        memory := "";
      } else if operation == "MR" {
        currentInput := currentInput + memory;
        UpdateDisplay();
      } else if operation == "MC" {
        memory := "";
      }
    }

    /** Show the buffer on the result display. */
    method UpdateDisplay()
      modifies this`display
      ensures display == currentInput
    {
      display := currentInput;
    }

    /** Show the last five records on the history display. */
    method UpdateHistoryDisplay()
      modifies this`historyDisplay
      ensures historyDisplay == HistoryView(history)
    {
      historyDisplay := HistoryView(history);
    }

    /** Flip the theme; the palette it selects is not part of the state. */
    method ToggleTheme()
      requires Valid()
      modifies this
      ensures Valid()
      ensures Model() == CalculatorState.ToggleTheme(old(Model()))
    {
      theme := if theme == Dark then Light else Dark;
    }
  }
}
