/**
 * The input/display state of the calculator as a value, with one function per
 * transition of calculator.py, and the properties the transitions promise.
 *
 * The expression evaluator is the host language's `eval`; here it is a
 * parameter `eval` that returns the stringified result, or None when
 * evaluation raises.
 */
module CalculatorState {

  datatype Option<T> = None | Some(value: T)

  /** The evaluator: Some(str(result)) on success, None when evaluation raises. */
  type Evaluator = string -> Option<string>

  datatype Theme = Dark | Light

  /**
   * The four fields of the calculator, plus the texts shown by the result
   * display (`display`) and the history display (`historyDisplay`).
   */
  datatype State = State(
    input: string,
    memory: string,
    history: seq<string>,
    theme: Theme,
    display: string,
    historyDisplay: string)

  /** What the displays can show: the buffer or "Error", and the last records of the history. */
  predicate Inv(s: State)
  {
    (s.display == s.input || s.display == "Error") &&
    s.historyDisplay == HistoryView(s.history)
  }

  /** The state right after start-up: everything empty, dark theme. */
  function Initial(): (s: State)
    ensures Inv(s)
    ensures s.input == "" && s.memory == "" && s.history == [] && s.theme == Dark
    ensures s.display == "" && s.historyDisplay == ""
  {
    State("", "", [], Dark, "", "")
  }

  // ---------------------------------------------------------------------------
  // Labels

  /** The buttons that on_button_click routes to something other than appending. */
  predicate IsControl(button: string)
  {
    button == "=" || button == "C" || button == "CE" ||
    button == "M+" || button == "M-" || button == "MR" || button == "MC"
  }

  /** The buttons that overwrite the memory register. */
  predicate WritesMemory(button: string)
  {
    button == "M+" || button == "M-" || button == "MC"
  }

  // ---------------------------------------------------------------------------
  // History view

  /** `"\n".join(lines)` */
  function Join(lines: seq<string>): string
  {
    if |lines| == 0 then ""
    else if |lines| == 1 then lines[0]
    else lines[0] + "\n" + Join(lines[1..])
  }

  /** `history[-5:]`: the last five records, or all of them when there are fewer. */
  function LastFive(history: seq<string>): (r: seq<string>)
    ensures |r| == if |history| < 5 then |history| else 5
  {
    if |history| <= 5 then history else history[|history| - 5..]
  }

  /** The text of the history display. */
  function HistoryView(history: seq<string>): string
  {
    Join(LastFive(history))
  }

  /** `s.split("\n")`, an independent reading of a displayed text back into lines. */
  function Split(s: string): (r: seq<string>)
    ensures |r| >= 1
  {
    if |s| == 0 then [""]
    else
      var rest := Split(s[1..]);
      if s[0] == '\n' then [""] + rest
      else [[s[0]] + rest[0]] + rest[1..]
  }

  // ---------------------------------------------------------------------------
  // Transitions

  /** `s[:-1]`: the string without its last character; the empty string stays empty. */
  function DropLast(s: string): (r: string)
    ensures |s| == 0 ==> r == s
    ensures |s| > 0 ==> r + [s[|s| - 1]] == s
  {
    if |s| == 0 then s else s[..|s| - 1]
  }

  /** clear_display: "C" empties the buffer, "CE" drops its last character; the buffer is shown. */
  function ClearDisplay(s: State, clearType: string): (r: State)
    ensures clearType == "C" ==> r.input == ""
    ensures clearType == "CE" && s.input == "" ==> r.input == ""
    ensures clearType == "CE" && s.input != "" ==> r.input + [s.input[|s.input| - 1]] == s.input
    ensures clearType != "C" && clearType != "CE" ==> r.input == s.input
    ensures r == s.(input := r.input, display := r.input)
  {
    var input :=
      if clearType == "C" then ""
      else if clearType == "CE" then DropLast(s.input)
      else s.input;
    s.(input := input, display := input)
  }

  /** memory_operations: store, clear or recall the single memory register. */
  function MemoryOperations(s: State, operation: string): (r: State)
    ensures operation == "M+" ==> r == s.(memory := s.input)
    ensures operation == "M-" || operation == "MC" ==> r == s.(memory := "")
    ensures operation == "MR" ==> r == s.(input := s.input + s.memory, display := s.input + s.memory)
    ensures operation != "M+" && operation != "M-" && operation != "MR" && operation != "MC" ==> r == s
  {
    if operation == "M+" then s.(memory := s.input)
    else if operation == "M-" then s.(memory := "")
    else if operation == "MR" then
      var input := s.input + s.memory;
      s.(input := input, display := input)
    else if operation == "MC" then s.(memory := "")
    else s
  }

  /**
   * calculate: on success one record "expr=result" joins the history and the
   * result becomes the buffer; on failure only the display changes, to "Error".
   */
  function Calculate(s: State, eval: Evaluator): (r: State)
    ensures eval(s.input).Some? ==>
      var result := eval(s.input).value;
      r.history == s.history + [s.input + "=" + result] &&
      r.input == result && r.display == result &&
      r.historyDisplay == HistoryView(r.history)
    ensures eval(s.input).None? ==> r == s.(display := "Error")
    ensures r.memory == s.memory && r.theme == s.theme
  {
    match eval(s.input)
    case Some(result) =>
      var history := s.history + [s.input + "=" + result];
      s.(input := result, history := history, display := result,
         historyDisplay := HistoryView(history))
    case None =>
      s.(display := "Error")
  }

  /** on_button_click: route one button press to exactly one of the four actions. */
  function OnButtonClick(s: State, button: string, eval: Evaluator): (r: State)
    ensures !IsControl(button) ==>
      r.input == s.input + button && r.display == r.input &&
      r.memory == s.memory && r.history == s.history &&
      r.historyDisplay == s.historyDisplay
    ensures r.theme == s.theme
    ensures s.history <= r.history
    ensures |r.history| == |s.history| + 1 <==> button == "=" && eval(s.input).Some?
    ensures |r.history| <= |s.history| + 1
    ensures !WritesMemory(button) ==> r.memory == s.memory
    ensures Inv(s) ==> Inv(r)
  {
    if button == "=" then Calculate(s, eval)
    else if button == "C" || button == "CE" then ClearDisplay(s, button)
    else if button == "M+" || button == "M-" || button == "MR" || button == "MC" then MemoryOperations(s, button)
    else
      var input := s.input + button;
      s.(input := input, display := input)
  }

  /** toggle_theme, as far as the state goes: the theme flips and nothing else changes. */
  function ToggleTheme(s: State): (r: State)
    ensures r.theme != s.theme
    ensures r == s.(theme := r.theme)
  {
    s.(theme := if s.theme == Dark then Light else Dark)
  }

  /** Number of occurrences of `button` in `buttons`. */
  function Count(buttons: seq<string>, button: string): nat
  {
    if buttons == [] then 0
    else (if buttons[0] == button then 1 else 0) + Count(buttons[1..], button)
  }

  /**
   * A session of button presses, one after another. History only grows, by
   * at most one record per "=", the theme is untouched and the displays stay
   * consistent with the state.
   */
  function PressAll(s: State, buttons: seq<string>, eval: Evaluator): (r: State)
    ensures s.history <= r.history
    ensures |r.history| <= |s.history| + Count(buttons, "=")
    ensures r.theme == s.theme
    ensures Inv(s) ==> Inv(r)
    decreases |buttons|
  {
    if buttons == [] then s
    else PressAll(OnButtonClick(s, buttons[0], eval), buttons[1..], eval)
  }

  /** `button` repeated `n` times. */
  function Repeat(button: string, n: nat): (r: seq<string>)
    ensures |r| == n
    ensures forall i :: 0 <= i < n ==> r[i] == button
  {
    if n == 0 then [] else [button] + Repeat(button, n - 1)
  }

  /** The buttons of a sequence, one after another. */
  function Concat(buttons: seq<string>): string
  {
    if buttons == [] then "" else buttons[0] + Concat(buttons[1..])
  }

  /** A history record "expr=result" whose expression evaluated to that result. */
  ghost predicate Evaluated(record: string, eval: Evaluator)
  {
    exists k :: 0 <= k < |record| && record[k] == '=' && eval(record[..k]) == Some(record[k + 1..])
  }

  /** Every record of `records` is an evaluated record. */
  ghost predicate AllEvaluated(records: seq<string>, eval: Evaluator)
  {
    forall i :: 0 <= i < |records| ==> Evaluated(records[i], eval)
  }

  // ---------------------------------------------------------------------------
  // Lemmas

  /** Pressing a sequence of buttons is pressing a prefix of it, then the rest. */
  lemma {:induction false} PressAllAppend(s: State, a: seq<string>, b: seq<string>, eval: Evaluator)
    ensures PressAll(s, a + b, eval) == PressAll(PressAll(s, a, eval), b, eval)
    decreases |a|
  {
    if a == [] {
      assert a + b == b;
    } else {
      assert (a + b)[0] == a[0];
      assert (a + b)[1..] == a[1..] + b;
      PressAllAppend(OnButtonClick(s, a[0], eval), a[1..], b, eval);
    }
  }

  /**
   * Labels other than the control buttons are appended verbatim, multi-character
   * ones included: the buffer gains their concatenation, and memory, history
   * and theme are untouched.
   */
  lemma {:induction false} AppendsConcatenate(s: State, buttons: seq<string>, eval: Evaluator)
    requires forall i :: 0 <= i < |buttons| ==> !IsControl(buttons[i])
    ensures PressAll(s, buttons, eval).input == s.input + Concat(buttons)
    ensures buttons != [] ==> PressAll(s, buttons, eval).display == s.input + Concat(buttons)
    ensures PressAll(s, buttons, eval) == s.(input := PressAll(s, buttons, eval).input,
                                            display := PressAll(s, buttons, eval).display)
    decreases |buttons|
  {
    if buttons != [] {
      var t := OnButtonClick(s, buttons[0], eval);
      AppendsConcatenate(t, buttons[1..], eval);
      assert s.input + Concat(buttons) == t.input + Concat(buttons[1..]);
    }
  }

  /** Pressing "CE" n times drops the last n characters of the buffer (all of them if it is shorter). */
  lemma {:induction false} BackspacesDrop(s: State, n: nat, eval: Evaluator)
    ensures var m := if n <= |s.input| then n else |s.input|;
            PressAll(s, Repeat("CE", n), eval).input == s.input[..|s.input| - m]
    decreases n
  {
    var len := |s.input|;
    var m := if n <= len then n else len;
    if n == 0 {
      assert s.input[..len] == s.input;
    } else {
      var buttons := Repeat("CE", n);
      assert buttons[1..] == Repeat("CE", n - 1);
      var t := ClearDisplay(s, "CE");
      assert OnButtonClick(s, "CE", eval) == t;
      var r := PressAll(t, Repeat("CE", n - 1), eval);
      assert PressAll(s, buttons, eval) == r;
      BackspacesDrop(t, n - 1, eval);
      if len == 0 {
        assert t.input == s.input;
      } else {
        assert t.input == s.input[..len - 1];
        var m' := if n - 1 <= len - 1 then n - 1 else len - 1;
        assert r.input == t.input[..len - 1 - m'];
        assert m' == m - 1;
        assert t.input[..len - 1 - m'] == s.input[..len - m];
      }
    }
  }

  /** Appending a button and then pressing "CE" once per character of it restores the buffer. */
  lemma BackspacesUndoAppend(s: State, button: string, eval: Evaluator)
    requires !IsControl(button)
    ensures PressAll(s, [button] + Repeat("CE", |button|), eval).input == s.input
  {
    PressAllAppend(s, [button], Repeat("CE", |button|), eval);
    var t := PressAll(s, [button], eval);
    assert t == OnButtonClick(s, button, eval);
    BackspacesDrop(t, |button|, eval);
    assert t.input[..|t.input| - |button|] == s.input;
  }

  /** Presses that do not write the register leave it as it is. */
  lemma {:induction false} MemoryKept(s: State, buttons: seq<string>, eval: Evaluator)
    requires forall i :: 0 <= i < |buttons| ==> !WritesMemory(buttons[i])
    ensures PressAll(s, buttons, eval).memory == s.memory
    decreases |buttons|
  {
    if buttons != [] {
      MemoryKept(OnButtonClick(s, buttons[0], eval), buttons[1..], eval);
    }
  }

  /**
   * "M+", then any presses that do not write the register, then "C" and "MR":
   * the buffer is the one stored by "M+".
   */
  lemma StoreClearRecall(s: State, between: seq<string>, eval: Evaluator)
    requires forall i :: 0 <= i < |between| ==> !WritesMemory(between[i])
    ensures PressAll(s, ["M+"] + between + ["C", "MR"], eval).input == s.input
  {
    var stored := OnButtonClick(s, "M+", eval);
    assert PressAll(s, ["M+"], eval) == stored;
    PressAllAppend(s, ["M+"], between, eval);
    PressAllAppend(s, ["M+"] + between, ["C", "MR"], eval);
    MemoryKept(stored, between, eval);
  }

  /** "M-" and "MC" have the same effect. */
  lemma MinusIsClear(s: State, eval: Evaluator)
    ensures OnButtonClick(s, "M-", eval) == OnButtonClick(s, "MC", eval)
  {
  }

  /** Every record a session adds to the history is an expression and the result it evaluated to. */
  lemma {:induction false} RecordsAreEvaluations(s: State, buttons: seq<string>, eval: Evaluator)
    ensures var r := PressAll(s, buttons, eval);
            AllEvaluated(r.history[|s.history|..], eval)
    decreases |buttons|
  {
    if buttons != [] {
      var t := OnButtonClick(s, buttons[0], eval);
      var r := PressAll(t, buttons[1..], eval);
      assert PressAll(s, buttons, eval) == r;
      RecordsAreEvaluations(t, buttons[1..], eval);
      var added := t.history[|s.history|..];
      assert r.history[|s.history|..] == added + r.history[|t.history|..];
      if added != [] {
        assert t == Calculate(s, eval);
        RecordEvaluated(s.input, eval(s.input).value, eval);
        assert added == [s.input + "=" + eval(s.input).value];
      }
    }
  }

  /** A record written by a successful evaluation is an evaluated record. */
  lemma RecordEvaluated(e: string, v: string, eval: Evaluator)
    requires eval(e) == Some(v)
    ensures Evaluated(e + "=" + v, eval)
  {
    var record := e + "=" + v;
    assert record[|e|] == '=' && record[..|e|] == e && record[|e| + 1..] == v;
  }

  /** Toggling the theme twice gives back the original state. */
  lemma ToggleTwice(s: State)
    ensures ToggleTheme(ToggleTheme(s)) == s
  {
  }

  /** A line without a newline splits into itself. */
  lemma {:induction false} SplitLine(line: string)
    requires '\n' !in line
    ensures Split(line) == [line]
    decreases |line|
  {
    if line != [] {
      SplitLine(line[1..]);
      assert [line[0]] + line[1..] == line;
    }
  }

  /** Splitting "line\nrest" gives the line, then the split of the rest. */
  lemma {:induction false} SplitFirstLine(line: string, rest: string)
    requires '\n' !in line
    ensures Split(line + "\n" + rest) == [line] + Split(rest)
    decreases |line|
  {
    var s := line + "\n" + rest;
    if line == [] {
      assert s[0] == '\n' && s[1..] == rest;
    } else {
      assert s[0] == line[0];
      assert s[1..] == line[1..] + "\n" + rest;
      SplitFirstLine(line[1..], rest);
      assert [line[0]] + line[1..] == line;
    }
  }

  /** Splitting a newline-joined sequence of lines without newlines gives the lines back. */
  lemma {:induction false} SplitJoin(lines: seq<string>)
    requires lines != []
    requires forall i :: 0 <= i < |lines| ==> '\n' !in lines[i]
    ensures Split(Join(lines)) == lines
    decreases |lines|
  {
    if |lines| == 1 {
      SplitLine(lines[0]);
    } else {
      SplitJoin(lines[1..]);
      SplitFirstLine(lines[0], Join(lines[1..]));
    }
  }

  /** `history[-5:]` holds the last records of the history, in their original order. */
  lemma LastFiveSuffix(history: seq<string>)
    ensures LastFive(history) == history[|history| - |LastFive(history)|..]
  {
  }

  /**
   * Whatever the records contain, the history display is the newline-join of
   * the last min(5, |history|) records, in their original order.
   */
  lemma HistoryViewJoin(history: seq<string>)
    ensures var shown := if |history| < 5 then |history| else 5;
            HistoryView(history) == Join(history[|history| - shown..])
  {
    LastFiveSuffix(history);
  }

  /**
   * The history display shows exactly the last min(5, |history|) records, in
   * order, one per line; an empty history shows nothing.
   */
  lemma HistoryViewLines(history: seq<string>)
    requires forall i :: 0 <= i < |history| ==> '\n' !in history[i]
    ensures history == [] ==> HistoryView(history) == ""
    ensures var shown := if |history| < 5 then |history| else 5;
            history != [] ==> Split(HistoryView(history)) == history[|history| - shown..]
  {
    if history != [] {
      var last := LastFive(history);
      assert last == history[|history| - |last|..];
      SplitJoin(last);
    }
  }
}
