# Advanced calculator: input/display state machine

This project models the button-driven core of the desktop calculator in
`calculator.py`, class `AdvancedCalculator`. The calculator owns four fields:

- the expression buffer `current_input`;
- a single text register `memory`;
- the list `history` of `"expr=result"` records;
- the `theme` flag, dark or light.

Every button press goes through `on_button_click`, which does exactly one thing:

- `=` evaluates the buffer;
- `C` and `CE` clear the buffer or remove its last character;
- `M+`, `M-`, `MR` and `MC` act on the memory register;
- any other label, multi-character ones such as `sinh` included, is appended
  to the buffer verbatim.

The history display shows the last five records, one per line. The theme
button flips the flag.

The project has two files:

- `calculator_state.dfy`, module `CalculatorState`. It holds the state as a
  value, `State`, with one function per handler. It also holds `PressAll` for a
  session of presses and the lemmas about sessions: appends concatenate,
  backspaces undo an append, store/clear/recall gives the stored buffer back,
  the history is append-only and holds only evaluated records, the history
  view shows the last five records, and toggling twice is the identity.
- `calculator.dfy`, module `Calculator`. It holds the class
  `AdvancedCalculator`, whose fields are updated in place as in the source.
  The five handler methods are `OnButtonClick`, `Calculate`, `ClearDisplay`,
  `MemoryOperations` and `ToggleTheme`. Each is proved to reach the state that
  the `CalculatorState` function of the same name computes from the old state.
  Each also keeps the invariant `Valid()`: the result display shows the buffer
  or `"Error"`, and the history display shows `HistoryView(history)`. The two
  display helpers, `UpdateDisplay` and `UpdateHistoryDisplay`, each set one
  display text and change no other field.

The expression evaluator is Python's `eval` followed by `str`. Here it is a
parameter `eval: string -> Option<string>`. `Some(r)` stands for an evaluation
whose stringified result is `r`. `None` stands for an evaluation that raised an
exception. No arithmetic is modelled.

Two fields beyond the source's four mirror the widget texts: `display` is the
text of `result_display` and `historyDisplay` is the text of `history_display`.
They carry the one visible effect of a failed evaluation: the display shows
`"Error"`, while the buffer and the history stay as they were.

The memory register:

- It is a plain string that starts as `""` (calculator.py:19).
- `M-` sets it to `""`, exactly as `MC` does (calculator.py:118-119, 123-124).
- `MR` always appends it to the buffer; an empty register appends nothing
  (calculator.py:120-121).

## Model

| member | source | states |
|---|---|---|
| `CalculatorState.Initial` | calculator.py:18-33 | start-up state: empty buffer, empty register, empty history, dark theme; both displays show `""`, consistent with the state |
| `CalculatorState.DropLast` | calculator.py:112 | `s[:-1]`: the empty string stays empty; otherwise the result followed by the last character of `s` is `s` |
| `CalculatorState.ClearDisplay` | calculator.py:108-113 | `C` empties the buffer, `CE` drops exactly its last character (no-op on an empty buffer), any other argument keeps it; the display shows the new buffer; register, history, theme and history display are unchanged |
| `CalculatorState.MemoryOperations` | calculator.py:115-124 | `M+` copies the buffer into the register and changes nothing else; `M-` and `MC` empty the register; `MR` appends the register to the buffer and shows it, register unchanged; any other argument is a no-op |
| `CalculatorState.Calculate` | calculator.py:98-106 | on success exactly one record `expr + "=" + result` is appended, the buffer becomes the result and both displays are refreshed; on failure only the display changes, to `"Error"`; register and theme are never touched |
| `CalculatorState.OnButtonClick` | calculator.py:87-96 | dispatch, with the append branch written inline; a non-control label is appended verbatim and shown, with register, history and history display unchanged; history is only ever extended, by one record exactly when `=` is pressed and evaluation succeeds; only `M+`, `M-`, `MC` change the register; the theme never changes; the display invariant is preserved |
| `CalculatorState.ToggleTheme` | calculator.py:159-173 | the theme flips to the other value and nothing else changes |
| `CalculatorState.Join` | calculator.py:130 | `"\n".join`: the records separated by newlines; `SplitJoin` proves `Split` is its inverse on newline-free records |
| `CalculatorState.HistoryView` | calculator.py:129-130 | `"\n".join(history[-5:])`, the text of the history display; its content is stated by `HistoryViewJoin` and `HistoryViewLines` |
| `CalculatorState.LastFive` | calculator.py:130 | `history[-5:]` has min(5, len(history)) records |
| `CalculatorState.LastFiveSuffix` | calculator.py:130 | `history[-5:]` is the suffix of the history of that length: the last records, in their original order |
| `CalculatorState.HistoryViewJoin` | calculator.py:129-130 | for any history, whatever its records contain, the history display is the newline-join of the last min(5, len(history)) records in their original order |
| `CalculatorState.PressAll` | calculator.py:87-106 | over any session of presses, the old history is a prefix of the new one and grows by at most one record per `=`; the theme is untouched; the display invariant is preserved |
| `CalculatorState.PressAllAppend` | calculator.py:87-96 | a session of presses split into two parts gives the same state as running the parts one after the other |
| `CalculatorState.AppendsConcatenate` | calculator.py:94-96 | a session of non-control labels leaves the buffer equal to the old buffer followed by the concatenation of the labels, shows it, and changes nothing else |
| `CalculatorState.BackspacesDrop` | calculator.py:111-112 | `n` presses of `CE` remove the last min(n, len) characters of the buffer |
| `CalculatorState.BackspacesUndoAppend` | calculator.py:94-112 | appending a label and then pressing `CE` once per character of it restores the buffer |
| `CalculatorState.MemoryKept` | calculator.py:115-124 | presses other than `M+`, `M-`, `MC` leave the register unchanged |
| `CalculatorState.StoreClearRecall` | calculator.py:108-121 | `M+`, then any presses that do not write the register, then `C` and `MR`, gives back the buffer stored by `M+` |
| `CalculatorState.MinusIsClear` | calculator.py:118-124 | `M-` and `MC` have the same effect on every state |
| `CalculatorState.RecordsAreEvaluations` | calculator.py:98-104 | every record a session adds to the history has the form `expr=result` where the evaluator returned `result` for `expr` |
| `CalculatorState.ToggleTwice` | calculator.py:159-173 | toggling the theme twice gives back the original state |
| `CalculatorState.SplitJoin` | calculator.py:130 | for a non-empty list of records that contain no newline, newline-joining them and splitting the text on newlines gives the records back (an empty list joins to `""`, which splits to `[""]`) |
| `CalculatorState.HistoryViewLines` | calculator.py:129-130 | provided no record contains a newline: the history display is empty for an empty history; otherwise its lines are exactly the last min(5, len(history)) records in their original order |
| `Calculator.AdvancedCalculator.constructor` | calculator.py:18-21 | the new calculator is in the start-up state and satisfies the display invariant |
| `Calculator.AdvancedCalculator.OnButtonClick` | calculator.py:87-96 | in-place dispatch: the new fields are `CalculatorState.OnButtonClick` of the old ones; the display invariant is kept |
| `Calculator.AdvancedCalculator.Calculate` | calculator.py:98-106 | in-place evaluation: the new fields are `CalculatorState.Calculate` of the old ones; the display invariant is kept |
| `Calculator.AdvancedCalculator.ClearDisplay` | calculator.py:108-113 | in-place clear or backspace: the new fields are `CalculatorState.ClearDisplay` of the old ones |
| `Calculator.AdvancedCalculator.MemoryOperations` | calculator.py:115-124 | in-place memory operation: the new fields are `CalculatorState.MemoryOperations` of the old ones |
| `Calculator.AdvancedCalculator.UpdateDisplay` | calculator.py:126-127 | the result display shows the buffer; no other field changes |
| `Calculator.AdvancedCalculator.UpdateHistoryDisplay` | calculator.py:129-130 | the history display shows the last five records; no other field changes |
| `Calculator.AdvancedCalculator.ToggleTheme` | calculator.py:159-173 | in-place flip: only the theme field changes, to the other value |

## Left out

- Widget construction, layout, styles and hover animation (`create_widgets`, `create_styles`, `create_buttons`, `animate_button`, calculator.py:26-85): user-interface setup with no effect on the modelled state.
- The colours that `toggle_theme` applies (calculator.py:161-172): cosmetic widget settings. Only the flag is modelled, as a two-valued datatype rather than the strings `"dark"` and `"light"`.
- The semantics of `eval` (calculator.py:100): it is an abstract total function of the buffer. It runs arbitrary code, so it could also read or change the calculator's own fields; that side effect is not modelled. Exceptions outside `Exception`, such as `SystemExit`, escape `calculate`; these are not modelled either. Whether a label such as `sinh`, `ln` or `^` means anything is up to the evaluator.
- `plot_graph` (calculator.py:132-144): it samples the expression with numpy and renders it with matplotlib, which needs floating point and external libraries. It does not change the state.
- `voice_input` (calculator.py:146-157): it needs microphone input and a network speech service. On success it replaces the buffer wholesale (calculator.py:152); that effect is not modelled.
- `run` / `mainloop` (calculator.py:175-180): the event loop. It delivers presses one at a time, which `PressAll` models as a sequence.
