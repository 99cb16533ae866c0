# Turing machine simulator — a verified model of its engine

The simulator is a single-page web application. The user:

- describes a deterministic single-tape Turing machine in a form (states,
  alphabets, designated states, blank symbol and a transition table);
- types an input string;
- steps or plays the machine while the page draws the tape.

This project models the part of `script.js` that is not drawing. It has
four pieces, one Dafny module each, plus a module of worked examples:

- **Text** (`text.dfy`): the string handling of the configuration form.
  - JavaScript's `trim`, with its whitespace set written out;
  - `split` at one separator character, and `join`;
  - `parseCommaSeparatedInput`: split at commas, trim each piece, drop the
    empty pieces.
- **Machine** (`machine.dfy`): the `turingMachine` record.
  - The machine is a datatype `MachineDef` and the global record a class
    `TuringMachine`, whose methods update its fields in place.
  - The class methods are the repair of `validateMachineConfiguration`,
    the form reader `initializeMachineFromInputs` and the transition-table
    fold `updateTransitionsFromTable`.
  - The table is a map keyed by the string `state,symbol`. The module
    proves that such keys split back into their two names.
- **Tape** (`tape.dfy`): the tape as a list of cells plus a head index.
  - It stands for a tape that is blank beyond both ends: `SymbolAt` is the
    symbol at an offset from the head.
  - It covers the padding of `ensureTapeLength`, the head moves and writes
    of `stepSimulation`, and the 21-cell window `renderTape` draws.
- **Engine** (`engine.dfy`): the `simulationState` record.
  - Pure functions say what `resetSimulation`, `stepSimulation`,
    `startSimulation`, `pauseSimulation` and `runSimulation` each do to it.
  - A class `Simulation` performs the same updates field by field, with
    the padding as the two while loops of `ensureTapeLength`. Each method
    is proved equal to its function.
  - Lemmas state the step rules and the history-numbering invariant. That
    invariant holds from a reset for every sequence of Step, Play and
    Pause presses.
- **Examples** (`examples.dfy`): two of the built-in example machines,
  `evenBinary` and `threeZeros`, run on their own sample inputs.

These behaviours of the code differ from what its comments and messages
suggest. The model follows the code:

- **Reset.** `resetSimulation` sets the head to "the leftmost cell", as
  its comment says, which is index 0. Its call of `renderTape` then pads
  ten blanks in front, so a reset ends with the head at index 10.
- **Missing transition, step count.** A step without a transition appends
  a history entry but does not increment `stepCount`.
- **Missing transition, history entry.** That entry's `fromState` is read
  after `currentState` has been set to the reject state, so it holds the
  reject state (script.js:1063 runs before script.js:1072).
- **The `evenBinary` example.** Its description says it accepts even binary
  numbers, but its table decides on the first symbol. Its own sample
  "1010" is therefore rejected after one step. The model keeps the table
  as written.
- **Start on a halted machine.** Pressing Play in a final state sets
  `isRunning`, and neither the step nor the run loop clears it; only Pause
  or Reset does. The model keeps that too.

## Model

| member | source | states |
|---|---|---|
| Text.Trim | script.js:482 | `Trim`, `item.trim()`: the result neither starts nor ends with whitespace; it is the contiguous part of the input after its leading whitespace, and everything cut from the end is whitespace |
| Text.Split | script.js:482 | `Split`, `split(',')`; `Join` is `join`: at least one piece, no piece contains the separator, and joining the pieces with the separator gives back the input |
| Text.NonEmpty | script.js:482 | `filter(item => item !== '')`: the result has no empty item, holds exactly the non-empty items of the input, and is the input itself when nothing is empty |
| Text.ParseCommaSeparated | script.js:481-483 | `TrimAll` is `map(item => item.trim())`; every item of a parsed comma list is non-empty, trimmed and comma-free |
| Text.ParseConcat | script.js:481-483 | parsing keeps input order: the items of `a,b` are the items of `a` followed by the items of `b` |
| Text.ParseJoin | script.js:351-356 | the loaders write a list into the form with `join(', ')`; parsing that text gives back the same list, for any list of clean items |
| Text.TrimOfTrimmed | script.js:482 | trimming an already trimmed string leaves it as it is |
| Text.SplitJoin | script.js:375 | splitting undoes joining, for pieces free of the separator |
| Machine.KeyRoundTrip | script.js:615 | `TransitionKey` builds `${state},${symbol}` and `SplitKey` splits it; for comma-free names, `(state + "," + symbol).split(',')` is exactly `[state, symbol]`, which is how the loaders and the visual table take keys apart (script.js:375, script.js:1225) |
| Machine.KeyInjective | script.js:984 | for comma-free names, two (state, symbol) pairs with the same key are the same pair; the listed states and symbols are comma-free, but the designated states and the blank need not be |
| Machine.DesignatedNamesMayHoldComma | script.js:470-475 | the designated states and the blank are only trimmed, so an initial state "a,b" and a blank "b,c" keep their commas, and the different pairs ("a,b", "c") and ("a", "b,c") share the key "a,b,c" |
| Machine.RowsToMap | script.js:598-623 | the table built from the rows has the key of every row, and maps the key of the last row with that key to that row's transition |
| Machine.RowsToMapOnlyRowKeys | script.js:598-623 | the table has no key that no row has |
| Machine.AddAllMissingSpec | script.js:485-515 | `AddIfMissing` is `includes`/`push`, `AddAllMissing` does it for each item in turn; appending the missing items of a list: the old list stays a prefix, every required item ends up present, only items that were missing are appended, each once, and nothing is appended when nothing is missing |
| Machine.Normalized | script.js:485-515 | after the repair, the initial, accept and reject states are states, the blank and every input symbol are tape symbols, and the other fields are unchanged |
| Machine.NormalizedOnlyAppends | script.js:485-515 | the repair only appends: old lists are prefixes, and each appended state or symbol is a missing designated state, the blank or an input symbol, appended once |
| Machine.NormalizedConsistentUnchanged | script.js:485-515 | a machine that already meets the repair's demands is left unchanged |
| Machine.NormalizedIdempotent | script.js:485-515 | repairing twice is repairing once |
| Machine.FormDef | script.js:469-475 | in the machine the form fields describe, every listed state, input symbol and tape symbol is non-empty, trimmed and comma-free, the four single names are trimmed, and the existing transitions are kept |
| Machine.TuringMachine.constructor | script.js:9-18 | the record starts with empty lists, an empty table, empty designated states and blank `"B"` |
| Machine.TuringMachine.Validate | script.js:485-515 | the record afterwards is the repaired machine of the record before |
| Machine.TuringMachine.AddMissingStates | script.js:486-500 | the initial, accept and reject state are each appended to `states` when missing; nothing else changes |
| Machine.TuringMachine.AddState | script.js:487-490 | `states` gets `q` appended exactly when it was missing; nothing else changes |
| Machine.TuringMachine.AddTapeSymbol | script.js:503-506 | `tapeAlphabet` gets the symbol appended exactly when it was missing; nothing else changes |
| Machine.TuringMachine.AddMissingSymbols | script.js:502-514 | the blank, then each input symbol in order, is appended to `tapeAlphabet` when missing, each test seeing the symbols appended before it; nothing else changes |
| Machine.TuringMachine.InitializeFromInputs | script.js:468-479 | the record afterwards is the repaired machine of the parsed or trimmed form fields, with the old transitions |
| Machine.TuringMachine.SetConfiguration | script.js:469-475 | the seven form fields are stored and the transitions kept |
| Machine.TuringMachine.UpdateTransitionsFromTable | script.js:598-623 | the transitions afterwards are the table the rows describe, a later row overwriting an earlier one with the same key; the other fields are unchanged |
| Tape.Pad | script.js:898-908 | after padding at least ten cells lie on each side of the head, and the head moved only when fewer than ten cells lay in front of it |
| Tape.PadShape | script.js:898-908 | padding adds blanks at the two ends only: the old cells stay together and in order, every new cell is blank, and the new length is the least the margins need |
| Tape.PadFromFirstCell | script.js:898-908 | padding cells whose head is the first cell gives ten blanks, the cells, then blanks up to 21 cells in all (none once there are 11 or more cells), with the head at index 10 |
| Tape.PadPadded | script.js:898-908 | a tape that already has its margins is left as it is |
| Tape.PadIdempotent | script.js:898-908 | padding twice is padding once |
| Tape.PadKeepsSymbols | script.js:898-908 | padding never changes the tape seen from the head, the symbol under the head included |
| Tape.Move | script.js:1012-1027 | the moved head is on the tape |
| Tape.MoveSymbols | script.js:1012-1027 | seen from the moved head, the tape is the old one shifted one cell for `'L'` or `'R'`, and not at all for any other code, whatever blank had to be added at an end |
| Tape.Write | script.js:1001 | a write keeps the head and the tape length |
| Tape.WriteSymbols | script.js:1001 | a write puts the symbol under the head and changes no other cell |
| Tape.WriteMovePadSymbols | script.js:1001-1027 | after `WriteMovePad` writes, moves and pads, offset `j` from the new head holds what offset `j + shift` held before, except that the old head cell holds the written symbol |
| Tape.RenderWindowBounds | script.js:854-857 | `RenderWindow` is `start = max(0, head - 10)`, `end = min(length, head + 11)`; the drawn window stays within the tape and is at most 21 cells wide; with the head on the tape it contains the head |
| Tape.RenderWindowPadded | script.js:852-857 | on a padded tape the drawn window is exactly 21 cells, with the head in the middle |
| Engine.ReadSymbol | script.js:981 | the symbol read is the cell's own or the blank, the cell's own whenever the cell is not empty, and never empty when the blank is not |
| Engine.InputCells | script.js:928 | `split('')` gives one single-character cell per character, in order, and joining the cells gives back the input |
| Engine.ResetState | script.js:918-936 | a reset leaves the tape padded and the head at index 10 |
| Engine.ResetShape | script.js:918-936 | after a reset: the initial state, no steps, no history, neither running nor paused, head 10; the tape is ten blanks, the trimmed input one character per cell (a single blank when it is empty), then blanks up to 21 cells in all (none once the input has 11 or more characters) |
| Engine.StepState | script.js:973-1090 | a step keeps the head on the tape and keeps a padded tape padded |
| Engine.ApplyRule | script.js:987-1058 | the tape after a step with a transition is padded |
| Engine.MissingRule | script.js:1059-1086 | the tape after a step without a transition is padded |
| Engine.RunState | script.js:1195-1210 | the run loop keeps the tape padded |
| Engine.StepWhenHalted | script.js:975-978 | in the accept or reject state a step changes nothing |
| Engine.StepWithRule | script.js:981-1058 | with a rule for the state and the symbol read: the rule's symbol is written at the old head, the head moves one cell left for `'L'`, right for `'R'` and not at all otherwise, every other cell is unchanged, the tape stays padded, the rule's next state is taken, the new head index is the old one plus the shift, raised to 10 when it falls below, the step count goes up by one, one entry is appended, entering a final state clears `isRunning`, and `isPaused` is kept |
| Engine.StepWithoutRule | script.js:1059-1086 | without a rule: the reject state is taken and `isRunning` cleared, the tape seen from the head is unchanged, and on a padded tape the cells and the head index are exactly as before, the step count stays, and one error entry is appended whose `fromState` is the reject state, with the symbol read as the symbol written and the move `'S'` |
| Engine.StepIntoFinalStops | script.js:1042-1058 | a step that enters a final state leaves `isRunning` false, so the run loop schedules no further step |
| Engine.RunWhenHalted | script.js:1195-1205 | started in a final state, the run loop changes nothing |
| Engine.RunProgress | script.js:1195-1210 | the run loop takes at most one step per call of `runSimulation`, and takes one on every call unless it stops in a final state, paused or not running |
| Engine.ResetCoherent | script.js:918-936 | a reset satisfies the history invariant: entries numbered 1, 2, …, an error entry only at the end, as many entries as steps plus a final error entry, and the reject state after an error entry |
| Engine.StepCoherent | script.js:973-1090 | a step keeps the history invariant |
| Engine.RunCoherent | script.js:1195-1210 | the run loop keeps the history invariant |
| Engine.StepHistoryGrows | script.js:973-1090 | a step never shortens the history |
| Engine.RunHistoryGrows | script.js:1195-1210 | the run loop never shortens the history |
| Engine.PlayTakesAStep | script.js:1174-1198 | pressing Play on a padded tape outside a final state always takes a step at once, through the direct call of `runSimulation`, whatever the number of timer ticks afterwards: the history grows by at least one entry |
| Engine.Exec | script.js:1174-1210 | any sequence of Step, Play and Pause presses keeps the tape padded |
| Engine.ExecFromResetCoherent | script.js:918-1210 | from a reset, any sequence of Step, Play and Pause presses keeps the history invariant |
| Engine.SpeedDelayRange | script.js:958-962 | `SpeedDelay` is `1100 - value * 100`: slider values 1 to 10 give delays from 1000 ms down to 100 ms, and a higher value always gives a shorter delay |
| Engine.SpeedLabelBands | script.js:964-968 | `SpeedLabel`: the label never goes down as the slider goes up; every value 1-3 is Slow, 4-7 Medium and 8-10 Fast |
| Engine.Simulation.constructor | script.js:20-29 | the record starts with an empty tape, head 0, no state, no steps, no history, neither running nor paused, and a 500 ms delay |
| Engine.Simulation.EnsureTapeLength | script.js:898-908 | the cells and head afterwards are the padded tape of the cells and head before; no other field changes |
| Engine.Simulation.PadFrontCells | script.js:900-903 | the first loop, `PadFront`, puts blanks in front, moving the head with them, until ten cells lie in front of the head; no other field changes |
| Engine.Simulation.PadBackCells | script.js:905-907 | the second loop, `PadBack`, pushes blanks until ten cells lie after the head; no other field changes |
| Engine.Simulation.UpdateSpeed | script.js:958-969 | the delay is `1100 - 100 * value` and the label is the band's name; the simulation state is unchanged |
| Engine.Simulation.Reset | script.js:918-936 | the state afterwards is the reset state of the machine and input, padded, with the slider's delay |
| Engine.Simulation.Step | script.js:973-1090 | the state afterwards is the step function of the state before; the tape stays padded and the delay kept |
| Engine.Simulation.ApplyTransition | script.js:987-1058 | the state afterwards is that of a step by the given transition |
| Engine.Simulation.WriteCell | script.js:1001 | the cell under the head gets the symbol; no other field changes |
| Engine.Simulation.MoveHead | script.js:1012-1027 | the cells and head afterwards are the moved tape; no other field changes |
| Engine.Simulation.RejectMissing | script.js:1059-1086 | the state afterwards is that of a step without a transition |
| Engine.Simulation.Start | script.js:1174-1184 | the state afterwards is `PlayState`: that of setting the running flags (`StartState`), then the direct call of `runSimulation`, then the given number of timer ticks, so Play always runs at least one call of the loop |
| Engine.Simulation.Pause | script.js:1186-1193 | `PauseState`: `isPaused` is set and `isRunning` cleared; nothing else changes |
| Engine.Simulation.Run | script.js:1195-1210 | the state afterwards is that of the run loop for at most the given number of calls of `runSimulation`; the tape stays padded |
| Examples.ExamplesAreConsistent | script.js:77-93 | the `evenBinary` and `threeZeros` tables are left unchanged by the repair (`threeZeros` at script.js:180-211) |
| Examples.EvenBinaryRejectsSample | script.js:77-93 | `evenBinary` on its sample "1010" is in the reject state after one step, has stopped, and holds one history entry, for reading "1" in `q0` |
| Examples.EvenBinaryMissingRule | script.js:1059-1086 | `evenBinary` on "2", which has no rule, is in the reject state with no counted step and a single error entry whose `fromState` is `qReject` |
| Examples.ThreeZerosAcceptsSample | script.js:180-211 | `threeZeros` accepts its sample "10010": after Play and at least five timer ticks (six steps: one on the direct call, five on ticks) it is in the accept state, has stopped, and holds six entries, none an error |

## Left out

- Drawing and event wiring are not modelled: the DOM, building the table
  rows, the history panel, the visual transition table and the tabs. Form
  values and the slider value are parameters instead.
- `renderTape` is modelled only through its `ensureTapeLength` call and its
  window arithmetic. Cell creation and `scrollIntoView` are presentation.
- Saving to and loading from `localStorage` are I/O and are left out,
  together with `JSON.stringify` and `JSON.parse`. Only `ParseJoin` is
  kept: it covers the `join(', ')` the loaders write into the form.
- Loading an example assigns the example's own arrays to the record, which
  aliases them. The model works on values and does not capture that.
- The `setTimeout` chain of `runSimulation` is replaced by a loop over the
  direct call from `startSimulation` plus a given number of timer ticks. The delay is stored but not used for timing.
  The model does not capture a pause followed quickly by Play leaving an
  old callback alive, which starts two chains.
- The layout arithmetic of `showTransitionAnimation`, `scrollTape`, the
  notifications, `console.warn` messages, icons and the injected CSS are
  presentation.
- `updateVisualTransitionTable` sorts with `localeCompare`, which depends
  on the locale. Of that function only the key split is modelled.
- `updateTransitionsFromTable` skips a row that does not have six cells.
  The model's rows are always complete.
- `parseInt` of the slider value is not modelled, and neither is its NaN
  case. The value is an integer parameter.
- `split('')` in JavaScript splits into UTF-16 code units. The model splits
  into Dafny characters, which are code points. The two agree on inputs
  without surrogate pairs.
- Engine.Simulation.Step: requires the padding invariant `Valid()`, so that
  the head is on the tape. The page resets the simulation when it loads
  (script.js:266 calls `initializeTape`, which resets), and every later
  reset and step restores the padding. The model does not cover a step on
  the still-empty record.
- The designated states and the blank are trimmed but not split, so they
  may hold a comma (`Machine.DesignatedNamesMayHoldComma`). For such names
  `Machine.KeyRoundTrip` and `Machine.KeyInjective` do not apply, and the
  model promises nothing about how the loaders split their keys.
- `Engine.ExecFromResetCoherent` and `Engine.Exec` keep one machine for the
  whole sequence of commands. The page re-reads the configuration on every
  field change and table edit without resetting (script.js:301-305,
  script.js:421, script.js:429). The `Simulation` methods take the machine
  on each call, but the history invariant is proved only for a machine
  that stays the same.
- The other built-in examples are left out. Only `evenBinary` and
  `threeZeros` are run as scenarios.
