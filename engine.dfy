/** The execution engine: the `simulationState` record and what
    `resetSimulation`, `stepSimulation`, `startSimulation`,
    `pauseSimulation` and `runSimulation` do to it. The pure functions
    below say what one call does; the `Simulation` class performs the same
    updates field by field and is proved to agree with them. */
module Engine {
  import opened Text
  import opened Machine
  import opened Tape

  /** One line of the execution history. `error` is set only on the entry
      recorded when no transition exists. */
  datatype HistoryEntry = HistoryEntry(
    stepNumber: nat,
    fromState: string,
    toState: string,
    readSymbol: string,
    writeSymbol: string,
    moveDirection: string,
    headPosition: int,
    error: bool)

  /** The `simulationState` fields other than the delay. */
  datatype SimState = SimState(
    tape: seq<string>,
    headPosition: int,
    currentState: string,
    stepCount: nat,
    history: seq<HistoryEntry>,
    isRunning: bool,
    isPaused: bool)

  function TapeOf(s: SimState): TapeHead {
    TapeHead(s.tape, s.headPosition)
  }

  /** The accept and the reject state are final. */
  predicate IsHalted(d: MachineDef, state: string) {
    state == d.acceptState || state == d.rejectState
  }

  /** `tape[head] || blankSymbol`: the symbol read is the cell's own or the
      blank, the cell's own whenever the cell is not empty, and never empty
      when the blank is not, so every lookup key names a real symbol. */
  function ReadSymbol(t: TapeHead, blank: string): (symbol: string)
    requires 0 <= t.head < |t.cells|
    ensures symbol == t.cells[t.head] || symbol == blank
    ensures t.cells[t.head] != "" ==> symbol == t.cells[t.head]
    ensures blank != "" ==> symbol != ""
  {
    if t.cells[t.head] == "" then blank else t.cells[t.head]
  }

  /** `input.split('')`: one cell per character, in order, so that joining
      the cells again gives back the input. */
  function InputCells(input: string): (cells: seq<string>)
    ensures |cells| == |input|
    ensures forall i :: 0 <= i < |input| ==> cells[i] == [input[i]]
    ensures Join(cells, "") == input
  {
    if input == [] then []
    else
      var rest := InputCells(input[1..]);
      JoinCons([input[0]], rest, "");
      assert [input[0]] + input[1..] == input;
      [[input[0]]] + rest
  }

  /** The state after `resetSimulation` (including the padding its call of
      `renderTape` does). */
  function ResetState(d: MachineDef, inputText: string): (r: SimState)
    ensures IsPadded(TapeOf(r)) && r.headPosition == Margin
  {
    var input := Trim(inputText);
    var cells := if |input| == 0 then [d.blankSymbol] else InputCells(input);
    var t := Pad(TapeHead(cells, 0), d.blankSymbol);
    SimState(t.cells, t.head, d.initialState, 0, [], false, false)
  }

  /** The state after `stepSimulation`. */
  function StepState(d: MachineDef, s: SimState): (r: SimState)
    requires 0 <= s.headPosition < |s.tape|
    ensures 0 <= r.headPosition < |r.tape|
    ensures IsPadded(TapeOf(s)) ==> IsPadded(TapeOf(r))
  {
    if IsHalted(d, s.currentState) then s
    else
      var symbol := ReadSymbol(TapeOf(s), d.blankSymbol);
      var key := TransitionKey(s.currentState, symbol);
      if key in d.transitions then ApplyRule(d, s, symbol, d.transitions[key])
      else MissingRule(d, s, symbol)
  }

  /** The branch of `stepSimulation` that found `rule` for the current state
      and the symbol read. */
  function ApplyRule(d: MachineDef, s: SimState, symbol: string, rule: TransitionRule): (r: SimState)
    requires 0 <= s.headPosition < |s.tape|
    ensures IsPadded(TapeOf(r))
  {
    var entry := HistoryEntry(s.stepCount + 1, s.currentState, rule.nextState, symbol,
                              rule.writeSymbol, rule.moveDirection, s.headPosition, false);
    var moved := WriteMovePad(TapeOf(s), rule.writeSymbol, rule.moveDirection, d.blankSymbol);
    SimState(moved.cells, moved.head, rule.nextState, s.stepCount + 1, s.history + [entry],
             if IsHalted(d, rule.nextState) then false else s.isRunning, s.isPaused)
  }

  /** The branch of `stepSimulation` that found no rule. */
  function MissingRule(d: MachineDef, s: SimState, symbol: string): (r: SimState)
    ensures IsPadded(TapeOf(r))
  {
    var entry := HistoryEntry(s.stepCount + 1, d.rejectState, d.rejectState, symbol,
                              symbol, Stay, s.headPosition, true);
    var padded := Pad(TapeOf(s), d.blankSymbol);
    s.(tape := padded.cells, headPosition := padded.head, currentState := d.rejectState,
       history := s.history + [entry], isRunning := false)
  }

  /** The flags `startSimulation` sets before its first `runSimulation`. */
  function StartState(s: SimState): SimState {
    s.(isRunning := true, isPaused := false)
  }

  /** The state after `pauseSimulation`. */
  function PauseState(s: SimState): SimState {
    s.(isPaused := true, isRunning := false)
  }

  /** The state after at most `fuel` calls of `runSimulation`, the first
      one direct and the others re-scheduled by it: each call steps while
      `isRunning` holds and stops once the state is final or the run is
      paused. */
  function RunState(d: MachineDef, s: SimState, fuel: nat): (r: SimState)
    requires IsPadded(TapeOf(s))
    ensures IsPadded(TapeOf(r))
    decreases fuel
  {
    if fuel == 0 || !s.isRunning then s
    else
      var t := StepState(d, s);
      if IsHalted(d, t.currentState) || t.isPaused then t
      else RunState(d, t, fuel - 1)
  }

  /** `startSimulation`: the flags, its own direct call of `runSimulation`,
      then `ticks` timer ticks, each running the call scheduled by the one
      before. */
  function PlayState(d: MachineDef, s: SimState, ticks: nat): SimState
    requires IsPadded(TapeOf(s))
  {
    RunState(d, StartState(s), ticks + 1)
  }

  // ---------------------------------------------------------------------
  // Properties of one call

  /** After a reset: the initial state, no steps, no history, neither
      running nor paused, and the tape is ten blanks, the trimmed input one
      character per cell (a single blank when it is empty), then blanks up
      to 21 cells; the head is on the first input cell. */
  lemma ResetShape(d: MachineDef, inputText: string)
    ensures var s := ResetState(d, inputText);
      var input := Trim(inputText);
      var cells := if input == "" then [d.blankSymbol] else InputCells(input);
      && s.currentState == d.initialState
      && s.stepCount == 0 && s.history == []
      && !s.isRunning && !s.isPaused
      && s.headPosition == Margin
      && |s.tape| == (if |cells| < Margin + 1 then 2 * Margin + 1 else Margin + |cells|)
      && (forall i :: 0 <= i < Margin ==> s.tape[i] == d.blankSymbol)
      && s.tape[Margin .. Margin + |cells|] == cells
      && (forall i :: Margin + |cells| <= i < |s.tape| ==> s.tape[i] == d.blankSymbol)
      && IsPadded(TapeOf(s))
  {
    var input := Trim(inputText);
    var cells := if input == "" then [d.blankSymbol] else InputCells(input);
    PadFromFirstCell(cells, d.blankSymbol);
    assert TapeOf(ResetState(d, inputText)) == Pad(TapeHead(cells, 0), d.blankSymbol);
  }

  /** In a final state a step changes nothing at all. */
  lemma StepWhenHalted(d: MachineDef, s: SimState)
    requires 0 <= s.headPosition < |s.tape|
    requires IsHalted(d, s.currentState)
    ensures StepState(d, s) == s
  {
  }

  /** A step with a rule for the current state and the symbol read: the
      rule's symbol is written at the old head, the head moves one cell left
      for `'L'`, one right for `'R'` and not at all otherwise, every other
      cell of the tape is unchanged, the rule's next state is taken, one
      history entry is appended and the step count goes up by one; entering
      a final state clears `isRunning`. */
  lemma StepWithRule(d: MachineDef, s: SimState, rule: TransitionRule)
    requires 0 <= s.headPosition < |s.tape|
    requires !IsHalted(d, s.currentState)
    requires TransitionKey(s.currentState, ReadSymbol(TapeOf(s), d.blankSymbol)) in d.transitions
    requires d.transitions[TransitionKey(s.currentState, ReadSymbol(TapeOf(s), d.blankSymbol))] == rule
    ensures StepState(d, s).currentState == rule.nextState
    ensures forall j :: SymbolAt(TapeOf(StepState(d, s)), j, d.blankSymbol)
                        == if j + Shift(rule.moveDirection) == 0 then rule.writeSymbol
                           else SymbolAt(TapeOf(s), j + Shift(rule.moveDirection), d.blankSymbol)
    ensures IsPadded(TapeOf(StepState(d, s)))
    ensures StepState(d, s).stepCount == s.stepCount + 1
    ensures StepState(d, s).history
            == s.history + [HistoryEntry(s.stepCount + 1, s.currentState, rule.nextState,
                                         ReadSymbol(TapeOf(s), d.blankSymbol), rule.writeSymbol,
                                         rule.moveDirection, s.headPosition, false)]
    ensures StepState(d, s).isRunning == (s.isRunning && !IsHalted(d, rule.nextState))
    ensures StepState(d, s).isPaused == s.isPaused
    ensures var h := s.headPosition + Shift(rule.moveDirection);
      StepState(d, s).headPosition == if h < Margin then Margin else h
  {
    var r := ApplyRule(d, s, ReadSymbol(TapeOf(s), d.blankSymbol), rule);
    assert StepState(d, s) == r;
    assert TapeOf(r) == WriteMovePad(TapeOf(s), rule.writeSymbol, rule.moveDirection, d.blankSymbol);
    WriteMovePadSymbols(TapeOf(s), rule.writeSymbol, rule.moveDirection, d.blankSymbol);
  }

  /** A step without a rule: the reject state is taken and `isRunning`
      cleared, the tape is not written and the head not moved, the step
      count stays, and one error entry is appended whose `fromState` is
      already the reject state, with the symbol read also as the symbol
      written and the move `'S'`. */
  lemma StepWithoutRule(d: MachineDef, s: SimState)
    requires 0 <= s.headPosition < |s.tape|
    requires !IsHalted(d, s.currentState)
    requires TransitionKey(s.currentState, ReadSymbol(TapeOf(s), d.blankSymbol)) !in d.transitions
    ensures var symbol := ReadSymbol(TapeOf(s), d.blankSymbol);
      var r := StepState(d, s);
      && r.currentState == d.rejectState
      && !r.isRunning && r.isPaused == s.isPaused
      && (forall k :: SymbolAt(TapeOf(r), k, d.blankSymbol) == SymbolAt(TapeOf(s), k, d.blankSymbol))
      && r.stepCount == s.stepCount
      && r.history == s.history + [HistoryEntry(s.stepCount + 1, d.rejectState, d.rejectState, symbol,
                                                symbol, Stay, s.headPosition, true)]
    ensures IsPadded(TapeOf(s)) ==> StepState(d, s).tape == s.tape && StepState(d, s).headPosition == s.headPosition
  {
    var symbol := ReadSymbol(TapeOf(s), d.blankSymbol);
    assert StepState(d, s) == MissingRule(d, s, symbol);
    PadKeepsSymbols(TapeOf(s), d.blankSymbol);
    if IsPadded(TapeOf(s)) {
      PadPadded(TapeOf(s), d.blankSymbol);
    }
  }

  /** Every step that reaches a final state clears `isRunning`, so the run
      loop does not schedule another step. */
  lemma StepIntoFinalStops(d: MachineDef, s: SimState)
    requires 0 <= s.headPosition < |s.tape|
    requires !IsHalted(d, s.currentState)
    requires IsHalted(d, StepState(d, s).currentState)
    ensures !StepState(d, s).isRunning
  {
  }

  // ---------------------------------------------------------------------
  // The run loop

  /** Started in a final state, the run loop changes nothing. */
  lemma RunWhenHalted(d: MachineDef, s: SimState, fuel: nat)
    requires IsPadded(TapeOf(s))
    requires IsHalted(d, s.currentState)
    ensures RunState(d, s, fuel) == s
  {
  }

  /** The run loop only appends to the history. */
  lemma {:induction false} RunHistoryGrows(d: MachineDef, s: SimState, fuel: nat)
    requires IsPadded(TapeOf(s))
    ensures |RunState(d, s, fuel).history| >= |s.history|
    decreases fuel
  {
    if fuel > 0 && s.isRunning {
      var t := StepState(d, s);
      StepHistoryGrows(d, s);
      if !(IsHalted(d, t.currentState) || t.isPaused) {
        RunHistoryGrows(d, t, fuel - 1);
      }
    }
  }

  /** A step appends at most one entry and never removes one. */
  lemma StepHistoryGrows(d: MachineDef, s: SimState)
    requires 0 <= s.headPosition < |s.tape|
    ensures |StepState(d, s).history| >= |s.history|
  {
    if !IsHalted(d, s.currentState) {
      var symbol := ReadSymbol(TapeOf(s), d.blankSymbol);
      var key := TransitionKey(s.currentState, symbol);
      if key in d.transitions {
        assert StepState(d, s) == ApplyRule(d, s, symbol, d.transitions[key]);
      } else {
        assert StepState(d, s) == MissingRule(d, s, symbol);
      }
    }
  }

  /** Play always steps at once, before any timer tick: pressed in a state
      that is not final it appends at least one history entry. */
  lemma PlayTakesAStep(d: MachineDef, s: SimState, ticks: nat)
    requires IsPadded(TapeOf(s))
    requires !IsHalted(d, s.currentState)
    ensures |PlayState(d, s, ticks).history| >= |s.history| + 1
  {
    var t := StepState(d, StartState(s));
    assert |t.history| == |s.history| + 1;
    if !(IsHalted(d, t.currentState) || t.isPaused) {
      RunHistoryGrows(d, t, ticks);
    }
  }

  /** The run loop takes at most one step per call, and stops early
      only in a final state, when paused, or when not running. */
  lemma {:induction false} RunProgress(d: MachineDef, s: SimState, fuel: nat)
    requires IsPadded(TapeOf(s))
    ensures var r := RunState(d, s, fuel);
      && r.stepCount <= s.stepCount + fuel
      && (r.isRunning && !r.isPaused && !IsHalted(d, r.currentState) ==> r.stepCount == s.stepCount + fuel)
    decreases fuel
  {
    if fuel > 0 && s.isRunning {
      var t := StepState(d, s);
      if !(IsHalted(d, t.currentState) || t.isPaused) {
        RunProgress(d, t, fuel - 1);
      }
    }
  }

  // ---------------------------------------------------------------------
  // The history invariant

  predicate EndsInError(h: seq<HistoryEntry>) {
    |h| > 0 && h[|h| - 1].error
  }

  /** History entries are numbered 1, 2, ...; an error entry can only be
      the last one, the step count equals the number of entries not counting
      a final error entry, and after an error entry the machine sits in the
      reject state. */
  predicate HistoryCoherent(d: MachineDef, s: SimState) {
    && (forall i :: 0 <= i < |s.history| ==> s.history[i].stepNumber == i + 1)
    && (forall i :: 0 <= i < |s.history| - 1 ==> !s.history[i].error)
    && |s.history| == s.stepCount + (if EndsInError(s.history) then 1 else 0)
    && (EndsInError(s.history) ==> s.currentState == d.rejectState)
  }

  lemma ResetCoherent(d: MachineDef, inputText: string)
    ensures HistoryCoherent(d, ResetState(d, inputText))
  {
  }

  lemma StepCoherent(d: MachineDef, s: SimState)
    requires 0 <= s.headPosition < |s.tape|
    requires HistoryCoherent(d, s)
    ensures HistoryCoherent(d, StepState(d, s))
  {
    if !IsHalted(d, s.currentState) {
      assert !EndsInError(s.history);
      var r := StepState(d, s);
      assert r.history[..|s.history|] == s.history;
      assert forall i :: 0 <= i < |s.history| ==> r.history[i] == s.history[i];
    }
  }

  lemma {:induction false} RunCoherent(d: MachineDef, s: SimState, fuel: nat)
    requires IsPadded(TapeOf(s))
    requires HistoryCoherent(d, s)
    ensures HistoryCoherent(d, RunState(d, s, fuel))
    decreases fuel
  {
    if fuel > 0 && s.isRunning {
      StepCoherent(d, s);
      var t := StepState(d, s);
      if !(IsHalted(d, t.currentState) || t.isPaused) {
        RunCoherent(d, t, fuel - 1);
      }
    }
  }

  /** The user's controls once a machine is loaded: Step, Play (followed by
      a number of timer ticks before the next press) and Pause. */
  datatype Command = StepButton | PlayButton(ticks: nat) | PauseButton

  function Exec(d: MachineDef, s: SimState, commands: seq<Command>): (r: SimState)
    requires IsPadded(TapeOf(s))
    ensures IsPadded(TapeOf(r))
    decreases |commands|
  {
    if commands == [] then s
    else
      var next := match commands[0]
        case StepButton => StepState(d, s)
        case PlayButton(ticks) => PlayState(d, s, ticks)
        case PauseButton => PauseState(s);
      Exec(d, next, commands[1..])
  }

  /** From a reset, whatever the user presses, the history stays numbered
      1, 2, ..., has an error entry at most at its end, matches the step
      count, and the tape stays padded. */
  lemma {:induction false} ExecFromResetCoherent(d: MachineDef, inputText: string, commands: seq<Command>)
    ensures HistoryCoherent(d, Exec(d, ResetState(d, inputText), commands))
  {
    ResetCoherent(d, inputText);
    ResetShape(d, inputText);
    ExecCoherent(d, ResetState(d, inputText), commands);
  }

  lemma {:induction false} ExecCoherent(d: MachineDef, s: SimState, commands: seq<Command>)
    requires IsPadded(TapeOf(s))
    requires HistoryCoherent(d, s)
    ensures HistoryCoherent(d, Exec(d, s, commands))
    decreases |commands|
  {
    if commands != [] {
      match commands[0] {
        case StepButton =>
          StepCoherent(d, s);
          ExecCoherent(d, StepState(d, s), commands[1..]);
        case PlayButton(ticks) =>
          RunCoherent(d, StartState(s), ticks + 1);
          ExecCoherent(d, PlayState(d, s, ticks), commands[1..]);
        case PauseButton =>
          ExecCoherent(d, PauseState(s), commands[1..]);
      }
    }
  }

  // ---------------------------------------------------------------------
  // The speed slider

  /** `1100 - speedValue * 100` milliseconds between steps. */
  function SpeedDelay(speedValue: int): int {
    1100 - speedValue * 100
  }

  /** The label shown next to the slider. */
  function SpeedLabel(speedValue: int): string {
    if speedValue <= 3 then "Slow" else if speedValue <= 7 then "Medium" else "Fast"
  }

  /** The slider's values 1 to 10 give delays from 1000 ms down to 100 ms;
      a higher value is always a shorter delay. */
  lemma SpeedDelayRange(v: int, w: int)
    requires 1 <= v <= 10
    ensures 100 <= SpeedDelay(v) <= 1000
    ensures SpeedDelay(1) == 1000 && SpeedDelay(10) == 100
    ensures v < w ==> SpeedDelay(w) < SpeedDelay(v)
  {
  }

  function LabelRank(text: string): int {
    if text == "Slow" then 0 else if text == "Medium" then 1 else 2
  }

  /** The labels never go down as the slider goes up, and 1-3, 4-7 and 8-10
      are the three bands. */
  lemma SpeedLabelBands(v: int, w: int)
    requires v <= w
    ensures LabelRank(SpeedLabel(v)) <= LabelRank(SpeedLabel(w))
    ensures SpeedLabel(3) == "Slow" && SpeedLabel(4) == "Medium"
    ensures SpeedLabel(7) == "Medium" && SpeedLabel(8) == "Fast"
    ensures 1 <= v <= 3 ==> SpeedLabel(v) == "Slow"
    ensures 4 <= v <= 7 ==> SpeedLabel(v) == "Medium"
    ensures 8 <= v <= 10 ==> SpeedLabel(v) == "Fast"
  {
  }

  // ---------------------------------------------------------------------
  // The global `simulationState`, updated in place

  class Simulation {
    var tape: seq<string>
    var currentState: string
    var headPosition: int
    var isRunning: bool
    var isPaused: bool
    var stepCount: nat
    var speed: int
    var history: seq<HistoryEntry>

    function State(): SimState
      reads this
    {
      SimState(tape, headPosition, currentState, stepCount, history, isRunning, isPaused)
    }

    /** The padding every reset and step leaves behind. */
    predicate Valid()
      reads this
    {
      IsPadded(TapeHead(tape, headPosition))
    }

    /** The record as the page starts with it, before the first reset. */
    constructor ()
      ensures State() == SimState([], 0, "", 0, [], false, false)
      ensures speed == 500
    {
      tape, currentState, headPosition := [], "", 0;
      isRunning, isPaused := false, false;
      stepCount, speed, history := 0, 500, [];
    }

    /** `ensureTapeLength`. */
    method EnsureTapeLength(blank: string)
      modifies this
      ensures TapeHead(tape, headPosition) == Pad(old(TapeHead(tape, headPosition)), blank)
      ensures currentState == old(currentState) && stepCount == old(stepCount)
      ensures history == old(history) && speed == old(speed)
      ensures isRunning == old(isRunning) && isPaused == old(isPaused)
    {
      PadFrontCells(blank);
      PadBackCells(blank);
    }

    /** The first loop of `ensureTapeLength`: blanks in front, moving the
        head along, until it is `Margin` cells from the start. */
    method PadFrontCells(blank: string)
      modifies this
      ensures TapeHead(tape, headPosition) == PadFront(old(TapeHead(tape, headPosition)), blank)
      ensures currentState == old(currentState) && stepCount == old(stepCount)
      ensures history == old(history) && speed == old(speed)
      ensures isRunning == old(isRunning) && isPaused == old(isPaused)
    {
      ghost var t0 := TapeHead(tape, headPosition);
      while headPosition < Margin
        invariant t0.head <= headPosition
        invariant if t0.head < Margin then headPosition <= Margin else headPosition == t0.head
        invariant tape == Blanks(headPosition - t0.head, blank) + t0.cells
        invariant currentState == old(currentState) && stepCount == old(stepCount)
        invariant history == old(history) && speed == old(speed)
        invariant isRunning == old(isRunning) && isPaused == old(isPaused)
        decreases Margin - headPosition
      {
        assert [blank] + Blanks(headPosition - t0.head, blank) == Blanks(headPosition - t0.head + 1, blank);
        tape := [blank] + tape;
        headPosition := headPosition + 1;
      }
    }

    /** The second loop of `ensureTapeLength`: blanks at the end until
        `Margin` cells follow the head. */
    method PadBackCells(blank: string)
      modifies this
      ensures TapeHead(tape, headPosition) == PadBack(old(TapeHead(tape, headPosition)), blank)
      ensures currentState == old(currentState) && stepCount == old(stepCount)
      ensures history == old(history) && speed == old(speed)
      ensures isRunning == old(isRunning) && isPaused == old(isPaused)
    {
      ghost var t0 := tape;
      while headPosition >= |tape| - Margin
        invariant |t0| <= |tape|
        invariant |tape| == |t0| || |tape| <= headPosition + Margin + 1
        invariant tape == t0 + Blanks(|tape| - |t0|, blank)
        invariant headPosition == old(headPosition)
        invariant currentState == old(currentState) && stepCount == old(stepCount)
        invariant history == old(history) && speed == old(speed)
        invariant isRunning == old(isRunning) && isPaused == old(isPaused)
        decreases headPosition + Margin + 1 - |tape|
      {
        assert Blanks(|tape| - |t0|, blank) + [blank] == Blanks(|tape| - |t0| + 1, blank);
        tape := tape + [blank];
      }
    }

    /** `updateSimulationSpeed`: the delay, and the label it shows. */
    method UpdateSpeed(speedValue: int) returns (speedText: string)
      modifies this
      ensures speed == SpeedDelay(speedValue) && speedText == SpeedLabel(speedValue)
      ensures State() == old(State())
    {
      speed := 1100 - speedValue * 100;
      if speedValue <= 3 {
        speedText := "Slow";
      } else if speedValue <= 7 {
        speedText := "Medium";
      } else {
        speedText := "Fast";
      }
    }

    /** `resetSimulation`, reading the input box and the slider as
        parameters. */
    method Reset(tm: TuringMachine, inputText: string, speedValue: int)
      modifies this
      ensures Valid()
      ensures State() == ResetState(tm.Def(), inputText)
      ensures speed == SpeedDelay(speedValue)
    {
      isRunning := false;
      isPaused := false;
      stepCount := 0;
      currentState := tm.initialState;
      history := [];
      var input := Trim(inputText);
      tape := InputCells(input);
      if |tape| == 0 {
        tape := tape + [tm.blankSymbol];
      }
      headPosition := 0;
      var _ := UpdateSpeed(speedValue);
      EnsureTapeLength(tm.blankSymbol);
    }

    /** `stepSimulation`. */
    method Step(tm: TuringMachine)
      requires Valid()
      modifies this
      ensures Valid()
      ensures State() == StepState(tm.Def(), old(State()))
      ensures speed == old(speed)
    {
      if currentState == tm.acceptState || currentState == tm.rejectState {
        return;
      }
      var currentSymbol := ReadSymbol(TapeHead(tape, headPosition), tm.blankSymbol);
      var transitionKey := TransitionKey(currentState, currentSymbol);
      if transitionKey in tm.transitions {
        ApplyTransition(tm, currentSymbol, tm.transitions[transitionKey]);
      } else {
        RejectMissing(tm, currentSymbol);
      }
      PadPadded(TapeHead(tape, headPosition), tm.blankSymbol);
      EnsureTapeLength(tm.blankSymbol);
    }

    /** The branch of `stepSimulation` that found a transition. */
    method ApplyTransition(tm: TuringMachine, currentSymbol: string, transition: TransitionRule)
      requires 0 <= headPosition < |tape|
      modifies this
      ensures State() == ApplyRule(tm.Def(), old(State()), currentSymbol, transition)
      ensures speed == old(speed)
    {
      var entry := HistoryEntry(stepCount + 1, currentState, transition.nextState, currentSymbol,
                                transition.writeSymbol, transition.moveDirection, headPosition, false);
      WriteCell(transition.writeSymbol);
      currentState := transition.nextState;
      MoveHead(transition.moveDirection, tm.blankSymbol);
      history := history + [entry];
      stepCount := stepCount + 1;
      EnsureTapeLength(tm.blankSymbol);
      if currentState == tm.acceptState {
        isRunning := false;
      } else if currentState == tm.rejectState {
        isRunning := false;
      }
    }

    /** `tape[headPosition] = symbol`. */
    method WriteCell(symbol: string)
      requires 0 <= headPosition < |tape|
      modifies this
      ensures TapeHead(tape, headPosition) == Write(old(TapeHead(tape, headPosition)), symbol)
      ensures currentState == old(currentState) && stepCount == old(stepCount)
      ensures history == old(history) && speed == old(speed)
      ensures isRunning == old(isRunning) && isPaused == old(isPaused)
    {
      tape := tape[headPosition := symbol];
    }

    /** The head move of `stepSimulation`. */
    method MoveHead(direction: string, blank: string)
      requires 0 <= headPosition < |tape|
      modifies this
      ensures TapeHead(tape, headPosition) == Move(old(TapeHead(tape, headPosition)), direction, blank)
      ensures currentState == old(currentState) && stepCount == old(stepCount)
      ensures history == old(history) && speed == old(speed)
      ensures isRunning == old(isRunning) && isPaused == old(isPaused)
    {
      if direction == Left {
        headPosition := headPosition - 1;
        if headPosition < 0 {
          tape := [blank] + tape;
          headPosition := 0;
        }
      } else if direction == Right {
        headPosition := headPosition + 1;
        if headPosition >= |tape| {
          tape := tape + [blank];
        }
      }
    }

    /** The branch of `stepSimulation` that found no transition. */
    method RejectMissing(tm: TuringMachine, currentSymbol: string)
      modifies this
      ensures State() == MissingRule(tm.Def(), old(State()), currentSymbol)
      ensures speed == old(speed)
    {
      currentState := tm.rejectState;
      isRunning := false;
      var entry := HistoryEntry(stepCount + 1, currentState, tm.rejectState, currentSymbol,
                                currentSymbol, Stay, headPosition, true);
      history := history + [entry];
      EnsureTapeLength(tm.blankSymbol);
    }

    /** `startSimulation`: the flags, its direct call of `runSimulation`,
        then `ticks` timer ticks of the calls that one schedules. */
    method Start(tm: TuringMachine, ticks: nat)
      requires Valid()
      modifies this
      ensures Valid()
      ensures State() == PlayState(tm.Def(), old(State()), ticks)
      ensures speed == old(speed)
    {
      isRunning := true;
      isPaused := false;
      Run(tm, ticks + 1);
    }

    /** `pauseSimulation`. */
    method Pause()
      modifies this
      ensures State() == PauseState(old(State()))
      ensures speed == old(speed)
    {
      isPaused := true;
      isRunning := false;
    }

    /** `runSimulation` with its `setTimeout` re-scheduling replaced by a
        loop of at most `fuel` calls. */
    method Run(tm: TuringMachine, fuel: nat)
      requires Valid()
      modifies this
      ensures Valid()
      ensures State() == RunState(tm.Def(), old(State()), fuel)
      ensures speed == old(speed)
    {
      var ticks := fuel;
      while ticks > 0 && isRunning
        invariant Valid()
        invariant RunState(tm.Def(), State(), ticks) == RunState(tm.Def(), old(State()), fuel)
        invariant speed == old(speed)
        decreases ticks
      {
        Step(tm);
        if currentState == tm.acceptState || currentState == tm.rejectState || isPaused {
          return;
        }
        ticks := ticks - 1;
      }
    }
  }
}
