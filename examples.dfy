/** Two of the built-in example machines, as constants, and what the
    engine does with their sample inputs. */
module Examples {
  import opened Text
  import opened Machine
  import opened Tape
  import opened Engine

  /** `exampleMachines.evenBinary`. */
  const EvenBinary := MachineDef(
    ["q0", "qAccept", "qReject"],
    ["0", "1"],
    ["0", "1", "B"],
    map[
      "q0,0" := TransitionRule("qAccept", "0", "R"),
      "q0,1" := TransitionRule("qReject", "1", "R"),
      "q0,B" := TransitionRule("qAccept", "B", "S")],
    "q0", "qAccept", "qReject", "B")

  /** `exampleMachines.threeZeros`. */
  const ThreeZeros := MachineDef(
    ["q0", "q1", "q2", "q3", "q4", "qAccept", "qReject"],
    ["0", "1"],
    ["0", "1", "B"],
    map[
      "q0,0" := TransitionRule("q1", "0", "R"),
      "q0,1" := TransitionRule("q0", "1", "R"),
      "q0,B" := TransitionRule("qReject", "B", "S"),
      "q1,0" := TransitionRule("q2", "0", "R"),
      "q1,1" := TransitionRule("q1", "1", "R"),
      "q1,B" := TransitionRule("qReject", "B", "S"),
      "q2,0" := TransitionRule("q3", "0", "R"),
      "q2,1" := TransitionRule("q2", "1", "R"),
      "q2,B" := TransitionRule("qReject", "B", "S"),
      "q3,0" := TransitionRule("q4", "0", "R"),
      "q3,1" := TransitionRule("q3", "1", "R"),
      "q3,B" := TransitionRule("qAccept", "B", "S"),
      "q4,0" := TransitionRule("qReject", "0", "S"),
      "q4,1" := TransitionRule("q4", "1", "R"),
      "q4,B" := TransitionRule("qReject", "B", "S")],
    "q0", "qAccept", "qReject", "B")

  /** Both tables are already consistent: the repair would change neither. */
  lemma ExamplesAreConsistent()
    ensures Normalized(EvenBinary) == EvenBinary
    ensures Normalized(ThreeZeros) == ThreeZeros
  {
    NormalizedConsistentUnchanged(EvenBinary);
    NormalizedConsistentUnchanged(ThreeZeros);
  }

  /** The tape right after a reset with `input`, seen from the head. */
  lemma ResetSymbols(d: MachineDef, input: string)
    requires input != "" && IsTrimmed(input)
    ensures forall j :: 0 <= j < |input| ==> SymbolAt(TapeOf(ResetState(d, input)), j, d.blankSymbol) == [input[j]]
    ensures SymbolAt(TapeOf(ResetState(d, input)), |input|, d.blankSymbol) == d.blankSymbol
  {
    TrimOfTrimmed(input);
    PadKeepsSymbols(TapeHead(InputCells(input), 0), d.blankSymbol);
  }

  /** One step by a rule found for the non-empty symbol under the head. */
  lemma StepBy(d: MachineDef, s: SimState, symbol: string, rule: TransitionRule)
    requires IsPadded(TapeOf(s))
    requires !IsHalted(d, s.currentState)
    requires SymbolAt(TapeOf(s), 0, d.blankSymbol) == symbol && symbol != ""
    requires TransitionKey(s.currentState, symbol) in d.transitions
    requires d.transitions[TransitionKey(s.currentState, symbol)] == rule
    ensures StepState(d, s).currentState == rule.nextState
    ensures StepState(d, s).stepCount == s.stepCount + 1
    ensures StepState(d, s).isPaused == s.isPaused
    ensures StepState(d, s).isRunning == (s.isRunning && !IsHalted(d, rule.nextState))
    ensures StepState(d, s).history
            == s.history + [HistoryEntry(s.stepCount + 1, s.currentState, rule.nextState, symbol,
                                         rule.writeSymbol, rule.moveDirection, s.headPosition, false)]
    ensures rule.moveDirection == Right && rule.writeSymbol == symbol ==>
              forall j :: 0 <= j ==> SymbolAt(TapeOf(StepState(d, s)), j, d.blankSymbol)
                                     == SymbolAt(TapeOf(s), j + 1, d.blankSymbol)
  {
    assert ReadSymbol(TapeOf(s), d.blankSymbol) == symbol;
    StepWithRule(d, s, rule);
  }

  /** A freshly reset machine that was then started: padded, in the
      initial state, no steps and no history, running and not paused, with
      `input` under and to the right of the head and a blank after it. */
  predicate StartedOn(d: MachineDef, s: SimState, input: string) {
    && IsPadded(TapeOf(s))
    && s.currentState == d.initialState
    && s.stepCount == 0 && s.history == []
    && s.isRunning && !s.isPaused
    && s.headPosition == Margin
    && (forall j :: 0 <= j < |input| ==> SymbolAt(TapeOf(s), j, d.blankSymbol) == [input[j]])
    && SymbolAt(TapeOf(s), |input|, d.blankSymbol) == d.blankSymbol
  }

  /** Pressing Play right after a reset with a non-empty trimmed input. */
  lemma ResetThenStart(d: MachineDef, input: string)
    requires input != "" && IsTrimmed(input)
    ensures StartedOn(d, StartState(ResetState(d, input)), input)
  {
    ResetSymbols(d, input);
    ResetShape(d, input);
  }

  /** `evenBinary` looks at the first symbol only: its own sample input
      "1010", an even number, is rejected after one step. */
  lemma EvenBinaryRejectsSample(ticks: nat)
    ensures var r := PlayState(EvenBinary, ResetState(EvenBinary, "1010"), ticks);
      && r.currentState == "qReject" && !r.isRunning
      && r.stepCount == 1
      && r.history == [HistoryEntry(1, "q0", "qReject", "1", "1", "R", Margin, false)]
  {
    ResetThenStart(EvenBinary, "1010");
    EvenBinaryRunsOn1010(StartState(ResetState(EvenBinary, "1010")), ticks + 1);
  }

  lemma EvenBinaryRunsOn1010(s: SimState, fuel: nat)
    requires fuel >= 1
    requires StartedOn(EvenBinary, s, "1010")
    ensures var r := RunState(EvenBinary, s, fuel);
      && r.currentState == "qReject" && !r.isRunning
      && r.stepCount == 1
      && r.history == [HistoryEntry(1, "q0", "qReject", "1", "1", "R", Margin, false)]
  {
    var d := EvenBinary;
    assert SymbolAt(TapeOf(s), 0, d.blankSymbol) == "1";
    assert TransitionKey("q0", "1") == "q0,1";
    StepBy(d, s, "1", d.transitions["q0,1"]);
  }

  /** A symbol without a rule: `evenBinary` has none for "2", so the first
      step ends in the reject state with an error entry whose `fromState` is
      already `qReject`, and no step is counted. */
  lemma EvenBinaryMissingRule(ticks: nat)
    ensures var r := PlayState(EvenBinary, ResetState(EvenBinary, "2"), ticks);
      && r.currentState == "qReject" && !r.isRunning
      && r.stepCount == 0
      && r.history == [HistoryEntry(1, "qReject", "qReject", "2", "2", Stay, Margin, true)]
  {
    ResetThenStart(EvenBinary, "2");
    EvenBinaryRunsOn2(StartState(ResetState(EvenBinary, "2")), ticks + 1);
  }

  lemma EvenBinaryRunsOn2(s: SimState, fuel: nat)
    requires fuel >= 1
    requires StartedOn(EvenBinary, s, "2")
    ensures var r := RunState(EvenBinary, s, fuel);
      && r.currentState == "qReject" && !r.isRunning
      && r.stepCount == 0
      && r.history == [HistoryEntry(1, "qReject", "qReject", "2", "2", Stay, Margin, true)]
  {
    var d := EvenBinary;
    assert SymbolAt(TapeOf(s), 0, d.blankSymbol) == "2";
    assert ReadSymbol(TapeOf(s), d.blankSymbol) == "2";
    assert TransitionKey("q0", "2") == "q0,2";
    assert "q0,2" !in d.transitions;
    StepWithoutRule(d, s);
  }

  /** `threeZeros` accepts its sample input "10010" after six steps: one
      by the direct call of `runSimulation`, five more on timer ticks. */
  lemma ThreeZerosAcceptsSample(ticks: nat)
    requires ticks >= 5
    ensures var r := PlayState(ThreeZeros, ResetState(ThreeZeros, "10010"), ticks);
      && r.currentState == "qAccept" && !r.isRunning
      && r.stepCount == 6 && |r.history| == 6
      && (forall i :: 0 <= i < |r.history| ==> !r.history[i].error)
  {
    var fuel := ticks + 1;
    var s0 := ThreeZerosStarted();
    assert PlayState(ThreeZeros, ResetState(ThreeZeros, "10010"), ticks) == RunState(ThreeZeros, s0, fuel);
    var s3 := ThreeZerosFirstThree(s0, fuel);
    ThreeZerosLastThree(s3, fuel - 3);
  }

  /** Reset with "10010", then Play: scanning in `q0` at the first symbol. */
  lemma ThreeZerosStarted() returns (s0: SimState)
    ensures s0 == StartState(ResetState(ThreeZeros, "10010"))
    ensures Scanning(ThreeZeros, s0, "q0", 0, "10010")
  {
    ResetThenStart(ThreeZeros, "10010");
    s0 := StartState(ResetState(ThreeZeros, "10010"));
    StartedScanning(ThreeZeros, s0, "10010");
  }

  /** "100" of "10010": `q0` to `q0`, `q1`, `q2`. */
  lemma ThreeZerosFirstThree(s0: SimState, fuel: nat) returns (s3: SimState)
    requires fuel >= 6
    requires Scanning(ThreeZeros, s0, "q0", 0, "10010")
    ensures Scanning(ThreeZeros, s3, "q2", 3, "10010")
    ensures RunState(ThreeZeros, s0, fuel) == RunState(ThreeZeros, s3, fuel - 3)
  {
    var d := ThreeZeros;
    ThreeZerosRules();
    var s1 := ScanRight(d, s0, "q0", 0, "10010", "1", "q0", fuel);
    var s2 := ScanRight(d, s1, "q0", 1, "10010", "0", "q1", fuel - 1);
    s3 := ScanRight(d, s2, "q1", 2, "10010", "0", "q2", fuel - 2);
  }

  /** "10" of "10010" to `q2` and `q3`, then the blank into `qAccept`. */
  lemma ThreeZerosLastThree(s3: SimState, fuel: nat)
    requires fuel >= 3
    requires Scanning(ThreeZeros, s3, "q2", 3, "10010")
    ensures var r := RunState(ThreeZeros, s3, fuel);
      && r.currentState == "qAccept" && !r.isRunning
      && r.stepCount == 6 && |r.history| == 6
      && (forall i :: 0 <= i < 6 ==> !r.history[i].error)
  {
    var d := ThreeZeros;
    ThreeZerosRules();
    var s4 := ScanRight(d, s3, "q2", 3, "10010", "1", "q2", fuel);
    var s5 := ScanRight(d, s4, "q2", 4, "10010", "0", "q3", fuel - 1);
    StepBy(d, s5, "B", TransitionRule("qAccept", "B", Stay));
    var s6 := StepState(d, s5);
    assert RunState(d, s5, fuel - 2) == s6;
    assert s6.history[..5] == s5.history;
  }

  /** The rules of `threeZeros` that its sample input uses. */
  lemma ThreeZerosRules()
    ensures var m := ThreeZeros.transitions;
      && TransitionKey("q0", "1") in m && m[TransitionKey("q0", "1")] == TransitionRule("q0", "1", Right)
      && TransitionKey("q0", "0") in m && m[TransitionKey("q0", "0")] == TransitionRule("q1", "0", Right)
      && TransitionKey("q1", "0") in m && m[TransitionKey("q1", "0")] == TransitionRule("q2", "0", Right)
      && TransitionKey("q2", "1") in m && m[TransitionKey("q2", "1")] == TransitionRule("q2", "1", Right)
      && TransitionKey("q2", "0") in m && m[TransitionKey("q2", "0")] == TransitionRule("q3", "0", Right)
      && TransitionKey("q3", "B") in m && m[TransitionKey("q3", "B")] == TransitionRule("qAccept", "B", Stay)
  {
    assert TransitionKey("q0", "1") == "q0,1";
    assert TransitionKey("q0", "0") == "q0,0";
    assert TransitionKey("q1", "0") == "q1,0";
    assert TransitionKey("q2", "1") == "q2,1";
    assert TransitionKey("q2", "0") == "q2,0";
    assert TransitionKey("q3", "B") == "q3,B";
  }

  /** Running, not paused, in state `q` after `n` error-free steps, with
      what is left of `input` from position `n` under and to the right of
      the head and a blank after it. */
  predicate Scanning(d: MachineDef, s: SimState, q: string, n: nat, input: string) {
    && n <= |input|
    && IsPadded(TapeOf(s))
    && s.currentState == q
    && s.stepCount == n && |s.history| == n
    && (forall i :: 0 <= i < n ==> !s.history[i].error)
    && s.isRunning && !s.isPaused
    && (forall j :: 0 <= j < |input| - n ==> SymbolAt(TapeOf(s), j, d.blankSymbol) == [input[n + j]])
    && SymbolAt(TapeOf(s), |input| - n, d.blankSymbol) == d.blankSymbol
  }

  /** After Play, the scan starts at the first input symbol. */
  lemma StartedScanning(d: MachineDef, s: SimState, input: string)
    requires StartedOn(d, s, input)
    ensures Scanning(d, s, d.initialState, 0, input)
  {
  }

  /** One step of a rule that rewrites the symbol it reads and moves right,
      into a state that is not final: the scan goes on at the next input
      position, and the run loop continues with one tick fewer. */
  lemma ScanRight(d: MachineDef, s: SimState, q: string, n: nat, input: string, symbol: string,
                  next: string, fuel: nat)
      returns (t: SimState)
    requires Scanning(d, s, q, n, input) && n < |input| && symbol == [input[n]] && fuel >= 1
    requires !IsHalted(d, q) && !IsHalted(d, next)
    requires TransitionKey(q, symbol) in d.transitions
    requires d.transitions[TransitionKey(q, symbol)] == TransitionRule(next, symbol, Right)
    ensures t == StepState(d, s)
    ensures Scanning(d, t, next, n + 1, input)
    ensures RunState(d, s, fuel) == RunState(d, t, fuel - 1)
  {
    assert SymbolAt(TapeOf(s), 0, d.blankSymbol) == symbol;
    StepBy(d, s, symbol, TransitionRule(next, symbol, Right));
    t := StepState(d, s);
    assert t.history[..n] == s.history;
  }
}
