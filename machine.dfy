/** The machine definition: the `turingMachine` record, its transition
    table keyed by `"state,symbol"`, and the repairs made by
    `validateMachineConfiguration`. */
module Machine {
  import opened Text

  /** One entry of the transition table. */
  datatype TransitionRule = TransitionRule(nextState: string, writeSymbol: string, moveDirection: string)

  /** The fields of the `turingMachine` record (also the saved layout). */
  datatype MachineDef = MachineDef(
    states: seq<string>,
    inputAlphabet: seq<string>,
    tapeAlphabet: seq<string>,
    transitions: map<string, TransitionRule>,
    initialState: string,
    acceptState: string,
    rejectState: string,
    blankSymbol: string)

  /** The table key `${state},${symbol}`. */
  function TransitionKey(state: string, symbol: string): string {
    state + "," + symbol
  }

  /** `key.split(',')`, as the loaders and the visual table take keys apart. */
  function SplitKey(key: string): seq<string> {
    Split(key, ',')
  }

  /** For names without a comma, splitting a key gives back the pair. */
  lemma KeyRoundTrip(state: string, symbol: string)
    requires ',' !in state && ',' !in symbol
    ensures SplitKey(TransitionKey(state, symbol)) == [state, symbol]
  {
    SplitAtSeparator(state, symbol, ',');
    SplitWithoutSeparator(state, ',');
    SplitWithoutSeparator(symbol, ',');
  }

  /** For names without a comma, distinct pairs have distinct keys, so the
      string-keyed table is a function of (state, symbol). */
  lemma KeyInjective(q1: string, a1: string, q2: string, a2: string)
    requires ',' !in q1 && ',' !in a1 && ',' !in q2 && ',' !in a2
    requires TransitionKey(q1, a1) == TransitionKey(q2, a2)
    ensures q1 == q2 && a1 == a2
  {
    KeyRoundTrip(q1, a1);
    KeyRoundTrip(q2, a2);
  }

  /** The designated states and the blank are only trimmed, never split, so
      they can hold a comma; then two different pairs share a key. */
  lemma DesignatedNamesMayHoldComma()
    ensures var d := FormDef("", "a,b", "", "", "", "", "b,c", map[]);
      && ',' in d.initialState && ',' in d.blankSymbol
      && (d.initialState, "c") != ("a", d.blankSymbol)
      && TransitionKey(d.initialState, "c") == TransitionKey("a", d.blankSymbol)
  {
    TrimOfTrimmed("a,b");
    TrimOfTrimmed("b,c");
    var d := FormDef("", "a,b", "", "", "", "", "b,c", map[]);
    assert d.initialState == "a,b" && d.blankSymbol == "b,c";
    assert "a,b" + "," + "c" == "a" + "," + "b,c";
  }

  /** A row of the transition editor: its five select values. */
  datatype Row = Row(currentState: string, currentSymbol: string, newState: string, writeSymbol: string, moveDirection: string)

  function RowKey(row: Row): string {
    TransitionKey(row.currentState, row.currentSymbol)
  }

  function RowRule(row: Row): TransitionRule {
    TransitionRule(row.newState, row.writeSymbol, row.moveDirection)
  }

  /** No later row has the key of row `i`. */
  predicate IsLastWithKey(rows: seq<Row>, i: nat)
    requires i < |rows|
  {
    forall j :: i < j < |rows| ==> RowKey(rows[j]) != RowKey(rows[i])
  }

  /** The table the rows describe: one key per row, and where several rows
      share a key, the last of them wins. */
  function RowsToMap(rows: seq<Row>): (m: map<string, TransitionRule>)
    ensures forall i :: 0 <= i < |rows| ==> RowKey(rows[i]) in m
    ensures forall i :: 0 <= i < |rows| && IsLastWithKey(rows, i) ==> m[RowKey(rows[i])] == RowRule(rows[i])
  {
    if rows == [] then map[]
    else
      var n := |rows| - 1;
      var init := rows[..n];
      var last := rows[n];
      var prev := RowsToMap(init);
      var m := prev[RowKey(last) := RowRule(last)];
      forall i | 0 <= i < |rows|
        ensures RowKey(rows[i]) in m
      {
        if i < n {
          assert init[i] == rows[i];
        }
      }
      forall i | 0 <= i < |rows| && IsLastWithKey(rows, i)
        ensures m[RowKey(rows[i])] == RowRule(rows[i])
      {
        if i < n {
          assert init[i] == rows[i];
          assert RowKey(rows[i]) != RowKey(last);
          assert IsLastWithKey(init, i) by {
            forall j | i < j < n ensures RowKey(init[j]) != RowKey(init[i]) {
              assert init[j] == rows[j];
            }
          }
        }
      }
      m
  }

  /** The table holds no key that no row has. */
  lemma {:induction false} RowsToMapOnlyRowKeys(rows: seq<Row>, k: string)
    requires k in RowsToMap(rows)
    ensures exists i :: 0 <= i < |rows| && RowKey(rows[i]) == k
  {
    var n := |rows| - 1;
    if k != RowKey(rows[n]) {
      RowsToMapOnlyRowKeys(rows[..n], k);
      var i :| 0 <= i < n && RowKey(rows[..n][i]) == k;
      assert rows[..n][i] == rows[i];
    }
  }

  /** `if (!xs.includes(x)) xs.push(x)`. */
  function AddIfMissing(xs: seq<string>, x: string): seq<string> {
    if x in xs then xs else xs + [x]
  }

  /** `AddIfMissing` for each item of `ys` in turn, each test seeing the
      items appended before it. */
  function AddAllMissing(xs: seq<string>, ys: seq<string>): seq<string>
  {
    if ys == [] then xs
    else AddIfMissing(AddAllMissing(xs, ys[..|ys| - 1]), ys[|ys| - 1])
  }

  /** The old list stays a prefix, every item of `ys` ends up in the list,
      only items that were missing are appended, each once, and nothing is
      appended when nothing is missing. */
  lemma {:induction false} AddAllMissingSpec(xs: seq<string>, ys: seq<string>)
    ensures var r := AddAllMissing(xs, ys);
      && |xs| <= |r| && r[..|xs|] == xs
      && (forall y :: y in ys ==> y in r)
      && (forall i :: |xs| <= i < |r| ==> r[i] in ys && r[i] !in xs)
      && (forall i, j :: |xs| <= i < j < |r| ==> r[i] != r[j])
      && ((forall y :: y in ys ==> y in xs) ==> r == xs)
  {
    if ys != [] {
      var init := ys[..|ys| - 1];
      AddAllMissingSpec(xs, init);
      assert forall y :: y in init ==> y in ys;
      assert ys == init + [ys[|ys| - 1]];
    }
  }

  /** Adding one more item at the end. */
  lemma AddAllMissingSnoc(xs: seq<string>, ys: seq<string>, y: string)
    ensures AddAllMissing(xs, ys + [y]) == AddIfMissing(AddAllMissing(xs, ys), y)
  {
    assert (ys + [y])[..|ys|] == ys;
  }

  /** What the repair demands: the three designated states are states, the
      blank and every input symbol are tape symbols. */
  predicate IsConsistent(d: MachineDef) {
    && d.initialState in d.states
    && d.acceptState in d.states
    && d.rejectState in d.states
    && d.blankSymbol in d.tapeAlphabet
    && (forall a :: a in d.inputAlphabet ==> a in d.tapeAlphabet)
  }

  /** The machine after `validateMachineConfiguration`. */
  function Normalized(d: MachineDef): (n: MachineDef)
    ensures IsConsistent(n)
    ensures n.inputAlphabet == d.inputAlphabet && n.transitions == d.transitions
    ensures n.initialState == d.initialState && n.acceptState == d.acceptState
    ensures n.rejectState == d.rejectState && n.blankSymbol == d.blankSymbol
  {
    AddAllMissingSpec(d.states, [d.initialState, d.acceptState, d.rejectState]);
    AddAllMissingSpec(d.tapeAlphabet, [d.blankSymbol] + d.inputAlphabet);
    assert forall a :: a in d.inputAlphabet ==> a in [d.blankSymbol] + d.inputAlphabet;
    d.(states := AddAllMissing(d.states, [d.initialState, d.acceptState, d.rejectState]),
       tapeAlphabet := AddAllMissing(d.tapeAlphabet, [d.blankSymbol] + d.inputAlphabet))
  }

  /** The repair only appends: old lists are prefixes, and an appended item
      is one of the required names that was missing before, appended once. */
  lemma NormalizedOnlyAppends(d: MachineDef)
    ensures var n := Normalized(d);
      && |d.states| <= |n.states| && n.states[..|d.states|] == d.states
      && |d.tapeAlphabet| <= |n.tapeAlphabet| && n.tapeAlphabet[..|d.tapeAlphabet|] == d.tapeAlphabet
      && (forall i :: |d.states| <= i < |n.states| ==>
            n.states[i] !in d.states
            && (n.states[i] == d.initialState || n.states[i] == d.acceptState || n.states[i] == d.rejectState))
      && (forall i :: |d.tapeAlphabet| <= i < |n.tapeAlphabet| ==>
            n.tapeAlphabet[i] !in d.tapeAlphabet
            && (n.tapeAlphabet[i] == d.blankSymbol || n.tapeAlphabet[i] in d.inputAlphabet))
      && (forall i, j :: |d.states| <= i < j < |n.states| ==> n.states[i] != n.states[j])
      && (forall i, j :: |d.tapeAlphabet| <= i < j < |n.tapeAlphabet| ==> n.tapeAlphabet[i] != n.tapeAlphabet[j])
  {
    var n := Normalized(d);
    AddAllMissingSpec(d.states, [d.initialState, d.acceptState, d.rejectState]);
    AddAllMissingSpec(d.tapeAlphabet, [d.blankSymbol] + d.inputAlphabet);
    forall i | |d.tapeAlphabet| <= i < |n.tapeAlphabet|
      ensures n.tapeAlphabet[i] == d.blankSymbol || n.tapeAlphabet[i] in d.inputAlphabet
    {
      var x := n.tapeAlphabet[i];
      assert x in [d.blankSymbol] + d.inputAlphabet;
      assert x == d.blankSymbol || x in d.inputAlphabet;
    }
  }

  /** A consistent machine is left unchanged. */
  lemma NormalizedConsistentUnchanged(d: MachineDef)
    requires IsConsistent(d)
    ensures Normalized(d) == d
  {
    assert forall y :: y in [d.initialState, d.acceptState, d.rejectState] ==> y in d.states;
    assert forall y :: y in [d.blankSymbol] + d.inputAlphabet ==> y in d.tapeAlphabet;
    AddAllMissingSpec(d.states, [d.initialState, d.acceptState, d.rejectState]);
    AddAllMissingSpec(d.tapeAlphabet, [d.blankSymbol] + d.inputAlphabet);
  }

  /** Repairing twice is repairing once. */
  lemma NormalizedIdempotent(d: MachineDef)
    ensures Normalized(Normalized(d)) == Normalized(d)
  {
    NormalizedConsistentUnchanged(Normalized(d));
  }

  /** The machine the configuration form describes: the list fields
      parsed as comma lists, so every listed state and symbol is non-empty,
      trimmed and comma-free; the four single names only trimmed; the
      transitions kept. */
  function FormDef(statesText: string, initialText: string, acceptText: string,
                   rejectText: string, inputAlphabetText: string,
                   tapeAlphabetText: string, blankText: string,
                   transitions: map<string, TransitionRule>): (d: MachineDef)
    ensures forall x :: x in d.states ==> IsCleanItem(x)
    ensures forall x :: x in d.inputAlphabet ==> IsCleanItem(x)
    ensures forall x :: x in d.tapeAlphabet ==> IsCleanItem(x)
    ensures IsTrimmed(d.initialState) && IsTrimmed(d.acceptState)
    ensures IsTrimmed(d.rejectState) && IsTrimmed(d.blankSymbol)
    ensures d.transitions == transitions
  {
    MachineDef(ParseCommaSeparated(statesText), ParseCommaSeparated(inputAlphabetText),
               ParseCommaSeparated(tapeAlphabetText), transitions,
               Trim(initialText), Trim(acceptText), Trim(rejectText), Trim(blankText))
  }

  /** The global `turingMachine` record, updated in place by the form code. */
  class TuringMachine {
    var states: seq<string>
    var inputAlphabet: seq<string>
    var tapeAlphabet: seq<string>
    var transitions: map<string, TransitionRule>
    var initialState: string
    var acceptState: string
    var rejectState: string
    var blankSymbol: string

    function Def(): MachineDef
      reads this
    {
      MachineDef(states, inputAlphabet, tapeAlphabet, transitions,
                 initialState, acceptState, rejectState, blankSymbol)
    }

    /** The record as the page starts with it. */
    constructor ()
      ensures Def() == MachineDef([], [], [], map[], "", "", "", "B")
    {
      states, inputAlphabet, tapeAlphabet := [], [], [];
      transitions := map[];
      initialState, acceptState, rejectState := "", "", "";
      blankSymbol := "B";
    }

    /** `validateMachineConfiguration`: append the missing designated states
        to `states`, then the blank and the missing input symbols to
        `tapeAlphabet`. */
    method Validate()
      modifies this
      ensures Def() == Normalized(old(Def()))
    {
      AddMissingStates();
      AddMissingSymbols();
    }

    /** The first half of `validateMachineConfiguration`: initial, accept and
        reject state, each pushed onto `states` when not already there. */
    method AddMissingStates()
      modifies this
      ensures Def() == old(Def()).(states := AddAllMissing(old(states), [initialState, acceptState, rejectState]))
    {
      ghost var d := Def();
      AddState(initialState);
      assert states == AddAllMissing(d.states, [initialState]) by {
        AddAllMissingSnoc(d.states, [], initialState);
        assert [] + [initialState] == [initialState];
      }
      AddState(acceptState);
      assert states == AddAllMissing(d.states, [initialState, acceptState]) by {
        AddAllMissingSnoc(d.states, [initialState], acceptState);
        assert [initialState] + [acceptState] == [initialState, acceptState];
      }
      AddState(rejectState);
      assert states == AddAllMissing(d.states, [initialState, acceptState, rejectState]) by {
        AddAllMissingSnoc(d.states, [initialState, acceptState], rejectState);
        assert [initialState, acceptState] + [rejectState] == [initialState, acceptState, rejectState];
      }
    }

    /** `if (!states.includes(q)) states.push(q)`. */
    method AddState(q: string)
      modifies this
      ensures Def() == old(Def()).(states := AddIfMissing(old(states), q))
    {
      if q !in states {
        states := states + [q];
      }
    }

    /** `if (!tapeAlphabet.includes(a)) tapeAlphabet.push(a)`. */
    method AddTapeSymbol(a: string)
      modifies this
      ensures Def() == old(Def()).(tapeAlphabet := AddIfMissing(old(tapeAlphabet), a))
    {
      if a !in tapeAlphabet {
        tapeAlphabet := tapeAlphabet + [a];
      }
    }

    /** The second half: the blank symbol, then each input symbol in order,
        pushed onto `tapeAlphabet` when not already there. */
    method AddMissingSymbols()
      modifies this
      ensures Def() == old(Def()).(tapeAlphabet := AddAllMissing(old(tapeAlphabet), [blankSymbol] + inputAlphabet))
    {
      ghost var d := Def();
      ghost var required := [blankSymbol] + inputAlphabet;
      AddTapeSymbol(blankSymbol);
      assert tapeAlphabet == AddAllMissing(d.tapeAlphabet, required[..1]) by {
        AddAllMissingSnoc(d.tapeAlphabet, [], blankSymbol);
        assert [] + [blankSymbol] == [blankSymbol] == required[..1];
      }
      var i := 0;
      while i < |inputAlphabet|
        invariant 0 <= i <= |inputAlphabet|
        invariant required == [blankSymbol] + inputAlphabet
        invariant tapeAlphabet == AddAllMissing(d.tapeAlphabet, required[..i + 1])
        invariant Def() == d.(tapeAlphabet := tapeAlphabet)
      {
        var symbol := inputAlphabet[i];
        AddTapeSymbol(symbol);
        assert tapeAlphabet == AddAllMissing(d.tapeAlphabet, required[..i + 2]) by {
          AddAllMissingSnoc(d.tapeAlphabet, required[..i + 1], symbol);
          assert required[..i + 1] + [symbol] == required[..i + 2];
        }
        i := i + 1;
      }
      assert required[..i + 1] == required;
    }

    /** `initializeMachineFromInputs`: the form's text fields, parsed or
        trimmed, then repaired. The transitions are kept. */
    method InitializeFromInputs(statesText: string, initialText: string, acceptText: string,
                                rejectText: string, inputAlphabetText: string,
                                tapeAlphabetText: string, blankText: string)
      modifies this
      ensures Def() == Normalized(FormDef(statesText, initialText, acceptText, rejectText,
                                          inputAlphabetText, tapeAlphabetText, blankText,
                                          old(transitions)))
    {
      var d := FormDef(statesText, initialText, acceptText, rejectText,
                       inputAlphabetText, tapeAlphabetText, blankText, transitions);
      SetConfiguration(d);
      Validate();
    }

    /** The seven assignments of `initializeMachineFromInputs`. */
    method SetConfiguration(d: MachineDef)
      requires d.transitions == transitions
      modifies this
      ensures Def() == d
    {
      states, initialState, acceptState, rejectState := d.states, d.initialState, d.acceptState, d.rejectState;
      inputAlphabet, tapeAlphabet, blankSymbol := d.inputAlphabet, d.tapeAlphabet, d.blankSymbol;
    }

    /** `updateTransitionsFromTable`: rebuild the table from the editor rows,
        first to last, a later row overwriting an earlier one with the same
        key. */
    method UpdateTransitionsFromTable(rows: seq<Row>)
      modifies this
      ensures Def() == old(Def()).(transitions := RowsToMap(rows))
    {
      transitions := map[];
      for i := 0 to |rows|
        invariant transitions == RowsToMap(rows[..i])
        invariant Def() == old(Def()).(transitions := transitions)
      {
        var row := rows[i];
        var key := TransitionKey(row.currentState, row.currentSymbol);
        transitions := transitions[key := TransitionRule(row.newState, row.writeSymbol, row.moveDirection)];
        assert rows[..i + 1][..i] == rows[..i];
      }
      assert rows[..|rows|] == rows;
    }
  }
}
