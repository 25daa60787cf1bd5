/** The aⁿbⁿcⁿ recogniser of the test suite as a transition table, and the
    runs the tests check on small inputs. Each pass marks the first a, b and
    c (as A, B and C) and walks back to the last marked a; once the first
    unmarked position holds a marked B, only marked symbols may follow. */
module Recogniser {
  import opened Results
  import opened Transitions
  import opened Tapes
  import opened States
  import opened Semantics

  /** The blank symbol of the test runs. */
  const Nul: char := '\0'

  /** The table built by the test suite's `getABCTuringMachine`: "5" is the
      only accepting state and has no transitions. */
  function ABCTable(): (t: Table)
    ensures t.Keys == {"0", "1", "2", "3", "4", "5"}
    ensures t["5"].accepting && t["5"].transitions == map[]
    ensures !t["0"].accepting && !t["1"].accepting && !t["2"].accepting && !t["3"].accepting && !t["4"].accepting
  {
    map[
      "0" := StateEntry(false, map[
        'a' := Transition('A', RIGHT, "1"), 'B' := Transition('B', RIGHT, "4"),
        Nul := Transition(Nul, HALT, "5")]),
      "1" := StateEntry(false, map[
        'a' := Transition('a', RIGHT, "1"), 'B' := Transition('B', RIGHT, "1"),
        'b' := Transition('B', RIGHT, "2")]),
      "2" := StateEntry(false, map[
        'b' := Transition('b', RIGHT, "2"), 'C' := Transition('C', RIGHT, "2"),
        'c' := Transition('C', LEFT, "3")]),
      "3" := StateEntry(false, map[
        'C' := Transition('C', LEFT, "3"), 'b' := Transition('b', LEFT, "3"),
        'B' := Transition('B', LEFT, "3"), 'a' := Transition('a', LEFT, "3"),
        'A' := Transition('A', RIGHT, "0")]),
      "4" := StateEntry(false, map[
        'B' := Transition('B', RIGHT, "4"), 'C' := Transition('C', RIGHT, "4"),
        Nul := Transition(Nul, HALT, "5")]),
      "5" := StateEntry(true, map[])]
  }

  /** Every transition of the recogniser leads to one of its states, so each
      `addTransition` of the test's builder names a known destination. */
  lemma ABCTableClosed()
    ensures var t := ABCTable();
      forall n, symbol :: n in t && symbol in t[n].transitions ==> t[n].transitions[symbol].stateTo in t
  {
  }


  /** The empty string is accepted at once: the first step reads a blank in
      "0" and halts in "5" on a blank tape, so the content is empty, the
      offset is `Integer.MAX_VALUE` and the head is still at 0. */
  lemma AcceptsEmpty(fuel: nat)
    requires fuel >= 1
    ensures var (d, stopped) := Run(ABCTable(), Initial("0", "", 0, 0, Nul), fuel);
      && stopped && d.state == "5" && Accepted(ABCTable(), d)
      && Content(d.cells, Nul) == "" && Leftmost(d.cells) == MaxInt && d.head == 0
  {
    var t := ABCTable();
    var c0 := Initial("0", "", 0, 0, Nul);
    AllBlankInitialCells("", 0, Nul);
    var c1 := Config("5", map[], 0, Nul);
    assert TransitionFor(t, "0", Nul) == Some(Transition(Nul, HALT, "5"));
    assert Next(t, c0) == (c1, false);
    RunUnfolds(t, c0, 1);
    RunStopsForGood(t, c0, 1, fuel);
  }

  /** The tape of "abc" once its three symbols are marked. */
  function MarkedABC(): map<int, char> {
    map[0 := 'A', 1 := 'B', 2 := 'C']
  }

  lemma StepMarkA()
    ensures Next(ABCTable(), Config("0", map[0 := 'a', 1 := 'b', 2 := 'c'], 0, Nul))
         == (Config("1", map[0 := 'A', 1 := 'b', 2 := 'c'], 1, Nul), true)
  {
    assert TransitionFor(ABCTable(), "0", 'a') == Some(Transition('A', RIGHT, "1"));
    assert map[0 := 'a', 1 := 'b', 2 := 'c'][0 := 'A'] == map[0 := 'A', 1 := 'b', 2 := 'c'];
  }

  lemma StepMarkB()
    ensures Next(ABCTable(), Config("1", map[0 := 'A', 1 := 'b', 2 := 'c'], 1, Nul))
         == (Config("2", map[0 := 'A', 1 := 'B', 2 := 'c'], 2, Nul), true)
  {
    assert TransitionFor(ABCTable(), "1", 'b') == Some(Transition('B', RIGHT, "2"));
    assert map[0 := 'A', 1 := 'b', 2 := 'c'][1 := 'B'] == map[0 := 'A', 1 := 'B', 2 := 'c'];
  }

  lemma StepMarkC()
    ensures Next(ABCTable(), Config("2", map[0 := 'A', 1 := 'B', 2 := 'c'], 2, Nul))
         == (Config("3", MarkedABC(), 1, Nul), true)
  {
    assert TransitionFor(ABCTable(), "2", 'c') == Some(Transition('C', LEFT, "3"));
    assert map[0 := 'A', 1 := 'B', 2 := 'c'][2 := 'C'] == MarkedABC();
  }

  lemma StepBackOverB()
    ensures Next(ABCTable(), Config("3", MarkedABC(), 1, Nul)) == (Config("3", MarkedABC(), 0, Nul), true)
  {
    assert TransitionFor(ABCTable(), "3", 'B') == Some(Transition('B', LEFT, "3"));
    assert MarkedABC()[1 := 'B'] == MarkedABC();
  }

  lemma StepBackToA()
    ensures Next(ABCTable(), Config("3", MarkedABC(), 0, Nul)) == (Config("0", MarkedABC(), 1, Nul), true)
  {
    assert TransitionFor(ABCTable(), "3", 'A') == Some(Transition('A', RIGHT, "0"));
    assert MarkedABC()[0 := 'A'] == MarkedABC();
  }

  /** The first pass over "abc": five steps mark A, B and C and bring the
      head back to the first unmarked position, in state "0". */
  lemma FirstPass()
    ensures Run(ABCTable(), Initial("0", "abc", 0, 0, Nul), 8)
         == Run(ABCTable(), Config("0", MarkedABC(), 1, Nul), 3)
  {
    var t := ABCTable();
    InitialCellsUnique("abc", 0, Nul, map[0 := 'a', 1 := 'b', 2 := 'c']);
    StepMarkA();
    StepMarkB();
    StepMarkC();
    StepBackOverB();
    StepBackToA();
    RunUnfolds(t, Config("0", map[0 := 'a', 1 := 'b', 2 := 'c'], 0, Nul), 8);
    RunUnfolds(t, Config("1", map[0 := 'A', 1 := 'b', 2 := 'c'], 1, Nul), 7);
    RunUnfolds(t, Config("2", map[0 := 'A', 1 := 'B', 2 := 'c'], 2, Nul), 6);
    RunUnfolds(t, Config("3", MarkedABC(), 1, Nul), 5);
    RunUnfolds(t, Config("3", MarkedABC(), 0, Nul), 4);
  }

  /** The second pass: the first unmarked position holds a marked B, so the
      machine checks that only B and C follow, reaches the blank after them
      and halts in "5". */
  lemma SecondPass()
    ensures Run(ABCTable(), Config("0", MarkedABC(), 1, Nul), 3)
         == (Config("5", MarkedABC(), 3, Nul), true)
  {
    var t := ABCTable();
    var marked := MarkedABC();
    var c5 := Config("0", marked, 1, Nul);
    var c6 := Config("4", marked, 2, Nul);
    var c7 := Config("4", marked, 3, Nul);
    assert Scanned(c5) == 'B' && TransitionFor(t, "0", 'B') == Some(Transition('B', RIGHT, "4"));
    assert marked[1 := 'B'] == marked;
    assert Scanned(c6) == 'C' && TransitionFor(t, "4", 'C') == Some(Transition('C', RIGHT, "4"));
    assert marked[2 := 'C'] == marked;
    assert Scanned(c7) == Nul && TransitionFor(t, "4", Nul) == Some(Transition(Nul, HALT, "5"));
    assert marked - {3} == marked;
    RunUnfolds(t, c5, 3);
    RunUnfolds(t, c6, 2);
    RunUnfolds(t, c7, 1);
  }

  /** The marked tape reads "ABC" from offset 0. */
  lemma MarkedContent()
    ensures Content(MarkedABC(), Nul) == "ABC" && Leftmost(MarkedABC()) == 0
  {
    var marked := MarkedABC();
    assert 0 in marked && 2 in marked;
    assert Leftmost(marked) == 0 && Rightmost(marked) == 2;
    ContentAt(marked, Nul, 0);
    ContentAt(marked, Nul, 1);
    ContentAt(marked, Nul, 2);
  }

  /** "abc" is accepted in eight steps, under any larger budget too: the
      content is the upper-cased input "ABC" from offset 0 and the head is
      just after it, at 3. */
  lemma AcceptsABC(fuel: nat)
    requires fuel >= 8
    ensures var (d, stopped) := Run(ABCTable(), Initial("0", "abc", 0, 0, Nul), fuel);
      && stopped && d.state == "5" && Accepted(ABCTable(), d)
      && Content(d.cells, Nul) == "ABC" && Leftmost(d.cells) == 0 && d.head == 3
  {
    FirstPass();
    SecondPass();
    RunStopsForGood(ABCTable(), Initial("0", "abc", 0, 0, Nul), 8, fuel);
    MarkedContent();
  }

  lemma StepMarkAOfAB()
    ensures Next(ABCTable(), Config("0", map[0 := 'a', 1 := 'b'], 0, Nul))
         == (Config("1", map[0 := 'A', 1 := 'b'], 1, Nul), true)
  {
    assert TransitionFor(ABCTable(), "0", 'a') == Some(Transition('A', RIGHT, "1"));
    assert map[0 := 'a', 1 := 'b'][0 := 'A'] == map[0 := 'A', 1 := 'b'];
  }

  lemma StepMarkBOfAB()
    ensures Next(ABCTable(), Config("1", map[0 := 'A', 1 := 'b'], 1, Nul))
         == (Config("2", map[0 := 'A', 1 := 'B'], 2, Nul), true)
  {
    assert TransitionFor(ABCTable(), "1", 'b') == Some(Transition('B', RIGHT, "2"));
    assert map[0 := 'A', 1 := 'b'][1 := 'B'] == map[0 := 'A', 1 := 'B'];
  }

  /** "ab" is rejected: after marking A and B the machine is in "2" on a
      blank, for which "2" has no transition, so the run stops there, in a
      state that is not accepting. */
  lemma RejectsAB(fuel: nat)
    requires fuel >= 3
    ensures var (d, stopped) := Run(ABCTable(), Initial("0", "ab", 0, 0, Nul), fuel);
      && stopped && d.state == "2" && !Accepted(ABCTable(), d)
  {
    var t := ABCTable();
    InitialCellsUnique("ab", 0, Nul, map[0 := 'a', 1 := 'b']);
    var c0 := Config("0", map[0 := 'a', 1 := 'b'], 0, Nul);
    var c1 := Config("1", map[0 := 'A', 1 := 'b'], 1, Nul);
    var c2 := Config("2", map[0 := 'A', 1 := 'B'], 2, Nul);
    StepMarkAOfAB();
    StepMarkBOfAB();
    assert Scanned(c2) == Nul && TransitionFor(t, "2", Nul) == None;
    RunUnfolds(t, c0, 3);
    RunUnfolds(t, c1, 2);
    RunStopsWithoutTransition(t, c2, 1);
    RunStopsForGood(t, c0, 3, fuel);
  }
}
