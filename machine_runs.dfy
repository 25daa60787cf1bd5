/** The test suite's runs of its two machines through the machine object's
    own operations: `Execute` followed by every post-run query. */
module MachineRuns {
  import opened Results
  import opened Tapes
  import opened Semantics
  import opened Machines
  import Doubler
  import Recogniser

  /** The six post-run queries after a run: each reports the configuration
      the run left behind. */
  method QueryRun(m: TuringMachine)
    returns (accepted: Result<bool>, stateName: Result<string>, tapeContent: Result<string>,
             contentOffset: Result<int>, head: Result<int>, tapeBlank: Result<char>)
    requires m.Valid() && m.currentState != null && m.tape != null
    ensures accepted == Ok(Accepted(TableOf(m.states), m.Cfg())) && stateName == Ok(m.Cfg().state)
    ensures tapeContent == Ok(Content(m.Cfg().cells, m.Cfg().blank)) && contentOffset == Ok(Leftmost(m.Cfg().cells))
    ensures head == Ok(m.Cfg().head) && tapeBlank == Ok(m.Cfg().blank)
  {
    accepted := m.IsAccepted();
    stateName := m.GetCurrentStateName();
    tapeContent := m.GetContent();
    contentOffset := m.GetContentOffset();
    head := m.GetHeadPosition();
    tapeBlank := m.GetBlank();
  }

  /** `Execute` followed by the six post-run queries: each query reports the
      configuration the run reached within `fuel` steps, from the initial
      state on a fresh tape holding `content` from `offset` on. */
  method ExecuteAndQuery(m: TuringMachine, content: string, offset: int, current: int, blank: char, fuel: nat)
    returns (stopped: Result<bool>, accepted: Result<bool>, stateName: Result<string>,
             tapeContent: Result<string>, contentOffset: Result<int>, head: Result<int>, tapeBlank: Result<char>)
    requires m.Valid() && m.initialState != null
    modifies m
    ensures m.Valid() && m.states == old(m.states) && TableOf(m.states) == old(TableOf(m.states))
    ensures var (d, s) := Run(old(TableOf(m.states)), Initial(old(m.initialState.name), content, offset, current, blank), fuel);
      && stopped == Ok(s) && accepted == Ok(Accepted(old(TableOf(m.states)), d)) && stateName == Ok(d.state)
      && tapeContent == Ok(Content(d.cells, blank)) && contentOffset == Ok(Leftmost(d.cells))
      && head == Ok(d.head) && tapeBlank == Ok(blank)
  {
    ghost var t := TableOf(m.states);
    ghost var run := Run(t, Initial(m.initialState.name, content, offset, current, blank), fuel);
    RunKeepsNoBlankStored(t, Initial(m.initialState.name, content, offset, current, blank), fuel);
    stopped := m.Execute(Some(content), offset, current, blank, fuel);
    assert TableOf(m.states) == t;
    assert m.Cfg() == run.0;
    accepted, stateName, tapeContent, contentOffset, head, tapeBlank := QueryRun(m);
  }

  /** One doubling run as the test suite checks it, on a machine whose table
      doubles and starts in "0", with "H" accepting: `Execute` on
      `String.valueOf(n)` from offset 0, head on the last digit, blank NUL,
      stops by itself, accepted in "H", with `String.valueOf(2n)` on the
      tape, the offset moved left by the number of extra digits, the head at
      -1 and the blank NUL. */
  method MultiplyByTwo(m: TuringMachine, n: nat, fuel: nat)
    returns (accepted: Result<bool>, stateName: Result<string>, content: Result<string>,
             offset: Result<int>, head: Result<int>, blank: Result<char>)
    requires m.Valid() && Doubler.Doubling(TableOf(m.states))
    requires "H" in m.states && m.states["H"].accepting
    requires m.initialState != null && m.initialState.name == "0"
    requires fuel >= |Doubler.Decimal(n)| + 1
    modifies m
    ensures accepted == Ok(true) && stateName == Ok("H")
    ensures content == Ok(Doubler.Decimal(2 * n))
    ensures offset == Ok(|Doubler.Decimal(n)| - |Doubler.Decimal(2 * n)|)
    ensures head == Ok(-1) && blank == Ok(Doubler.Nul)
  {
    var s := Doubler.Decimal(n);
    ghost var run := Run(TableOf(m.states), Initial("0", s, 0, |s| - 1, Doubler.Nul), fuel);
    Doubler.DoublingTableRun(TableOf(m.states), n, fuel);
    assert run.0.state == "H" && m.states["H"].accepting;
    var stopped;
    stopped, accepted, stateName, content, offset, head, blank := ExecuteAndQuery(m, s, 0, |s| - 1, Doubler.Nul, fuel);
  }

  /** The recogniser's runs as the test suite checks them, on a machine built
      to the recogniser's table and started in "0", from offset 0 with the
      head at 0 and blank NUL: the empty string is accepted in "5" on a blank
      tape; "abc" is accepted in "5" with "ABC" from offset 0 and the head
      after it; "ab" is rejected in a state other than "5". */
  method RecogniseABC(m: TuringMachine, s: string, fuel: nat)
    returns (accepted: Result<bool>, stateName: Result<string>, content: Result<string>,
             offset: Result<int>, head: Result<int>, blank: Result<char>)
    requires m.Valid() && TableOf(m.states) == Recogniser.ABCTable()
    requires m.initialState != null && m.initialState.name == "0"
    requires s == "" || s == "abc" || s == "ab"
    requires fuel >= 8
    modifies m
    ensures s == "" ==> accepted == Ok(true) && stateName == Ok("5") && content == Ok("")
                        && offset == Ok(MaxInt) && head == Ok(0)
    ensures s == "abc" ==> accepted == Ok(true) && stateName == Ok("5") && content == Ok("ABC")
                           && offset == Ok(0) && head == Ok(3)
    ensures s == "ab" ==> accepted == Ok(false) && stateName != Ok("5")
    ensures blank == Ok(Recogniser.Nul)
  {
    if s == "" {
      Recogniser.AcceptsEmpty(fuel);
    } else if s == "abc" {
      Recogniser.AcceptsABC(fuel);
    } else {
      Recogniser.RejectsAB(fuel);
    }
    var stopped;
    stopped, accepted, stateName, content, offset, head, blank := ExecuteAndQuery(m, s, 0, 0, Recogniser.Nul, fuel);
  }
}
