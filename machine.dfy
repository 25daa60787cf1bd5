/** The machine object: a table of named states built by `AddState`,
    `AddTransition` and `SetInitialState`, and `Execute`, which runs the
    engine on a fresh tape and keeps the final state and tape for the post-run
    queries. */
module Machines {
  import opened Results
  import opened Transitions
  import opened Tapes
  import opened States
  import opened Semantics

  /** The transition table the state objects stand for. */
  ghost function TableOf(states: map<string, State>): (t: Table)
    reads states.Values
    ensures t.Keys == states.Keys
  {
    map n | n in states :: states[n].Entry()
  }

  /** Each state is stored under its own name, so distinct names are distinct
      objects, and every transition leads to a stored state. */
  ghost predicate WellFormed(states: map<string, State>)
    reads states.Values
  {
    && (forall n :: n in states ==> states[n].name == n)
    && (forall n, symbol :: n in states && symbol in states[n].transitions ==>
          states[n].transitions[symbol].stateTo in states)
  }

  class TuringMachine {
    /** The states, by name. */
    var states: map<string, State>
    /** The initial state, once one is set. */
    var initialState: State?
    /** The current state of the last run. */
    var currentState: State?
    /** The tape of the last run. */
    var tape: Tape?

    /** The table is well formed, the initial and current states are stored
        states, and the tape keeps no blank cell. */
    ghost predicate Valid()
      reads this, states.Values, tape
    {
      && WellFormed(states)
      && (initialState != null ==> initialState.name in states && states[initialState.name] == initialState)
      && (currentState != null ==> currentState.name in states && states[currentState.name] == currentState)
      && (tape != null ==> tape.Valid())
    }

    /** The configuration of the last run. */
    ghost function Cfg(): Config
      requires currentState != null && tape != null
      reads this, currentState, tape
    {
      Config(currentState.name, tape.cells, tape.current, tape.blank)
    }

    /** Creates a machine with no states. */
    constructor ()
      ensures Valid()
      ensures states == map[] && TableOf(states) == map[]
      ensures initialState == null && currentState == null && tape == null
    {
      states := map[];
      initialState := null;
      currentState := null;
      tape := null;
    }

    /** The check that precedes `AddState`. */
    function ValidateAddStateArguments(name: Option<string>): Option<Error>
      reads this
    {
      if name.None? then Some(NullStateName)
      else if name.value in states then Some(DuplicateStateName)
      else None
    }

    /** Adds a state with no transitions under a name not yet used. */
    method AddState(name: Option<string>, accepting: bool) returns (r: Result<()>)
      requires Valid()
      modifies this
      ensures Valid()
      ensures initialState == old(initialState) && currentState == old(currentState) && tape == old(tape)
      ensures name.None? ==> r == Err(NullStateName)
      ensures name.Some? && name.value in old(states) ==> r == Err(DuplicateStateName)
      ensures r.Err? ==> states == old(states)
      ensures name.Some? && name.value !in old(states) ==>
        && r == Ok(())
        && name.value in states
        && fresh(states[name.value])
        && states == old(states)[name.value := states[name.value]]
        && states[name.value].accepting == accepting && states[name.value].transitions == map[]
        && TableOf(states) == old(TableOf(states))[name.value := StateEntry(accepting, map[])]
    {
      var e := ValidateAddStateArguments(name);
      if e.Some? {
        return Err(e.value);
      }
      var state := new State(name.value, accepting);
      states := states[name.value := state];
      assert state.transitions == map[];
      r := Ok(());
    }

    /** The checks that precede `AddTransition`, in the order they are made:
        the three missing arguments, the unknown source, the unknown
        destination, and a transition already set for the symbol. */
    function ValidateAddTransitionArguments(stateFromName: Option<string>, currentSymbol: char,
                                            action: Option<Action>, stateToName: Option<string>): (r: Option<Error>)
      reads this, states.Values
      ensures r == Some(NullSourceStateName) <==> stateFromName.None?
      ensures r == Some(NullAction) <==> stateFromName.Some? && action.None?
      ensures r == Some(NullDestinationStateName) <==> stateFromName.Some? && action.Some? && stateToName.None?
      ensures r == Some(UnknownSourceStateName) <==>
        stateFromName.Some? && action.Some? && stateToName.Some? && stateFromName.value !in states
      ensures r == Some(UnknownDestinationStateName) <==>
        stateFromName.Some? && action.Some? && stateToName.Some? && stateFromName.value in states
        && stateToName.value !in states
      ensures r == Some(DuplicateTransition) <==>
        stateFromName.Some? && action.Some? && stateToName.Some? && stateFromName.value in states
        && stateToName.value in states && currentSymbol in states[stateFromName.value].transitions
      ensures r.None? <==>
        stateFromName.Some? && action.Some? && stateToName.Some? && stateFromName.value in states
        && stateToName.value in states && currentSymbol !in states[stateFromName.value].transitions
    {
      if stateFromName.None? then Some(NullSourceStateName)
      else if action.None? then Some(NullAction)
      else if stateToName.None? then Some(NullDestinationStateName)
      else if stateFromName.value !in states then Some(UnknownSourceStateName)
      else if stateToName.value !in states then Some(UnknownDestinationStateName)
      else if states[stateFromName.value].GetTransition(currentSymbol).Some? then Some(DuplicateTransition)
      else None
    }

    /** Adds the transition of state `stateFromName` on `currentSymbol`; only a
        pair (state, symbol) without a transition gets one. */
    method AddTransition(stateFromName: Option<string>, currentSymbol: char, replacementSymbol: char,
                         action: Option<Action>, stateToName: Option<string>) returns (r: Result<()>)
      requires Valid()
      modifies states.Values
      ensures Valid()
      ensures old(ValidateAddTransitionArguments(stateFromName, currentSymbol, action, stateToName)).Some? ==>
        && r == Err(old(ValidateAddTransitionArguments(stateFromName, currentSymbol, action, stateToName)).value)
        && TableOf(states) == old(TableOf(states))
      ensures old(ValidateAddTransitionArguments(stateFromName, currentSymbol, action, stateToName)).Some? ==>
        forall n :: n in states ==> states[n].transitions == old(states[n].transitions)
      ensures old(ValidateAddTransitionArguments(stateFromName, currentSymbol, action, stateToName)).None? ==>
        var from := stateFromName.value;
        var entry := old(TableOf(states))[from];
        && r == Ok(())
        && TableOf(states) == old(TableOf(states))[from :=
             entry.(transitions := entry.transitions[currentSymbol := Transition(replacementSymbol, action.value, stateToName.value)])]
        && states[from].transitions
           == old(states[from].transitions)[currentSymbol := Transition(replacementSymbol, action.value, stateToName.value)]
      ensures stateFromName.Some? ==>
        forall n :: n in states && n != stateFromName.value ==> states[n].transitions == old(states[n].transitions)
    {
      var e := ValidateAddTransitionArguments(stateFromName, currentSymbol, action, stateToName);
      if e.Some? {
        return Err(e.value);
      }
      var stateFrom := states[stateFromName.value];
      stateFrom.AddTransition(currentSymbol, Transition(replacementSymbol, action.value, stateToName.value));
      assert forall n :: n in states && n != stateFromName.value ==> states[n] != stateFrom;
      r := Ok(());
    }

    /** The check that precedes `SetInitialState`. */
    function ValidateSetInitialStateArguments(name: Option<string>): Option<Error>
      reads this
    {
      if name.None? then Some(NullInitialStateName)
      else if name.value !in states then Some(UnknownInitialStateName)
      else None
    }

    /** Makes the state called `name` the initial state. */
    method SetInitialState(name: Option<string>) returns (r: Result<()>)
      requires Valid()
      modifies this
      ensures Valid()
      ensures states == old(states) && currentState == old(currentState) && tape == old(tape)
      ensures name.None? ==> r == Err(NullInitialStateName)
      ensures name.Some? && name.value !in states ==> r == Err(UnknownInitialStateName)
      ensures r.Err? ==> initialState == old(initialState)
      ensures name.Some? && name.value in states ==> r == Ok(()) && initialState == states[name.value]
    {
      var e := ValidateSetInitialStateArguments(name);
      if e.Some? {
        return Err(e.value);
      }
      initialState := states[name.value];
      r := Ok(());
    }

    /** The check of `Execute`'s argument. */
    static function ValidateExecuteArguments(content: Option<string>): Option<Error> {
      if content.None? then Some(NullContent) else None
    }

    /** The check that the machine is ready to run. */
    function ValidateState(): Option<Error>
      reads this
    {
      if initialState == null then Some(InitialStateNotSet) else None
    }

    /** Runs the machine on a fresh tape holding `content` from `offset` on,
        with the head at `current`, from the initial state. The engine stops
        when no transition applies or a HALT transition was taken; here it
        also stops after `fuel` steps, and `r` says whether the run stopped
        by itself. */
    method Execute(content: Option<string>, offset: int, current: int, blank: char, fuel: nat)
      returns (r: Result<bool>)
      requires Valid()
      modifies this
      ensures Valid()
      ensures states == old(states) && initialState == old(initialState)
      ensures content.None? ==> r == Err(NullContent)
      ensures content.Some? && initialState == null ==> r == Err(InitialStateNotSet)
      ensures r.Err? ==> currentState == old(currentState) && tape == old(tape)
      ensures content.Some? && initialState != null ==>
        && r.Ok? && currentState != null && tape != null && fresh(tape)
        && (Cfg(), r.value) == Run(TableOf(states), Initial(initialState.name, content.value, offset, current, blank), fuel)
    {
      var e := ValidateExecuteArguments(content);
      if e.Some? {
        return Err(e.value);
      }
      e := ValidateState();
      if e.Some? {
        return Err(e.value);
      }
      tape := new Tape(content.value, offset, current, blank);
      currentState := initialState;
      assert Cfg() == Initial(initialState.name, content.value, offset, current, blank);
      var stopped := RunSteps(fuel);
      r := Ok(stopped);
    }

    /** The stepping loop of `Execute`: performs steps until one of them stops
        the engine or `fuel` steps were made; `stopped` says whether the engine
        stopped by itself. */
    method RunSteps(fuel: nat) returns (stopped: bool)
      requires Valid() && currentState != null && tape != null
      modifies this, tape
      ensures Valid() && currentState != null && tape == old(tape)
      ensures states == old(states) && initialState == old(initialState)
      ensures (Cfg(), stopped) == Run(TableOf(states), old(Cfg()), fuel)
    {
      ghost var table := TableOf(states);
      ghost var goal := Run(table, Cfg(), fuel);
      var remaining := fuel;
      var more := true;
      while more && remaining > 0
        invariant Valid() && currentState != null && tape == old(tape)
        invariant states == old(states) && initialState == old(initialState) && TableOf(states) == table
        invariant more ==> goal == Run(table, Cfg(), remaining)
        invariant !more ==> goal == (Cfg(), true)
        decreases remaining
      {
        ghost var before := Cfg();
        more := PerformStep();
        RunUnfolds(table, before, remaining);
        remaining := remaining - 1;
      }
      stopped := !more;
    }

    /** One step of the engine on the machine's tape and current state. */
    method PerformStep() returns (more: bool)
      requires Valid() && currentState != null && tape != null
      modifies this, tape
      ensures Valid() && currentState != null && tape != null
      ensures states == old(states) && initialState == old(initialState) && tape == old(tape)
      ensures (Cfg(), more) == Next(TableOf(states), old(Cfg()))
    {
      var symbol := tape.Read();
      var transition := currentState.GetTransition(symbol);
      if transition.None? {
        return false;
      }
      NextTaking(TableOf(states), Cfg(), transition.value);
      more := TakeTransition(transition.value);
    }

    /** The part of a step that takes transition `t`: write its replacement,
        switch to its destination, and move the head for LEFT or RIGHT. */
    method TakeTransition(t: Transition) returns (more: bool)
      requires Valid() && currentState != null && tape != null && t.stateTo in states
      modifies this, tape
      ensures Valid() && currentState != null && tape != null
      ensures states == old(states) && initialState == old(initialState) && tape == old(tape)
      ensures TableOf(states) == old(TableOf(states))
      ensures Cfg() == Config(t.stateTo, Written(old(tape.cells), old(tape.current), t.replacement, old(tape.blank)),
                              match t.action case LEFT => old(tape.current) - 1 case RIGHT => old(tape.current) + 1
                                             case HALT => old(tape.current),
                              old(tape.blank))
      ensures more == (t.action != HALT)
    {
      tape.Write(t.replacement);
      currentState := states[t.stateTo];
      match t.action {
        case LEFT =>
          tape.Left();
          more := true;
        case RIGHT =>
          tape.Right();
          more := true;
        case HALT =>
          more := false;
      }
    }

    /** The check that the machine has run. */
    function ValidateExecution(): Option<Error>
      reads this
    {
      if currentState == null || tape == null then Some(NotExecuted) else None
    }

    /** Whether the last run ended in an accepting state. */
    method IsAccepted() returns (r: Result<bool>)
      requires Valid()
      ensures currentState == null || tape == null ==> r == Err(NotExecuted)
      ensures currentState != null && tape != null ==> r == Ok(Accepted(TableOf(states), Cfg()))
    {
      var e := ValidateExecution();
      if e.Some? {
        return Err(e.value);
      }
      r := Ok(currentState.accepting);
    }

    /** The name of the state the last run ended in. */
    method GetCurrentStateName() returns (r: Result<string>)
      requires Valid()
      ensures currentState == null || tape == null ==> r == Err(NotExecuted)
      ensures currentState != null && tape != null ==> r == Ok(Cfg().state) && r.value in states
    {
      var e := ValidateExecution();
      if e.Some? {
        return Err(e.value);
      }
      r := Ok(currentState.name);
    }

    /** The tape content after the last run. */
    method GetContent() returns (r: Result<string>)
      requires Valid()
      ensures currentState == null || tape == null ==> r == Err(NotExecuted)
      ensures currentState != null && tape != null ==> r == Ok(Content(tape.cells, tape.blank))
    {
      var e := ValidateExecution();
      if e.Some? {
        return Err(e.value);
      }
      var s := tape.GetContent();
      r := Ok(s);
    }

    /** The position of the first stored cell after the last run. */
    method GetContentOffset() returns (r: Result<int>)
      requires Valid()
      ensures currentState == null || tape == null ==> r == Err(NotExecuted)
      ensures currentState != null && tape != null ==> r == Ok(Leftmost(tape.cells))
    {
      var e := ValidateExecution();
      if e.Some? {
        return Err(e.value);
      }
      r := Ok(tape.GetOffset());
    }

    /** The head position after the last run. */
    method GetHeadPosition() returns (r: Result<int>)
      requires Valid()
      ensures currentState == null || tape == null ==> r == Err(NotExecuted)
      ensures currentState != null && tape != null ==> r == Ok(tape.current)
    {
      var e := ValidateExecution();
      if e.Some? {
        return Err(e.value);
      }
      r := Ok(tape.current);
    }

    /** The blank symbol of the last run. */
    method GetBlank() returns (r: Result<char>)
      requires Valid()
      ensures currentState == null || tape == null ==> r == Err(NotExecuted)
      ensures currentState != null && tape != null ==> r == Ok(tape.blank)
    {
      var e := ValidateExecution();
      if e.Some? {
        return Err(e.value);
      }
      r := Ok(tape.blank);
    }
  }
}
