/** A state of the machine: a name and an accepting flag fixed at creation,
    and the transitions it takes, one per input symbol. */
module States {
  import opened Results
  import opened Transitions

  /** What a state stands for in the transition table: its accepting flag and
      its transition for each symbol. */
  datatype StateEntry = StateEntry(accepting: bool, transitions: map<char, Transition>)

  class State {
    /** The state name. */
    const name: string
    /** True if and only if this is a final or accepting state. */
    const accepting: bool
    /** The transition for each symbol that has one. */
    var transitions: map<char, Transition>

    /** Creates a state with no transitions. */
    constructor (name: string, accepting: bool)
      ensures this.name == name && this.accepting == accepting
      ensures transitions == map[]
      ensures forall symbol :: GetTransition(symbol) == None
    {
      this.name := name;
      this.accepting := accepting;
      this.transitions := map[];
    }

    /** Sets the transition for `symbol`, replacing any transition it had:
        refusing a second transition for a symbol is up to the caller. */
    method AddTransition(symbol: char, transition: Transition)
      modifies this
      ensures GetTransition(symbol) == Some(transition)
      ensures forall other :: other != symbol ==> GetTransition(other) == old(GetTransition(other))
      ensures transitions == old(transitions)[symbol := transition]
    {
      transitions := transitions[symbol := transition];
    }

    /** The transition for `symbol`, or `None` if it has none. */
    function GetTransition(symbol: char): (r: Option<Transition>)
      reads this
      ensures r.Some? <==> symbol in transitions
      ensures r.Some? ==> r.value == transitions[symbol]
    {
      if symbol in transitions then Some(transitions[symbol]) else None
    }

    /** The value this state stands for in the transition table. */
    function Entry(): StateEntry
      reads this
    {
      StateEntry(accepting, transitions)
    }
  }
}
