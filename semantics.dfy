/** The execution engine on values: a configuration of a run, the single step
    the engine performs, and runs of a bounded number of steps. */
module Semantics {
  import opened Results
  import opened Transitions
  import opened Tapes
  import opened States

  /** The transition table: each state name with its accepting flag and transitions. */
  type Table = map<string, StateEntry>

  /** Everything a run changes: the current state's name, the stored tape
      cells, the head position, and the blank symbol of the run. */
  datatype Config = Config(state: string, cells: map<int, char>, head: int, blank: char)

  /** The configuration a run starts from: a fresh tape and the initial state. */
  function Initial(initialState: string, content: string, offset: int, current: int, blank: char): (c: Config)
    ensures c.state == initialState && c.head == current && c.blank == blank
    ensures NoBlankStored(c.cells, c.blank)
    ensures forall i :: 0 <= i < |content| ==> CellAt(c.cells, blank, offset + i) == content[i]
  {
    Config(initialState, InitialCells(content, offset, blank), current, blank)
  }

  /** The transition of `state` on `symbol`, if the table has one. A name the
      table does not hold has no transitions. */
  function TransitionFor(table: Table, state: string, symbol: char): (r: Option<Transition>)
    ensures r.Some? <==> state in table && symbol in table[state].transitions
    ensures r.Some? ==> r.value == table[state].transitions[symbol]
  {
    if state in table && symbol in table[state].transitions
    then Some(table[state].transitions[symbol])
    else None
  }

  /** The symbol under the head. */
  function Scanned(c: Config): (s: char)
    ensures c.head in c.cells ==> s == c.cells[c.head]
    ensures NoBlankStored(c.cells, c.blank) ==> (s == c.blank <==> c.head !in c.cells)
  {
    CellAt(c.cells, c.blank, c.head)
  }

  /** One step of the engine: the next configuration, and whether the engine
      goes on stepping. */
  function Next(table: Table, c: Config): (r: (Config, bool))
    ensures r.0.blank == c.blank
    ensures NoBlankStored(c.cells, c.blank) ==> NoBlankStored(r.0.cells, r.0.blank)
  {
    match TransitionFor(table, c.state, Scanned(c))
    case None => (c, false)
    case Some(t) =>
      var cells := Written(c.cells, c.head, t.replacement, c.blank);
      match t.action
      case LEFT => (Config(t.stateTo, cells, c.head - 1, c.blank), true)
      case RIGHT => (Config(t.stateTo, cells, c.head + 1, c.blank), true)
      case HALT => (Config(t.stateTo, cells, c.head, c.blank), false)
  }

  /** What one step does. Without a transition for the scanned symbol nothing
      changes and the run stops. Otherwise the replacement is written under
      the head and no other cell changes, the destination becomes the current
      state, and the head moves left or right (the run goes on) or stays for
      HALT (the run stops). */
  lemma NextSpec(table: Table, c: Config)
    ensures TransitionFor(table, c.state, Scanned(c)).None? ==> Next(table, c) == (c, false)
    ensures TransitionFor(table, c.state, Scanned(c)).Some? ==>
      var t := TransitionFor(table, c.state, Scanned(c)).value;
      var (d, more) := Next(table, c);
      && d.state == t.stateTo
      && CellAt(d.cells, c.blank, c.head) == t.replacement
      && (forall q :: q != c.head ==> CellAt(d.cells, c.blank, q) == CellAt(c.cells, c.blank, q))
      && (t.action == LEFT ==> d.head == c.head - 1 && more)
      && (t.action == RIGHT ==> d.head == c.head + 1 && more)
      && (t.action == HALT ==> d.head == c.head && !more)
  {
  }

  /** The step that takes transition `t`, as one configuration: `t`'s
      replacement written under the head, `t`'s destination as the state, the
      head moved by `t`'s action, and the run going on unless `t` is HALT. */
  lemma NextTaking(table: Table, c: Config, t: Transition)
    requires TransitionFor(table, c.state, Scanned(c)) == Some(t)
    ensures Next(table, c)
         == (Config(t.stateTo, Written(c.cells, c.head, t.replacement, c.blank),
                    match t.action case LEFT => c.head - 1 case RIGHT => c.head + 1 case HALT => c.head,
                    c.blank),
             t.action != HALT)
  {
  }

  /** At most `fuel` steps from `c`: the configuration reached, and whether
      the engine stopped within that many steps. */
  function Run(table: Table, c: Config, fuel: nat): (r: (Config, bool))
    ensures r.0.blank == c.blank
    ensures r.1 ==> fuel > 0
    decreases fuel
  {
    if fuel == 0 then (c, false)
    else
      var (next, more) := Next(table, c);
      if more then Run(table, next, fuel - 1) else (next, true)
  }

  /** A run of at least one step is a step followed by the rest of the run,
      unless that step stops the engine. */
  lemma RunUnfolds(table: Table, c: Config, fuel: nat)
    requires fuel > 0
    ensures Next(table, c).1 ==> Run(table, c, fuel) == Run(table, Next(table, c).0, fuel - 1)
    ensures !Next(table, c).1 ==> Run(table, c, fuel) == (Next(table, c).0, true)
  {
  }

  /** A step that goes on, followed by a run that stops in `d`, is a run one
      step longer that stops in `d`. */
  lemma StepThenRun(table: Table, c: Config, next: Config, n: nat, d: Config)
    requires Next(table, c) == (next, true) && Run(table, next, n) == (d, true)
    ensures Run(table, c, n + 1) == (d, true)
  {
  }

  /** Whether the current state of `c` is an accepting state. */
  predicate Accepted(table: Table, c: Config): (b: bool)
    ensures b ==> c.state in table
    ensures c.state in table ==> (b <==> table[c.state].accepting)
  {
    c.state in table && table[c.state].accepting
  }

  /** Every configuration a run reaches keeps the tape free of stored blanks. */
  lemma {:induction false} RunKeepsNoBlankStored(table: Table, c: Config, fuel: nat)
    requires NoBlankStored(c.cells, c.blank)
    ensures NoBlankStored(Run(table, c, fuel).0.cells, Run(table, c, fuel).0.blank)
    ensures Run(table, c, fuel).0.blank == c.blank
    decreases fuel
  {
    if fuel > 0 && Next(table, c).1 {
      RunKeepsNoBlankStored(table, Next(table, c).0, fuel - 1);
    }
  }

  /** A run that stopped within `n` steps ends the same way under any larger
      budget: the result of a run that stops does not depend on the fuel. */
  lemma {:induction false} RunStopsForGood(table: Table, c: Config, n: nat, m: nat)
    requires n <= m && Run(table, c, n).1
    ensures Run(table, c, m) == Run(table, c, n)
    decreases n
  {
    if Next(table, c).1 {
      RunStopsForGood(table, Next(table, c).0, n - 1, m - 1);
    }
  }

  /** Running `n` steps without stopping and then `m` more is a run of
      `n + m` steps: a run is the repeated step. */
  lemma {:induction false} RunConcatenates(table: Table, c: Config, n: nat, m: nat)
    requires !Run(table, c, n).1
    ensures Run(table, c, n + m) == Run(table, Run(table, c, n).0, m)
    decreases n
  {
    if n > 0 {
      RunConcatenates(table, Next(table, c).0, n - 1, m);
    }
  }

  /** A configuration with no transition for its scanned symbol is final: a
      run from it stops at once, in the same state and with the same tape. */
  lemma RunStopsWithoutTransition(table: Table, c: Config, fuel: nat)
    requires fuel > 0 && TransitionFor(table, c.state, Scanned(c)).None?
    ensures Run(table, c, fuel) == (c, true)
  {
  }
}
