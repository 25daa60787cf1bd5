# Deterministic single-tape Turing machine

This project models a small interpreter for deterministic single-tape
Turing machines and proves properties of the model. The interpreter has
three parts:

- a sparse tape: a map from signed position to symbol, a head position and a
  blank symbol;
- states with per-symbol transitions;
- a machine object. It builds a table of named states, runs it on a fresh
  tape until no transition applies or a HALT transition is taken, and then
  answers queries about the run.

The modules follow the program's classes:

- `Results` (results.dfy): `Option`, `Result`, and one `Error` constructor
  per exception the machine raises.
- `Transitions` (transitions.dfy): the `Action` and `Transition` records.
- `Tapes` (tape.dfy): the tape as a class over a `map<int, char>`, together
  with the value-level functions that specify it: `Written`, `InitialCells`,
  `Leftmost`, `Rightmost` and `Content`.
- `States` (state.dfy): the state class, with a mutable transition map.
- `Semantics` (semantics.dfy): the engine on values. A configuration holds
  the state name, the cells, the head and the blank. `Next` is one step and
  `Run` is at most `fuel` steps.
- `Machines` (machine.dfy): the machine class. `Execute` is proved against
  `Run`, and its stepping loop and `PerformStep` are proved against `Next`.
- `Recogniser` (recogniser.dfy) and `Doubler` (doubler.dfy): the two
  machines of the test suite, as transition tables.
  - The aⁿbⁿcⁿ recogniser is proved to accept "" and "abc" and to reject
    "ab".
  - The decimal doubler is proved correct for every natural number n: it
    halts accepted with the decimal form of 2n on the tape.
- `MachineRuns` (machine_runs.dfy): the test suite's runs through the
  machine object's own `Execute` and post-run queries.

The engine does not have to stop, so a run is bounded by a `fuel` argument.
`Run` reports whether the engine stopped by itself within that many steps.
`RunStopsForGood` shows that a run which stopped gives the same result under
any larger budget.

## Model

| member | source | states |
|---|---|---|
| Tapes.CellAt | src/main/java/com/example/turing/Tape.java:60-64 | reading a position gives its stored symbol, and under the no-blank-stored invariant it gives the blank exactly when nothing is stored there |
| Tapes.Written | src/main/java/com/example/turing/Tape.java:71-77 | after writing `c` at `p`, cell `p` reads `c` and every other cell and stored position is unchanged; writing keeps the no-blank-stored invariant |
| Tapes.InitialCells | src/main/java/com/example/turing/Tape.java:36-40 | a fresh tape stores `content[i]` at `offset + i` for every non-blank character, stores nothing else, and stores no blank |
| Tapes.InitialCellsUnique | src/main/java/com/example/turing/Tape.java:36-40 | any map holding exactly the non-blank characters of the content at their positions is the fresh tape's map |
| Tapes.WrittenInside | src/main/java/com/example/turing/Tape.java:71-77 | writing a non-blank symbol inside a fresh tape's string gives the fresh tape of the string with that character replaced |
| Tapes.WrittenBlankOutside | src/main/java/com/example/turing/Tape.java:72-73 | writing the blank outside a fresh tape's string removes nothing and changes nothing |
| Tapes.LeastOf | src/main/java/com/example/turing/Tape.java:104 | the minimum of a non-empty key set is in the set and is at most every element |
| Tapes.GreatestOf | src/main/java/com/example/turing/Tape.java:112 | the maximum of a non-empty key set is in the set and is at least every element |
| Tapes.Leftmost | src/main/java/com/example/turing/Tape.java:103-105 | the least stored position, or `Integer.MAX_VALUE` (2147483647) for a blank tape |
| Tapes.Rightmost | src/main/java/com/example/turing/Tape.java:111-113 | the greatest stored position, or `Integer.MIN_VALUE` for a blank tape |
| Tapes.Content | src/main/java/com/example/turing/Tape.java:82-97 | the content is empty exactly when nothing is stored |
| Tapes.ContentAt | src/main/java/com/example/turing/Tape.java:82-97 | the content has length rightmost − leftmost + 1, and character k is the symbol at leftmost + k, with blank in the gaps |
| Tapes.ContentEdgesNotBlank | src/main/java/com/example/turing/Tape.java:82-113 | with no blank stored, a non-empty content starts with the leftmost stored symbol and ends with the rightmost one, and neither is blank |
| Tapes.InitialLeftmost | src/main/java/com/example/turing/Tape.java:103-105 | a fresh tape whose string starts with a non-blank symbol has its offset at the given offset |
| Tapes.InitialRightmost | src/main/java/com/example/turing/Tape.java:111-113 | a fresh tape whose string ends with a non-blank symbol has its rightmost cell at the string's last position |
| Tapes.ContentOfInitialCells | src/main/java/com/example/turing/Tape.java:82-97 | a fresh tape whose string has non-blank ends renders back to that string, from the given offset |
| Tapes.ContentWrittenBefore | src/main/java/com/example/turing/Tape.java:71-97 | writing a non-blank symbol just left of such a string prepends that symbol to the content and moves the offset one to the left |
| Tapes.AllBlankInitialCells | src/main/java/com/example/turing/Tape.java:31-41 | an all-blank string gives an empty tape: content "" and offset `Integer.MAX_VALUE` |
| Tapes.Tape.constructor | src/main/java/com/example/turing/Tape.java:31-41 | the loop fills the cells with exactly `InitialCells(content, offset, blank)`; the head and the blank are as given; the invariant holds |
| Tapes.Tape.Left | src/main/java/com/example/turing/Tape.java:46-48 | the head moves exactly one position left and no cell changes |
| Tapes.Tape.Right | src/main/java/com/example/turing/Tape.java:53-55 | the head moves exactly one position right and no cell changes |
| Tapes.Tape.Read | src/main/java/com/example/turing/Tape.java:60-64 | the stored symbol under the head, or the blank if that cell is not stored |
| Tapes.Tape.Write | src/main/java/com/example/turing/Tape.java:71-77 | the new cells are `Written(old cells, head, c, blank)`, the head stays, and the invariant is kept |
| Tapes.Tape.GetContent | src/main/java/com/example/turing/Tape.java:82-97 | the loop builds "" for a blank tape, and otherwise the rightmost − leftmost + 1 symbols from the leftmost position on; this equals `Content` |
| Tapes.Tape.GetOffset | src/main/java/com/example/turing/Tape.java:119-121 | the least stored position, or `Integer.MAX_VALUE` for a blank tape |
| States.State.constructor | src/main/java/com/example/turing/State.java:29-33 | name and accepting flag as given; no transition for any symbol |
| States.State.AddTransition | src/main/java/com/example/turing/State.java:41-43 | afterwards the symbol maps to the given transition, replacing any earlier one, and every other symbol's lookup is unchanged |
| States.State.GetTransition | src/main/java/com/example/turing/State.java:65-67 | some transition exactly when the symbol has one, and then it is that transition |
| Semantics.TransitionFor | src/main/java/com/example/turing/State.java:65-67 | a state has a transition for a symbol exactly when the state is in the table and the symbol is a key of its transitions, and then it is the stored one |
| Semantics.Scanned | src/main/java/com/example/turing/Tape.java:60-64 | the scanned symbol is the one stored under the head; with no blank stored, it is the blank exactly when nothing is stored under the head |
| Semantics.Accepted | src/main/java/com/example/turing/TuringMachine.java:241 | a configuration is accepted only in a state of the table, and then exactly when that state is accepting |
| Semantics.Run | src/main/java/com/example/turing/TuringMachine.java:179-181 | a run of at most `fuel` steps keeps the blank, and it reports stopping by itself only when it had at least one step of budget |
| Semantics.Initial | src/main/java/com/example/turing/TuringMachine.java:176-177 | a run starts in the initial state, with the head and the blank as given, the content's symbols at their positions, and no blank stored |
| Semantics.Next | src/main/java/com/example/turing/TuringMachine.java:212-232 | a step keeps the blank and the no-blank-stored invariant |
| Semantics.NextSpec | src/main/java/com/example/turing/TuringMachine.java:212-232 | with no transition for the scanned symbol, nothing changes and the run stops. Otherwise the replacement is written under the head and no other cell changes, the destination becomes the state, and LEFT/RIGHT move the head by −1/+1 and continue while HALT leaves it and stops |
| Semantics.NextTaking | src/main/java/com/example/turing/TuringMachine.java:219-231 | unfolding lemma: the step that takes transition t, as the single configuration it yields |
| Semantics.RunUnfolds | src/main/java/com/example/turing/TuringMachine.java:179-181 | unfolding lemma: a run is a step followed by the rest of the run, unless the step stops the engine |
| Semantics.StepThenRun | src/main/java/com/example/turing/TuringMachine.java:179-181 | a continuing step followed by a run that stops in d is a run one step longer that stops in d |
| Semantics.RunKeepsNoBlankStored | src/main/java/com/example/turing/TuringMachine.java:179-181 | every configuration a run reaches keeps the blank and stores no blank |
| Semantics.RunStopsForGood | src/main/java/com/example/turing/TuringMachine.java:179-181 | once a run stops within n steps, any larger budget gives the same final configuration |
| Semantics.RunConcatenates | src/main/java/com/example/turing/TuringMachine.java:179-181 | n steps that do not stop, followed by m more steps, is a run of n + m steps |
| Semantics.RunStopsWithoutTransition | src/main/java/com/example/turing/TuringMachine.java:213-217 | without a transition for the scanned symbol, the run stops at once and nothing changes |
| Machines.TableOf | src/main/java/com/example/turing/TuringMachine.java:13 | the table has exactly the names of the stored states |
| Machines.TuringMachine.constructor | src/main/java/com/example/turing/TuringMachine.java:30-35 | no states, no initial state, no current state, no tape |
| Machines.TuringMachine.AddState | src/main/java/com/example/turing/TuringMachine.java:45-66 | a null name fails first, then a name already present. Either failure leaves the states unchanged. On success the name maps to a fresh state with the given flag and no transitions, and the table gains that entry and nothing else |
| Machines.TuringMachine.ValidateAddTransitionArguments | src/main/java/com/example/turing/TuringMachine.java:106-130 | each error holds exactly when the checks before it pass and its own fails, in the order: null source, null action, null destination, unknown source, unknown destination, existing transition. No error exactly when all six pass |
| Machines.TuringMachine.AddTransition | src/main/java/com/example/turing/TuringMachine.java:83-90 | a failed check returns that error and changes no state's transitions. On success only the source state gains the transition for the symbol, and the table changes in exactly that entry |
| Machines.TuringMachine.SetInitialState | src/main/java/com/example/turing/TuringMachine.java:139-160 | a null name fails first, then an unknown name, and a failure leaves the initial state as it was; otherwise the initial state is the state with that name |
| Machines.TuringMachine.Execute | src/main/java/com/example/turing/TuringMachine.java:172-205 | null content fails before a missing initial state, and a failure changes nothing. Otherwise a fresh tape is installed, and the final configuration and the stop flag are those of `Run` from `Initial` |
| Machines.TuringMachine.RunSteps | src/main/java/com/example/turing/TuringMachine.java:179-181 | the stepping loop ends in the configuration and stop flag of `Run` from the configuration it started in |
| Machines.TuringMachine.PerformStep | src/main/java/com/example/turing/TuringMachine.java:212-232 | the new configuration and the continue flag are exactly `Next` of the old configuration |
| Machines.TuringMachine.TakeTransition | src/main/java/com/example/turing/TuringMachine.java:219-231 | taking a transition writes its replacement under the head, switches to its destination, moves the head by −1/+1 for LEFT/RIGHT or keeps it for HALT, continues unless HALT, and leaves the table and the invariant intact |
| Machines.TuringMachine.IsAccepted | src/main/java/com/example/turing/TuringMachine.java:238-242 | fails before a run; afterwards, whether the current state is accepting |
| Machines.TuringMachine.GetCurrentStateName | src/main/java/com/example/turing/TuringMachine.java:248-252 | fails before a run; afterwards, the current state's name, which is a stored state |
| Machines.TuringMachine.GetContent | src/main/java/com/example/turing/TuringMachine.java:258-262 | fails before a run; afterwards, the tape's content |
| Machines.TuringMachine.GetContentOffset | src/main/java/com/example/turing/TuringMachine.java:269-273 | fails before a run; afterwards, the tape's leftmost stored position |
| Machines.TuringMachine.GetHeadPosition | src/main/java/com/example/turing/TuringMachine.java:279-283 | fails before a run; afterwards, the head position |
| Machines.TuringMachine.GetBlank | src/main/java/com/example/turing/TuringMachine.java:289-293 | fails before a run; afterwards, the tape's blank |
| Recogniser.ABCTable | src/test/java/com/example/turing/TuringMachineTest.java:336-367 | the test's recogniser table: states "0" to "5", of which "5" alone is accepting and has no transitions |
| Recogniser.ABCTableClosed | src/test/java/com/example/turing/TuringMachineTest.java:346-363 | every transition of that table leads to one of its states, so no `addTransition` of the builder names an unknown destination |
| Recogniser.FirstPass | src/test/java/com/example/turing/TuringMachineTest.java:346-357 | on "abc", the first five steps mark A, B and C and return to the first unmarked position in state "0" |
| Recogniser.SecondPass | src/test/java/com/example/turing/TuringMachineTest.java:358-362 | from there, the machine checks the marked B and C and halts in "5" after them |
| Recogniser.MarkedContent | src/test/java/com/example/turing/TuringMachineTest.java:412-413 | the marked tape reads "ABC" from offset 0 |
| Recogniser.AcceptsEmpty | src/test/java/com/example/turing/TuringMachineTest.java:403-408 | "" is accepted in "5" with empty content, offset `Integer.MAX_VALUE` and head 0, under any budget of at least one step |
| Recogniser.AcceptsABC | src/test/java/com/example/turing/TuringMachineTest.java:409-414 | "abc" is accepted in "5" with content "ABC" from offset 0 and head 3, under any budget of at least eight steps |
| Recogniser.RejectsAB | src/test/java/com/example/turing/TuringMachineTest.java:415-418 | "ab" stops in "2", which is not accepting, under any budget of at least three steps |
| Doubler.Decimal | src/test/java/com/example/turing/TuringMachineTest.java:312 | `String.valueOf(n)` is a non-empty string of digits |
| Doubler.DoubledDecimal | src/test/java/com/example/turing/TuringMachineTest.java:312-313 | schoolbook doubling of the digits of n, from the right with a carry in, gives the decimal form of 2n + carry |
| Doubler.DigitTransition | src/test/java/com/example/turing/TuringMachineTest.java:283-304 | in carry state c, digit d is replaced by (2d + c) mod 10, the head moves left, and the next state is the carry (2d + c) div 10 |
| Doubler.BlankTransition | src/test/java/com/example/turing/TuringMachineTest.java:293-304 | on the blank, carry state c halts in "H", writing '1' if c is 1 and the blank otherwise |
| Doubler.DoublingTable | src/test/java/com/example/turing/TuringMachineTest.java:275-309 | the test's doubling table: states "0", "1", "2" and "H", of which "H" alone is accepting and has no transitions |
| Doubler.DoublingTableClosed | src/test/java/com/example/turing/TuringMachineTest.java:283-304 | every transition of that table leads to one of its states, so no `addTransition` of the builder names an unknown destination |
| Doubler.DoublingTableDoubles | src/test/java/com/example/turing/TuringMachineTest.java:275-309 | the test's table has the doubling transitions in both carry states |
| Doubler.DoublingPass | src/test/java/com/example/turing/TuringMachineTest.java:315 | from the last digit of u, in the carry state, the machine doubles u right to left in \|u\| + 1 steps, halts in "H" at position −1 and writes the final carry there |
| Doubler.DoublingRun | src/test/java/com/example/turing/TuringMachineTest.java:315 | the run on `String.valueOf(n)` from offset 0, head on its last digit, halts in "H" at −1 with the doubled digits and the carry on the tape |
| Doubler.DoubledCellsContent | src/test/java/com/example/turing/TuringMachineTest.java:319-320 | that tape reads `String.valueOf(2n)`, from as many cells left of 0 as the result has extra digits |
| Doubler.DoublingTableRun | src/test/java/com/example/turing/TuringMachineTest.java:311-323 | any doubling table, run on `String.valueOf(n)`, stops in "H" with `String.valueOf(2n)`, offset \|n\| − \|2n\| in digits, head −1 and blank NUL |
| Doubler.Doubles | src/test/java/com/example/turing/TuringMachineTest.java:311-323 | the test's doubler does that for every natural number n, and "H" is accepting |
| MachineRuns.QueryRun | src/main/java/com/example/turing/TuringMachine.java:238-293 | after a run, the six queries report acceptance, state name, content, offset, head and blank of the configuration reached |
| MachineRuns.ExecuteAndQuery | src/main/java/com/example/turing/TuringMachine.java:172-293 | `Execute` followed by the queries reports the configuration `Run` reaches from `Initial` |
| MachineRuns.MultiplyByTwo | src/test/java/com/example/turing/TuringMachineTest.java:311-323 | on a machine with a doubling table, initial state "0" and "H" accepting, the queries return true, "H", `String.valueOf(2n)`, \|n\| − \|2n\| in digits, −1 and NUL |
| MachineRuns.RecogniseABC | src/test/java/com/example/turing/TuringMachineTest.java:400-421 | on a machine with the recogniser's table: "" gives true, "5", "", `Integer.MAX_VALUE` and 0; "abc" gives true, "5", "ABC", 0 and 3; "ab" is rejected in a state other than "5"; the blank is NUL |

## Left out

- Machines.TuringMachine.Execute: the loop `while (performStep())` may never end, and the model takes a `fuel` bound instead. `Execute` makes at most `fuel` steps and returns whether the engine stopped by itself. A run that does not stop within `fuel` steps is not modelled beyond that point.
- 32-bit `int` arithmetic is not modelled. Positions and head moves use unbounded integers, so the wrap-around of `offset + i` and of the head moves is not captured. Neither is the `getContent` loop at a cell stored at `Integer.MAX_VALUE`. `Integer.MAX_VALUE` and `Integer.MIN_VALUE` appear only as the blank-tape sentinels `MaxInt` and `MinInt`.
- Exceptions become `Err` values of the `Error` datatype, one constructor per exception; the message strings and the Java exception classes are not modelled.
- Null arguments are `Option` values, so that the order of the checks is kept. Arguments of type `char` and `boolean` cannot be null in Java and are plain values.
- A `Transition` stores its destination state by name, not as a `State` reference. `WellFormed` guarantees the name is a stored state. A state name that is not in the table has no transitions; this cannot happen for a well-formed machine.
- `HashMap` and the `stream().min/max` calls become Dafny `map`s and the least and greatest key.
- `Tape.getCurrent`, `Tape.getBlank`, `State.getName` and `State.isAccepting` are plain field reads (`current`, `blank`, `name`, `accepting`) and have no members of their own.
- The private checks `validateAddStateArguments`, `validateSetInitialStateArguments`, `validateExecuteArguments`, `validateState` and `validateExecution` are functions without contracts of their own. Their conditions and order are stated in the contracts of `AddState`, `SetInitialState`, `Execute` and the post-run queries.
- MachineRuns.MultiplyByTwo: takes the machine's table as a precondition (a doubling table, "H" accepting, initial state "0"). Building the test machine call by call (`getMultiplyByTwoTuringMachine`) is modelled by the table literal `DoublingTable`; that the `addState`/`addTransition` calls produce it is not proved, because that proof costs more than the solver's resource limit.
- MachineRuns.RecogniseABC: takes the machine's table as given (`TableOf(m.states) == ABCTable()`), for the same reason; that `getABCTuringMachine`'s calls produce it is not proved. It covers only the inputs "", "abc" and "ab", not every string of length at most 12 that the test enumerates.
- Tapes.InitialCells: the tape holds Dafny `char`s, which are Unicode scalar values, while a Java `char` is a UTF-16 code unit. For content outside the Basic Multilingual Plane, a Java tape stores two cells (a surrogate pair) where the model stores one, so positions, offsets and content lengths differ; lone surrogate symbols cannot be written in the model at all.
- The test suite's brute-force loops: the doubler is proved for every natural number, not checked for 0 to 1000000. The recogniser is proved only for "", "abc" and "ab", not for every string of length at most 12. The regular-expression test `matchesABC` is not modelled.
- The error-path tests are not restated as separate members; the contracts of the machine's operations state those errors.
