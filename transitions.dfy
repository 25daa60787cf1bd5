/** The head actions and the transition records of the machine. Neither has
    behaviour of its own. */
module Transitions {

  /** Head movement to the left, to the right, or computation halt. */
  datatype Action = LEFT | RIGHT | HALT

  /** What a state does on one input symbol: the symbol written in its place,
      the action taken, and the destination state, referred to by its name. */
  datatype Transition = Transition(replacement: char, action: Action, stateTo: string)
}
