/** Failure values shared by the model: an optional value, a result that is
    either a value or an error, and the kinds of error the machine reports. */
module Results {

  /** An absent or present value; stands for a Java reference that may be null. */
  datatype Option<+T> = None | Some(value: T)

  /** The outcome of an operation that either yields a value or fails. */
  datatype Result<+T> = Ok(value: T) | Err(error: Error)

  /** One constructor per exception the machine raises, in the words of its messages. */
  datatype Error =
    | NullStateName             // addState: the state name is null
    | DuplicateStateName        // addState: the state name already exists
    | NullSourceStateName       // addTransition: the source state name is null
    | NullAction                // addTransition: the action to be taken is null
    | NullDestinationStateName  // addTransition: the destination state name is null
    | UnknownSourceStateName    // addTransition: the source state name does not exist
    | UnknownDestinationStateName // addTransition: the destination state name does not exist
    | DuplicateTransition       // addTransition: the transition already exists
    | NullInitialStateName      // setInitialState: the initial state name is null
    | UnknownInitialStateName   // setInitialState: the initial state name does not exist
    | NullContent               // execute: the initial content is null
    | InitialStateNotSet        // execute: the initial state is not set
    | NotExecuted               // post-run queries: this machine has not already been executed
}
