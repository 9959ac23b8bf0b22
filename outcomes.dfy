/** Success/failure values for the external calls the server awaits (the
    container engine, the store client, the configuration loader). A failed
    call is a rejected promise; it carries the message of its error. */
module Outcomes {

  datatype Option<T> = None | Some(value: T)

  /** An awaited call whose resolved value is not used. */
  datatype Outcome = Done | Failed(message: string)

  /** An awaited call whose resolved value is used. */
  datatype Result<T> = Ok(value: T) | Err(message: string)
}
