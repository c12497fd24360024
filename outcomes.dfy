/** Option and Result, and the failures the configuration code reports. */
module Outcomes {

  datatype Option<T> = None | Some(value: T)

  datatype Result<T> = Ok(value: T) | Err(error: Failure)

  /** The exceptions the modelled code throws, by kind. */
  datatype Failure =
    | NullPointer(message: string)               // Objects.requireNonNull or an explicit NullPointerException
    | IllegalState(message: string)              // IllegalStateException
    | IllegalArgument(message: string)           // SDK rejects a value (e.g. an unknown region name)
    | SecretNotFound(secretId: string)           // the secret store has no such secret
    | Runtime(message: string)                   // RuntimeException with a message built by the source
    | UnknownTransformer(name: string, known: set<string>)  // RuntimeException listing the known names
}
