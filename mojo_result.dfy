/** The result codes that the data pipe operations report (Mojo's `MOJO_RESULT_*`). */
module MojoResults {

  datatype MojoResult =
    | Ok                  // MOJO_RESULT_OK
    | InvalidArgument     // MOJO_RESULT_INVALID_ARGUMENT
    | OutOfRange          // MOJO_RESULT_OUT_OF_RANGE
    | FailedPrecondition  // MOJO_RESULT_FAILED_PRECONDITION
    | AlreadyExists       // MOJO_RESULT_ALREADY_EXISTS
    | ShouldWait          // MOJO_RESULT_SHOULD_WAIT
}
