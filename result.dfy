/** The outcome of running a command-line option: the shared `Result` type of the client.
    Only the parts the dispatcher relies on are modelled: the two factories
    (`Success` for `Result.Successful()`, `Failure` for `Result.Failure(description)`),
    `IsSuccess` and `FailureDescription`. */
module Results {

  datatype Result = Success | Failure(description: string) {

    /** True for a successful result. */
    predicate IsSuccess() {
      Success?
    }

    /** The text of a failure; a successful result carries none. */
    function FailureDescription(): (d: string) {
      if Success? then "" else description
    }

    /** A result is successful exactly when it carries no failure text, so that no
        failure is silent. */
    predicate Valid() {
      IsSuccess() <==> FailureDescription() == ""
    }
  }
}
