/** Dispatch of one command-line option (`Option.Run`): the help short-circuit, the
    description message, the command body, the ordered classification of any fault it
    raises into a `Result`, and the closing "Finished" message on every non-help path. */
module CommandLine {
  import opened Results
  import opened Faults
  import opened Events

  // The two user-facing texts are written in two pieces each, which lets the
  // verifier read their characters.

  /** User-facing text of a connectivity failure. */
  const ConnectionFailureText := "A connection to the server " + "could not be made. Make sure it's running."
  /** Prefix of the user-facing text of any other failure; the fault's message follows it. */
  const UnexpectedFailurePrefix := "An unexpected error occurred " + "while executing this option: "
  /** Text of the info log entry written for a connectivity failure. */
  const ConnectionLogText := "Could not connect to the server and thus got exception"
  /** Text of the error log entry written for a fault that is neither a connectivity
      fault nor an aggregate. */
  const UnexpectedLogText := "An unexpected error occurred while executing this option"

  /** How the command body ends: it returns a result or it raises a fault. */
  datatype Outcome = Returns(result: Result) | Throws(fault: Fault)

  /** One run of the command body: the events it emits itself, then how it ends. */
  datatype BodyRun = BodyRun(emitted: seq<Event>, outcome: Outcome)

  /** The argument-vector matcher an option is built with; only its help test is used here. */
  datatype OptionSpecification = OptionSpecification(helpRequested: seq<string> -> bool)

  /** An option: its specification and help text, and the two members a concrete option
      supplies (`ToDescription` and `RunCore`). All of them are fixed once built. */
  datatype Option = Option(
    specification: OptionSpecification,
    helpText: string,
    toDescription: seq<string> -> string,
    runCore: seq<string> -> BodyRun)

  /** The result for a fault that means the server could not be reached. The fault itself
      only goes to the info log, which the caller writes. */
  function BadConnectionFailureFromException(ex: Fault): (r: Result)
    ensures !r.IsSuccess() && r.FailureDescription() == ConnectionFailureText
  {
    Failure(ConnectionFailureText)
  }

  /** The result for any other fault: a fixed prefix followed by the fault's message. */
  function GenericFailureFromException(ex: Fault): (r: Result)
    ensures !r.IsSuccess()
    ensures |r.FailureDescription()| == |UnexpectedFailurePrefix| + |ex.message|
    ensures r.FailureDescription()[..|UnexpectedFailurePrefix|] == UnexpectedFailurePrefix
    ensures r.FailureDescription()[|UnexpectedFailurePrefix|..] == ex.message
  {
    Failure(UnexpectedFailurePrefix + ex.message)
  }

  /** No generic failure text can be mistaken for the connectivity failure text:
      the two differ in their second character. */
  lemma GenericTextIsNotConnectionText(message: string)
    ensures UnexpectedFailurePrefix + message != ConnectionFailureText
  {
    assert (UnexpectedFailurePrefix + message)[1] == UnexpectedFailurePrefix[1];
  }

  /** What the catch clauses make of a fault: the result, and the log entries they write. */
  datatype Handling = Handling(result: Result, logs: seq<Event>)

  /** The catch clauses of `Run`, in order: an aggregate (connectivity when a direct inner
      fault is one, generic otherwise and not logged), a bare connectivity fault, and
      everything else (logged at error severity, then generic). */
  function Classify(f: Fault): (h: Handling)
    ensures !h.result.IsSuccess() && h.result.Valid()
    ensures h.result.FailureDescription() == ConnectionFailureText <==> IsConnectivity(f)
    ensures Count(h.logs, IsInfoLog) == (if IsConnectivity(f) then 1 else 0)
    ensures Count(h.logs, IsErrorLog) == (if f.Other? then 1 else 0)
    ensures |h.logs| <= 1
  {
    GenericTextIsNotConnectionText(f.message);
    match f
    case Aggregate(inners, _) =>
      if FirstConnectivity(inners).Found? then
        Handling(BadConnectionFailureFromException(f), [Logged(Info, f, ConnectionLogText)])
      else
        Handling(GenericFailureFromException(f), [])
    case Http(_) =>
      Handling(BadConnectionFailureFromException(f), [Logged(Info, f, ConnectionLogText)])
    case Other(_) =>
      Handling(GenericFailureFromException(f), [Logged(Error, f, UnexpectedLogText)])
  }

  /** The result and classification logs for any outcome of the body. */
  function Settle(outcome: Outcome): (h: Handling) {
    match outcome
    case Returns(r) => Handling(r, [])
    case Throws(f) => Classify(f)
  }

  /** The three presenter events written before the body runs. */
  function Preamble(description: string): (events: seq<Event>) {
    [NewLine, Message(description + ":"), NewLine]
  }

  /** The two presenter events written by the `finally` block. */
  function Epilogue(description: string, result: Result): (events: seq<Event>) {
    [NewLine, Finished(description, result)]
  }

  /** What a run returns and the events it emits, in order. */
  datatype Report = Report(result: Result, trace: seq<Event>)

  /** The specification of `Run`: its result and its complete event trace. */
  function Dispatch(o: Option, args: seq<string>): (rep: Report) {
    if o.specification.helpRequested(args) then
      Report(Success, [HelpShown(o.helpText)])
    else
      var description := o.toDescription(args);
      var body := o.runCore(args);
      var h := Settle(body.outcome);
      Report(h.result, Preamble(description) + body.emitted + h.logs + Epilogue(description, h.result))
  }

  /** The catch clauses of `Run`, writing their log entries as they go. */
  method HandleFault(f: Fault, log: EventLog) returns (result: Result)
    modifies log
    ensures result == Classify(f).result
    ensures log.events == old(log.events) + Classify(f).logs
  {
    match f {
      case Aggregate(inners, _) =>
        var inner := FirstConnectivity(inners);
        if inner.Found? {
          log.Emit(Logged(Info, f, ConnectionLogText));
          result := BadConnectionFailureFromException(f);
        } else {
          result := GenericFailureFromException(f);
        }
      case Http(_) =>
        log.Emit(Logged(Info, f, ConnectionLogText));
        result := BadConnectionFailureFromException(f);
      case Other(_) =>
        log.Emit(Logged(Error, f, UnexpectedLogText));
        result := GenericFailureFromException(f);
    }
  }

  /** The presenter calls at the start of the `try` block. */
  method ShowDescription(description: string, log: EventLog)
    modifies log
    ensures log.events == old(log.events) + Preamble(description)
  {
    log.Emit(NewLine);
    log.Emit(Message(description + ":"));
    log.Emit(NewLine);
  }

  /** The presenter calls of the `finally` block. */
  method ShowFinished(description: string, result: Result, log: EventLog)
    modifies log
    ensures log.events == old(log.events) + Epilogue(description, result)
  {
    log.Emit(NewLine);
    log.Emit(Finished(description, result));
  }

  /** `ShowHelp`: write the help text. */
  method ShowHelp(o: Option, log: EventLog)
    modifies log
    ensures log.events == old(log.events) + [HelpShown(o.helpText)]
  {
    log.Emit(HelpShown(o.helpText));
  }

  /** `Option.Run`: no fault escapes; every path ends in a result, and on every non-help
      path the "Finished" message carrying that result is the last event written. */
  method Run(o: Option, args: seq<string>, log: EventLog) returns (result: Result)
    modifies log
    ensures result == Dispatch(o, args).result
    ensures log.events == old(log.events) + Dispatch(o, args).trace
  {
    if o.specification.helpRequested(args) {
      ShowHelp(o, log);
      return Success;
    }
    var description := o.toDescription(args);
    ghost var before := log.events;
    // try
    ShowDescription(description, log);
    var body := o.runCore(args);
    log.EmitAll(body.emitted);
    match body.outcome {
      case Returns(r) =>
        result := r;
      case Throws(f) =>
        result := HandleFault(f, log);
    }
    ghost var handled := Settle(body.outcome);
    assert result == handled.result;
    assert log.events == before + Preamble(description) + body.emitted + handled.logs;
    // finally
    ShowFinished(description, result, log);
  }
}
