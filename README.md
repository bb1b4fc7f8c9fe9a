# Option dispatch of the cafe command-line client

This project models how the cafe command-line client runs one option
(`Option.Run` in `src/cafe/CommandLine/Option.cs`) and proves properties of that model:

- A help request shows the help text and succeeds without running the option's body.
- Otherwise the option's description is shown and the body (`RunCore`) runs.
- Whatever the body does ends up as a `Result`. It either returns one, or it raises a
  fault, which the ordered catch clauses classify:
  - an aggregate with a direct connectivity inner fault becomes the fixed "server
    unreachable" failure and writes one info log entry;
  - a bare connectivity fault (`HttpRequestException`) does the same;
  - an aggregate with no such inner fault becomes a generic failure and writes no log entry;
  - every other fault is written to the error log and becomes a generic failure.
- On every non-help path, the `finally` block shows "Finished … with result: …" last.

Side effects are modelled as events appended to one ordered sink (`Events.EventLog`).
The sink covers the presenter's new lines and messages, the console help text, and the
info and error log entries, each with the fault attached. `Run` is an imperative method
that writes to this sink. Its contract says that its result equals the result of the
specification function `CommandLine.Dispatch`, and that the events it appends, taken as a
whole, equal `Dispatch`'s trace. The lemmas in `OptionProperties` are stated on `Dispatch`.

Modules:
- `Results` (result.dfy): the result type.
- `Faults` (fault.dfy): faults and the search for a direct connectivity inner fault.
- `Events` (events.dfy): events, the sink and event counting.
- `CommandLine` (option.dfy): the option, fault classification, `Dispatch` and `Run`.
- `OptionProperties` (option_properties.dfy): the properties.

The option's collaborators are fields of the `Option` datatype, as functions. These are
`OptionSpecification.HelpRequested`, and the abstract members `ToDescription` and
`RunCore` that a concrete option supplies. The body's run is a `BodyRun`: the events the
body emits itself, then whether it returned a `Result` or raised a `Fault`.

Two behaviours of the code worth noting:
- A generic failure's text is the prefix "An unexpected error occurred while executing
  this option: " followed by the fault's message, not the bare message.
- An aggregate without a connectivity inner fault is not written to the error log.
  Only the last catch clause (Option.cs:55-59) logs at error severity.

## Model

| member | source | states |
|---|---|---|
| Faults.FirstConnectivity | src/cafe/CommandLine/Option.cs:41 | finds something exactly when some direct inner fault is a connectivity fault; what it finds is a connectivity fault, and no connectivity fault comes before it |
| CommandLine.BadConnectionFailureFromException | src/cafe/CommandLine/Option.cs:68-73 | a failure whatever the fault, with the fixed text "A connection to the server could not be made. Make sure it's running." |
| CommandLine.GenericFailureFromException | src/cafe/CommandLine/Option.cs:75-78 | a failure whose text is the fixed prefix followed by exactly the fault's message, so it is longer than the message |
| CommandLine.GenericTextIsNotConnectionText | src/cafe/CommandLine/Option.cs:68-78 | no generic failure text equals the connectivity failure text, whatever the message |
| CommandLine.Classify | src/cafe/CommandLine/Option.cs:39-59 | every fault gives a failure that keeps the result invariant; the text is the connectivity text exactly when the fault is a connectivity fault or an aggregate with a direct one; one info entry exactly for those, one error entry exactly for a fault that is neither a connectivity fault nor an aggregate, never more than one entry |
| CommandLine.HandleFault | src/cafe/CommandLine/Option.cs:39-59 | the catch clauses written as statements return `Classify`'s result and append exactly its log entries |
| CommandLine.ShowHelp | src/cafe/CommandLine/Option.cs:84-87 | appends exactly one help event carrying the option's help text |
| CommandLine.Run | src/cafe/CommandLine/Option.cs:23-66 | returns `Dispatch`'s result and appends exactly `Dispatch`'s trace to the sink, and nothing else |
| OptionProperties.HelpShortCircuit | src/cafe/CommandLine/Option.cs:25-29 | a help request succeeds, shows only the help text, runs no body, shows no description and no "Finished" message |
| OptionProperties.ReturnPassesThrough | src/cafe/CommandLine/Option.cs:32-38 | a body that returns has its own result returned unchanged (line 65); the trace is description, body events, closing pair; no log entry of the dispatcher's own |
| OptionProperties.AggregateWithConnectivityInner | src/cafe/CommandLine/Option.cs:39-45 | an aggregate with a direct connectivity inner fault gives the connectivity failure and exactly one more info entry, carrying the aggregate, and no more error entries |
| OptionProperties.BareConnectivityFault | src/cafe/CommandLine/Option.cs:51-54 | a bare connectivity fault gives the connectivity failure and exactly one more info entry, and no more error entries |
| OptionProperties.AggregateWithoutConnectivityInner | src/cafe/CommandLine/Option.cs:46-49 | an aggregate without a direct connectivity inner fault gives prefix plus the aggregate's message, and adds no info or error entry |
| OptionProperties.OtherFault | src/cafe/CommandLine/Option.cs:55-59 | any other fault gives prefix plus its message and exactly one more error entry, carrying the fault, written before the closing pair |
| OptionProperties.OutcomeDecidesSuccess | src/cafe/CommandLine/Option.cs:32-65 | no fault escapes: the run succeeds exactly when the body returned a success, and any fault gives a non-empty failure text |
| OptionProperties.RunResultValid | src/cafe/CommandLine/Option.cs:68-78 | if the body's own result keeps the invariant (success exactly when the text is empty), the run's result keeps it too, even for faults with empty messages |
| OptionProperties.EventOrder | src/cafe/CommandLine/Option.cs:34-64 | on a non-help path the trace is the three preamble events, then the body's events, then at most one log entry, then the new line and the "Finished" message carrying the returned result; the dispatcher adds exactly one "Finished" message |
| OptionProperties.NestedConnectivityIsGeneric | src/cafe/CommandLine/Option.cs:41 | an aggregate whose direct inner faults are all aggregates gives the generic failure built from its own message and no log entry, whatever connectivity faults the inner aggregates hold |
| OptionProperties.ConnectivityAmongOthers | src/cafe/CommandLine/Option.cs:41-45 | a connectivity fault anywhere among an aggregate's direct inner faults gives the connectivity failure |

## Left out

- `SchedulerWaiter` and its poll loop over a timer and an auto-reset event: its source is not part of this model, and it is cross-thread coordination.
- `Option.IsSatisfiedBy` and `Option.ToString`: they delegate to the option specification, which is not part of this model.
- `OptionSpecification.HelpRequested`, `ToDescription` and `RunCore` are uninterpreted functions of the arguments. A body is deterministic in the model, and a body that returns a null `Result` is not modelled.
- A fault raised by `ToDescription`: it is called outside the `try` (Option.cs:31), so it would escape `Run`. The model treats `ToDescription` as total.
- Faults raised by the presenter or the logger, inside the `try`, the catch clauses or the `finally` block.
- Text rendering: the "Finished" message is the structured event `Finished(description, result)`, because the text form of `Result` is not part of this model. The description message is `Message(description + ":")`. Each `Presenter.ShowMessage` call is one event, whatever it also writes to the logger.
- The presenter, the console and the static logger are merged into one ordered sink; their separate output devices are not modelled.
- The .NET exception hierarchy: subclasses of `HttpRequestException` or `AggregateException` are not distinguished. An aggregate's message is taken as given, not built from its inner faults.
- `ShowHelp` is virtual; overrides in concrete options are not modelled.
- `Result` lives in `cafe.Shared`, which is not part of this model. A successful result is modelled with an empty failure description.
