/** Properties of option dispatch, stated on its specification `Dispatch`.
    `CommandLine.Run` is proved to return `Dispatch`'s result and to append exactly
    `Dispatch`'s trace to the event sink. */
module OptionProperties {
  import opened Results
  import opened Faults
  import opened Events
  import opened CommandLine

  /** A help request is answered with the help text and a successful result; the
      description is never shown, the body emits nothing, and no "Finished" message follows. */
  lemma HelpShortCircuit(o: Option, args: seq<string>)
    requires o.specification.helpRequested(args)
    ensures Dispatch(o, args).result.IsSuccess()
    ensures Dispatch(o, args).trace == [HelpShown(o.helpText)]
    ensures Count(Dispatch(o, args).trace, IsFinished) == 0
  {
  }

  /** Counting events of kind `p` in a non-help trace: the preamble holds none of the
      kinds counted here, so the count is that of the body, the classification logs and
      the closing pair. */
  lemma {:induction false} CountTrace(description: string, body: seq<Event>, logs: seq<Event>, result: Result, p: Event -> bool)
    requires !p(NewLine) && !p(Message(description + ":"))
    ensures Count(Preamble(description) + body + logs + Epilogue(description, result), p)
         == Count(body, p) + Count(logs, p) + Count(Epilogue(description, result), p)
  {
    var pre := Preamble(description);
    CountConcat(pre + body + logs, Epilogue(description, result), p);
    CountConcat(pre + body, logs, p);
    CountConcat(pre, body, p);
    assert Count(pre, p) == 0;
  }

  /** When the body returns normally, `Run` returns exactly the body's result, and writes
      no log entry of its own. */
  lemma ReturnPassesThrough(o: Option, args: seq<string>, r: Result)
    requires !o.specification.helpRequested(args)
    requires o.runCore(args).outcome == Returns(r)
    ensures Dispatch(o, args).result == r
    ensures Dispatch(o, args).trace
         == Preamble(o.toDescription(args)) + o.runCore(args).emitted + Epilogue(o.toDescription(args), r)
    ensures Count(Dispatch(o, args).trace, IsInfoLog) == Count(o.runCore(args).emitted, IsInfoLog)
    ensures Count(Dispatch(o, args).trace, IsErrorLog) == Count(o.runCore(args).emitted, IsErrorLog)
  {
    var d, body := o.toDescription(args), o.runCore(args).emitted;
    assert Preamble(d) + body + [] == Preamble(d) + body;
    CountTrace(d, body, [], r, IsInfoLog);
    CountTrace(d, body, [], r, IsErrorLog);
  }

  /** An aggregate with a connectivity fault among its direct inner faults yields the
      fixed "server unreachable" failure and exactly one info log entry, which carries
      the aggregate; no error log entry is written. */
  lemma AggregateWithConnectivityInner(o: Option, args: seq<string>, inners: seq<Fault>, message: string)
    requires !o.specification.helpRequested(args)
    requires o.runCore(args).outcome == Throws(Aggregate(inners, message))
    requires HasConnectivityInner(inners)
    ensures Dispatch(o, args).result == Failure(ConnectionFailureText)
    ensures Dispatch(o, args).trace
         == Preamble(o.toDescription(args)) + o.runCore(args).emitted
          + [Logged(Info, Aggregate(inners, message), ConnectionLogText)]
          + Epilogue(o.toDescription(args), Failure(ConnectionFailureText))
    ensures Count(Dispatch(o, args).trace, IsInfoLog) == Count(o.runCore(args).emitted, IsInfoLog) + 1
    ensures Count(Dispatch(o, args).trace, IsErrorLog) == Count(o.runCore(args).emitted, IsErrorLog)
  {
    var d, body := o.toDescription(args), o.runCore(args).emitted;
    var logs := Classify(Aggregate(inners, message)).logs;
    CountTrace(d, body, logs, Failure(ConnectionFailureText), IsInfoLog);
    CountTrace(d, body, logs, Failure(ConnectionFailureText), IsErrorLog);
  }

  /** A bare connectivity fault yields the same failure and the same single info log entry. */
  lemma BareConnectivityFault(o: Option, args: seq<string>, message: string)
    requires !o.specification.helpRequested(args)
    requires o.runCore(args).outcome == Throws(Http(message))
    ensures Dispatch(o, args).result == Failure(ConnectionFailureText)
    ensures Dispatch(o, args).trace
         == Preamble(o.toDescription(args)) + o.runCore(args).emitted
          + [Logged(Info, Http(message), ConnectionLogText)]
          + Epilogue(o.toDescription(args), Failure(ConnectionFailureText))
    ensures Count(Dispatch(o, args).trace, IsInfoLog) == Count(o.runCore(args).emitted, IsInfoLog) + 1
    ensures Count(Dispatch(o, args).trace, IsErrorLog) == Count(o.runCore(args).emitted, IsErrorLog)
  {
    var d, body := o.toDescription(args), o.runCore(args).emitted;
    var logs := Classify(Http(message)).logs;
    CountTrace(d, body, logs, Failure(ConnectionFailureText), IsInfoLog);
    CountTrace(d, body, logs, Failure(ConnectionFailureText), IsErrorLog);
  }

  /** An aggregate without a direct connectivity inner fault yields the generic failure
      built from the aggregate's own message, and `Run` writes no log entry for it. */
  lemma AggregateWithoutConnectivityInner(o: Option, args: seq<string>, inners: seq<Fault>, message: string)
    requires !o.specification.helpRequested(args)
    requires o.runCore(args).outcome == Throws(Aggregate(inners, message))
    requires !HasConnectivityInner(inners)
    ensures Dispatch(o, args).result == Failure(UnexpectedFailurePrefix + message)
    ensures Dispatch(o, args).trace
         == Preamble(o.toDescription(args)) + o.runCore(args).emitted
          + Epilogue(o.toDescription(args), Failure(UnexpectedFailurePrefix + message))
    ensures Count(Dispatch(o, args).trace, IsInfoLog) == Count(o.runCore(args).emitted, IsInfoLog)
    ensures Count(Dispatch(o, args).trace, IsErrorLog) == Count(o.runCore(args).emitted, IsErrorLog)
  {
    var d, body := o.toDescription(args), o.runCore(args).emitted;
    var r := Failure(UnexpectedFailurePrefix + message);
    assert Preamble(d) + body + [] == Preamble(d) + body;
    CountTrace(d, body, [], r, IsInfoLog);
    CountTrace(d, body, [], r, IsErrorLog);
  }

  /** Any other fault yields the generic failure built from its message, and exactly one
      error log entry, carrying the fault, is written. */
  lemma OtherFault(o: Option, args: seq<string>, message: string)
    requires !o.specification.helpRequested(args)
    requires o.runCore(args).outcome == Throws(Other(message))
    ensures Dispatch(o, args).result == Failure(UnexpectedFailurePrefix + message)
    ensures Dispatch(o, args).trace
         == Preamble(o.toDescription(args)) + o.runCore(args).emitted
          + [Logged(Error, Other(message), UnexpectedLogText)]
          + Epilogue(o.toDescription(args), Failure(UnexpectedFailurePrefix + message))
    ensures Count(Dispatch(o, args).trace, IsErrorLog) == Count(o.runCore(args).emitted, IsErrorLog) + 1
    ensures Count(Dispatch(o, args).trace, IsInfoLog) == Count(o.runCore(args).emitted, IsInfoLog)
  {
    var d, body := o.toDescription(args), o.runCore(args).emitted;
    var r := Failure(UnexpectedFailurePrefix + message);
    var logs := Classify(Other(message)).logs;
    CountTrace(d, body, logs, r, IsInfoLog);
    CountTrace(d, body, logs, r, IsErrorLog);
  }

  /** No fault escapes: every outcome of the body is turned into a result, which is a
      success exactly when the body itself returned a success. */
  lemma OutcomeDecidesSuccess(o: Option, args: seq<string>)
    requires !o.specification.helpRequested(args)
    ensures Dispatch(o, args).result.IsSuccess()
        <==> o.runCore(args).outcome.Returns? && o.runCore(args).outcome.result.IsSuccess()
    ensures o.runCore(args).outcome.Throws? ==> Dispatch(o, args).result.FailureDescription() != ""
  {
  }

  /** No silent failure: whenever the body's own result keeps the result invariant, so
      does the result of `Run`, whatever the fault messages are (empty ones included). */
  lemma RunResultValid(o: Option, args: seq<string>)
    requires o.runCore(args).outcome.Returns? ==> o.runCore(args).outcome.result.Valid()
    ensures Dispatch(o, args).result.Valid()
  {
  }

  /** Where each part of a non-help trace sits. */
  lemma TraceLayout(d: string, body: seq<Event>, logs: seq<Event>, r: Result)
    requires |logs| <= 1 && forall i | 0 <= i < |logs| :: logs[i].Logged?
    ensures var t := Preamble(d) + body + logs + Epilogue(d, r);
      && 5 + |body| <= |t| <= 6 + |body|
      && t[..3] == Preamble(d)
      && t[3..3 + |body|] == body
      && (forall i | 3 + |body| <= i < |t| - 2 :: t[i].Logged?)
      && t[|t| - 2..] == Epilogue(d, r)
  {
  }

  /** On every non-help path: the description comes first, then the body's own events,
      then at most one classification log entry, and last exactly one more "Finished"
      message, carrying the returned result. */
  lemma EventOrder(o: Option, args: seq<string>)
    requires !o.specification.helpRequested(args)
    ensures var rep, d, body := Dispatch(o, args), o.toDescription(args), o.runCore(args).emitted;
      && 5 + |body| <= |rep.trace| <= 6 + |body|
      && rep.trace[..3] == Preamble(d)
      && rep.trace[3..3 + |body|] == body
      && (forall i | 3 + |body| <= i < |rep.trace| - 2 :: rep.trace[i].Logged?)
      && rep.trace[|rep.trace| - 2..] == Epilogue(d, rep.result)
      && rep.trace[|rep.trace| - 1] == Finished(d, rep.result)
      && Count(rep.trace, IsFinished) == Count(body, IsFinished) + 1
  {
    var rep, d, body := Dispatch(o, args), o.toDescription(args), o.runCore(args).emitted;
    var h := Settle(o.runCore(args).outcome);
    assert rep.trace == Preamble(d) + body + h.logs + Epilogue(d, h.result);
    assert forall i | 0 <= i < |h.logs| :: h.logs[i].Logged?;
    TraceLayout(d, body, h.logs, h.result);
    CountTrace(d, body, h.logs, h.result, IsFinished);
    assert Count(h.logs, IsFinished) == 0;
  }

  /** Only direct inner faults are inspected: an aggregate whose direct inner faults are
      all aggregates is a generic failure built from its own message, and nothing is
      logged, whatever connectivity faults those inner aggregates hold. */
  lemma NestedConnectivityIsGeneric(inners: seq<Fault>, message: string)
    requires forall i | 0 <= i < |inners| :: inners[i].Aggregate?
    ensures Classify(Aggregate(inners, message)).result == Failure(UnexpectedFailurePrefix + message)
    ensures Classify(Aggregate(inners, message)).logs == []
  {
  }

  /** A connectivity fault bundled among other faults, in any position, is still a
      connectivity failure. */
  lemma ConnectivityAmongOthers(before: seq<Fault>, message: string, after: seq<Fault>, outer: string)
    ensures Classify(Aggregate(before + [Http(message)] + after, outer)).result == Failure(ConnectionFailureText)
  {
    var inners := before + [Http(message)] + after;
    assert inners[|before|].Http?;
  }
}
