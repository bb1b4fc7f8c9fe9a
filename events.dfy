/** The observable side effects of dispatching an option, recorded in the order they
    happen: console help text, presenter output and log entries (with their severity
    and the fault they carry). Text rendering and the output devices themselves are
    not modelled; each effect is one event. */
module Events {
  import opened Results
  import opened Faults

  datatype Severity = Info | Error

  datatype Event =
    | HelpShown(helpText: string)                      // `ShowHelp`: "Help: <help text>" on the console
    | NewLine                                          // `Presenter.NewLine()`
    | Message(text: string)                            // `Presenter.ShowMessage(text, Logger)`
    | Finished(description: string, result: Result)    // "Finished <description> with result: <result>"
    | Logged(severity: Severity, fault: Fault, text: string)  // `Logger.Info` / `Logger.Error` with the fault attached

  predicate IsInfoLog(e: Event) {
    e.Logged? && e.severity == Info
  }

  predicate IsErrorLog(e: Event) {
    e.Logged? && e.severity == Error
  }

  predicate IsFinished(e: Event) {
    e.Finished?
  }

  /** How many events of `s` satisfy `p`. */
  function Count(s: seq<Event>, p: Event -> bool): (n: nat)
    ensures n <= |s|
    ensures n == 0 <==> forall i | 0 <= i < |s| :: !p(s[i])
    ensures n == |s| <==> forall i | 0 <= i < |s| :: p(s[i])
  {
    if s == [] then 0
    else
      assert forall i | 1 <= i < |s| :: s[1..][i - 1] == s[i];
      (if p(s[0]) then 1 else 0) + Count(s[1..], p)
  }

  /** Counting distributes over concatenation. */
  lemma {:induction false} CountConcat(a: seq<Event>, b: seq<Event>, p: Event -> bool)
    ensures Count(a + b, p) == Count(a, p) + Count(b, p)
  {
    if a == [] {
      assert a + b == b;
    } else {
      assert (a + b)[1..] == a[1..] + b;
      CountConcat(a[1..], b, p);
    }
  }

  /** The sink that the presenter and the logger write to, one event after another. */
  class EventLog {
    var events: seq<Event>

    constructor ()
      ensures events == []
    {
      events := [];
    }

    method Emit(e: Event)
      modifies this
      ensures events == old(events) + [e]
    {
      events := events + [e];
    }

    method EmitAll(es: seq<Event>)
      modifies this
      ensures events == old(events) + es
    {
      events := events + es;
    }
  }
}
