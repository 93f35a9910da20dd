/** The push-subscription handler: a connection that is open or closed, driven by
    the events the server-push connection raises, and delivering raw task updates
    and errors to the subscriber's two callbacks. */
module Stream {
  import opened Wrappers
  import opened MeshyTypes
  import opened Normalizer

  datatype State = Open | Closed

  /** A parsed message, a payload that failed to parse, a connection error, or the
      subscriber calling the returned unsubscribe handle. */
  datatype Event = Message(task: RawTask) | ParseError | ConnectionError | Unsubscribe

  /** A call of the subscriber's update callback or of its error callback. */
  datatype Delivery = Updated(task: RawTask) | Errored

  /** The state a subscription is left in and the callbacks it made on the way. */
  datatype Outcome = Outcome(state: State, deliveries: seq<Delivery>)

  /** The raw statuses on which the handler closes the connection. */
  predicate TerminalRaw(status: string) {
    status == "SUCCEEDED" || status == "FAILED" || status == "CANCELED"
  }

  /** One event. On an open connection a parsed message is forwarded and then closes
      the connection when terminal; a parse failure is reported and the connection
      stays open; a connection error is reported and closes it; unsubscribing closes
      it. A closed connection raises nothing further. */
  function Step(s: State, e: Event): (r: Outcome)
    ensures s == Closed ==> r == Outcome(Closed, [])
    ensures s == Open && e.Message? ==> r.deliveries == [Updated(e.task)] && (r.state == Closed <==> TerminalRaw(e.task.status))
    ensures s == Open && e.ParseError? ==> r == Outcome(Open, [Errored])
    ensures s == Open && e.ConnectionError? ==> r == Outcome(Closed, [Errored])
    ensures s == Open && e.Unsubscribe? ==> r == Outcome(Closed, [])
  {
    match s
    case Closed => Outcome(Closed, [])
    case Open =>
      match e
      case Message(task) =>
        if TerminalRaw(task.status) then Outcome(Closed, [Updated(task)]) else Outcome(Open, [Updated(task)])
      case ParseError => Outcome(Open, [Errored])
      case ConnectionError => Outcome(Closed, [Errored])
      case Unsubscribe => Outcome(Closed, [])
  }

  /** A sequence of events, from a given state. A subscription never reopens, and each
      event makes at most one callback. */
  function Run(s: State, es: seq<Event>): (r: Outcome)
    ensures r.state == Open ==> s == Open
    ensures |r.deliveries| <= |es|
    decreases |es|
  {
    if es == [] then Outcome(s, [])
    else
      var first := Step(s, es[0]);
      var rest := Run(first.state, es[1..]);
      Outcome(rest.state, first.deliveries + rest.deliveries)
  }

  /** The events after which an open connection is closed. */
  predicate Closes(e: Event) {
    match e
    case Message(task) => TerminalRaw(task.status)
    case ParseError => false
    case ConnectionError => true
    case Unsubscribe => true
  }

  /** What an open connection delivers for one event, independently of closing. */
  function Emitted(e: Event): seq<Delivery> {
    match e
    case Message(task) => [Updated(task)]
    case ParseError => [Errored]
    case ConnectionError => [Errored]
    case Unsubscribe => []
  }

  /** Emitted, event after event. */
  function EmittedAll(es: seq<Event>): seq<Delivery>
    decreases |es|
  {
    if es == [] then [] else Emitted(es[0]) + EmittedAll(es[1..])
  }

  /** The tasks handed to the update callback, in order. */
  function Updates(ds: seq<Delivery>): seq<RawTask>
    decreases |ds|
  {
    if ds == [] then []
    else if ds[0].Updated? then [ds[0].task] + Updates(ds[1..])
    else Updates(ds[1..])
  }

  /** The tasks carried by message events, in order. */
  function Messages(es: seq<Event>): seq<RawTask>
    decreases |es|
  {
    if es == [] then []
    else if es[0].Message? then [es[0].task] + Messages(es[1..])
    else Messages(es[1..])
  }

  /** The connection closes on a message exactly when the normalized job is terminal. */
  lemma ClosesIffJobTerminal(task: RawTask, kind: string)
    ensures Closes(Message(task)) <==> Normalize(task, kind, None).status.IsTerminal()
  {
  }

  /** A closed connection stays closed and delivers nothing, whatever follows. */
  lemma {:induction false} ClosedIsFinal(es: seq<Event>)
    ensures Run(Closed, es) == Outcome(Closed, [])
    decreases |es|
  {
    if es != [] {
      ClosedIsFinal(es[1..]);
      assert Run(Closed, es).deliveries == [];
    }
  }

  /** While nothing closes it, the connection stays open and delivers every event's output. */
  lemma {:induction false} RunWhileOpen(es: seq<Event>)
    requires forall j :: 0 <= j < |es| ==> !Closes(es[j])
    ensures Run(Open, es) == Outcome(Open, EmittedAll(es))
    decreases |es|
  {
    if es != [] {
      RunWhileOpen(es[1..]);
    }
  }

  /** The first closing event closes the connection; its own output is delivered, and
      nothing after it is. */
  lemma {:induction false} RunUntilClose(es: seq<Event>, i: nat)
    requires i < |es| && Closes(es[i])
    requires forall j :: 0 <= j < i ==> !Closes(es[j])
    ensures Run(Open, es) == Outcome(Closed, EmittedAll(es[..i + 1]))
    decreases i
  {
    if i == 0 {
      ClosedIsFinal(es[1..]);
      assert es[..1][1..] == [];
    } else {
      RunUntilClose(es[1..], i - 1);
      assert es[..i + 1][1..] == es[1..][..i];
    }
  }

  /** A terminal update is delivered, and it is the last update: later messages are
      never forwarded. */
  lemma TerminalUpdateIsLast(before: seq<Event>, task: RawTask, after: seq<Event>)
    requires forall j :: 0 <= j < |before| ==> !Closes(before[j])
    requires TerminalRaw(task.status)
    ensures Run(Open, before + [Message(task)] + after) == Outcome(Closed, EmittedAll(before) + [Updated(task)])
  {
    var es := before + [Message(task)] + after;
    assert es[|before|] == Message(task);
    assert forall j :: 0 <= j < |before| ==> es[j] == before[j];
    RunUntilClose(es, |before|);
    assert [Message(task)][1..] == [];
    assert EmittedAll([Message(task)]) == [Updated(task)] + [];
    assert es[..|before| + 1] == before + [Message(task)];
    EmittedAllAppend(before, [Message(task)]);
    assert EmittedAll(es[..|before| + 1]) == EmittedAll(before) + [Updated(task)];
  }

  /** EmittedAll distributes over concatenation. */
  lemma {:induction false} EmittedAllAppend(a: seq<Event>, b: seq<Event>)
    ensures EmittedAll(a + b) == EmittedAll(a) + EmittedAll(b)
    decreases |a|
  {
    if a == [] {
      assert a + b == b;
    } else {
      assert (a + b)[0] == a[0] && (a + b)[1..] == a[1..] + b;
      EmittedAllAppend(a[1..], b);
    }
  }

  /** Updates distributes over concatenation. */
  lemma {:induction false} UpdatesAppend(a: seq<Delivery>, b: seq<Delivery>)
    ensures Updates(a + b) == Updates(a) + Updates(b)
    decreases |a|
  {
    if a == [] {
      assert a + b == b;
    } else {
      assert (a + b)[0] == a[0] && (a + b)[1..] == a[1..] + b;
      UpdatesAppend(a[1..], b);
    }
  }

  /** Each message on an open connection reaches the update callback exactly once,
      in order, and nothing else does. */
  lemma {:induction false} OneUpdatePerMessage(es: seq<Event>)
    ensures Updates(EmittedAll(es)) == Messages(es)
    decreases |es|
  {
    if es != [] {
      UpdatesAppend(Emitted(es[0]), EmittedAll(es[1..]));
      OneUpdatePerMessage(es[1..]);
    }
  }
}
