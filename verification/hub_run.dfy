/**
 Run as a whole: the goroutines around the hub only decide which event it
 handles next, so a run is a sequence of events applied in order. Here the
 hub invariant is proved to hold after every event, which is what keeps the
 hub from ever sending on, or closing, a channel that is already closed.
 */
module HubRun {

  import opened Payloads
  import opened Connections
  import opened Hub

  datatype Event =
    | RegisterEvent(conn: ConnId, incumbent: ConnId)  // `incumbent`: getExistingConnection's pick
    | UnregisterEvent(conn: ConnId)
    | BroadcastEvent(message: Payload)
    | ShutdownEvent
    | ReceiveEvent(conn: ConnId)                      // a write pump takes one payload

  /** The event can occur in state `s`: a registered record is new, the pick is a member. */
  predicate Admissible(s: Hub, e: Event) {
    e.RegisterEvent? ==> e.conn !in s.records && (s.members != {} ==> e.incumbent in s.members)
  }

  /**
   One event handed to its transition: the three cases of Run's `select`,
   Shutdown (called from main and serialized with Run by the hub's mutex),
   and the write pump's receive from a queue.
   */
  function Apply(s: Hub, e: Event): (r: Step)
    requires Admissible(s, e)
    ensures r.Next? ==> s.records.Keys <= r.hub.records.Keys
    ensures r.Next? ==> r.hub.members <= s.members + (if e.RegisterEvent? then {e.conn} else {})
    ensures e.ReceiveEvent? ==> r.Next?
  {
    match e
    case RegisterEvent(c, incumbent) => Register(s, c, incumbent)
    case UnregisterEvent(c) => Unregister(s, c)
    case BroadcastEvent(m) => Broadcast(s, m)
    case ShutdownEvent => Shutdown(s)
    case ReceiveEvent(c) => Next(Receive(s, c))
  }

  /** Every event of the trace is admissible in the state it is applied to. */
  predicate AdmissibleTrace(s: Hub, events: seq<Event>)
    decreases |events|
  {
    |events| == 0 ||
    (Admissible(s, events[0]) &&
     (Apply(s, events[0]).Next? ==> AdmissibleTrace(Apply(s, events[0]).hub, events[1..])))
  }

  /** The records that the register events of a trace add. */
  function Registered(events: seq<Event>): set<ConnId>
  {
    set i | 0 <= i < |events| && events[i].RegisterEvent? :: events[i].conn
  }

  /**
   The event loop: apply the events in order, stopping at a panic. No
   record is ever forgotten, and a record is a member at the end only if
   it was one at the start or a register event of the trace added it.
   */
  function Run(s: Hub, events: seq<Event>): (r: Step)
    requires AdmissibleTrace(s, events)
    ensures r.Next? ==> s.records.Keys <= r.hub.records.Keys
    ensures r.Next? ==> r.hub.members <= s.members + Registered(events)
    decreases |events|
  {
    if |events| == 0 then Next(s)
    else
      match Apply(s, events[0])
      case Panic(k) => Panic(k)
      case Next(h) => Run(h, events[1..])
  }

  /** Every transition keeps the invariant and, from a valid state, never panics. */
  lemma StepKeepsValid(s: Hub, e: Event)
    requires Valid(s) && Admissible(s, e)
    ensures Apply(s, e).Next? && Valid(Apply(s, e).hub)
  {
  }

  /**
   For every admissible trace from a valid state the hub never panics: no
   queue is sent to or closed after it was closed, so none is closed twice.
   */
  lemma {:induction false} RunKeepsValid(s: Hub, events: seq<Event>)
    requires Valid(s) && AdmissibleTrace(s, events)
    ensures Run(s, events).Next? && Valid(Run(s, events).hub)
    decreases |events|
  {
    if |events| > 0 {
      StepKeepsValid(s, events[0]);
      RunKeepsValid(Apply(s, events[0]).hub, events[1..]);
    }
  }

  /** The safety theorem for the server as it starts. */
  lemma NewHubNeverPanics(events: seq<Event>)
    requires AdmissibleTrace(NewHub(), events)
    ensures Run(NewHub(), events).Next?
    ensures Valid(Run(NewHub(), events).hub)
  {
    RunKeepsValid(NewHub(), events);
  }

  /**
   The read pump submits `unregister` once, when its loop ends. By then a
   broadcast eviction or Shutdown may already have removed the record; that
   late submission, like any repeated one, changes nothing.
   */
  lemma UnregisterIdempotent(s: Hub, c: ConnId)
    requires Valid(s)
    ensures Unregister(s, c).Next?
    ensures Unregister(Unregister(s, c).hub, c) == Unregister(s, c)
    ensures Run(s, [UnregisterEvent(c), UnregisterEvent(c)]) == Run(s, [UnregisterEvent(c)])
  {
  }

  /**
   Device A connects, then device B. A is sent the "replaced" notice after its
   welcome and its transport is closed, but it remains a member next to B
   until A's own unregister arrives.
   */
  lemma ReplacementScenario(a: ConnId, b: ConnId)
    requires a != b
    ensures
      var one := Register(NewHub(), a, a).hub;
      var two := Register(one, b, a);
      && two.Next?
      && two.hub.members == {a, b}
      && two.hub.records[a] == Connection([Connected, Disconnected(ReplacedReason)], true, true)
      && two.hub.records[b] == Connection([Connected], true, false)
      && Unregister(two.hub, a).Next?
      && Unregister(two.hub, a).hub.members == {b}
  {
  }

  /**
   Devices A, B and C connect in turn, and C's register picks the already
   evicted A as the incumbent (Go's map order allows it) before A's
   unregister arrives. Then all three are members and both B's and C's
   transports are still open: two live clients.
   */
  lemma TwoLiveClientsScenario(a: ConnId, b: ConnId, c: ConnId)
    requires a != b && b != c && a != c
    ensures
      var one := Register(NewHub(), a, a).hub;
      var two := Register(one, b, a).hub;
      var three := Register(two, c, a);
      && three.Next?
      && three.hub.members == {a, b, c}
      && !three.hub.records[b].transportClosed
      && !three.hub.records[c].transportClosed
      && three.hub.records[a].queue == [Connected, Disconnected(ReplacedReason), Disconnected(ReplacedReason)]
  {
  }
}
