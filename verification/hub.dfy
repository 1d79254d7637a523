/**
 The hub of server/websocket.go: the `connections` set and the four
 transitions that the event loop `Run` and `Shutdown` apply to it, one at a
 time. Every transition is a pure function from one hub state to the next.
 A Go runtime panic (a send on, or a close of, an already closed channel)
 is a result of its own, so that "the hub never panics" can be proved.
 */
module Hub {

  import opened Payloads
  import opened Connections

  /**
   `records` holds every connection record ever registered, member or not;
   `members` is the key set of the Go code's `connections` map.
   */
  datatype HubState = HubState(records: map<ConnId, Connection>, members: set<ConnId>)

  type Hub = s: HubState | s.members <= s.records.Keys witness HubState(map[], {})

  datatype PanicKind = SendOnClosedChannel | CloseOfClosedChannel

  datatype Step = Next(hub: Hub) | Panic(kind: PanicKind)

  /**
   The hub invariant: a record's queue is open exactly while the record is
   a member, and no queue holds more than its capacity.
   */
  predicate Valid(s: Hub) {
    && (forall c :: c in s.records ==> (s.records[c].queueOpen <==> c in s.members))
    && (forall c :: c in s.records ==> |s.records[c].queue| <= QueueCapacity)
  }

  /** Some member's queue is already closed: the state in which Go would panic. */
  predicate SomeMemberClosed(s: Hub) {
    exists c :: c in s.members && !s.records[c].queueOpen
  }

  /** The hub as NewWebSocketServer creates it. */
  function NewHub(): (h: Hub)
    ensures h.members == {} && Valid(h)
  {
    HubState(map[], {})
  }

  /**
   What happens to the incumbent on a register: the "replaced" notice is
   buffered only if its queue has room, and its transport is closed either
   way.
   */
  predicate Notified(before: Connection, after: Connection) {
    && after.transportClosed
    && after.queueOpen == before.queueOpen
    && after.queue == (if before.HasRoom() then before.queue + [Disconnected(ReplacedReason)] else before.queue)
  }

  /** Adds the new record `c`, with the welcome payload buffered, to `records`. */
  function Admit(records: map<ConnId, Connection>, members: set<ConnId>, c: ConnId): (r: Hub)
    requires members <= records.Keys
    ensures c in r.members && r.records[c] == Connection([Connected], true, false)
  {
    HubState(records[c := Enqueue(NewConnection(), Connected)], members + {c})
  }

  /**
   The `register` case of Run. `incumbent` is the member that
   getExistingConnection returns: any member, since Go's map order is
   unspecified. The new record `c` is fresh: the Go code always registers a
   record it has just allocated.
   */
  function Register(s: Hub, c: ConnId, incumbent: ConnId): (r: Step)
    requires c !in s.records
    requires s.members != {} ==> incumbent in s.members
    ensures r.Panic? <==> s.members != {} && !s.records[incumbent].queueOpen
    ensures r.Next? ==> r.hub.members == s.members + {c}
    ensures r.Next? ==> r.hub.records.Keys == s.records.Keys + {c}
    ensures r.Next? ==> r.hub.records[c] == Connection([Connected], true, false)
    ensures r.Next? && s.members != {} ==> Notified(s.records[incumbent], r.hub.records[incumbent])
    ensures r.Next? ==> forall d :: d in s.records && (s.members == {} || d != incumbent) ==> r.hub.records[d] == s.records[d]
  {
    if s.members == {} then
      Next(Admit(s.records, s.members, c))
    else
      var existing := s.records[incumbent];
      match TrySend(existing, Disconnected(ReplacedReason))
      case SendPanic => Panic(SendOnClosedChannel)
      case Dropped => Next(Admit(s.records[incumbent := existing.(transportClosed := true)], s.members, c))
      case Sent(e) => Next(Admit(s.records[incumbent := e.(transportClosed := true)], s.members, c))
  }

  /** The `unregister` case of Run: only a member is removed and has its queue closed. */
  function Unregister(s: Hub, c: ConnId): (r: Step)
    ensures c !in s.members ==> r == Next(s)
    ensures r.Panic? <==> c in s.members && !s.records[c].queueOpen
    ensures r.Next? ==> r.hub.members == s.members - {c} && r.hub.records.Keys == s.records.Keys
    ensures r.Next? && c in s.members ==> r.hub.records[c] == s.records[c].(queueOpen := false)
    ensures r.Next? ==> forall d :: d in s.records && d != c ==> r.hub.records[d] == s.records[d]
  {
    if c !in s.members then Next(s)
    else if !s.records[c].queueOpen then Panic(CloseOfClosedChannel)
    else Next(HubState(s.records[c := Close(s.records[c])], s.members - {c}))
  }

  /** One member's share of a broadcast: buffer the message, or close a full queue. */
  function Offer(conn: Connection, m: Payload): (r: Connection)
    requires conn.queueOpen
  {
    if conn.HasRoom() then Enqueue(conn, m) else Close(conn)
  }

  /**
   The state after the broadcast loop has handled the members in `done`
   (in any order: each member's outcome depends on its own queue only).
   */
  function AfterBroadcast(s: Hub, m: Payload, done: set<ConnId>): (r: Hub)
    requires done <= s.members
    requires forall c :: c in done ==> s.records[c].queueOpen
  {
    HubState(
      map c | c in s.records :: if c in done then Offer(s.records[c], m) else s.records[c],
      s.members - set c | c in done && !s.records[c].HasRoom())
  }

  /** The `broadcast` case of Run. */
  function Broadcast(s: Hub, m: Payload): (r: Step)
    ensures r.Panic? <==> SomeMemberClosed(s)
    ensures r.Next? ==> r.hub.records.Keys == s.records.Keys && r.hub.members <= s.members
    ensures r.Next? ==> forall c :: c in s.members && s.records[c].HasRoom() ==>
      c in r.hub.members && r.hub.records[c] == s.records[c].(queue := s.records[c].queue + [m])
    ensures r.Next? ==> forall c :: c in s.members && !s.records[c].HasRoom() ==>
      c !in r.hub.members && r.hub.records[c] == s.records[c].(queueOpen := false)
    ensures r.Next? ==> forall c :: c in s.records && c !in s.members ==> r.hub.records[c] == s.records[c]
  {
    if SomeMemberClosed(s) then Panic(SendOnClosedChannel)
    else Next(AfterBroadcast(s, m, s.members))
  }

  /** The state after the shutdown loop has handled the members in `done`. */
  function AfterShutdown(s: Hub, done: set<ConnId>): (r: Hub)
    requires done <= s.members
    requires forall c :: c in done ==> s.records[c].queueOpen
  {
    HubState(
      map c | c in s.records :: if c in done then Close(s.records[c]).(transportClosed := true) else s.records[c],
      s.members - done)
  }

  /** Shutdown: close every member's queue and transport and empty the set. */
  function Shutdown(s: Hub): (r: Step)
    ensures r.Panic? <==> SomeMemberClosed(s)
    ensures r.Next? ==> r.hub.members == {} && r.hub.records.Keys == s.records.Keys
    ensures r.Next? ==> forall c :: c in s.members ==>
      r.hub.records[c] == Connection(s.records[c].queue, false, true)
    ensures r.Next? ==> forall c :: c in s.records && c !in s.members ==> r.hub.records[c] == s.records[c]
  {
    if SomeMemberClosed(s) then Panic(CloseOfClosedChannel)
    else Next(AfterShutdown(s, s.members))
  }

  /**
   The write pump's receive from `send`: the oldest buffered payload leaves
   the queue. A closed channel still yields what it buffers. Membership and
   the flags are untouched.
   */
  function Receive(s: Hub, c: ConnId): (r: Hub)
    ensures r.members == s.members && r.records.Keys == s.records.Keys
    ensures forall d :: d in s.records && d != c ==> r.records[d] == s.records[d]
    ensures c in s.records && s.records[c].queue != [] ==>
      r.records[c] == s.records[c].(queue := s.records[c].queue[1..])
    ensures c in s.records && s.records[c].queue == [] ==> r == s
  {
    if c in s.records && s.records[c].queue != [] then
      HubState(s.records[c := s.records[c].(queue := s.records[c].queue[1..])], s.members)
    else s
  }
}
