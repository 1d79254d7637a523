/**
 The two `for connection := range s.connections` loops of the hub, written
 as loops that visit the members one at a time in an arbitrary order, and
 proved to end in the states that Hub.Broadcast and Hub.Shutdown describe
 all at once.
 */
module HubLoops {

  import opened Payloads
  import opened Connections
  import opened Hub

  /** The broadcast loop of Run: per member, a non-blocking send or else close and delete. */
  method BroadcastLoop(s: Hub, m: Payload) returns (r: Step)
    ensures r == Broadcast(s, m)
  {
    var h: Hub := s;
    var todo := s.members;
    while todo != {}
      invariant todo <= s.members
      invariant forall c :: c in s.members - todo ==> s.records[c].queueOpen
      invariant h == AfterBroadcast(s, m, s.members - todo)
      decreases todo
    {
      var c :| c in todo;
      ghost var done := s.members - todo;
      assert h.records[c] == s.records[c];
      match TrySend(h.records[c], m) {
        case SendPanic =>
          return Panic(SendOnClosedChannel);
        case Sent(k) =>
          h := HubState(h.records[c := k], h.members);
        case Dropped =>
          h := HubState(h.records[c := Close(h.records[c])], h.members - {c});
      }
      todo := todo - {c};
      assert s.members - todo == done + {c};
    }
    assert s.members - todo == s.members;
    return Next(h);
  }

  /** The loop of Shutdown: per member, close the queue, close the transport, delete. */
  method ShutdownLoop(s: Hub) returns (r: Step)
    ensures r == Shutdown(s)
  {
    var h: Hub := s;
    var todo := s.members;
    while todo != {}
      invariant todo <= s.members
      invariant forall c :: c in s.members - todo ==> s.records[c].queueOpen
      invariant h == AfterShutdown(s, s.members - todo)
      decreases todo
    {
      var c :| c in todo;
      ghost var done := s.members - todo;
      assert h.records[c] == s.records[c];
      if !h.records[c].queueOpen {
        return Panic(CloseOfClosedChannel);
      }
      h := HubState(h.records[c := Close(h.records[c]).(transportClosed := true)], h.members - {c});
      todo := todo - {c};
      assert s.members - todo == done + {c};
    }
    assert s.members - todo == s.members;
    return Next(h);
  }
}
