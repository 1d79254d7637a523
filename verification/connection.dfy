/**
 One connection record: the transport handle and the buffered outbound
 channel `send`. The channel is modelled by the messages still buffered in
 it and by whether it has been closed; the transport only by whether it has
 been closed.
 */
module Connections {

  import opened Payloads

  /** Buffer size of every connection's outbound channel. */
  const QueueCapacity: nat := 256

  /** Identity of a connection record (the Go code compares pointers). */
  type ConnId = nat

  datatype Connection = Connection(queue: seq<Payload>, queueOpen: bool, transportClosed: bool)
  {
    /** A send on the channel would not block. */
    predicate HasRoom() {
      |queue| < QueueCapacity
    }
  }

  /** A record as it is built for a freshly upgraded transport. */
  function NewConnection(): (c: Connection)
    ensures c.queue == [] && c.queueOpen && !c.transportClosed
  {
    Connection([], true, false)
  }

  /** A channel send that finds room: the payload joins the back of the queue. */
  function Enqueue(c: Connection, m: Payload): (r: Connection)
    requires c.queueOpen && c.HasRoom()
    ensures r.queue == c.queue + [m] && |r.queue| <= QueueCapacity
    ensures r.queueOpen && r.transportClosed == c.transportClosed
  {
    c.(queue := c.queue + [m])
  }

  /** Closing the channel keeps what is buffered in it. */
  function Close(c: Connection): (r: Connection)
    requires c.queueOpen
    ensures !r.queueOpen && r.queue == c.queue && r.transportClosed == c.transportClosed
  {
    c.(queueOpen := false)
  }

  /** What a `select` with a `default` branch does with one send. */
  datatype SendResult = Sent(conn: Connection) | Dropped | SendPanic

  /**
   A non-blocking send. Go panics on a send to a closed channel even inside
   a `select`; a full open channel takes the `default` branch.
   */
  function TrySend(c: Connection, m: Payload): (r: SendResult)
    ensures r.SendPanic? <==> !c.queueOpen
    ensures r.Dropped? <==> c.queueOpen && !c.HasRoom()
    ensures r.Sent? ==> r.conn == Enqueue(c, m)
  {
    if !c.queueOpen then SendPanic
    else if !c.HasRoom() then Dropped
    else Sent(Enqueue(c, m))
  }
}
