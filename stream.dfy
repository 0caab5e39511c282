/**
 * The event-stream consumer of the streaming analysis endpoint
 * (backend/app.py, `generate`). The queue the analysis thread fills is
 * abstracted to the sequence of messages it holds, in order; waiting on an
 * empty queue is left out.
 */
module Stream {

  /** A queued message; only its `type` field decides what the consumer does. */
  datatype Message = Message(kind: string, body: string)

  /** A `complete` or `error` message ends the stream. */
  predicate Terminal(m: Message)
  {
    m.kind == "complete" || m.kind == "error"
  }

  /**
   * The consumer loop: forwards each message in queue order and stops right
   * after the first terminal one. What it forwards is a prefix of the queue
   * with no terminal message before its end, ending in the first terminal
   * message when the queue holds one, and the whole queue otherwise.
   */
  method Drain(queue: seq<Message>) returns (sent: seq<Message>)
    ensures |sent| <= |queue| && sent == queue[..|sent|]
    ensures forall i :: 0 <= i < |sent| - 1 ==> !Terminal(sent[i])
    ensures (exists i :: 0 <= i < |queue| && Terminal(queue[i])) ==> |sent| > 0 && Terminal(sent[|sent| - 1])
    ensures (forall i :: 0 <= i < |queue| ==> !Terminal(queue[i])) ==> sent == queue
  {
    sent := [];
    var next := 0;
    while next < |queue|
      invariant next <= |queue| && sent == queue[..next]
      invariant forall i :: 0 <= i < next ==> !Terminal(queue[i])
    {
      var message := queue[next];
      sent := sent + [message];
      next := next + 1;
      if message.kind == "complete" {
        return;
      } else if message.kind == "error" {
        return;
      }
    }
  }
}
