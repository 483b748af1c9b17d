/**
 * The chat worker: every few seconds it reads a batch from the head of the
 * Redis list `chat_queue`, inserts the batch into the Message collection and
 * trims the list. Direct messages sent meanwhile keep arriving at the tail.
 */
module ChatWorker {
  import opened Domain
  import opened ChatServiceSocket

  /** `BATCH_SIZE` */
  const BatchSize: nat := 100

  /** `lRange("chat_queue", 0, BATCH_SIZE - 1)`: the first entries of the list, at most a batch of them. */
  function Head(queue: seq<Message>): (r: seq<Message>)
    ensures |r| <= BatchSize
    ensures |r| <= |queue| && r == queue[..|r|]
    ensures |r| == BatchSize || r == queue
  {
    if |queue| <= BatchSize then queue else queue[..BatchSize]
  }

  /** `lTrim(key, start, -1)`: the list from position `start` on, empty when it is shorter. */
  function LTrim(queue: seq<Message>, start: nat): (r: seq<Message>)
    ensures start < |queue| ==> |r| == |queue| - start && queue == queue[..start] + r
    ensures start >= |queue| ==> r == []
  {
    if start < |queue| then queue[start..] else []
  }

  /** What one tick leaves behind: the messages it stored and the list after it. */
  datatype Drained = Drained(stored: seq<Message>, queue: seq<Message>)

  /**
   * One tick as the worker is written: `arrivals` are the messages pushed
   * while the batch is being inserted; after a successful insert the list
   * is trimmed by the full batch size, whatever was read.
   */
  function DrainAsWritten(queue: seq<Message>, arrivals: seq<Message>, insertOk: bool): Drained {
    var batch := Head(queue);
    if batch == [] || !insertOk then Drained([], queue + arrivals)
    else Drained(batch, LTrim(queue + arrivals, BatchSize))
  }

  /** One tick trimming exactly the entries it read. */
  function DrainCorrected(queue: seq<Message>, arrivals: seq<Message>, insertOk: bool): Drained {
    var batch := Head(queue);
    if batch == [] || !insertOk then Drained([], queue + arrivals)
    else Drained(batch, LTrim(queue + arrivals, |batch|))
  }

  /**
   * A tick with no arrivals stores the first batch in queue order and keeps
   * the rest in order; a failed insert or an empty list leaves the list as
   * it was, so the batch is retried.
   */
  lemma QuietTick(queue: seq<Message>, insertOk: bool)
    ensures var d := DrainAsWritten(queue, [], insertOk);
      d.stored + d.queue == queue &&
      |d.stored| <= BatchSize &&
      (queue == [] || !insertOk ==> d.stored == [] && d.queue == queue) &&
      (queue != [] && insertOk ==> d.stored == queue[..|d.stored|] && d.stored != [])
  {
    assert queue + [] == queue;
    var batch := Head(queue);
    if batch != [] && insertOk {
      assert queue == batch + LTrim(queue, BatchSize);
    }
  }

  /** Without concurrent pushes the written and the corrected tick agree. */
  lemma QuietTickAgrees(queue: seq<Message>, insertOk: bool)
    ensures DrainAsWritten(queue, [], insertOk) == DrainCorrected(queue, [], insertOk)
  {
    assert queue + [] == queue;
  }

  /**
   * As written, a message pushed during the insert of a short batch is
   * trimmed away without being stored.
   */
  lemma ArrivalDuringShortBatchIsLost(m: Message, late: Message)
    ensures var d := DrainAsWritten([m], [late], true);
      d.stored == [m] && d.queue == [] && d.stored + d.queue != [m] + [late]
  {
    assert Head([m]) == [m];
    assert LTrim([m] + [late], BatchSize) == [];
  }

  /** With the corrected trim, every message is either stored or still queued, in arrival order. */
  lemma DrainCorrectedConserves(queue: seq<Message>, arrivals: seq<Message>, insertOk: bool)
    ensures var d := DrainCorrected(queue, arrivals, insertOk);
      d.stored + d.queue == queue + arrivals && |d.stored| <= BatchSize &&
      (insertOk && queue != [] ==> d.stored == queue[..|d.stored|] && d.stored != [])
  {
    var batch := Head(queue);
    if batch != [] && insertOk {
      var all := queue + arrivals;
      assert all[..|batch|] == batch;
      assert all == all[..|batch|] + all[|batch|..];
    }
  }

  /**
   * `startChatWorker`, one interval tick against the chat service's state,
   * trimming the entries the tick read rather than a full batch. The
   * insert's outcome is a parameter; `arrivals` are the pushes that land on
   * the list while the insert is awaited.
   */
  method Tick(s: ChatServer, arrivals: seq<Message>, insertOk: bool)
    modifies s`chatQueue, s`messages
    ensures var d := DrainCorrected(old(s.chatQueue), arrivals, insertOk);
      s.messages == old(s.messages) + d.stored && s.chatQueue == d.queue
    ensures s.messages + s.chatQueue == old(s.messages) + old(s.chatQueue) + arrivals
  {
    var queue, stored := s.chatQueue, s.messages;
    var batch := Head(queue);
    var next := queue + arrivals;
    if |batch| > 0 && insertOk {
      stored := stored + batch;
      next := LTrim(next, |batch|);
    }
    DrainCorrectedConserves(queue, arrivals, insertOk);
    assert stored + next == s.messages + (queue + arrivals);
    s.messages, s.chatQueue := stored, next;
  }
}
