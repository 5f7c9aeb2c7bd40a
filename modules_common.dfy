/** The module mailbox of the runtime (project/src/modules/modules_common.c): a kernel
    message queue of fixed capacity, and the helpers every module uses to enqueue
    into it, dequeue from it and purge it. */
module ModulesCommon {
  import opened Common

  /** A kernel message queue (`struct k_msgq`) as its users see it: at most
      `capacity` messages, `items` holding the queued ones oldest first. */
  class MsgQueue<T> {
    const capacity: nat
    var items: seq<T>

    ghost predicate Valid()
      reads this
    {
      |items| <= capacity
    }

    /** `K_MSGQ_DEFINE`: an empty queue with `capacity` slots. */
    constructor (capacity: nat)
      ensures Valid()
      ensures this.capacity == capacity && items == []
    {
      this.capacity := capacity;
      items := [];
    }

    /** `k_msgq_num_used_get`. */
    method NumUsed() returns (n: nat)
      requires Valid()
      ensures n == |items| && n <= capacity
    {
      n := |items|;
    }

    /** `k_msgq_put`: append at the tail, or fail on a full queue. No consumer runs
        while the caller waits, so a full queue is still full when a wait of
        `timeoutMs` ends: the error is -ENOMSG without a wait, -EAGAIN after one. */
    method Put(msg: T, timeoutMs: nat) returns (err: int)
      requires Valid()
      modifies this
      ensures Valid()
      ensures |old(items)| < capacity ==> err == 0 && items == old(items) + [msg]
      ensures |old(items)| == capacity ==>
                err == (if timeoutMs == 0 then -ENOMSG else -EAGAIN) && items == old(items)
    {
      if |items| == capacity {
        err := if timeoutMs == 0 then -ENOMSG else -EAGAIN;
        return;
      }
      items := items + [msg];
      err := 0;
    }

    /** `k_msgq_get` with `K_NO_WAIT`: remove the head, or fail on an empty queue
        leaving the caller's buffer `prev` as it was. */
    method Get(prev: T) returns (err: int, msg: T)
      requires Valid()
      modifies this
      ensures Valid()
      ensures old(items) == [] ==> err == -ENOMSG && msg == prev && items == []
      ensures old(items) != [] ==>
                err == 0 && msg == old(items)[0] && items == old(items)[1..]
    {
      if items == [] {
        err, msg := -ENOMSG, prev;
        return;
      }
      msg := items[0];
      items := items[1..];
      err := 0;
    }

    /** `k_msgq_purge`: discard every queued message. */
    method Purge()
      requires Valid()
      modifies this
      ensures Valid() && items == []
    {
      items := [];
    }
  }

  /** `module_purge_queue`. */
  method PurgeQueue<T>(q: MsgQueue<T>)
    requires q.Valid()
    modifies q
    ensures q.Valid() && q.items == []
  {
    q.Purge();
  }

  /** `module_get_next_msg`: the blocking get. It returns only once a message is
      queued, so the model calls it on a non-empty queue; it yields the head. */
  method GetNextMsg<T>(q: MsgQueue<T>, prev: T) returns (err: int, msg: T)
    requires q.Valid() && q.items != []
    modifies q
    ensures q.Valid()
    ensures err == 0 && msg == old(q.items)[0] && q.items == old(q.items)[1..]
  {
    err, msg := q.Get(prev);
  }

  /** `module_get_next_msg_no_wait`: an empty queue is the get's -ENOMSG, removes
      nothing and leaves the caller's buffer as it was. */
  method GetNextMsgNoWait<T>(q: MsgQueue<T>, prev: T) returns (err: int, msg: T)
    requires q.Valid()
    modifies q
    ensures q.Valid()
    ensures old(q.items) == [] ==> err == -ENOMSG && msg == prev && q.items == []
    ensures old(q.items) != [] ==>
              err == 0 && msg == old(q.items)[0] && q.items == old(q.items)[1..]
  {
    err, msg := q.Get(prev);
    if err != 0 {
      return;
    }
  }

  /** `module_enqueue_msg_with_delay`: a successful put appends at the tail; a failed
      put purges the whole queue (so the module is not locked out) and reports the
      error. The queue never holds more than its capacity. */
  method EnqueueMsgWithDelay<T>(q: MsgQueue<T>, msg: T, delayMs: nat) returns (err: int)
    requires q.Valid()
    modifies q 
    ensures q.Valid() && |q.items| <= q.capacity
    ensures |old(q.items)| < q.capacity ==> err == 0 && q.items == old(q.items) + [msg]
    ensures |old(q.items)| == q.capacity ==>
              err == (if delayMs == 0 then -ENOMSG else -EAGAIN) && q.items == []
  {
    err := q.Put(msg, delayMs);
    if err != 0 {
      PurgeQueue(q);
      return;
    }
    err := 0;
  }

  /** `module_enqueue_msg`: the delayed enqueue without waiting. */
  method EnqueueMsg<T>(q: MsgQueue<T>, msg: T) returns (err: int)
    requires q.Valid()
    modifies q 
    ensures q.Valid() && |q.items| <= q.capacity
    ensures |old(q.items)| < q.capacity ==> err == 0 && q.items == old(q.items) + [msg]
    ensures |old(q.items)| == q.capacity ==> err == -ENOMSG && q.items == []
  {
    err := EnqueueMsgWithDelay(q, msg, 0);
  }

  /** Enqueueing a burst into an empty mailbox with room for it queues the burst in
      order. */
  method EnqueueAll<T>(q: MsgQueue<T>, msgs: seq<T>)
    requires q.Valid() && q.items == [] && |msgs| <= q.capacity
    modifies q 
    ensures q.Valid() && q.items == msgs
  {
    var i := 0;
    while i < |msgs|
      invariant 0 <= i <= |msgs|
      invariant q.Valid() && q.items == msgs[..i]
    {
      var err := EnqueueMsg(q, msgs[i]);
      assert msgs[..i + 1] == msgs[..i] + [msgs[i]];
      i := i + 1;
    }
  }

  /** Taking messages with the blocking get until the mailbox is empty yields what
      was queued, oldest first. */
  method DrainAll<T>(q: MsgQueue<T>, zero: T) returns (out: seq<T>)
    requires q.Valid()
    modifies q
    ensures q.Valid() && q.items == [] && out == old(q.items)
  {
    ghost var q0 := q.items;
    var n := q.NumUsed();
    out := [];
    while |out| < n
      invariant |out| <= n == |q0|
      invariant q.Valid() && q.items == q0[|out|..]
      invariant out == q0[..|out|]
      decreases n - |out|
    {
      var err, m := GetNextMsg(q, zero);
      assert q0[..|out| + 1] == q0[..|out|] + [m];
      out := out + [m];
    }
  }

  /** A mailbox large enough for a burst hands the burst to the blocking get in the
      order it was enqueued. */
  method DeliversInEnqueueOrder<T>(msgs: seq<T>, zero: T) returns (out: seq<T>)
    ensures out == msgs
  {
    var q := new MsgQueue<T>(|msgs|);
    EnqueueAll(q, msgs);
    out := DrainAll(q, zero);
  }
}
