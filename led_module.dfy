/** The preemptive LED module (src/modules/led_module.c). Bluetooth peer events become
    ACTIVE blink patterns and peer-search events BACKGROUND ones; both travel through a
    20-entry mailbox to a worker thread that blinks one round per loop iteration. While
    the current pattern is BACKGROUND the worker polls the mailbox before every round, so
    a new pattern replaces it at once; an ACTIVE pattern is played to the end. */
module PreemptiveLed {
  import opened Common
  import opened ModulesCommon
  import opened LedCommon

  /** `enum blink_type_index`. */
  datatype BlinkType = Active | Background

  /** `struct led_msg_data`. */
  datatype LedMsg = LedMsg(numBlinks: int, durationMs: int, color: Color, kind: BlinkType)

  /** `LED_QUEUE_ENTRY_COUNT`. */
  const QueueEntryCount: nat := 20

  /** `blink_data_from_peer_event`: a peer indication is always ACTIVE; the four known
      states blink, anything else is an empty pattern. */
  function PeerBlink(d: Durations, s: PeerState): (m: LedMsg)
    ensures m.kind == Active
    ensures m.numBlinks != 0 <==> s in {PeerDisconnected, PeerConnected, PeerSecured, PeerConnFailed}
    ensures m.numBlinks == 0 ==> m.color == Black && m.durationMs == 0
    ensures m.color == Red <==> s == PeerDisconnected || s == PeerConnFailed
  {
    match s
    case PeerDisconnected => LedMsg(2, d.shortMs, Red, Active)
    case PeerConnected => LedMsg(2, d.mediumMs, Orange, Active)
    case PeerSecured => LedMsg(2, d.mediumMs, Green, Active)
    case PeerConnFailed => LedMsg(5, d.mediumMs, Red, Active)
    case _ => LedMsg(0, 0, Black, Active)
  }

  /** The four peer states the module reports can be told apart by colour and count. */
  lemma PeerPatternsDistinct(d: Durations, s1: PeerState, s2: PeerState)
    requires s1 in {PeerDisconnected, PeerConnected, PeerSecured, PeerConnFailed}
    requires s2 in {PeerDisconnected, PeerConnected, PeerSecured, PeerConnFailed}
    requires s1 != s2
    ensures (PeerBlink(d, s1).color, PeerBlink(d, s1).numBlinks) != (PeerBlink(d, s2).color, PeerBlink(d, s2).numBlinks)
  {
  }

  /** `blink_data_from_peer_search_event`: always BACKGROUND; an active search blinks
      blue ten long times, an ended one is an empty pattern. */
  function SearchBlink(d: Durations, active: bool): (m: LedMsg)
    ensures m.kind == Background
    ensures active <==> m.numBlinks > 0
    ensures active ==> m == LedMsg(10, d.longMs, Blue, Background)
    ensures !active ==> m == LedMsg(0, 0, Black, Background)
  {
    if active then LedMsg(10, d.longMs, Blue, Background) else LedMsg(0, 0, Black, Background)
  }

  /** The events the module subscribes to (and, as `Unsubscribed`, any other). */
  datatype LedEvent =
    | PeerEvt(ev: PeerEvent)
    | SearchEvt(active: bool)
    | ModuleStateEvt(source: ModuleId, state: ModuleState)
    | Unsubscribed

  /** The worker thread's locals: `current_blink_type`, `remaining_blinks`, the last
      message `msg` it received, and whether it is blocked in the waiting get. */
  datatype WorkerState = WorkerState(kind: BlinkType, remaining: int, msg: LedMsg, waiting: bool)

  /** The outcome of one pass of the worker: its new locals, the mailbox afterwards and
      the LED calls it made. */
  datatype Pass = Pass(s: WorkerState, q: seq<LedMsg>, actions: seq<LedAction>)

  /** A blink of `m` after taking it as the new pattern. */
  function StartAndBlink(m: LedMsg, rest: seq<LedMsg>): Pass
  {
    Pass(WorkerState(m.kind, m.numBlinks - 1, m, false), rest, BlinkOnce(m.durationMs, m.color))
  }

  /** The poll at the top of the loop: while the pattern is BACKGROUND a queued message
      replaces it, with that message's type and count; otherwise nothing changes. */
  function Polled(s: WorkerState, q: seq<LedMsg>): (r: (WorkerState, seq<LedMsg>))
  {
    if s.kind == Background && q != [] then (WorkerState(q[0].kind, q[0].numBlinks, q[0], false), q[1..])
    else (s, q)
  }

  /** The rest of the loop body: with no blinks left the worker waits for the next
      message (staying blocked while there is none); then it blinks once and counts
      the blink. */
  function TakeOrBlink(s: WorkerState, q: seq<LedMsg>): (r: Pass)
  {
    if s.remaining == 0 then
      if q == [] then Pass(s.(waiting := true), q, []) else StartAndBlink(q[0], q[1..])
    else Pass(s.(remaining := s.remaining - 1), q, BlinkOnce(s.msg.durationMs, s.msg.color))
  }

  /** One iteration of the `while (true)` loop of `module_thread_fn`, or the part of it
      up to the waiting get when the mailbox is empty then. A BACKGROUND pattern first
      polls the mailbox; a pattern with no remaining blinks waits for the next message;
      then one blink is made and `remaining_blinks` decremented. A blocked worker
      resumes inside the waiting get. */
  function Iteration(s: WorkerState, q: seq<LedMsg>): (r: Pass)
    ensures r.s.waiting <==> r.actions == []
    ensures !r.s.waiting ==> r.actions == BlinkOnce(r.s.msg.durationMs, r.s.msg.color)
    ensures r.q == q || (q != [] && r.q == q[1..]) || (|q| >= 2 && r.q == q[2..])
    ensures s.kind == Active && !s.waiting && s.remaining != 0 ==>
              r == Pass(s.(remaining := s.remaining - 1), q, BlinkOnce(s.msg.durationMs, s.msg.color))
  {
    if s.waiting then
      if q == [] then Pass(s, q, []) else StartAndBlink(q[0], q[1..])
    else
      var (s1, q1) := Polled(s, q);
      TakeOrBlink(s1, q1)
  }

  /** `n` iterations with no new message arriving: the first `n - 1`, then one more. */
  function Run(s: WorkerState, q: seq<LedMsg>, n: nat): (r: Pass)
    decreases n
  {
    if n == 0 then Pass(s, q, [])
    else
      var before := Run(s, q, n - 1);
      var last := Iteration(before.s, before.q);
      Pass(last.s, last.q, before.actions + last.actions)
  }

  /** A pending message preempts a BACKGROUND pattern in the very next iteration: it
      becomes the current pattern, with its own type and count, and its first blink is
      made at once. */
  lemma BackgroundIsPreempted(s: WorkerState, q: seq<LedMsg>)
    requires s.kind == Background && !s.waiting && q != [] && q[0].numBlinks != 0
    ensures Iteration(s, q) == StartAndBlink(q[0], q[1..])
    ensures Iteration(s, q).s.kind == q[0].kind && Iteration(s, q).s.remaining == q[0].numBlinks - 1
  {
  }

  /** An ACTIVE pattern with `k` blinks left plays them one per iteration without
      looking at the mailbox: after `j <= k` iterations `k - j` are left. */
  lemma {:induction false} ActivePlaysWithoutPolling(s: WorkerState, q: seq<LedMsg>, k: nat, j: nat)
    requires s.kind == Active && !s.waiting && s.remaining == k && j <= k
    ensures Run(s, q, j) == Pass(s.(remaining := k - j), q, BlinkTrain(j, s.msg.durationMs, s.msg.color))
    decreases j
  {
    if j > 0 {
      ActivePlaysWithoutPolling(s, q, k, j - 1);
    }
  }

  /** An ACTIVE pattern with `k` blinks left plays all `k` of them without looking at
      the mailbox, and then has none left, so the next iteration takes the next message. */
  lemma ActiveRunsToCompletion(s: WorkerState, q: seq<LedMsg>, k: nat)
    requires s.kind == Active && !s.waiting && s.remaining == k
    ensures Run(s, q, k) == Pass(s.(remaining := 0), q, BlinkTrain(k, s.msg.durationMs, s.msg.color))
  {
    ActivePlaysWithoutPolling(s, q, k, k);
  }

  /** Once a finished ACTIVE pattern has no blinks left, the next iteration reads the
      mailbox: it takes the head if there is one and waits otherwise. */
  lemma FinishedPatternReadsMailbox(s: WorkerState, q: seq<LedMsg>)
    requires s.kind == Active && !s.waiting && s.remaining == 0
    ensures q != [] ==> Iteration(s, q) == StartAndBlink(q[0], q[1..])
    ensures q == [] ==> Iteration(s, q).s.waiting
  {
  }

  /** The lock-up: an ACTIVE pattern whose count has gone below zero is never left
      again. Every later iteration keeps it, makes one more blink of it and leaves the
      mailbox untouched, so no later indication is ever shown. */
  lemma {:induction false} NegativeActiveLocksUp(s: WorkerState, q: seq<LedMsg>, n: nat)
    requires s.kind == Active && !s.waiting && s.remaining < 0
    ensures Run(s, q, n) == Pass(s.(remaining := s.remaining - n), q, BlinkTrain(n, s.msg.durationMs, s.msg.color))
    decreases n
  {
    if n > 0 {
      NegativeActiveLocksUp(s, q, n - 1);
    }
  }

  /** How the lock-up is reached: a peer state outside the four known ones (for example
      DISCONNECTING) maps to an ACTIVE pattern with 0 blinks. A worker whose waiting get
      takes it (an idle one, or one whose ACTIVE pattern has just ended) makes one (black, zero-length) blink and is left with an ACTIVE
      pattern at -1 blinks. */
  lemma ZeroBlinkPeerEventStartsLockUp(d: Durations, s: WorkerState, q: seq<LedMsg>)
    requires s.waiting || (s.kind == Active && s.remaining == 0)
    ensures var p := Iteration(s, [PeerBlink(d, PeerDisconnecting)] + q);
            p.s == WorkerState(Active, -1, PeerBlink(d, PeerDisconnecting), false) && p.q == q
  {
    var m := PeerBlink(d, PeerDisconnecting);
    assert ([m] + q)[0] == m && ([m] + q)[1..] == q;
  }

  /** The same pattern taken by the poll of a BACKGROUND pattern does not lock up: it
      leaves 0 blinks, so the waiting get of the same iteration takes the message behind
      it at once and blinks that one instead. */
  lemma PolledZeroBlinkIsSkipped(d: Durations, s: WorkerState, q: seq<LedMsg>)
    requires s.kind == Background && !s.waiting && q != []
    ensures Iteration(s, [PeerBlink(d, PeerDisconnecting)] + q) == StartAndBlink(q[0], q[1..])
  {
    var m := PeerBlink(d, PeerDisconnecting);
    assert ([m] + q)[0] == m && ([m] + q)[1..] == q;
  }

  /** The lock-up is permanent: once the waiting get of an idle worker, or of one whose
      ACTIVE pattern has just ended, has taken the pattern of a DISCONNECTING peer event, however many iterations follow, every message queued
      behind it stays in the mailbox and the LED only repeats zero-length black blinks. */
  lemma {:induction false} LockUpIsPermanent(d: Durations, s: WorkerState, q: seq<LedMsg>, n: nat)
    requires s.waiting || (s.kind == Active && s.remaining == 0)
    ensures var p := Run(s, [PeerBlink(d, PeerDisconnecting)] + q, 1 + n);
            p.q == q && p.s == WorkerState(Active, -1 - n, PeerBlink(d, PeerDisconnecting), false)
            && p.actions == BlinkTrain(1 + n, 0, Black)
    decreases n
  {
    if n == 0 {
      ZeroBlinkPeerEventStartsLockUp(d, s, q);
    } else {
      LockUpIsPermanent(d, s, q, n - 1);
    }
  }

  /** The module's mailbox, the worker's locals, the LED calls made so far and the
      module's READY state. */
  class PreemptiveLedModule {
    const durations: Durations
    const queue: MsgQueue<LedMsg>
    var kind: BlinkType
    var remaining: int
    var msg: LedMsg
    var waiting: bool
    var trace: seq<LedAction>
    var ready: bool

    /** The worker's locals as a value. */
    function State(): WorkerState
      reads this
    {
      WorkerState(kind, remaining, msg, waiting)
    }

    /** `K_MSGQ_DEFINE(msgq_led, ..., LED_QUEUE_ENTRY_COUNT, ...)` and the statics. */
    constructor (durations: Durations)
      ensures this.durations == durations && fresh(queue)
      ensures queue.Valid() && queue.capacity == QueueEntryCount && queue.items == []
      ensures trace == [] && !ready && !waiting
    {
      this.durations := durations;
      queue := new MsgQueue<LedMsg>(QueueEntryCount);
      kind, remaining, msg, waiting := Background, 0, LedMsg(0, 0, Red, Active), false;
      trace, ready := [], false;
    }

    /** The start of `module_thread_fn`: `setup` switches the LED off when the device
        is ready (a failure is only logged), one long green blink follows, and the loop
        starts with a BACKGROUND pattern and no remaining blinks. */
    method ThreadStart(deviceReady: bool)
      modifies this`kind, this`remaining, this`waiting, this`trace
      ensures trace == old(trace) + (if deviceReady then [SetColor(Black)] else [])
                       + BlinkTrain(1, durations.longMs, Green)
      ensures kind == Background && remaining == 0 && !waiting
    {
      if deviceReady {
        trace := trace + [SetColor(Black)];
      }
      var blinks := LedBlink(1, durations.longMs, Green);
      trace := trace + blinks;
      kind, remaining, waiting := Background, 0, false;
    }

    /** The poll at the top of the loop body (see `Polled`). */
    method Poll()
      requires queue.Valid() && !waiting
      modifies this`kind, this`remaining, this`msg, queue
      ensures queue.Valid()
      ensures (State(), queue.items) == Polled(old(State()), old(queue.items))
    {
      if kind == Background {
        var err, m := GetNextMsgNoWait(queue, msg);
        if err == 0 {
          msg := m;
          kind, remaining := msg.kind, msg.numBlinks;
        }
      }
    }

    /** `led_blink_once`: one blink of `color` on the LED. */
    method LedBlinkOnce(ms: int, color: Color)
      modifies this`trace
      ensures trace == old(trace) + BlinkOnce(ms, color)
    {
      trace := trace + [SetColor(color), Sleep(ms), SetColor(Black), Sleep(HalfPeriod(ms))];
    }

    /** The waiting get returning a message: it becomes the current pattern and its
        first blink is made at once. */
    method TakeAndBlink()
      requires queue.Valid() && queue.items != []
      modifies this`kind, this`remaining, this`msg, this`waiting, this`trace, queue
      ensures queue.Valid()
      ensures var p := StartAndBlink(old(queue.items)[0], old(queue.items)[1..]);
              State() == p.s && queue.items == p.q && trace == old(trace) + p.actions
    {
      var err, m := GetNextMsg(queue, msg);
      LedBlinkOnce(m.durationMs, m.color);
      kind, remaining, msg, waiting := m.kind, m.numBlinks - 1, m, false;
    }

    /** The waiting get when no blinks are left, then one blink (see `TakeOrBlink`). */
    method WaitAndBlink()
      requires queue.Valid()
      modifies this`kind, this`remaining, this`msg, this`waiting, this`trace, queue
      ensures queue.Valid()
      ensures var p := TakeOrBlink(old(State()), old(queue.items));
              State() == p.s && queue.items == p.q && trace == old(trace) + p.actions
    {
      if remaining != 0 {
        LedBlinkOnce(msg.durationMs, msg.color);
        remaining := remaining - 1;
        return;
      }
      var n := queue.NumUsed();
      if n == 0 {
        waiting := true;
        return;
      }
      assert TakeOrBlink(State(), queue.items) == StartAndBlink(queue.items[0], queue.items[1..]);
      TakeAndBlink();
    }

    /** One iteration of the worker loop (see `Iteration`). */
    method LoopIteration()
      requires queue.Valid()
      modifies this`kind, this`remaining, this`msg, this`waiting, this`trace, queue
      ensures queue.Valid()
      ensures var p := Iteration(old(State()), old(queue.items));
              State() == p.s && queue.items == p.q && trace == old(trace) + p.actions
    {
      if waiting {
        var n := queue.NumUsed();
        if n == 0 {
          return;
        }
        TakeAndBlink();
      } else {
        Poll();
        WaitAndBlink();
      }
    }

    /** `n` iterations of the worker loop with no event arriving meanwhile. */
    method RunIterations(n: nat)
      requires queue.Valid()
      modifies this`kind, this`remaining, this`msg, this`waiting, this`trace, queue
      ensures queue.Valid()
      ensures var p := Run(old(State()), old(queue.items), n);
              State() == p.s && queue.items == p.q && trace == old(trace) + p.actions
    {
      var i := 0;
      while i < n
        invariant 0 <= i <= n && queue.Valid()
        invariant var p := Run(old(State()), old(queue.items), i);
                  State() == p.s && queue.items == p.q && trace == old(trace) + p.actions
      {
        LoopIteration();
        i := i + 1;
      }
    }

    /** `app_event_handler`: a peer or search event enqueues its pattern (a full
        mailbox is purged and the error only logged); `main` READY sets the module
        READY; no event is consumed. An unsubscribed event fails the assertion (`ok` is
        false) and changes nothing. */
    method AppEventHandler(e: LedEvent) returns (consumed: bool, ok: bool)
      requires queue.Valid()
      modifies queue, this`ready
      ensures queue.Valid() && !consumed && (ok <==> !e.Unsubscribed?)
      ensures e.ModuleStateEvt? ==>
                queue.items == old(queue.items)
                && ready == (old(ready) || (e.source == MainModule && e.state == StateReady))
      ensures e.PeerEvt? || e.SearchEvt? ==>
                var m := if e.PeerEvt? then PeerBlink(durations, e.ev.state) else SearchBlink(durations, e.active);
                ready == old(ready)
                && queue.items == (if |old(queue.items)| < queue.capacity then old(queue.items) + [m] else [])
      ensures e.Unsubscribed? ==> queue.items == old(queue.items) && ready == old(ready)
    {
      consumed, ok := false, true;
      match e
      case PeerEvt(ev) =>
        var err := EnqueueMsg(queue, PeerBlink(durations, ev.state));
      case SearchEvt(active) =>
        var err := EnqueueMsg(queue, SearchBlink(durations, active));
      case ModuleStateEvt(source, state) =>
        if source == MainModule && state == StateReady {
          ready := true;
        }
      case Unsubscribed =>
        ok := false;
    }
  }
}
