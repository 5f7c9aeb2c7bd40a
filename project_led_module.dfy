/** The first-in-first-out LED module (project/src/modules/led_module.c). Bluetooth peer
    and peer-search events become blink patterns that travel through a 20-entry mailbox
    to a worker thread; the worker plays each pattern to the end before it takes the next
    one, in the order the events arrived. */
module FifoLed {
  import opened Common
  import opened ModulesCommon
  import opened LedCommon

  /** `struct led_msg_data`. */
  datatype LedMsg = LedMsg(numBlinks: int, durationMs: int, color: Color)

  /** `LED_QUEUE_ENTRY_COUNT`. */
  const QueueEntryCount: nat := 20

  /** `blink_data_from_peer_event`: the four known states blink (a failed connection
      five short red times), anything else is an empty pattern. */
  function PeerBlink(d: Durations, s: PeerState): (m: LedMsg)
    ensures m.numBlinks != 0 <==> s in {PeerDisconnected, PeerConnected, PeerSecured, PeerConnFailed}
    ensures m.numBlinks == 0 ==> m == LedMsg(0, 0, Black)
    ensures m.color == Red <==> s == PeerDisconnected || s == PeerConnFailed
    ensures m.color == Red ==> m.durationMs == d.shortMs
  {
    match s
    case PeerDisconnected => LedMsg(2, d.shortMs, Red)
    case PeerConnected => LedMsg(2, d.mediumMs, Orange)
    case PeerSecured => LedMsg(2, d.mediumMs, Green)
    case PeerConnFailed => LedMsg(5, d.shortMs, Red)
    case _ => LedMsg(0, 0, Black)
  }

  /** The four peer states the module reports can be told apart by colour and count. */
  lemma PeerPatternsDistinct(d: Durations, s1: PeerState, s2: PeerState)
    requires s1 in {PeerDisconnected, PeerConnected, PeerSecured, PeerConnFailed}
    requires s2 in {PeerDisconnected, PeerConnected, PeerSecured, PeerConnFailed}
    requires s1 != s2
    ensures (PeerBlink(d, s1).color, PeerBlink(d, s1).numBlinks) != (PeerBlink(d, s2).color, PeerBlink(d, s2).numBlinks)
  {
  }

  /** `blink_data_from_peer_search_event`: an active search blinks blue twice, long; an
      ended one is an empty pattern. */
  function SearchBlink(d: Durations, active: bool): (m: LedMsg)
    ensures active <==> m.numBlinks > 0
    ensures active ==> m == LedMsg(2, d.longMs, Blue)
    ensures !active ==> m == LedMsg(0, 0, Black)
  {
    if active then LedMsg(2, d.longMs, Blue) else LedMsg(0, 0, Black)
  }

  /** The events the module subscribes to (and, as `Unsubscribed`, any other). */
  datatype LedEvent =
    | PeerEvt(ev: PeerEvent)
    | SearchEvt(active: bool)
    | ModuleStateEvt(source: ModuleId, state: ModuleState)
    | Unsubscribed

  /** What `led_blink` does with one message. */
  function Play(m: LedMsg): seq<LedAction>
  {
    BlinkTrain(Rounds(m.numBlinks), m.durationMs, m.color)
  }

  /** What the worker does with a series of messages: each played in full, in order. */
  function PlayAll(ms: seq<LedMsg>): seq<LedAction>
  {
    if ms == [] then [] else PlayAll(ms[..|ms| - 1]) + Play(ms[|ms| - 1])
  }

  /** The total number of blinks a series of messages asks for. */
  function TotalRounds(ms: seq<LedMsg>): nat
  {
    if ms == [] then 0 else TotalRounds(ms[..|ms| - 1]) + Rounds(ms[|ms| - 1].numBlinks)
  }

  /** Nothing is dropped or cut short: the worker makes exactly as many blinks as the
      messages ask for, four LED calls each. */
  lemma {:induction false} PlayAllLength(ms: seq<LedMsg>)
    ensures |PlayAll(ms)| == 4 * TotalRounds(ms)
  {
    if ms != [] {
      PlayAllLength(ms[..|ms| - 1]);
    }
  }

  /** Playing two series one after the other is playing their concatenation: no
      message of the second series starts before the first series has ended. */
  lemma {:induction false} PlayAllConcat(a: seq<LedMsg>, b: seq<LedMsg>)
    ensures PlayAll(a + b) == PlayAll(a) + PlayAll(b)
    decreases |b|
  {
    if b != [] {
      var b' := b[..|b| - 1];
      assert (a + b)[..|a + b| - 1] == a + b';
      assert (a + b)[|a + b| - 1] == b[|b| - 1];
      PlayAllConcat(a, b');
      assert PlayAll(a + b) == (PlayAll(a) + PlayAll(b')) + Play(b[|b| - 1]);
    } else {
      assert a + b == a;
    }
  }

  /** Playing the first `k + 1` messages is playing the first `k` and then one more. */
  lemma PlayPrefixStep(t: seq<LedAction>, q: seq<LedMsg>, k: nat)
    requires k < |q|
    ensures (t + PlayAll(q[..k])) + Play(q[k]) == t + PlayAll(q[..k + 1])
    ensures q[k..] != [] && q[k..][0] == q[k] && q[k..][1..] == q[k + 1..]
  {
    assert q[..k + 1][..k] == q[..k];
  }

  /** A peer state outside the four known ones (for example DISCONNECTING) is harmless
      here: its empty pattern plays nothing and the messages behind it play as if it had
      never been queued. */
  lemma ZeroBlinkMessageIsSkipped(d: Durations, q: seq<LedMsg>)
    ensures PlayAll([PeerBlink(d, PeerDisconnecting)] + q) == PlayAll(q)
  {
    var m := PeerBlink(d, PeerDisconnecting);
    PlayAllConcat([m], q);
    assert [m][..0] == [];
  }

  /** The module's mailbox, the LED calls made so far and the module's READY state. */
  class FifoLedModule {
    const durations: Durations
    const queue: MsgQueue<LedMsg>
    var trace: seq<LedAction>
    var ready: bool

    /** `K_MSGQ_DEFINE(msgq_led, ..., LED_QUEUE_ENTRY_COUNT, ...)` and the statics. */
    constructor (durations: Durations)
      ensures this.durations == durations && fresh(queue)
      ensures queue.Valid() && queue.capacity == QueueEntryCount && queue.items == []
      ensures trace == [] && !ready
    {
      this.durations := durations;
      queue := new MsgQueue<LedMsg>(QueueEntryCount);
      trace, ready := [], false;
    }

    /** The start of `module_thread_fn`: `setup` switches the LED off when the device
        is ready (a failure is only logged), then three short green blinks. */
    method ThreadStart(deviceReady: bool)
      modifies this`trace
      ensures trace == old(trace) + (if deviceReady then [SetColor(Black)] else [])
                       + BlinkTrain(3, durations.shortMs, Green)
    {
      if deviceReady {
        trace := trace + [SetColor(Black)];
      }
      var blinks := LedBlink(3, durations.shortMs, Green);
      trace := trace + blinks;
    }

    /** One iteration of the worker loop: the waiting get takes the head of the mailbox
        and `led_blink` plays it in full. With an empty mailbox the worker stays
        `blocked` in the get and nothing changes. */
    method LoopIteration() returns (blocked: bool)
      requires queue.Valid()
      modifies this`trace, queue
      ensures queue.Valid()
      ensures blocked <==> old(queue.items) == []
      ensures blocked ==> trace == old(trace) && queue.items == old(queue.items)
      ensures !blocked ==> trace == old(trace) + Play(old(queue.items)[0])
                           && queue.items == old(queue.items)[1..]
    {
      var n := queue.NumUsed();
      if n == 0 {
        return true;
      }
      var err, m := GetNextMsg(queue, LedMsg(0, 0, Black));
      var blinks := LedBlink(m.numBlinks, m.durationMs, m.color);
      trace := trace + blinks;
      blocked := false;
    }

    /** `n` iterations of the worker loop with no event arriving meanwhile: the first
        `k` queued messages are played in full and in order, `k` being `n` or the number
        of queued messages if that is smaller (the worker then blocks). */
    method RunIterations(n: nat)
      requires queue.Valid()
      modifies this`trace, queue
      ensures queue.Valid()
      ensures var k := if n <= |old(queue.items)| then n else |old(queue.items)|;
              trace == old(trace) + PlayAll(old(queue.items)[..k])
              && queue.items == old(queue.items)[k..]
    {
      ghost var q0 := queue.items;
      ghost var k := 0;
      var i := 0;
      while i < n
        invariant 0 <= k <= i <= n && k <= |q0| && (k < i ==> k == |q0|)
        invariant queue.Valid()
        invariant trace == old(trace) + PlayAll(q0[..k]) && queue.items == q0[k..]
      {
        var blocked := LoopIteration();
        if !blocked {
          PlayPrefixStep(old(trace), q0, k);
          k := k + 1;
        }
        i := i + 1;
      }
    }

    /** `app_event_handler`: a peer or search event enqueues its pattern (a full
        mailbox is purged and the error only logged); `main` READY sets the module
        READY; no event is consumed. An unsubscribed event fails the assertion (`ok` is
        false) and changes nothing. */
    method AppEventHandler(e: LedEvent) returns (consumed: bool, ok: bool)
      requires queue.Valid()
      modifies queue, this`ready
      ensures queue.Valid() && !consumed && (ok <==> !e.Unsubscribed?)
      ensures e.ModuleStateEvt? ==>
                queue.items == old(queue.items)
                && ready == (old(ready) || (e.source == MainModule && e.state == StateReady))
      ensures e.PeerEvt? || e.SearchEvt? ==>
                var m := if e.PeerEvt? then PeerBlink(durations, e.ev.state) else SearchBlink(durations, e.active);
                ready == old(ready)
                && queue.items == (if |old(queue.items)| < queue.capacity then old(queue.items) + [m] else [])
      ensures e.Unsubscribed? ==> queue.items == old(queue.items) && ready == old(ready)
    {
      consumed, ok := false, true;
      match e
      case PeerEvt(ev) =>
        var err := EnqueueMsg(queue, PeerBlink(durations, ev.state));
      case SearchEvt(active) =>
        var err := EnqueueMsg(queue, SearchBlink(durations, active));
      case ModuleStateEvt(source, state) =>
        if source == MainModule && state == StateReady {
          ready := true;
        }
      case Unsubscribed =>
        ok := false;
    }
  }
}
