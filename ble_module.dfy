/** The BLE module skeleton (project/src/modules/ble_module.c). It subscribes to the qdec
    module's events and forwards each one into a 10-entry mailbox; its thread takes them
    one by one, runs the handler of its current state and then the handler common to all
    states. No handler changes the state, so it stays DISCONNECTED. */
module BleModule {
  import opened Common
  import opened ModulesCommon
  import opened QdecEvents

  /** `enum state_type`; `UnknownState` is any other value of the variable. */
  datatype BleState = BleDisconnected | BleConnected | BleShutdown | UnknownState(raw: int)

  /** `BLE_QUEUE_ENTRY_COUNT`. */
  const QueueEntryCount: nat := 10

  /** `state2str`. */
  function StateName(s: BleState): (name: string)
    ensures s == BleDisconnected <==> name == "STATE_BLE_DISCONNECTED"
    ensures s == BleConnected <==> name == "STATE_BLE_CONNECTED"
    ensures s == BleShutdown <==> name == "STATE_SHUTDOWN"
    ensures s.UnknownState? <==> name == "Unknown"
  {
    match s
    case BleDisconnected => "STATE_BLE_DISCONNECTED"
    case BleConnected => "STATE_BLE_CONNECTED"
    case BleShutdown => "STATE_SHUTDOWN"
    case UnknownState(_) => "Unknown"
  }

  /** Reading a state back from its logged name. */
  function StateFromName(name: string): Option<BleState>
  {
    if name == "STATE_BLE_DISCONNECTED" then Some(BleDisconnected)
    else if name == "STATE_BLE_CONNECTED" then Some(BleConnected)
    else if name == "STATE_SHUTDOWN" then Some(BleShutdown)
    else None
  }

  /** The three states are logged under names that identify them; any other value is
      logged as "Unknown", which names no state. */
  lemma StateNameRoundTrip(s: BleState)
    ensures StateFromName(StateName(s)) == (if s.UnknownState? then None else Some(s))
  {
  }

  /** The module's outgoing `ble_module_event`s (only errors are ever sent). */
  datatype BleEvent = BleError(err: int)

  /** What the bus delivers to the handler: a qdec event, or any other. */
  datatype BleInput = FromQdec(e: QdecEvent) | OtherEvent

  /** A handler run by the thread for one message. `OnAllStates` records whether it
      logged the message as received data (a `QDEC_EVT_DATA_SEND` event). */
  datatype HandlerRun = OnDisconnected | OnConnected | OnAllStates(loggedData: bool)

  /** The handlers one message runs: the handler of the current state (none in
      SHUTDOWN or an unknown state), then the handler common to all states. */
  function Dispatch(s: BleState, m: QdecEvent): (runs: seq<HandlerRun>)
    ensures 1 <= |runs| <= 2 && runs[|runs| - 1] == OnAllStates(m.kind == DataSend)
    ensures |runs| == 2 <==> s == BleDisconnected || s == BleConnected
    ensures |runs| == 2 ==> runs[0] == (if s == BleDisconnected then OnDisconnected else OnConnected)
  {
    var specific := match s
      case BleDisconnected => [OnDisconnected]
      case BleConnected => [OnConnected]
      case _ => [];
    specific + [OnAllStates(m.kind == DataSend)]
  }

  /** The module's statics (`state`, the mailbox), the debug log of state changes, the
      handlers its thread has run and the events it has sent. */
  class Ble {
    const queue: MsgQueue<QdecEvent>
    var state: BleState
    var log: seq<string>
    var runs: seq<HandlerRun>
    var sent: seq<BleEvent>

    /** The statics start zeroed: the state is DISCONNECTED. */
    constructor ()
      ensures fresh(queue)
      ensures queue.Valid() && queue.capacity == QueueEntryCount && queue.items == []
      ensures state == BleDisconnected && log == [] && runs == [] && sent == []
    {
      queue := new MsgQueue<QdecEvent>(QueueEntryCount);
      state := BleDisconnected;
      log, runs, sent := [], [], [];
    }

    /** `state_set`: setting the current state again only logs it; any other state
        becomes the current one and the transition is logged. */
    method StateSet(newState: BleState)
      modifies this`state, this`log
      ensures state == newState
      ensures old(state) == newState ==> log == old(log) + ["State: " + StateName(newState)]
      ensures old(state) != newState ==>
                log == old(log) + ["State transition " + StateName(old(state)) + " --> " + StateName(newState)]
    {
      if newState == state {
        log := log + ["State: " + StateName(state)];
        return;
      }
      log := log + ["State transition " + StateName(state) + " --> " + StateName(newState)];
      state := newState;
    }

    /** `app_event_handler`: a qdec event is copied into the mailbox; when that fails
        (the mailbox was full, and is purged) an error event carrying the error is
        sent. Other events change nothing. No event is consumed. */
    method AppEventHandler(input: BleInput) returns (consumed: bool)
      requires queue.Valid()
      modifies queue, this`sent
      ensures queue.Valid() && !consumed
      ensures input.OtherEvent? ==> queue.items == old(queue.items) && sent == old(sent)
      ensures input.FromQdec? && |old(queue.items)| < queue.capacity ==>
                queue.items == old(queue.items) + [input.e] && sent == old(sent)
      ensures input.FromQdec? && |old(queue.items)| == queue.capacity ==>
                queue.items == [] && sent == old(sent) + [BleError(-ENOMSG)]
    {
      consumed := false;
      if input.FromQdec? {
        var err := EnqueueMsg(queue, input.e);
        assert sent == old(sent);
        if err != 0 {
          sent := sent + [BleError(err)];
        }
      }
    }

    /** The start of `module_thread_fn`: a failure of `module_start` (its result is
        `startErr`) is reported as an error event; `setup` always succeeds. */
    method ThreadStart(startErr: int)
      modifies this`sent
      ensures sent == old(sent) + (if startErr != 0 then [BleError(startErr)] else [])
    {
      if startErr != 0 {
        sent := sent + [BleError(startErr)];
      }
    }

    /** One iteration of the thread's loop: the waiting get takes the next message and
        the handlers of `Dispatch` run on it; the state is left as it was. With an empty
        mailbox the thread stays `blocked` and nothing changes. */
    method LoopIteration() returns (blocked: bool)
      requires queue.Valid()
      modifies queue, this`runs
      ensures queue.Valid() && state == old(state)
      ensures blocked <==> old(queue.items) == []
      ensures blocked ==> queue.items == old(queue.items) && runs == old(runs)
      ensures !blocked ==> queue.items == old(queue.items)[1..]
                           && runs == old(runs) + Dispatch(state, old(queue.items)[0])
    {
      var n := queue.NumUsed();
      if n == 0 {
        return true;
      }
      var err, msg := GetNextMsg(queue, QdecEvent(Other(0), 0, 0.0, 0.0));
      match state {
        case BleDisconnected =>
          runs := runs + [OnDisconnected];
        case BleConnected =>
          runs := runs + [OnConnected];
        case BleShutdown =>
        case UnknownState(_) =>
      }
      runs := runs + [OnAllStates(msg.kind == DataSend)];
      blocked := false;
    }
  }

  /** What happens next to the module: the bus delivers an event to the handler, or the
      thread runs one iteration of its loop. */
  datatype BleStep = Deliver(input: BleInput) | Iterate

  /** The state never leaves DISCONNECTED: whatever interleaving of bus events and loop
      iterations runs after start-up, only the DISCONNECTED handler (and the common
      handler) ever runs. */
  method StaysDisconnected(steps: seq<BleStep>, startErr: int) returns (m: Ble)
    ensures m.state == BleDisconnected
    ensures forall i :: 0 <= i < |m.runs| ==> m.runs[i] != OnConnected
  {
    m := new Ble();
    m.ThreadStart(startErr);
    var i := 0;
    while i < |steps|
      invariant 0 <= i <= |steps| && m.queue.Valid()
      invariant m.state == BleDisconnected
      invariant forall j :: 0 <= j < |m.runs| ==> m.runs[j] != OnConnected
    {
      match steps[i] {
        case Deliver(input) =>
          var consumed := m.AppEventHandler(input);
        case Iterate =>
          var blocked := m.LoopIteration();
      }
      i := i + 1;
    }
  }
}
