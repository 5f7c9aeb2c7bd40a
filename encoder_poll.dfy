/** The polling encoder module (src/modules/encoder_module.c). A periodic timer
    fires every `DT_MSEC` ms; its work item fetches both decoders, reads each wheel's
    rotation since the previous fetch, converts it to a speed, filters it and publishes
    both wheels' speeds. Any driver error ends the tick early. */
module EncoderPoll {
  import opened Common
  import Filter

  /** What `sensor_channel_get` gives for one wheel: an error, or the rotation since
      the last fetch. */
  datatype ChannelRead = ChannelErr(err: int) | Delta(rotation: real)

  /** What the drivers report during one tick: the two `sensor_sample_fetch` results
      (0 on success) and the two channel reads. */
  datatype PollReadings = PollReadings(fetchA: int, fetchB: int, chanA: ChannelRead, chanB: ChannelRead)

  /** The two filtered speeds after a tick, and whether the tick published them. */
  datatype TickOutcome = TickOutcome(speedA: real, speedB: real, published: bool)

  /** The filter update of one wheel: the new speed moves from `speed` towards the
      instantaneous speed `rotation / dt`, `dt` being `DT_MSEC / 1000` seconds. */
  function WheelUpdate(alpha: real, dtMs: nat, speed: real, rotation: real): (s: real)
    requires 0.0 <= alpha <= 1.0 && dtMs > 0
    ensures var inst := rotation / (dtMs as real / 1000.0);
            && s - inst == alpha * (speed - inst)
            && (speed <= inst ==> speed <= s <= inst)
            && (inst <= speed ==> inst <= s <= speed)
  {
    var inst := rotation / (dtMs as real / 1000.0);
    Filter.MovingAvgBetween(alpha, speed, inst);
    Filter.MovingAvg(alpha, speed, inst)
  }

  /** `data_evt_timeout_work_handler`. The steps run in the order fetch A, fetch B,
      read A, update A, read B, update B, publish; the first error returns. So a fetch
      error or a read error on A changes nothing, a read error on B leaves A updated and
      B not, and an event is published exactly when all four driver calls succeed. */
  function PollTick(alpha: real, dtMs: nat, speedA: real, speedB: real, r: PollReadings): (o: TickOutcome)
    requires 0.0 <= alpha <= 1.0 && dtMs > 0
    ensures o.published <==> r.fetchA == 0 && r.fetchB == 0 && r.chanA.Delta? && r.chanB.Delta?
    ensures r.fetchA != 0 || r.fetchB != 0 || r.chanA.ChannelErr? ==>
              o == TickOutcome(speedA, speedB, false)
    ensures r.fetchA == 0 && r.fetchB == 0 && r.chanA.Delta? ==>
              o.speedA == WheelUpdate(alpha, dtMs, speedA, r.chanA.rotation)
    ensures r.chanB.ChannelErr? ==> o.speedB == speedB
    ensures o.published ==> o.speedB == WheelUpdate(alpha, dtMs, speedB, r.chanB.rotation)
  {
    if r.fetchA != 0 then TickOutcome(speedA, speedB, false)
    else if r.fetchB != 0 then TickOutcome(speedA, speedB, false)
    else match r.chanA
      case ChannelErr(_) => TickOutcome(speedA, speedB, false)
      case Delta(ra) =>
        var a := WheelUpdate(alpha, dtMs, speedA, ra);
        match r.chanB
        case ChannelErr(_) => TickOutcome(a, speedB, false)
        case Delta(rb) => TickOutcome(a, WheelUpdate(alpha, dtMs, speedB, rb), true)
  }

  /** The partial update: a tick whose read of B fails, followed by a tick that succeeds
      with the same rotations, filters A's sample twice but B's once, so the first event
      after the error reports wheel A further along than wheel B. */
  lemma PartialUpdateFiltersATwice(alpha: real, dtMs: nat, speedA: real, speedB: real,
                                   ra: real, rb: real, err: int)
    requires 0.0 <= alpha <= 1.0 && dtMs > 0
    ensures var first := PollTick(alpha, dtMs, speedA, speedB, PollReadings(0, 0, Delta(ra), ChannelErr(err)));
            var second := PollTick(alpha, dtMs, first.speedA, first.speedB, PollReadings(0, 0, Delta(ra), Delta(rb)));
            && !first.published && second.published
            && second.speedA == WheelUpdate(alpha, dtMs, WheelUpdate(alpha, dtMs, speedA, ra), ra)
            && second.speedB == WheelUpdate(alpha, dtMs, speedB, rb)
  {
  }

  /** The ticks of a run, in order. */
  function PollRun(alpha: real, dtMs: nat, speedA: real, speedB: real, ticks: seq<PollReadings>): (o: TickOutcome)
    requires 0.0 <= alpha <= 1.0 && dtMs > 0
    decreases |ticks|
  {
    if ticks == [] then TickOutcome(speedA, speedB, false)
    else
      var t := PollTick(alpha, dtMs, speedA, speedB, ticks[0]);
      if |ticks| == 1 then t else PollRun(alpha, dtMs, t.speedA, t.speedB, ticks[1..])
  }

  /** A wheel that keeps still keeps its speed between zero and where it started: the
      filtered speed of a wheel whose every read rotation is 0 never grows in magnitude. */
  lemma {:induction false} StillWheelSlowsDown(alpha: real, dtMs: nat, speedA: real, speedB: real,
                                               ticks: seq<PollReadings>)
    requires 0.0 <= alpha <= 1.0 && dtMs > 0
    requires forall i :: 0 <= i < |ticks| ==> (ticks[i].chanA.Delta? ==> ticks[i].chanA.rotation == 0.0)
    ensures var o := PollRun(alpha, dtMs, speedA, speedB, ticks);
            (0.0 <= speedA ==> 0.0 <= o.speedA <= speedA) && (speedA <= 0.0 ==> speedA <= o.speedA <= 0.0)
    decreases |ticks|
  {
    if ticks != [] {
      var t := PollTick(alpha, dtMs, speedA, speedB, ticks[0]);
      assert (0.0 <= speedA ==> 0.0 <= t.speedA <= speedA) && (speedA <= 0.0 ==> speedA <= t.speedA <= 0.0);
      if |ticks| > 1 {
        StillWheelSlowsDown(alpha, dtMs, t.speedA, t.speedB, ticks[1..]);
      }
    }
  }

  /** `module_init`: the devices must both be bound, else -ENODEV and no timer. */
  function ModuleInit(devicesFound: bool): (err: int)
    ensures err == 0 || err == -ENODEV
    ensures err == 0 <==> devicesFound
  {
    if devicesFound then 0 else -ENODEV
  }

  /** The module's statics: the filtered speeds, the poll timer (its period once
      started) and the published `ENCODER_EVT_DATA_READY` events, oldest first. */
  class EncoderPollModule {
    const alpha: real
    const dtMs: nat
    var speedA: real
    var speedB: real
    var timerPeriodMs: Option<nat>
    var ready: bool
    var published: seq<DataReady>

    constructor (alpha: real, dtMs: nat)
      requires 0.0 <= alpha <= 1.0 && dtMs > 0
      ensures this.alpha == alpha && this.dtMs == dtMs
      ensures speedA == 0.0 && speedB == 0.0 && timerPeriodMs == None && !ready && published == []
    {
      this.alpha, this.dtMs := alpha, dtMs;
      speedA, speedB := 0.0, 0.0;
      timerPeriodMs, ready, published := None, false, [];
    }

    /** `send_data_evt`. */
    method SendDataEvt()
      modifies this`published
      ensures published == old(published) + [DataReady(speedA, speedB)]
    {
      published := published + [DataReady(speedA, speedB)];
    }

    /** One expiry of the poll timer: the work handler's early returns and its single
        event, which carries both freshly updated speeds. */
    method DataEvtTimeoutWork(r: PollReadings)
      requires 0.0 <= alpha <= 1.0 && dtMs > 0
      modifies this`speedA, this`speedB, this`published
      ensures var o := PollTick(alpha, dtMs, old(speedA), old(speedB), r);
              && speedA == o.speedA && speedB == o.speedB
              && published == old(published) + (if o.published then [DataReady(o.speedA, o.speedB)] else [])
    {
      if r.fetchA != 0 {
        return;
      }
      if r.fetchB != 0 {
        return;
      }
      if r.chanA.ChannelErr? {
        return;
      }
      speedA := WheelUpdate(alpha, dtMs, speedA, r.chanA.rotation);
      if r.chanB.ChannelErr? {
        return;
      }
      speedB := WheelUpdate(alpha, dtMs, speedB, r.chanB.rotation);
      SendDataEvt();
    }

    /** `app_event_handler`: on `main` READY, a successful init starts the timer with no
        initial delay and a `DT_MSEC` period and sets the module READY; a failed init
        does neither. Other module state events change nothing. */
    method OnModuleState(source: ModuleId, state: ModuleState, devicesFound: bool) returns (err: int)
      modifies this`timerPeriodMs, this`ready
      ensures !(source == MainModule && state == StateReady) ==>
                err == 0 && timerPeriodMs == old(timerPeriodMs) && ready == old(ready)
      ensures source == MainModule && state == StateReady ==>
                err == ModuleInit(devicesFound)
                && (devicesFound ==> timerPeriodMs == Some(dtMs) && ready)
                && (!devicesFound ==> timerPeriodMs == old(timerPeriodMs) && ready == old(ready))
    {
      err := 0;
      if source == MainModule && state == StateReady {
        err := ModuleInit(devicesFound);
        if err != 0 {
          return;
        }
        timerPeriodMs := Some(dtMs);
        ready := true;
      }
    }
  }
}
