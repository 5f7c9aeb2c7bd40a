/** The trigger-driven encoder module (project/src/modules/encoder_module.c). Each wheel's
    quadrature decoder fires a data-ready trigger; the handler reads the wheel angle,
    measures the time since the previous trigger, discards samples that come too soon,
    and otherwise turns the angle change into a filtered speed and publishes both
    wheels' speeds. A per-wheel one-shot timer zeroes a wheel's speed when it has not
    produced an accepted sample for a while. */
module EncoderTrigger {
  import opened Common
  import Filter

  /** The build-time configuration: `alpha` is
      `CONFIG_ENCODER_VELOCITY_LOW_PASS_FILTER_COEFFICIENT / 1000`, `minDeltaMs` is
      `CONFIG_ENCODER_MINIMUM_DELTA_TIME_MSEC`, `timeoutMs` is
      `CONFIG_ENCODER_TIMEOUT_DURATION_MSEC`. */
  datatype Config = Config(alpha: real, minDeltaMs: int, timeoutMs: nat)

  /** A usable configuration: a coefficient in 0..1000 and a positive minimum interval
      (so an accepted sample never divides by a zero interval). */
  predicate ValidConfig(cfg: Config)
  {
    0.0 <= cfg.alpha <= 1.0 && cfg.minDeltaMs > 0
  }

  /** The statics of one wheel: the last accepted angle (`rot_a`), the filtered speed
      (`encoder_a_rot_speed`), the `k_uptime_delta` time reference
      (`encoder_a_delta_time`) and the expiry time of the idle timer, if running. */
  datatype Wheel = Wheel(rot: real, speed: real, timeRef: int, deadline: Option<int>)

  /** The wheel after one trigger, and whether the trigger published an event. */
  datatype WheelStep = WheelStep(wheel: Wheel, published: bool)

  /** `trigger_a_handler` / `trigger_b_handler` on one wheel at uptime `now` (ms).
      A read error changes nothing. A reading advances the time reference to `now`
      whether or not it is accepted; it is accepted when at least `minDeltaMs` passed
      since the previous reference, and then the angle is stored, the speed moves
      towards the instantaneous speed by the filter, the idle timer is restarted and
      an event is published. */
  function TriggerWheel(cfg: Config, w: Wheel, r: SensorReading, now: int): (s: WheelStep)
    requires ValidConfig(cfg)
    ensures !r.Rotation? ==> s == WheelStep(w, false)
    ensures r.Rotation? ==> s.wheel.timeRef == now
    ensures s.published <==> r.Rotation? && now - w.timeRef >= cfg.minDeltaMs
    ensures !s.published ==>
              s.wheel.rot == w.rot && s.wheel.speed == w.speed && s.wheel.deadline == w.deadline
    ensures s.published ==>
              var inst := InstantSpeed(w.rot, r.value, now - w.timeRef);
              && s.wheel.rot == r.value
              && s.wheel.deadline == Some(now + cfg.timeoutMs)
              && s.wheel.speed - inst == cfg.alpha * (w.speed - inst)
  {
    match r
    case FetchFailed(_) => WheelStep(w, false)
    case ChannelFailed(_) => WheelStep(w, false)
    case Rotation(angle) =>
      var dt := now - w.timeRef;
      if dt < cfg.minDeltaMs then
        WheelStep(w.(timeRef := now), false)
      else
        var speed := Filter.MovingAvg(cfg.alpha, w.speed, InstantSpeed(w.rot, angle, dt));
        WheelStep(Wheel(angle, speed, now, Some(now + cfg.timeoutMs)), true)
  }

  /** `(new_rot - rot) * 1000.0 / delta_time`: angle units per second. */
  function InstantSpeed(rot: real, angle: real, dtMs: int): real
    requires dtMs > 0
  {
    (angle - rot) * 1000.0 / (dtMs as real)
  }

  /** `encoder_a_timeout_work_handler`: the speed drops to zero and the time reference
      is advanced to `now`; the angle is kept. */
  function TimeoutWheel(w: Wheel, now: int): (w': Wheel)
    ensures w'.speed == 0.0 && w'.timeRef == now
    ensures w'.rot == w.rot && w'.deadline == w.deadline
  {
    w.(speed := 0.0, timeRef := now)
  }

  /** The idle timer at uptime `now`: a running timer whose expiry has passed stops
      (it is one-shot) and its work item zeroes the wheel; otherwise nothing happens. */
  function ExpireWheel(w: Wheel, now: int): (s: WheelStep)
    ensures s.published <==> w.deadline.Some? && w.deadline.value <= now
    ensures s.published ==> s.wheel == TimeoutWheel(w, now).(deadline := None)
    ensures !s.published ==> s.wheel == w
  {
    if w.deadline.Some? && w.deadline.value <= now then
      WheelStep(TimeoutWheel(w, now).(deadline := None), true)
    else
      WheelStep(w, false)
  }

  /** A trigger together with the uptime at which it fires. */
  datatype Sample = Sample(reading: SensorReading, now: int)

  /** The wheel after a series of triggers, and how many of them published. */
  datatype FeedResult = FeedResult(wheel: Wheel, published: nat)

  /** Feeding the triggers `samples` to one wheel in order. */
  function Feed(cfg: Config, w: Wheel, samples: seq<Sample>): FeedResult
    requires ValidConfig(cfg)
    decreases |samples|
  {
    if samples == [] then FeedResult(w, 0)
    else
      var s := TriggerWheel(cfg, w, samples[0].reading, samples[0].now);
      var rest := Feed(cfg, s.wheel, samples[1..]);
      FeedResult(rest.wheel, rest.published + if s.published then 1 else 0)
  }

  /** Whether every trigger in `samples` reads an angle and comes less than the minimum
      interval after the one before it (the first: after the reference `t0`). */
  predicate TooFast(cfg: Config, t0: int, samples: seq<Sample>)
  {
    && (forall i :: 0 <= i < |samples| ==> samples[i].reading.Rotation?)
    && (|samples| > 0 ==> samples[0].now - t0 < cfg.minDeltaMs)
    && (forall i :: 0 < i < |samples| ==> samples[i].now - samples[i - 1].now < cfg.minDeltaMs)
  }

  /** Debounce starvation: because a discarded sample still advances the time reference,
      a wheel whose triggers keep arriving faster than the minimum interval never
      publishes and its speed and angle stay frozen, however long it turns. */
  lemma {:induction false} FastTriggersNeverPublish(cfg: Config, w: Wheel, samples: seq<Sample>)
    requires ValidConfig(cfg)
    requires TooFast(cfg, w.timeRef, samples)
    ensures Feed(cfg, w, samples).published == 0
    ensures Feed(cfg, w, samples).wheel.speed == w.speed
    ensures Feed(cfg, w, samples).wheel.rot == w.rot
    decreases |samples|
  {
    if samples != [] {
      assert samples[0].reading.Rotation? && samples[0].now - w.timeRef < cfg.minDeltaMs;
      var s := TriggerWheel(cfg, w, samples[0].reading, samples[0].now);
      assert !s.published && s.wheel.timeRef == samples[0].now;
      assert TooFast(cfg, s.wheel.timeRef, samples[1..]) by {
        forall i | 0 < i < |samples[1..]|
          ensures samples[1..][i].now - samples[1..][i - 1].now < cfg.minDeltaMs
        {
          assert samples[1..][i] == samples[i + 1] && samples[1..][i - 1] == samples[i];
        }
        if |samples| > 1 {
          assert samples[1].now - samples[0].now < cfg.minDeltaMs;
        }
      }
      FastTriggersNeverPublish(cfg, s.wheel, samples[1..]);
    }
  }

  /** Read errors are invisible: a series of triggers that all fail to read leaves the
      wheel exactly as it was and publishes nothing. */
  lemma {:induction false} FailedReadsChangeNothing(cfg: Config, w: Wheel, samples: seq<Sample>)
    requires ValidConfig(cfg)
    requires forall i :: 0 <= i < |samples| ==> !samples[i].reading.Rotation?
    ensures Feed(cfg, w, samples) == FeedResult(w, 0)
    decreases |samples|
  {
    if samples != [] {
      FailedReadsChangeNothing(cfg, w, samples[1..]);
    }
  }

  /** The number of triggers in `samples` that are accepted: those that read an angle at
      least the minimum interval after the previous reading (the first: after the
      reference `t0`). Every reading, accepted or not, is the reference for the next one;
      a failed read is not. */
  function Accepted(cfg: Config, t0: int, samples: seq<Sample>): (k: nat)
    ensures k <= |samples|
    decreases |samples|
  {
    if samples == [] then 0
    else if !samples[0].reading.Rotation? then Accepted(cfg, t0, samples[1..])
    else (if samples[0].now - t0 >= cfg.minDeltaMs then 1 else 0) + Accepted(cfg, samples[0].now, samples[1..])
  }

  /** Every accepted trigger publishes exactly one event and no other trigger publishes:
      the count of events is the count of accepted triggers, so it never exceeds the
      number of triggers. */
  lemma {:induction false} PublishedCountsAccepted(cfg: Config, w: Wheel, samples: seq<Sample>)
    requires ValidConfig(cfg)
    ensures Feed(cfg, w, samples).published == Accepted(cfg, w.timeRef, samples)
    ensures Feed(cfg, w, samples).published <= |samples|
    decreases |samples|
  {
    if samples != [] {
      var s := TriggerWheel(cfg, w, samples[0].reading, samples[0].now);
      PublishedCountsAccepted(cfg, s.wheel, samples[1..]);
    }
  }

  /** A wheel turning at a steady rate: every trigger reads an angle `step` further on
      exactly `gapMs` after the previous one. Each accepted sample then sees the same
      instantaneous speed, and the filtered speed approaches it geometrically. */
  lemma SteadyTurningConverges(cfg: Config, w: Wheel, gapMs: int, step: real, n: nat)
    requires ValidConfig(cfg) && gapMs >= cfg.minDeltaMs
    ensures Steady(cfg, w, gapMs, step, n).speed - InstantSpeed(0.0, step, gapMs)
            == Filter.Pow(cfg.alpha, n) * (w.speed - InstantSpeed(0.0, step, gapMs))
  {
    var v := InstantSpeed(0.0, step, gapMs);
    SteadySpeed(cfg, w, gapMs, step, n);
    Filter.ConstantInputDeviation(cfg.alpha, w.speed, Filter.Repeat(v, n), v);
  }

  /** The speed after `n` steady triggers is the filter fed `n` samples equal to the
      steady rate. */
  lemma {:induction false} SteadySpeed(cfg: Config, w: Wheel, gapMs: int, step: real, n: nat)
    requires ValidConfig(cfg) && gapMs >= cfg.minDeltaMs
    ensures Steady(cfg, w, gapMs, step, n).speed
            == Filter.Run(cfg.alpha, w.speed, Filter.Repeat(InstantSpeed(0.0, step, gapMs), n))
  {
    if n > 0 {
      var v := InstantSpeed(0.0, step, gapMs);
      SteadySpeed(cfg, w, gapMs, step, n - 1);
      SteadyUnfold(cfg, w, gapMs, step, n);
      Filter.RunSnoc(cfg.alpha, w.speed, Filter.Repeat(v, n - 1), v);
      assert Filter.Repeat(v, n - 1) + [v] == Filter.Repeat(v, n);
    }
  }

  /** Steady turning advances the angle by `step` and the time reference by `gapMs`
      per trigger. */
  lemma {:induction false} SteadyTurningPosition(cfg: Config, w: Wheel, gapMs: int, step: real, n: nat)
    requires ValidConfig(cfg) && gapMs >= cfg.minDeltaMs
    ensures Steady(cfg, w, gapMs, step, n).rot == w.rot + (n as real) * step
    ensures Steady(cfg, w, gapMs, step, n).timeRef == w.timeRef + n * gapMs
    decreases n
  {
    if n > 0 {
      SteadyTurningPosition(cfg, w, gapMs, step, n - 1);
      SteadyUnfold(cfg, w, gapMs, step, n);
      assert w.timeRef + (n - 1) * gapMs + gapMs == w.timeRef + n * gapMs;
      assert w.rot + ((n - 1) as real) * step + step == w.rot + (n as real) * step;
    }
  }

  /** One more steady trigger is accepted and moves the speed towards the steady rate. */
  lemma SteadyUnfold(cfg: Config, w: Wheel, gapMs: int, step: real, n: nat)
    requires ValidConfig(cfg) && gapMs >= cfg.minDeltaMs && n > 0
    ensures var v := InstantSpeed(0.0, step, gapMs);
            var w1 := Steady(cfg, w, gapMs, step, n - 1);
            var w2 := Steady(cfg, w, gapMs, step, n);
            && w2.speed == Filter.MovingAvg(cfg.alpha, w1.speed, v)
            && w2.rot == w1.rot + step
            && w2.timeRef == w1.timeRef + gapMs
  {
    var w1 := Steady(cfg, w, gapMs, step, n - 1);
    assert InstantSpeed(w1.rot, w1.rot + step, gapMs) == InstantSpeed(0.0, step, gapMs);
  }

  /** The wheel after `n` steady triggers, each `gapMs` after the previous one and `step`
      further on. */
  function Steady(cfg: Config, w: Wheel, gapMs: int, step: real, n: nat): Wheel
    requires ValidConfig(cfg)
  {
    if n == 0 then w
    else
      var w1 := Steady(cfg, w, gapMs, step, n - 1);
      TriggerWheel(cfg, w1, Rotation(w1.rot + step), w1.timeRef + gapMs).wheel
  }

  /** `module_init`: fails with -ENODEV when either decoder device is missing, else with
      the error of the first `sensor_trigger_set` that fails (A before B); a failure on
      B leaves A's handler installed. */
  datatype InitResult = InitResult(err: int, handlerASet: bool, handlerBSet: bool)

  function ModuleInit(devicesFound: bool, trigSetErrA: int, trigSetErrB: int): (r: InitResult)
    ensures !devicesFound ==> r == InitResult(-ENODEV, false, false)
    ensures devicesFound ==> r.handlerASet == (trigSetErrA == 0)
    ensures r.handlerBSet <==> devicesFound && trigSetErrA == 0 && trigSetErrB == 0
    ensures r.err == 0 <==> r.handlerASet && r.handlerBSet
    ensures devicesFound && trigSetErrA != 0 ==> r.err == trigSetErrA
    ensures devicesFound && trigSetErrA == 0 && trigSetErrB != 0 ==> r.err == trigSetErrB
  {
    if !devicesFound then InitResult(-ENODEV, false, false)
    else if trigSetErrA != 0 then InitResult(trigSetErrA, false, false)
    else if trigSetErrB != 0 then InitResult(trigSetErrB, true, false)
    else InitResult(0, true, true)
  }

  /** The module's statics and what it has published (`ENCODER_EVT_DATA_READY` events,
      oldest first). */
  class EncoderModule {
    const cfg: Config
    var a: Wheel
    var b: Wheel
    var published: seq<DataReady>
    var handlerASet: bool
    var handlerBSet: bool
    var ready: bool

    /** The zero-initialised statics before any event. */
    constructor (cfg: Config)
      requires ValidConfig(cfg)
      ensures this.cfg == cfg && ready == false && published == []
      ensures a == Wheel(0.0, 0.0, 0, None) && b == a
      ensures !handlerASet && !handlerBSet
    {
      this.cfg := cfg;
      a := Wheel(0.0, 0.0, 0, None);
      b := Wheel(0.0, 0.0, 0, None);
      published := [];
      handlerASet, handlerBSet, ready := false, false, false;
    }

    /** `send_data_evt`: one event carrying both wheels' current speeds. */
    method SendDataEvt()
      modifies this`published
      ensures published == old(published) + [DataReady(a.speed, b.speed)]
    {
      published := published + [DataReady(a.speed, b.speed)];
    }

    /** `trigger_a_handler`: only wheel A's state changes; an accepted sample publishes
        one event with A's new speed and B's current one. */
    method TriggerAHandler(r: SensorReading, now: int)
      requires ValidConfig(cfg)
      modifies this`a, this`published
      ensures var s := TriggerWheel(cfg, old(a), r, now);
              && a == s.wheel
              && published == old(published) + (if s.published then [DataReady(a.speed, b.speed)] else [])
    {
      var s := TriggerWheel(cfg, a, r, now);
      a := s.wheel;
      if s.published {
        SendDataEvt();
      }
    }

    /** `trigger_b_handler`: the mirror image for wheel B. */
    method TriggerBHandler(r: SensorReading, now: int)
      requires ValidConfig(cfg)
      modifies this`b, this`published
      ensures var s := TriggerWheel(cfg, old(b), r, now);
              && b == s.wheel
              && published == old(published) + (if s.published then [DataReady(a.speed, b.speed)] else [])
    {
      var s := TriggerWheel(cfg, b, r, now);
      b := s.wheel;
      if s.published {
        SendDataEvt();
      }
    }

    /** `encoder_a_timeout_work_handler`: A's speed becomes 0 and one event is published
        carrying 0 for A and B's untouched speed. */
    method TimeoutAWork(now: int)
      modifies this`a, this`published
      ensures a == TimeoutWheel(old(a), now)
      ensures published == old(published) + [DataReady(0.0, b.speed)]
    {
      a := TimeoutWheel(a, now);
      SendDataEvt();
    }

    /** `encoder_b_timeout_work_handler`. */
    method TimeoutBWork(now: int)
      modifies this`b, this`published
      ensures b == TimeoutWheel(old(b), now)
      ensures published == old(published) + [DataReady(a.speed, 0.0)]
    {
      b := TimeoutWheel(b, now);
      SendDataEvt();
    }

    /** Wheel A's one-shot idle timer at uptime `now`: once past its expiry it stops and
        its work item runs. */
    method TimerATick(now: int)
      modifies this`a, this`published
      ensures var s := ExpireWheel(old(a), now);
              && a == s.wheel
              && published == old(published) + (if s.published then [DataReady(0.0, b.speed)] else [])
    {
      if a.deadline.Some? && a.deadline.value <= now {
        a := a.(deadline := None);
        TimeoutAWork(now);
      }
    }

    /** Wheel B's one-shot idle timer. */
    method TimerBTick(now: int)
      modifies this`b, this`published
      ensures var s := ExpireWheel(old(b), now);
              && b == s.wheel
              && published == old(published) + (if s.published then [DataReady(a.speed, 0.0)] else [])
    {
      if b.deadline.Some? && b.deadline.value <= now {
        b := b.(deadline := None);
        TimeoutBWork(now);
      }
    }

    /** `app_event_handler` on a module state event. Only `main` becoming READY acts:
        the decoders are initialised; on success both time references are set to the
        same current time and the module becomes READY; on failure neither happens.
        Nothing is ever published here. */
    method OnModuleState(source: ModuleId, state: ModuleState, now: int,
                         devicesFound: bool, trigSetErrA: int, trigSetErrB: int)
      modifies this
      ensures published == old(published)
      ensures a.rot == old(a.rot) && a.speed == old(a.speed) && a.deadline == old(a.deadline)
      ensures b.rot == old(b.rot) && b.speed == old(b.speed) && b.deadline == old(b.deadline)
      ensures !(source == MainModule && state == StateReady) ==>
                a == old(a) && b == old(b) && ready == old(ready)
                && handlerASet == old(handlerASet) && handlerBSet == old(handlerBSet)
      ensures source == MainModule && state == StateReady ==>
                var init := ModuleInit(devicesFound, trigSetErrA, trigSetErrB);
                && handlerASet == (old(handlerASet) || init.handlerASet)
                && handlerBSet == (old(handlerBSet) || init.handlerBSet)
                && (init.err == 0 ==> ready && a.timeRef == now && b.timeRef == now)
                && (init.err != 0 ==> ready == old(ready) && a == old(a) && b == old(b))
    {
      if source == MainModule && state == StateReady {
        var init := ModuleInit(devicesFound, trigSetErrA, trigSetErrB);
        handlerASet := handlerASet || init.handlerASet;
        handlerBSet := handlerBSet || init.handlerBSet;
        if init.err != 0 {
          return;
        }
        a := a.(timeRef := now);
        b := b.(timeRef := now);
        ready := true;
      }
    }
  }
}
