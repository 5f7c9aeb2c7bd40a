/** The single-wheel quadrature decoder module (qdec/src/modules/qdec_module.c). Each
    decoder trigger adds the rotation it reads to an accumulator and toggles an LED; a
    periodic tick every 50 ms turns the accumulated rotation into a speed, empties the
    accumulator, filters the speed and publishes it (wheel B is not wired: its speed is
    always published as 0). */
module Qdec {
  import opened Common
  import Filter

  /** `dt`: the tick interval in seconds. */
  const Dt: real := 0.05

  /** `K_MSEC((int)(1000.0*dt))`: the tick period in milliseconds, the product truncated
      to an integer. */
  function TickPeriodMs(): (ms: int)
    ensures ms == 50
    ensures (ms as real) <= 1000.0 * Dt < (ms as real) + 1.0
  {
    (1000.0 * Dt).Floor
  }

  /** `trigger_a_handler` on the accumulator: a read error leaves it as it was; a
      reading is added to it. */
  function Accumulate(delta: real, r: SensorReading): (d: real)
    ensures r.Rotation? ==> d - delta == r.value
    ensures !r.Rotation? ==> d == delta
  {
    if r.Rotation? then delta + r.value else delta
  }

  /** The sum of the rotations a series of triggers read (read errors add nothing). */
  function ReadTotal(rs: seq<SensorReading>): real
  {
    if rs == [] then 0.0
    else ReadTotal(rs[..|rs| - 1]) + (if rs[|rs| - 1].Rotation? then rs[|rs| - 1].value else 0.0)
  }

  /** The accumulator after a series of triggers. */
  function AccumulateAll(delta: real, rs: seq<SensorReading>): real
  {
    if rs == [] then delta else Accumulate(AccumulateAll(delta, rs[..|rs| - 1]), rs[|rs| - 1])
  }

  /** No rotation is lost or counted twice between two ticks: the accumulator grows by
      exactly the sum of what the triggers read. */
  lemma {:induction false} AccumulateAllAddsReadTotal(delta: real, rs: seq<SensorReading>)
    ensures AccumulateAll(delta, rs) == delta + ReadTotal(rs)
  {
    if rs != [] {
      AccumulateAllAddsReadTotal(delta, rs[..|rs| - 1]);
    }
  }

  /** The number of triggers in `rs` that read a value. */
  function Successes(rs: seq<SensorReading>): nat
  {
    if rs == [] then 0
    else Successes(rs[..|rs| - 1]) + (if rs[|rs| - 1].Rotation? then 1 else 0)
  }

  /** `led_a_on` after a series of triggers: each successful one flips it. */
  function LedAfter(on: bool, rs: seq<SensorReading>): bool
  {
    if rs == [] then on
    else
      var before := LedAfter(on, rs[..|rs| - 1]);
      if rs[|rs| - 1].Rotation? then !before else before
  }

  /** The LED blinks with the trigger rate: it has flipped exactly when an odd number of
      triggers read successfully. */
  lemma {:induction false} LedParity(on: bool, rs: seq<SensorReading>)
    ensures LedAfter(on, rs) == (if Successes(rs) % 2 == 0 then on else !on)
  {
    if rs != [] {
      LedParity(on, rs[..|rs| - 1]);
    }
  }

  /** `data_evt_timeout_work_handler` on the speed: the accumulated rotation over `dt`
      is the instantaneous speed, and the filter moves the speed towards it. */
  function TickSpeed(alpha: real, speed: real, delta: real): (s: real)
    requires 0.0 <= alpha <= 1.0
    ensures s - delta / Dt == alpha * (speed - delta / Dt)
    ensures alpha == 0.0 ==> s == delta * 20.0
    ensures alpha == 1.0 ==> s == speed
  {
    Filter.MovingAvg(alpha, speed, delta / Dt)
  }

  /** `module_init`: -ENODEV without the decoder device, else the error of
      `sensor_trigger_set`, else 0 (`setup_led` always returns 0). */
  function ModuleInit(deviceFound: bool, trigSetErr: int): (err: int)
    ensures !deviceFound ==> err == -ENODEV
    ensures deviceFound ==> err == trigSetErr
  {
    if !deviceFound then -ENODEV
    else if trigSetErr != 0 then trigSetErr
    else 0
  }

  /** The module's statics (`qdec_a_rot_delta`, `qdec_a_rot_speed`, `led_a_on`), the
      level last written to LED A's pin, the tick timer and the published
      `QDEC_EVT_DATA_READY` events. */
  class QdecModule {
    const alpha: real
    var delta: real
    var speed: real
    var ledAOn: bool
    var ledAPin: bool
    var timer: Option<(int, int)>
    var ready: bool
    var published: seq<DataReady>

    constructor (alpha: real)
      requires 0.0 <= alpha <= 1.0
      ensures this.alpha == alpha && delta == 0.0 && speed == 0.0
      ensures !ledAOn && !ledAPin && timer == None && !ready && published == []
    {
      this.alpha := alpha;
      delta, speed := 0.0, 0.0;
      ledAOn, ledAPin := false, false;
      timer, ready, published := None, false, [];
    }

    /** `send_data_evt`: wheel A's speed, and 0 for wheel B. */
    method SendDataEvt()
      modifies this`published
      ensures published == old(published) + [DataReady(speed, 0.0)]
    {
      published := published + [DataReady(speed, 0.0)];
    }

    /** `trigger_a_handler`: a successful read adds to the accumulator, writes the
        current LED level to the pin and then flips it; an error changes nothing. */
    method TriggerAHandler(r: SensorReading)
      modifies this`delta, this`ledAOn, this`ledAPin
      ensures delta == Accumulate(old(delta), r)
      ensures r.Rotation? ==> ledAPin == old(ledAOn) && ledAOn == !old(ledAOn)
      ensures !r.Rotation? ==> ledAPin == old(ledAPin) && ledAOn == old(ledAOn)
    {
      if !r.Rotation? {
        return;
      }
      delta := delta + r.value;
      ledAPin := ledAOn;
      ledAOn := !ledAOn;
    }

    /** `data_evt_timeout_work_handler`: every tick empties the accumulator, updates the
        speed and publishes exactly one event. */
    method DataEvtTimeoutWork()
      requires 0.0 <= alpha <= 1.0
      modifies this`delta, this`speed, this`published
      ensures delta == 0.0
      ensures speed == TickSpeed(alpha, old(speed), old(delta))
      ensures published == old(published) + [DataReady(speed, 0.0)]
    {
      var current := delta / Dt;
      delta := 0.0;
      speed := Filter.MovingAvg(alpha, speed, current);
      SendDataEvt();
    }

    /** `app_event_handler`: on `main` READY a successful init writes LED A's level to
        its pin (the write of LED B's constant level is left out), starts the tick timer with no initial delay and a 50 ms period, and
        sets the module READY; a failed init does none of this. */
    method OnModuleState(source: ModuleId, state: ModuleState, deviceFound: bool, trigSetErr: int)
      returns (err: int)
      modifies this`ledAPin, this`timer, this`ready
      ensures !(source == MainModule && state == StateReady) ==>
                err == 0 && ledAPin == old(ledAPin) && timer == old(timer) && ready == old(ready)
      ensures source == MainModule && state == StateReady ==> err == ModuleInit(deviceFound, trigSetErr)
      ensures source == MainModule && state == StateReady && err == 0 ==>
                ledAPin == ledAOn && timer == Some((0, 50)) && ready
      ensures err != 0 ==> ledAPin == old(ledAPin) && timer == old(timer) && ready == old(ready)
    {
      err := 0;
      if source == MainModule && state == StateReady {
        err := ModuleInit(deviceFound, trigSetErr);
        if err != 0 {
          return;
        }
        ledAPin := ledAOn;
        timer := Some((0, TickPeriodMs()));
        ready := true;
      }
    }
  }
}
