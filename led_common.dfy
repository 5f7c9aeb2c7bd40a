/** What both LED modules share: the colour enumeration, the three configured blink
    lengths and `led_blink`, which the two variants of `led_module.c` define identically.
    The LED strip and the kernel's sleep are observed through the actions they receive:
    a blink is the list of `set_light_color` and `k_sleep` calls it makes, in order. */
module LedCommon {

  /** `led_color_t`. */
  datatype Color = Red | Green | Blue | Orange | Black

  /** `CONFIG_LED_MODULE_BLINK_DURATION_{SHORT,MEDIUM,LONG}_MSEC`. */
  datatype Durations = Durations(shortMs: int, mediumMs: int, longMs: int)

  /** One call the blinking code makes: `set_light_color(c)` or `k_sleep(K_MSEC(ms))`. */
  datatype LedAction = SetColor(c: Color) | Sleep(ms: int)

  /** `(int)(ms / 2.0)`: half the on-period, the C cast truncating towards zero. */
  function HalfPeriod(ms: int): (h: int)
    ensures 0 <= ms ==> 0 <= h && 2 * h <= ms <= 2 * h + 1
    ensures ms <= 0 ==> h <= 0 && 2 * h - 1 <= ms <= 2 * h
  {
    if ms >= 0 then ms / 2 else -((-ms) / 2)
  }

  /** `led_blink_once` and one round of `led_blink`'s loop: on in `color` for `ms`,
      then off (black) for half of that. */
  function BlinkOnce(ms: int, color: Color): (r: seq<LedAction>)
    ensures |r| == 4
  {
    [SetColor(color), Sleep(ms), SetColor(Black), Sleep(HalfPeriod(ms))]
  }

  /** `n` blinks in a row: the `i`-th action of the train is the `i % 4`-th action of a
      single blink. */
  function BlinkTrain(n: nat, ms: int, color: Color): (r: seq<LedAction>)
    ensures |r| == 4 * n
    ensures forall i :: 0 <= i < |r| ==> r[i] == BlinkOnce(ms, color)[i % 4]
  {
    if n == 0 then [] else BlinkTrain(n - 1, ms, color) + BlinkOnce(ms, color)
  }

  /** The number of rounds `led_blink`'s loop `for (i = 0; i < num_blinks; i++)` makes:
      none when `num_blinks` is zero or negative. */
  function Rounds(numBlinks: int): (k: nat)
    ensures numBlinks <= 0 ==> k == 0
    ensures 0 <= numBlinks ==> k == numBlinks
  {
    if numBlinks > 0 then numBlinks else 0
  }

  /** `led_blink`: the calls it makes are exactly `max(num_blinks, 0)` blinks of
      `color`, each followed by an off period half as long. */
  method LedBlink(numBlinks: int, ms: int, color: Color) returns (trace: seq<LedAction>)
    ensures trace == BlinkTrain(Rounds(numBlinks), ms, color)
  {
    trace := [];
    var i := 0;
    while i < numBlinks
      invariant 0 <= i <= Rounds(numBlinks)
      invariant trace == BlinkTrain(i, ms, color)
    {
      trace := trace + [SetColor(color), Sleep(ms), SetColor(Black), Sleep(HalfPeriod(ms))];
      i := i + 1;
    }
  }

  /** Two trains of the same blink are one longer train: playing `a` blinks and then
      `b` blinks cannot be told apart from playing `a + b` blinks. */
  lemma {:induction false} TrainsConcatenate(a: nat, b: nat, ms: int, color: Color)
    ensures BlinkTrain(a, ms, color) + BlinkTrain(b, ms, color) == BlinkTrain(a + b, ms, color)
    decreases b
  {
    if b > 0 {
      TrainsConcatenate(a, b - 1, ms, color);
    }
  }

  /** Between blinks the LED is dark: every colour a train sets other than `color`
      is black, and every train ends dark. */
  lemma TrainEndsDark(n: nat, ms: int, color: Color)
    requires n > 0
    ensures BlinkTrain(n, ms, color)[4 * n - 2] == SetColor(Black)
    ensures forall i :: 0 <= i < 4 * n && BlinkTrain(n, ms, color)[i].SetColor? ==>
              BlinkTrain(n, ms, color)[i].c in {color, Black}
  {
  }
}
