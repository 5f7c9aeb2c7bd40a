# Wheelchair ergometer controller — a Dafny model of its core

The controller is a Zephyr application. Its sampling modules read the quadrature decoders
on the two wheels of a wheelchair ergometer. They turn the rotation into filtered wheel
speeds and publish them on the application event bus. The HID module forwards the
speeds to the connected Bluetooth HID host. Two LED modules show the Bluetooth state as
blink patterns. Every module with a thread owns a mailbox: a kernel message queue of
fixed capacity, which it fills from its event handler and drains in its thread.

This project models that core in Dafny:

- `Common` (`common.dfy`): the shared event payloads, error numbers and value types.
- `Filter` (`filter.dfy`): the exponential moving-average filter every sampling module
  applies. The C sources define it three times, identically.
- `ModulesCommon` (`modules_common.dfy`): the mailbox and the enqueue, dequeue and purge
  helpers of `project/src/modules/modules_common.c`.
- `EncoderTrigger` (`encoder_trigger.dfy`): the trigger-driven two-wheel encoder module
  with debounce and idle timeout (`project/src/modules/encoder_module.c`).
- `EncoderPoll` (`encoder_poll.dfy`): the timer-polled two-wheel encoder module
  (`src/modules/encoder_module.c`).
- `Qdec` (`qdec.dfy`): the single-wheel accumulate-and-tick decoder module
  (`qdec/src/modules/qdec_module.c`).
- `QdecEvents` (`qdec_module_event.dfy`): the qdec event's names and its log line.
- `BleModule` (`ble_module.dfy`): the BLE module's state machine skeleton.
- `HidModule` (`hid_module.dfy`): the HID connection record and report sending.
- `LedCommon`, `PreemptiveLed`, `FifoLed` (`led_common.dfy`, `led_module.dfy`,
  `project_led_module.dfy`): the blink code shared by both LED modules, the variant
  whose background pattern is preempted, and the variant that plays every pattern to the
  end in arrival order.
- `HidJoystick` (`hid_joystick.dfy`): the standalone HID joystick demo's connection-slot
  table, button handling, report fan-out and battery simulation.

Code that changes state step by step is modelled as classes whose fields are the C
statics and whose methods are the handlers, proved against pure functions. The pure
functions carry the properties as lemmas: filter convergence, debounce starvation, the
one-host invariant of the HID record, FIFO delivery, and the LED lock-up.

## Model

| member | source | states |
|---|---|---|
| Filter.MovingAvg | project/src/modules/encoder_module.c:74-77 | the new output differs from the new sample by exactly alpha times the previous output's difference from it |
| Filter.MovingAvgBetween | project/src/modules/encoder_module.c:74-77 | for alpha in [0,1] the new output lies between the previous output and the new sample |
| Filter.AlphaZeroPassesSample | project/src/modules/encoder_module.c:74-77 | alpha = 0 passes the sample through unfiltered |
| Filter.AlphaOneHoldsOutput | project/src/modules/encoder_module.c:74-77 | alpha = 1 keeps the previous output |
| Filter.ConstantIsFixedPoint | project/src/modules/encoder_module.c:74-77 | a sample equal to the output leaves the output unchanged |
| Filter.AlphaOneNeverChanges | project/src/modules/encoder_module.c:74-77 | with alpha = 1 no series of samples ever moves the output |
| Filter.AlphaZeroTracksLatest | project/src/modules/encoder_module.c:74-77 | with alpha = 0 the output after a series of samples is the last sample |
| Filter.RunSnoc | project/src/modules/encoder_module.c:74-77 | feeding one more sample applies the filter once more to the output so far |
| Filter.ConstantInputDeviation | project/src/modules/encoder_module.c:74-77 | n identical samples x shrink the output's deviation from x by the factor alpha^n |
| Filter.ConstantInputConverges | project/src/modules/encoder_module.c:74-77 | after n identical samples x the deviation from x is at most the initial deviation divided by 1 + n(1 - alpha), so it converges to x when alpha < 1 |
| ModulesCommon.MsgQueue.constructor | project/src/modules/ble_module.c:36-37 | a new mailbox is empty and has the given capacity |
| ModulesCommon.MsgQueue.Put | project/src/modules/modules_common.c:98 | a put appends at the tail when there is room; on a full queue it fails with -ENOMSG without a wait or -EAGAIN after one, and the queue is unchanged |
| ModulesCommon.MsgQueue.Get | project/src/modules/modules_common.c:65 | a get removes and returns the oldest message; an empty queue gives -ENOMSG and leaves the caller's buffer as it was |
| ModulesCommon.MsgQueue.Purge | project/src/modules/modules_common.c:32 | a purge empties the queue |
| ModulesCommon.PurgeQueue | project/src/modules/modules_common.c:30-33 | the mailbox is empty afterwards |
| ModulesCommon.GetNextMsg | project/src/modules/modules_common.c:35-60 | the blocking get succeeds and returns the head, leaving the rest in order |
| ModulesCommon.GetNextMsgNoWait | project/src/modules/modules_common.c:63-92 | an empty mailbox gives -ENOMSG and removes nothing; otherwise the head is returned and removed |
| ModulesCommon.EnqueueMsgWithDelay | project/src/modules/modules_common.c:94-134 | a successful put appends the message; a failed put empties the whole mailbox and returns the put's error; the capacity is never exceeded |
| ModulesCommon.EnqueueMsg | project/src/modules/modules_common.c:136-139 | as the delayed enqueue with no wait: append, or purge and -ENOMSG when full |
| ModulesCommon.EnqueueAll | project/src/modules/modules_common.c:94-139 | a burst that fits into an empty mailbox is queued whole and in order |
| ModulesCommon.DrainAll | project/src/modules/modules_common.c:35-60 | repeated blocking gets return exactly the queued messages, oldest first, and leave the mailbox empty |
| ModulesCommon.DeliversInEnqueueOrder | project/src/modules/modules_common.c:35-60 | what is enqueued is delivered in the same order: FIFO |
| EncoderTrigger.TriggerWheel | project/src/modules/encoder_module.c:79-108 | a read error changes nothing; a reading always advances the time reference; it publishes exactly when at least the minimum interval has passed, and then stores the angle, restarts the idle timer and moves the speed towards the instantaneous speed by the filter |
| EncoderTrigger.TimeoutWheel | project/src/modules/encoder_module.c:42-47 | the idle work sets the speed to 0 and resets the time reference, keeping the angle |
| EncoderTrigger.ExpireWheel | project/src/modules/encoder_module.c:51-56 | an expired one-shot timer stops and zeroes the wheel; otherwise nothing changes |
| EncoderTrigger.FastTriggersNeverPublish | project/src/modules/encoder_module.c:96-100 | triggers that keep arriving faster than the minimum interval never publish, and speed and angle stay frozen (a discarded sample still advances the time reference) |
| EncoderTrigger.FailedReadsChangeNothing | project/src/modules/encoder_module.c:83-94 | a series of failed reads leaves the wheel exactly as it was and publishes nothing |
| EncoderTrigger.Accepted | project/src/modules/encoder_module.c:79-108 | the accepted triggers are counted independently of the filter: a reading at least the minimum interval after the previous reading counts, every reading becomes the next reference, a failed read is skipped; never more than the number of triggers |
| EncoderTrigger.PublishedCountsAccepted | project/src/modules/encoder_module.c:79-108 | a series of triggers publishes exactly one event per accepted trigger and none otherwise, so at most one per trigger |
| EncoderTrigger.SteadySpeed | project/src/modules/encoder_module.c:101-105 | under steady turning every trigger is accepted, and the speed after n triggers is the filter run over n samples equal to the steady rate |
| EncoderTrigger.SteadyTurningConverges | project/src/modules/encoder_module.c:101-105 | under steady turning the speed's deviation from the steady rate shrinks by alpha^n after n triggers |
| EncoderTrigger.SteadyTurningPosition | project/src/modules/encoder_module.c:96-105 | under steady turning the angle advances by one step and the time reference by one gap per trigger |
| EncoderTrigger.ModuleInit | project/src/modules/encoder_module.c:142-173 | a missing device gives -ENODEV; otherwise the error of A's trigger setup if it fails, else B's, with A's handler kept when only B fails; success exactly when both handlers are installed |
| EncoderTrigger.EncoderModule.constructor | project/src/modules/encoder_module.c:21-30 | the statics start zeroed with no timer running and nothing published |
| EncoderTrigger.EncoderModule.SendDataEvt | project/src/modules/encoder_module.c:32-39 | one event carrying both wheels' current speeds is published |
| EncoderTrigger.EncoderModule.TriggerAHandler | project/src/modules/encoder_module.c:79-108 | only wheel A changes, as TriggerWheel says; an accepted sample publishes A's new speed with B's current one |
| EncoderTrigger.EncoderModule.TriggerBHandler | project/src/modules/encoder_module.c:110-140 | the mirror image for wheel B |
| EncoderTrigger.EncoderModule.TimeoutAWork | project/src/modules/encoder_module.c:42-47 | A's speed becomes 0 and one event with 0 for A and B's speed is published |
| EncoderTrigger.EncoderModule.TimeoutBWork | project/src/modules/encoder_module.c:58-63 | B's speed becomes 0 and one event with A's speed and 0 for B is published |
| EncoderTrigger.EncoderModule.TimerATick | project/src/modules/encoder_module.c:51-56 | wheel A's timer fires at most once per start and then runs its work item |
| EncoderTrigger.EncoderModule.TimerBTick | project/src/modules/encoder_module.c:67-70 | wheel B's timer fires at most once per start and then runs its work item |
| EncoderTrigger.EncoderModule.OnModuleState | project/src/modules/encoder_module.c:175-200 | only main READY acts; a successful init sets both time references to the same current time and makes the module READY; a failed one does not; nothing is published |
| EncoderPoll.WheelUpdate | src/modules/encoder_module.c:85-87 | the new speed moves from the old one towards rotation / dt and stays between the two |
| EncoderPoll.PollTick | src/modules/encoder_module.c:60-101 | an event is published exactly when both fetches and both reads succeed; a fetch error or an A read error changes nothing; a B read error leaves A updated and B not |
| EncoderPoll.PartialUpdateFiltersATwice | src/modules/encoder_module.c:78-94 | a tick whose B read fails followed by a good tick filters A's sample twice and B's once |
| EncoderPoll.StillWheelSlowsDown | src/modules/encoder_module.c:85-87 | a wheel whose reads are all 0 keeps its speed between 0 and its starting speed |
| EncoderPoll.ModuleInit | src/modules/encoder_module.c:104-115 | init succeeds exactly when both devices are found, else -ENODEV |
| EncoderPoll.EncoderPollModule.constructor | src/modules/encoder_module.c:24-29 | zero speeds, no timer, nothing published |
| EncoderPoll.EncoderPollModule.SendDataEvt | src/modules/encoder_module.c:31-38 | one event with both current speeds is published |
| EncoderPoll.EncoderPollModule.DataEvtTimeoutWork | src/modules/encoder_module.c:60-101 | the speeds and the published events follow PollTick |
| EncoderPoll.EncoderPollModule.OnModuleState | src/modules/encoder_module.c:120-143 | on main READY a successful init starts the periodic timer and makes the module READY; a failed init does neither; other events change nothing |
| Qdec.TickPeriodMs | qdec/src/modules/qdec_module.c:222 | the tick period is 1000·dt truncated to whole milliseconds: 50 |
| Qdec.Accumulate | qdec/src/modules/qdec_module.c:126-127 | a reading adds exactly its value to the accumulator; a read error adds nothing |
| Qdec.AccumulateAllAddsReadTotal | qdec/src/modules/qdec_module.c:109-130 | between two ticks the accumulator grows by exactly the sum of the values read: nothing is lost or counted twice |
| Qdec.LedParity | qdec/src/modules/qdec_module.c:128-129 | LED A has flipped exactly when an odd number of triggers read successfully |
| Qdec.TickSpeed | qdec/src/modules/qdec_module.c:64-68 | the tick's speed moves towards delta / dt by the filter; alpha 0 gives 20·delta, alpha 1 keeps the speed |
| Qdec.ModuleInit | qdec/src/modules/qdec_module.c:193-231 | -ENODEV without the device, else the trigger setup's error (0 on success) |
| Qdec.QdecModule.constructor | qdec/src/modules/qdec_module.c:22-38 | the statics start zeroed, no timer, nothing published |
| Qdec.QdecModule.SendDataEvt | qdec/src/modules/qdec_module.c:40-47 | one event with A's speed and 0 for B is published |
| Qdec.QdecModule.TriggerAHandler | qdec/src/modules/qdec_module.c:109-130 | a reading is accumulated, the LED pin gets the old level and the level flips; a read error changes nothing |
| Qdec.QdecModule.DataEvtTimeoutWork | qdec/src/modules/qdec_module.c:64-76 | every tick empties the accumulator, updates the speed by TickSpeed and publishes exactly one event |
| Qdec.QdecModule.OnModuleState | qdec/src/modules/qdec_module.c:233-255 | on main READY a successful init writes LED A, starts a 50 ms timer with no delay and makes the module READY; a failed init changes none of these |
| QdecEvents.EvtTypeStr | project/src/events/qdec_module_event.c:12-28 | each listed kind has its own name; every other value is "Unknown event" |
| QdecEvents.EvtTypeStrRoundTrip | project/src/events/qdec_module_event.c:12-28 | a listed kind's name reads back as that kind; "Unknown event" reads back as no kind |
| QdecEvents.EvtTypeFromStrSound | project/src/events/qdec_module_event.c:12-28 | a name that reads back as a kind is exactly that kind's name |
| QdecEvents.LogEvent | project/src/events/qdec_module_event.c:30-45 | an ERROR event logs its name and error code, a DATA_READY event its name and both speeds, any other its name alone |
| QdecEvents.LogLineNamesKind | project/src/events/qdec_module_event.c:30-45 | the log line's first argument identifies the event's kind |
| BleModule.StateName | project/src/modules/ble_module.c:48-60 | each state has its own name; any other value is "Unknown" |
| BleModule.StateNameRoundTrip | project/src/modules/ble_module.c:48-60 | a state's name reads back as the state; "Unknown" names no state |
| BleModule.Dispatch | project/src/modules/ble_module.c:144-163 | a message runs the current state's handler (none in SHUTDOWN) and then the common handler, which logs data exactly for DATA_SEND events |
| BleModule.Ble.constructor | project/src/modules/ble_module.c:26-37 | the module starts DISCONNECTED with an empty 10-entry mailbox |
| BleModule.Ble.StateSet | project/src/modules/ble_module.c:63-75 | the state becomes the new one; a repeat is logged as the state, a change as a transition from the old one |
| BleModule.Ble.AppEventHandler | project/src/modules/ble_module.c:77-100 | a qdec event is queued; a full mailbox is purged and an error event with -ENOMSG is sent; other events change nothing; nothing is consumed |
| BleModule.Ble.ThreadStart | project/src/modules/ble_module.c:126-142 | a failed module start is reported as an error event |
| BleModule.Ble.LoopIteration | project/src/modules/ble_module.c:144-163 | the thread takes the oldest message and runs the handlers Dispatch names without changing the state; with an empty mailbox it stays blocked |
| BleModule.StaysDisconnected | project/src/modules/ble_module.c:126-164 | after any interleaving of bus events and loop iterations the state is still DISCONNECTED and the CONNECTED handler has never run |
| HidModule.NotifySecured | project/src/modules/hid_module.c:129-138 | the link becomes secured and nothing else in the record changes |
| HidModule.SubscriptionBroadcasts | project/src/modules/hid_module.c:133-137 | one subscription broadcast per report id, in ascending order, each carrying that id's enabled flag |
| HidModule.Notify | project/src/modules/hid_module.c:140-207 | CONNECTED needs no current host and records it; DISCONNECTED needs the current host and clears the record; SECURED needs the current host and secures it at once or after the delay; DISCONNECTING and CONN_FAILED change nothing; anything else fails the assertion |
| HidModule.SecuredWorkRuns | project/src/modules/hid_module.c:176-190 | the delayed work secures the link only while still pending |
| HidModule.NotifyPreservesConsistent | project/src/modules/hid_module.c:140-207 | every peer event that passes the assertions keeps the record consistent: never secured, boot or pending without a host |
| HidModule.NotifyAllConsistent | project/src/modules/hid_module.c:140-207 | the record stays consistent over any series of peer events |
| HidModule.NotifyAllOneHost | project/src/modules/hid_module.c:146-159 | from no connection, an accepted series never has two hosts at once, and ends with a host exactly when it opened one more connection than it closed |
| HidModule.Classify | project/src/modules/hid_module.c:111-126 | -ENOTCONN is "not connected", -EBADF is "incompatible mode", anything else is kept as an other error |
| HidModule.SendHidReport | project/src/modules/hid_module.c:62-127 | a report not for the current host is ignored; in boot mode it fails with -EBADF without reaching the link; otherwise it goes to the link and any link error is classified and reported as a failure |
| HidModule.SendBeforeSecured | project/src/modules/hid_module.c:73-77 | a report for the connected host reaches the link before the link is secured |
| HidModule.HidModule.constructor | project/src/modules/hid_module.c:245 | the module starts with no host, uninitialised and not READY, with no broadcasts or notifications handed on |
| HidModule.HidModule.NotifySecuredFn | project/src/modules/hid_module.c:129-138 | the record changes as NotifySecured says, and a loop over the report ids broadcasts each one's subscription state as SubscriptionBroadcasts says |
| HidModule.HidModule.SecuredWorkHandler | project/src/modules/hid_module.c:129-138 | the record changes as SecuredWorkRuns says and stays valid; the subscription broadcasts are made exactly when the work was pending |
| HidModule.HidModule.NotifyHids | project/src/modules/hid_module.c:140-207 | the record changes as Notify says; a failed assertion leaves it unchanged; an accepted SECURED event without a delay makes the subscription broadcasts, and no other event does |
| HidModule.HidModule.SendReport | project/src/modules/hid_module.c:62-127 | the link-send and failure logs grow as SendHidReport says |
| HidModule.HidModule.AppEventHandler | project/src/modules/hid_module.c:209-273 | speed events are sent, peer events update the record, BLE READY initialises once (a second time fails the assertion) and makes the module READY only if the service initialised; a HID notification event is handed to `sync_notif_handler` exactly once; no event is consumed |
| LedCommon.HalfPeriod | src/modules/led_module.c:87 | the off time is half the on time truncated towards zero |
| LedCommon.BlinkOnce | src/modules/led_module.c:82-88 | one blink is four LED calls |
| LedCommon.BlinkTrain | src/modules/led_module.c:98-108 | n blinks are 4n calls, the i-th being the (i mod 4)-th call of one blink |
| LedCommon.Rounds | src/modules/led_module.c:100 | the loop makes num_blinks rounds, or none when num_blinks is not positive |
| LedCommon.LedBlink | src/modules/led_module.c:98-108 | the calls made are exactly max(num_blinks, 0) blinks of the colour |
| LedCommon.TrainsConcatenate | src/modules/led_module.c:98-108 | a blinks then b blinks are a + b blinks |
| LedCommon.TrainEndsDark | src/modules/led_module.c:102-105 | a train sets only its colour and black, and ends dark |
| PreemptiveLed.PeerBlink | src/modules/led_module.c:118-151 | a peer pattern is always ACTIVE; exactly the four known states blink; red exactly for DISCONNECTED and CONN_FAILED |
| PreemptiveLed.PeerPatternsDistinct | src/modules/led_module.c:118-151 | the four peer states give patterns with different colour or count |
| PreemptiveLed.SearchBlink | src/modules/led_module.c:159-174 | a search pattern is BACKGROUND; an active search blinks blue ten long times, an ended one is empty |
| PreemptiveLed.Iteration | src/modules/led_module.c:262-280 | one loop iteration makes one blink of the current pattern unless it waits; it takes at most two messages; an ACTIVE pattern with blinks left only blinks and counts down |
| PreemptiveLed.BackgroundIsPreempted | src/modules/led_module.c:263-271 | a queued message replaces a BACKGROUND pattern in the next iteration |
| PreemptiveLed.ActivePlaysWithoutPolling | src/modules/led_module.c:262-280 | an ACTIVE pattern plays its blinks one per iteration without touching the mailbox |
| PreemptiveLed.ActiveRunsToCompletion | src/modules/led_module.c:262-280 | an ACTIVE pattern with k blinks left plays all k and ends with none left |
| PreemptiveLed.FinishedPatternReadsMailbox | src/modules/led_module.c:272-277 | a finished pattern takes the next message, or waits when there is none |
| PreemptiveLed.NegativeActiveLocksUp | src/modules/led_module.c:262-280 | an ACTIVE pattern whose count is negative is never left and the mailbox is never read again |
| PreemptiveLed.ZeroBlinkPeerEventStartsLockUp | src/modules/led_module.c:144-148 | once the worker's blocking get takes the empty ACTIVE pattern of a DISCONNECTING peer event (an idle worker, or one whose ACTIVE pattern has just ended), it makes one zero-length black blink and is left at -1 blinks |
| PreemptiveLed.PolledZeroBlinkIsSkipped | src/modules/led_module.c:263-277 | when the poll of a BACKGROUND pattern takes the DISCONNECTING pattern, nothing locks up: its 0 blinks make the same iteration's get take the next message and blink it |
| PreemptiveLed.LockUpIsPermanent | src/modules/led_module.c:262-280 | once the worker's blocking get takes the pattern of a DISCONNECTING peer event, the worker only repeats zero-length black blinks and never shows a later pattern |
| PreemptiveLed.PreemptiveLedModule.constructor | src/modules/led_module.c:63-70 | an empty 20-entry mailbox, no LED calls, not READY |
| PreemptiveLed.PreemptiveLedModule.ThreadStart | src/modules/led_module.c:245-261 | the LED is switched off when the device is ready, then one long green blink; the loop starts BACKGROUND with nothing left |
| PreemptiveLed.PreemptiveLedModule.Poll | src/modules/led_module.c:263-271 | the poll changes the pattern and the mailbox as Polled says |
| PreemptiveLed.PreemptiveLedModule.LedBlinkOnce | src/modules/led_module.c:82-88 | the LED receives one blink |
| PreemptiveLed.PreemptiveLedModule.TakeAndBlink | src/modules/led_module.c:274-279 | the head of the mailbox becomes the pattern and its first blink is made |
| PreemptiveLed.PreemptiveLedModule.WaitAndBlink | src/modules/led_module.c:272-279 | the wait-or-blink step changes the state as TakeOrBlink says |
| PreemptiveLed.PreemptiveLedModule.LoopIteration | src/modules/led_module.c:262-280 | an iteration changes the worker, mailbox and LED as Iteration says |
| PreemptiveLed.PreemptiveLedModule.RunIterations | src/modules/led_module.c:262-280 | n iterations change them as n steps of Iteration do |
| PreemptiveLed.PreemptiveLedModule.AppEventHandler | src/modules/led_module.c:183-222 | peer and search events queue their pattern (a full mailbox is purged), main READY makes the module READY, an unsubscribed event fails the assertion; nothing is consumed |
| FifoLed.PeerBlink | project/src/modules/led_module.c:105-137 | exactly the four known states blink; unknown states give the empty pattern; red, short, exactly for DISCONNECTED and CONN_FAILED |
| FifoLed.PeerPatternsDistinct | project/src/modules/led_module.c:105-137 | the four peer states give patterns with different colour or count |
| FifoLed.SearchBlink | project/src/modules/led_module.c:140-154 | an active search blinks blue twice, long; an ended one is empty |
| FifoLed.PlayAllLength | project/src/modules/led_module.c:229-232 | the worker makes exactly the number of blinks the messages ask for: nothing dropped or cut short |
| FifoLed.PlayAllConcat | project/src/modules/led_module.c:229-232 | playing two series in turn is playing their concatenation: no pattern interrupts another |
| FifoLed.ZeroBlinkMessageIsSkipped | project/src/modules/led_module.c:130-134 | an unknown peer state's empty pattern plays nothing and delays nothing |
| FifoLed.FifoLedModule.constructor | project/src/modules/led_module.c:56-63 | an empty 20-entry mailbox, no LED calls, not READY |
| FifoLed.FifoLedModule.ThreadStart | project/src/modules/led_module.c:214-228 | the LED is switched off when the device is ready, then three short green blinks |
| FifoLed.FifoLedModule.LoopIteration | project/src/modules/led_module.c:229-232 | the oldest message is played in full; an empty mailbox blocks and changes nothing |
| FifoLed.FifoLedModule.RunIterations | project/src/modules/led_module.c:229-232 | n iterations play the first min(n, queued) messages in full and in order |
| FifoLed.FifoLedModule.AppEventHandler | project/src/modules/led_module.c:156-195 | peer and search events queue their pattern (a full mailbox is purged), main READY makes the module READY, an unsubscribed event fails the assertion; nothing is consumed |
| HidJoystick.FirstFree | HID_joystick/src/main.c:220-231 | the index found is the first empty slot; none is found only when every slot is taken |
| HidJoystick.IndexOf | HID_joystick/src/main.c:295-300 | the index found is the first slot holding the host; none is found only when no slot holds it |
| HidJoystick.InsertedSpec | HID_joystick/src/main.c:220-231 | insertion fills the first empty slot in report mode and leaves every other slot alone; a full table is unchanged |
| HidJoystick.RemovedSpec | HID_joystick/src/main.c:295-300 | removal empties only the first slot holding the host and leaves every other slot alone |
| HidJoystick.InsertThenRemove | HID_joystick/src/main.c:220-231 | inserting a new host and removing it restores the table's occupancy |
| HidJoystick.FanoutSpec | HID_joystick/src/main.c:1020-1061 | the movement reaches exactly the occupied slots, each with four bytes equal to the value |
| HidJoystick.Toggle | HID_joystick/src/main.c:1066-1073 | a non-zero value flips to 0 and 0 flips to 255 |
| HidJoystick.ToggleParity | HID_joystick/src/main.c:1063-1076 | the value alternates between 0 and 255 with each drained movement |
| HidJoystick.Movement | HID_joystick/src/main.c:1218-1237 | no movement exactly when no direction key is pressed; on each axis a lone key moves exactly 5 its way, and no key or both opposite keys give 0 |
| HidJoystick.PairingAnswer | HID_joystick/src/main.c:1203-1216 | with a pairing pending button 1 accepts and button 2 rejects, button 1 winning; otherwise the buttons are no answer |
| HidJoystick.OppositeKeysCancel | HID_joystick/src/main.c:1218-1237 | left and right together give the zero movement, which is still queued |
| HidJoystick.BatteryNext | HID_joystick/src/main.c:1266-1277 | the level drops by one in 8-bit arithmetic and 0 becomes 100: 0 goes to 255, 1 to 100 |
| HidJoystick.BatteryCycles | HID_joystick/src/main.c:1266-1277 | from a level in 1..100 the level stays in 1..100, counting down and restarting at 100 |
| HidJoystick.JoystickApp.constructor | HID_joystick/src/main.c:103-106 | every slot empty, both queues empty, value 0 |
| HidJoystick.JoystickApp.InsertConnObject | HID_joystick/src/main.c:220-231 | the table changes as insertion says |
| HidJoystick.JoystickApp.IsConnSlotFree | HID_joystick/src/main.c:235-244 | true exactly when some slot is empty |
| HidJoystick.JoystickApp.Connected | HID_joystick/src/main.c:247-277 | a failed connection, or a `bt_hids_connected` result whose low byte is non-zero, leaves the table alone (an advertising timeout resubmits the advertising work); a successful one inserts the host and restarts advertising only while a slot is free |
| HidJoystick.JoystickApp.Disconnected | HID_joystick/src/main.c:280-303 | the host's first slot is emptied and advertising always restarts |
| HidJoystick.JoystickApp.HidsPmEvtHandler | HID_joystick/src/main.c:333-365 | an unknown host is ignored; its slot's boot flag is set on boot mode and cleared on report mode |
| HidJoystick.JoystickApp.GamepadMovementSend | HID_joystick/src/main.c:1020-1061 | the reports sent are the fan-out of the value to the occupied slots |
| HidJoystick.JoystickApp.MouseHandler | HID_joystick/src/main.c:1063-1076 | the movement queue is drained; the value flips once per movement and each flip is fanned out |
| HidJoystick.JoystickApp.NumCompReply | HID_joystick/src/main.c:1170-1194 | the oldest pending pairing is answered and removed; the pairing work is resubmitted while pairings remain; nothing happens without one |
| HidJoystick.JoystickApp.QueueMovement | HID_joystick/src/main.c:1239-1251 | a movement is queued when a direction key is pressed and there is room (a full queue drops it); the work is submitted when it is the only queued movement |
| HidJoystick.JoystickApp.ButtonChanged | HID_joystick/src/main.c:1197-1252 | only pressed-and-changed buttons count; while a pairing waits they answer it and queue nothing; otherwise they queue a movement |

## Left out

- Logging (`LOG_*`, `printk`) is left out. The one log format that is part of an
  interface, the qdec event's log line, is modelled as a value.
- C `float` and `double` arithmetic is modelled by exact reals, with no rounding. The
  constant `dt = 0.05` is not exactly representable in binary; its product with 1000 is
  taken as exactly 50.
- Concurrency is left out: interrupts, the system work queue, timer callbacks and
  threads are modelled as handler calls in one order chosen by the caller. A blocking
  mailbox get on an empty mailbox is modelled as the thread being `blocked` or
  `waiting`.
- The kernel message queue's ring buffer is not part of this model. A mailbox is its
  ordered contents and its capacity.
- The Bluetooth stack is not part of this model: `bt_hids_*`, advertising, bonding,
  security and the MITM pairing flow (`auth_passkey_confirm`, `pairing_process`). The
  calls whose result the code acts on are recorded in logs or given as parameters:
  `bt_hids_inp_rep_send` (`linkErr`), `bt_hids_init` (`initErr`), the joystick's
  `bt_hids_connected` (`hidsErr`) and the pairing replies. The calls whose result is
  only logged are left out: `bt_hids_connected` and `bt_hids_disconnected` in
  `notify_hids` (project/src/modules/hid_module.c:149, 160), the joystick's
  `bt_hids_disconnected` (HID_joystick/src/main.c:289), and the configuration channel's
  `config_channel_transport_disconnect` on DISCONNECTED (hid_module.c:167-171).
  The HID report descriptors are constant tables and are left out.
- The sensor and GPIO drivers (`sensor_sample_fetch`, `sensor_channel_get`,
  `gpio_pin_set_dt`), the LED strip driver and the colour table are left out. The qdec
  module's write of LED B's pin at initialisation is left out too, since its level
  never changes. Readings and
  driver results are parameters.
- Uptime is a parameter `now`; timers are modelled by their deadline or period.
- `module_set_state` and the event submission machinery are left out. The events a
  module submits are recorded in logs.
- Build-time configuration values are parameters: the filter coefficient, the minimum
  interval, the timeout, the blink lengths, the first-report delay and the client count.
  The trigger-driven encoder assumes a positive minimum interval, and the polling encoder
  a positive period, so that no speed is divided by a zero interval.
- project/src/modules/qdec_module.c, button/src/main.c and project/src/main.c are not
  part of this model.
- The event kinds follow project/src/events/qdec_module_event.c, which logs
  `QDEC_A_EVT_DATA_SEND` and `QDEC_B_EVT_DATA_SEND`. The header
  project/src/events/qdec_module_event.h declares neither of them but declares
  `QDEC_EVT_DATA_SEND`, which the BLE module tests for. The model has all of them; the
  header's numbering is left out.
- PreemptiveLed.NegativeActiveLocksUp: `remaining_blinks` is an unbounded integer here.
  In C it is an `int`, and after about 2^31 further blinks its decrement overflows, which
  C leaves undefined.
- LedCommon.BlinkOnce: the contract states only the length. The calls it makes are given
  by BlinkTrain's contract, which relates every call of a train to a single blink.
- The `__ASSERT_NO_MSG` checks of the HID and LED modules are modelled as a failed
  outcome (`AssertFailed`, or `ok` false) that leaves the state unchanged. With
  assertions enabled the firmware halts there instead. With assertions disabled it
  carries on past the check: a second CONNECTED overwrites `cur_conn`, and a
  DISCONNECTED for another host still clears the record. That assertion-disabled
  behaviour is not modelled.
- HidModule.AppEventHandler: the handler passes a qdec module event to
  `send_hid_report`, which expects a HID report event and reads its `subscriber` field
  (project/src/modules/hid_module.c:211-214). A qdec module event has no such field. The
  model takes the addressee as a parameter of the speed event, and the report's bytes
  and report id are not modelled.
- HidModule: `cur_conn`, `secured`, `protocol_boot`, `notify_secured`, `report_enabled`,
  `REPORT_ID_COUNT`, `broadcast_subscription_change` and `sync_notif_handler` are used
  but not declared in project/src/modules/hid_module.c. The model takes the first three
  as module variables that start with no host, unsecured and in report protocol, and
  `report_enabled` as a constructor parameter whose length is `REPORT_ID_COUNT`. The two
  functions' calls are logged, but what they do is not modelled.
- HidModule.HidModule.AppEventHandler: a HID notification event is only counted as handed
  to `sync_notif_handler`; whatever that function changes, such as `report_enabled`, is
  not part of this model, so `report_enabled` stays as constructed.
- HidModule.SecuredWorkRuns: the initialisation of the delayed `notify_secured` work is
  commented out (project/src/modules/hid_module.c:250-254). The model assumes that the
  work, once scheduled, runs `notify_secured_fn`, as HidModule.HidModule.SecuredWorkHandler
  also does.
- HidModule.SendHidReport: the send gate does not look at `secured`. A report goes to a
  connected host before its link is secured, as the code does; SendBeforeSecured states
  this.
