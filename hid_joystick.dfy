/** The standalone HID joystick demo (HID_joystick/src/main.c): a table of connected HID
    hosts (`conn_mode[]`), the button handler that turns key presses into joystick
    movements queued for a work item, the work item that drains the queue and sends a
    report to every connected host, and the simulated battery. The Bluetooth stack calls
    are recorded in logs instead of being performed. */
module HidJoystick {
  import opened Common
  import opened ModulesCommon

  /** `MOVEMENT_SPEED`: the step of one direction key. */
  const MovementSpeed: int := 5
  /** `HIDS_QUEUE_SIZE`. */
  const HidsQueueSize: nat := 10
  /** `BT_HCI_ERR_ADV_TIMEOUT`: directed advertising ended without a connection. */
  const AdvTimeout: byte := 0x3C

  /** The key masks: `DK_BTN1_MSK` .. `DK_BTN4_MSK`. */
  const KeyLeftMask: bv32 := 1
  const KeyUpMask: bv32 := 2
  const KeyRightMask: bv32 := 4
  const KeyDownMask: bv32 := 8
  const KeyPairingAccept: bv32 := 1
  const KeyPairingReject: bv32 := 2

  /** One `conn_mode[]` entry: the host in this slot (if any) and its protocol mode. */
  datatype ConnSlot = ConnSlot(conn: Option<ConnId>, inBootMode: bool)

  /** `struct joystick_pos`. */
  datatype JoystickPos = JoystickPos(x: int, y: int)

  /** `struct pairing_data_mitm`: a pairing awaiting numeric comparison. */
  datatype PairingData = PairingData(conn: ConnId, passkey: nat)

  /** One input report handed to `bt_hids_inp_rep_send`: the host and the buffer. */
  datatype Report = Report(conn: ConnId, data: seq<byte>)

  /** The protocol-mode events of the HID service. */
  datatype PmEvent = BootModeEntered | ReportModeEntered | OtherPmEvent

  /** The index of the first empty slot. */
  function FirstFree(s: seq<ConnSlot>): (r: Option<nat>)
    ensures r.Some? ==> r.value < |s| && s[r.value].conn.None?
                        && forall j :: 0 <= j < r.value ==> s[j].conn.Some?
    ensures r.None? ==> forall j :: 0 <= j < |s| ==> s[j].conn.Some?
  {
    if s == [] then None
    else if s[0].conn.None? then Some(0)
    else match FirstFree(s[1..])
      case None => None
      case Some(k) => Some(k + 1)
  }

  /** The index of the first slot holding host `c`. */
  function IndexOf(s: seq<ConnSlot>, c: ConnId): (r: Option<nat>)
    ensures r.Some? ==> r.value < |s| && s[r.value].conn == Some(c)
                        && forall j :: 0 <= j < r.value ==> s[j].conn != Some(c)
    ensures r.None? ==> forall j :: 0 <= j < |s| ==> s[j].conn != Some(c)
  {
    if s == [] then None
    else if s[0].conn == Some(c) then Some(0)
    else match IndexOf(s[1..], c)
      case None => None
      case Some(k) => Some(k + 1)
  }

  /** The table after `insert_conn_object(c)`. */
  function Inserted(s: seq<ConnSlot>, c: ConnId): seq<ConnSlot>
  {
    match FirstFree(s)
    case None => s
    case Some(i) => s[i := ConnSlot(Some(c), false)]
  }

  /** The table after the slot loop of `disconnected(c)`. */
  function Removed(s: seq<ConnSlot>, c: ConnId): seq<ConnSlot>
  {
    match IndexOf(s, c)
    case None => s
    case Some(i) => s[i := s[i].(conn := None)]
  }

  /** Insertion takes the first empty slot, puts the host there in report mode and leaves
      every other slot alone; a full table is left unchanged. */
  lemma InsertedSpec(s: seq<ConnSlot>, c: ConnId)
    ensures var t := Inserted(s, c);
            && |t| == |s|
            && (FirstFree(s).None? ==> t == s)
            && (FirstFree(s).Some? ==>
                  && t[FirstFree(s).value] == ConnSlot(Some(c), false)
                  && forall j :: 0 <= j < |s| && j != FirstFree(s).value ==> t[j] == s[j])
  {
  }

  /** Removal empties only the first slot holding the host (keeping its stale mode flag)
      and leaves every other slot alone. A host in two slots keeps the second one. */
  lemma RemovedSpec(s: seq<ConnSlot>, c: ConnId)
    ensures var t := Removed(s, c);
            && |t| == |s|
            && (IndexOf(s, c).None? ==> t == s)
            && (IndexOf(s, c).Some? ==>
                  && t[IndexOf(s, c).value] == ConnSlot(None, s[IndexOf(s, c).value].inBootMode)
                  && forall j :: 0 <= j < |s| && j != IndexOf(s, c).value ==> t[j] == s[j])
  {
  }

  /** Inserting a host into a table with room and then removing it gives back a table
      whose occupancy is the original one. */
  lemma InsertThenRemove(s: seq<ConnSlot>, c: ConnId)
    requires FirstFree(s).Some?
    requires forall j :: 0 <= j < |s| ==> s[j].conn != Some(c)
    ensures var t := Removed(Inserted(s, c), c);
            |t| == |s| && forall j :: 0 <= j < |s| ==> t[j].conn == s[j].conn
  {
    var i := FirstFree(s).value;
    var t := Inserted(s, c);
    assert t[i].conn == Some(c);
    assert forall j :: 0 <= j < |s| && j != i ==> t[j].conn != Some(c);
    var k := IndexOf(t, c);
    assert k == Some(i);
  }

  /** The reports `gamepad_movement_send(v)` sends: one 4-byte buffer of `v`s to each
      occupied slot, in slot order. */
  function Fanout(s: seq<ConnSlot>, v: byte): seq<Report>
  {
    if s == [] then []
    else Fanout(s[..|s| - 1], v)
         + (if s[|s| - 1].conn.Some? then [Report(s[|s| - 1].conn.value, [v, v, v, v])] else [])
  }

  /** The fan-out reaches exactly the occupied slots, each with a buffer of four `v`s. */
  lemma {:induction false} FanoutSpec(s: seq<ConnSlot>, v: byte)
    ensures forall k :: 0 <= k < |Fanout(s, v)| ==> Fanout(s, v)[k].data == [v, v, v, v]
    ensures forall i :: 0 <= i < |s| && s[i].conn.Some? ==> Report(s[i].conn.value, [v, v, v, v]) in Fanout(s, v)
    ensures forall r :: r in Fanout(s, v) ==> exists i :: 0 <= i < |s| && s[i].conn == Some(r.conn)
  {
    if s != [] {
      var p := s[..|s| - 1];
      FanoutSpec(p, v);
      forall i | 0 <= i < |s| && s[i].conn.Some?
        ensures Report(s[i].conn.value, [v, v, v, v]) in Fanout(s, v)
      {
        if i < |s| - 1 {
          assert p[i] == s[i];
        }
      }
      forall r | r in Fanout(s, v)
        ensures exists i :: 0 <= i < |s| && s[i].conn == Some(r.conn)
      {
        if r in Fanout(p, v) {
          var i :| 0 <= i < |p| && p[i].conn == Some(r.conn);
          assert s[i] == p[i];
        } else {
          assert s[|s| - 1].conn == Some(r.conn);
        }
      }
    }
  }

  /** The flip of `val` in `mouse_handler`: non-zero becomes 0, zero becomes `UINT8_MAX`. */
  function Toggle(v: byte): (r: byte)
    ensures v == 0 <==> r == 255
    ensures v != 0 ==> r == 0
  {
    if v != 0 then 0 else 255
  }

  /** `val` after `n` flips. */
  function ToggleN(v: byte, n: nat): byte
  {
    if n == 0 then v else Toggle(ToggleN(v, n - 1))
  }

  /** Starting from 0 or 255, `val` alternates: after an even number of flips it is back
      where it started. */
  lemma {:induction false} ToggleParity(v: byte, n: nat)
    requires v == 0 || v == 255
    ensures ToggleN(v, n) == if n % 2 == 0 then v else Toggle(v)
  {
    if n > 0 {
      ToggleParity(v, n - 1);
    }
  }

  /** The reports the drain loop sends for `n` queued movements, starting from `val` = `v`. */
  function MouseSends(s: seq<ConnSlot>, v: byte, n: nat): seq<Report>
  {
    if n == 0 then [] else MouseSends(s, v, n - 1) + Fanout(s, ToggleN(v, n))
  }

  /** The movement of a set of pressed-and-changed buttons: on each axis a lone direction
      key moves `MovementSpeed` its way, and no key or both opposite keys move nothing;
      `None` when no direction key is among them. */
  function Movement(buttons: bv32): (p: Option<JoystickPos>)
    ensures p.None? <==> buttons & (KeyLeftMask | KeyUpMask | KeyRightMask | KeyDownMask) == 0
    ensures p.Some? ==> p.value.x == (if buttons & KeyRightMask != 0 && buttons & KeyLeftMask == 0 then MovementSpeed
                                       else if buttons & KeyLeftMask != 0 && buttons & KeyRightMask == 0 then -MovementSpeed
                                       else 0)
    ensures p.Some? ==> p.value.y == (if buttons & KeyDownMask != 0 && buttons & KeyUpMask == 0 then MovementSpeed
                                       else if buttons & KeyUpMask != 0 && buttons & KeyDownMask == 0 then -MovementSpeed
                                       else 0)
  {
    var left := buttons & KeyLeftMask != 0;
    var up := buttons & KeyUpMask != 0;
    var right := buttons & KeyRightMask != 0;
    var down := buttons & KeyDownMask != 0;
    assert (buttons & (KeyLeftMask | KeyUpMask | KeyRightMask | KeyDownMask) == 0) <==> !left && !up && !right && !down;
    if !(left || up || right || down) then None
    else
      var x := (if left then -MovementSpeed else 0) + (if right then MovementSpeed else 0);
      var y := (if up then -MovementSpeed else 0) + (if down then MovementSpeed else 0);
      Some(JoystickPos(x, y))
  }

  /** The pairing decision of `button_changed`: with a pairing pending, button 1 accepts
      (and wins over button 2), button 2 rejects; otherwise the buttons are not an
      answer. */
  function PairingAnswer(pending: bool, buttons: bv32): (a: Option<bool>)
    ensures a.Some? <==> pending && (buttons & KeyPairingAccept != 0 || buttons & KeyPairingReject != 0)
    ensures a == Some(false) <==> pending && buttons & KeyPairingAccept == 0 && buttons & KeyPairingReject != 0
  {
    if pending && buttons & KeyPairingAccept != 0 then Some(true)
    else if pending && buttons & KeyPairingReject != 0 then Some(false)
    else None
  }

  /** Opposite keys cancel, yet the zero movement is still queued and sent. */
  lemma OppositeKeysCancel()
    ensures Movement(KeyLeftMask | KeyRightMask) == Some(JoystickPos(0, 0))
  {
  }

  /** `bas_notify`: the level drops by one in 8-bit arithmetic and 0 is replaced by 100. */
  function BatteryNext(level: byte): (r: byte)
    ensures r != 0
    ensures level == 0 ==> r == 255
    ensures level == 1 ==> r == 100
    ensures level > 1 ==> r == level - 1
  {
    var dec := ((level as int - 1) % 256) as byte;
    if dec == 0 then 100 else dec
  }

  /** From a level between 1 and 100 the battery stays between 1 and 100 for ever,
      counting down and restarting at 100. */
  lemma BatteryCycles(level: byte)
    requires 1 <= level <= 100
    ensures 1 <= BatteryNext(level) <= 100
    ensures BatteryNext(level) == if level == 1 then 100 else level - 1
  {
  }

  /** The demo's state: the slot table, the movement and pairing queues, the static
      `val` of the drain loop, and logs of what the Bluetooth stack and work queue were
      asked to do. */
  class JoystickApp {
    const slots: array<ConnSlot>
    const hidsQueue: MsgQueue<JoystickPos>
    const mitmQueue: MsgQueue<PairingData>
    var val: byte
    var reportsSent: seq<Report>
    var pairingReplies: seq<(ConnId, bool)>
    var advertisingStarts: nat
    var advWorkSubmits: nat
    var hidsWorkSubmits: nat
    var pairingWorkSubmits: nat

    /** Power-on: `maxClients` empty slots (`CONFIG_BT_HIDS_MAX_CLIENT_COUNT`), empty
        queues, `val` = 0. */
    constructor (maxClients: nat)
      ensures fresh(slots) && fresh(hidsQueue) && fresh(mitmQueue)
      ensures hidsQueue.Valid() && hidsQueue.capacity == HidsQueueSize
      ensures mitmQueue.Valid() && mitmQueue.capacity == maxClients
      ensures slots.Length == maxClients && forall j :: 0 <= j < maxClients ==> slots[j] == ConnSlot(None, false)
      ensures hidsQueue.items == [] && mitmQueue.items == [] && val == 0
      ensures reportsSent == [] && pairingReplies == []
      ensures advertisingStarts == 0 && advWorkSubmits == 0 && hidsWorkSubmits == 0 && pairingWorkSubmits == 0
    {
      slots := new ConnSlot[maxClients](_ => ConnSlot(None, false));
      hidsQueue := new MsgQueue<JoystickPos>(HidsQueueSize);
      mitmQueue := new MsgQueue<PairingData>(maxClients);
      val := 0;
      reportsSent, pairingReplies := [], [];
      advertisingStarts, advWorkSubmits, hidsWorkSubmits, pairingWorkSubmits := 0, 0, 0, 0;
    }

    /** `insert_conn_object`. */
    method InsertConnObject(c: ConnId)
      modifies slots
      ensures slots[..] == Inserted(old(slots[..]), c)
    {
      var i := 0;
      while i < slots.Length
        invariant 0 <= i <= slots.Length
        invariant slots[..] == old(slots[..])
        invariant forall j :: 0 <= j < i ==> slots[j].conn.Some?
      {
        if slots[i].conn.None? {
          slots[i] := ConnSlot(Some(c), false);
          return;
        }
        i := i + 1;
      }
    }

    /** `is_conn_slot_free`. */
    method IsConnSlotFree() returns (free: bool)
      ensures free <==> exists j :: 0 <= j < slots.Length && slots[j].conn.None?
    {
      var i := 0;
      while i < slots.Length
        invariant 0 <= i <= slots.Length
        invariant forall j :: 0 <= j < i ==> slots[j].conn.Some?
      {
        if slots[i].conn.None? {
          return true;
        }
        i := i + 1;
      }
      return false;
    }

    /** The `connected` callback with HCI status `err`; `hidsErr` is what
        `bt_hids_connected` returns. That `int` is stored back into the `uint8_t`
        parameter `err`, so only its low byte (`hidsErr % 256`) is tested: a negative
        errno still fails, but a result that is a non-zero multiple of 256 does not.
        A failed connection changes no slot (an advertising
        timeout resubmits the advertising work); a successful one takes a slot and
        restarts advertising only while a slot is still free. */
    method Connected(c: ConnId, err: byte, hidsErr: int)
      modifies slots, this`advWorkSubmits, this`advertisingStarts
      ensures err != 0 || hidsErr % 256 != 0 ==> slots[..] == old(slots[..]) && advertisingStarts == old(advertisingStarts)
      ensures advWorkSubmits == old(advWorkSubmits) + (if err == AdvTimeout then 1 else 0)
      ensures err == 0 && hidsErr % 256 == 0 ==>
                && slots[..] == Inserted(old(slots[..]), c)
                && advertisingStarts == old(advertisingStarts) + (if FirstFree(slots[..]).Some? then 1 else 0)
    {
      if err != 0 {
        if err == AdvTimeout {
          advWorkSubmits := advWorkSubmits + 1;
        }
        return;
      }
      if hidsErr % 256 != 0 {
        return;
      }
      InsertConnObject(c);
      var free := IsConnSlotFree();
      if free {
        advertisingStarts := advertisingStarts + 1;
      }
    }

    /** The `disconnected` callback: the host's first slot is emptied and advertising
        always restarts. */
    method Disconnected(c: ConnId)
      modifies slots, this`advertisingStarts
      ensures slots[..] == Removed(old(slots[..]), c)
      ensures advertisingStarts == old(advertisingStarts) + 1
    {
      var i := 0;
      while i < slots.Length
        invariant 0 <= i <= slots.Length
        invariant slots[..] == old(slots[..])
        invariant forall j :: 0 <= j < i ==> slots[j].conn != Some(c)
      {
        if slots[i].conn == Some(c) {
          slots[i] := slots[i].(conn := None);
          break;
        }
        i := i + 1;
      }
      advertisingStarts := advertisingStarts + 1;
    }

    /** `hids_pm_evt_handler`: a host without a slot is ignored; otherwise its slot's
        boot flag follows the event. */
    method HidsPmEvtHandler(evt: PmEvent, c: ConnId)
      modifies slots
      ensures var k := IndexOf(old(slots[..]), c);
              if k.None? || evt == OtherPmEvent then slots[..] == old(slots[..])
              else slots[..] == old(slots[..])[k.value := old(slots[k.value]).(inBootMode := evt == BootModeEntered)]
    {
      var i := 0;
      while i < slots.Length
        invariant 0 <= i <= slots.Length
        invariant forall j :: 0 <= j < i ==> slots[j].conn != Some(c)
      {
        if slots[i].conn == Some(c) {
          break;
        }
        i := i + 1;
      }
      if i >= slots.Length {
        return;
      }
      match evt {
        case BootModeEntered => slots[i] := slots[i].(inBootMode := true);
        case ReportModeEntered => slots[i] := slots[i].(inBootMode := false);
        case OtherPmEvent =>
      }
    }

    /** `gamepad_movement_send(v)`. */
    method GamepadMovementSend(v: byte)
      modifies this`reportsSent
      ensures reportsSent == old(reportsSent) + Fanout(slots[..], v)
    {
      var i := 0;
      while i < slots.Length
        invariant 0 <= i <= slots.Length
        invariant reportsSent == old(reportsSent) + Fanout(slots[..i], v)
      {
        assert slots[..i + 1][..i] == slots[..i];
        if slots[i].conn.None? {
          i := i + 1;
          continue;
        }
        reportsSent := reportsSent + [Report(slots[i].conn.value, [v, v, v, v])];
        i := i + 1;
      }
      assert slots[..slots.Length] == slots[..];
    }

    /** `mouse_handler`: drains the movement queue; for each movement it flips `val`
        and sends it to every connected host. */
    method MouseHandler()
      requires hidsQueue.Valid()
      modifies hidsQueue, this`val, this`reportsSent
      ensures hidsQueue.Valid()
      ensures hidsQueue.items == []
      ensures val == ToggleN(old(val), |old(hidsQueue.items)|)
      ensures reportsSent == old(reportsSent) + MouseSends(slots[..], old(val), |old(hidsQueue.items)|)
    {
      ghost var n := 0;
      while true
        invariant hidsQueue.Valid()
        invariant n + |hidsQueue.items| == |old(hidsQueue.items)|
        invariant val == ToggleN(old(val), n)
        invariant reportsSent == old(reportsSent) + MouseSends(slots[..], old(val), n)
        decreases |hidsQueue.items|
      {
        var err, pos := GetNextMsgNoWait(hidsQueue, JoystickPos(0, 0));
        if err != 0 {
          break;
        }
        n := n + 1;
        val := Toggle(val);
        GamepadMovementSend(val);
      }
    }

    /** `num_comp_reply(accept)`: the oldest pending pairing is confirmed or cancelled;
        the pairing work is resubmitted while pairings remain. */
    method NumCompReply(accept: bool)
      requires mitmQueue.Valid()
      modifies mitmQueue, this`pairingReplies, this`pairingWorkSubmits
      ensures mitmQueue.Valid()
      ensures old(mitmQueue.items) == [] ==>
                mitmQueue.items == [] && pairingReplies == old(pairingReplies)
                && pairingWorkSubmits == old(pairingWorkSubmits)
      ensures old(mitmQueue.items) != [] ==>
                && mitmQueue.items == old(mitmQueue.items)[1..]
                && pairingReplies == old(pairingReplies) + [(old(mitmQueue.items)[0].conn, accept)]
                && pairingWorkSubmits == old(pairingWorkSubmits) + (if mitmQueue.items != [] then 1 else 0)
    {
      var err, pd := mitmQueue.Get(PairingData(0, 0));
      if err != 0 {
        return;
      }
      pairingReplies := pairingReplies + [(pd.conn, accept)];
      var used := mitmQueue.NumUsed();
      if used != 0 {
        pairingWorkSubmits := pairingWorkSubmits + 1;
      }
    }

    /** The movement half of `button_changed`: a movement is queued when a direction
        key is among the buttons and the queue has room (a full queue drops it, without
        purging), and the drain work is submitted when it is the only queued movement. */
    method QueueMovement(buttons: bv32)
      requires hidsQueue.Valid() && hidsQueue.capacity == HidsQueueSize
      modifies hidsQueue, this`hidsWorkSubmits
      ensures hidsQueue.Valid()
      ensures var mv := Movement(buttons);
              && (mv.None? || |old(hidsQueue.items)| == HidsQueueSize ==>
                    hidsQueue.items == old(hidsQueue.items) && hidsWorkSubmits == old(hidsWorkSubmits))
              && (mv.Some? && |old(hidsQueue.items)| < HidsQueueSize ==>
                    && hidsQueue.items == old(hidsQueue.items) + [mv.value]
                    && hidsWorkSubmits == old(hidsWorkSubmits) + (if old(hidsQueue.items) == [] then 1 else 0))
    {
      var mv := Movement(buttons);
      if mv.Some? {
        var err := hidsQueue.Put(mv.value, 0);
        if err != 0 {
          return;
        }
        var used := hidsQueue.NumUsed();
        if used == 1 {
          hidsWorkSubmits := hidsWorkSubmits + 1;
        }
      }
    }

    /** `button_changed`: only buttons both pressed and changed count. While a pairing
        waits, button 1 confirms and button 2 rejects it, and nothing is queued;
        otherwise the buttons are turned into a queued movement. */
    method ButtonChanged(buttonState: bv32, hasChanged: bv32)
      requires hidsQueue.Valid() && hidsQueue.capacity == HidsQueueSize && mitmQueue.Valid()
      modifies hidsQueue, mitmQueue, this`pairingReplies, this`pairingWorkSubmits,
               this`hidsWorkSubmits
      ensures hidsQueue.Valid() && mitmQueue.Valid()
      ensures var answer := PairingAnswer(old(mitmQueue.items) != [], buttonState & hasChanged);
              answer.Some? ==>
                && hidsQueue.items == old(hidsQueue.items)
                && hidsWorkSubmits == old(hidsWorkSubmits)
                && mitmQueue.items == old(mitmQueue.items)[1..]
                && pairingReplies == old(pairingReplies) + [(old(mitmQueue.items)[0].conn, answer.value)]
      ensures var answer := PairingAnswer(old(mitmQueue.items) != [], buttonState & hasChanged);
              var mv := Movement(buttonState & hasChanged);
              answer.None? ==>
                && mitmQueue.items == old(mitmQueue.items)
                && pairingReplies == old(pairingReplies)
                && (mv.None? || |old(hidsQueue.items)| == HidsQueueSize ==>
                      hidsQueue.items == old(hidsQueue.items) && hidsWorkSubmits == old(hidsWorkSubmits))
                && (mv.Some? && |old(hidsQueue.items)| < HidsQueueSize ==>
                      && hidsQueue.items == old(hidsQueue.items) + [mv.value]
                      && hidsWorkSubmits == old(hidsWorkSubmits) + (if old(hidsQueue.items) == [] then 1 else 0))
    {
      var buttons := buttonState & hasChanged;
      var pending := mitmQueue.NumUsed();
      var answer := PairingAnswer(pending != 0, buttons);
      if answer.Some? {
        NumCompReply(answer.value);
        return;
      }
      QueueMovement(buttons);
    }
  }
}
