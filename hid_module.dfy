/** The HID service glue (project/src/modules/hid_module.c). It keeps a record of the one
    connected HID host (`cur_conn`, `secured`, `protocol_boot`) that Bluetooth peer events
    drive, forwards speed events to that host as input reports, and classifies send
    failures. The module-level variables the file uses but does not declare are modelled
    as the fields of `HidModule`. */
module HidModule {
  import opened Common

  /** The connection record: the current host, whether its link is secured, whether it
      chose the boot protocol, and whether the delayed `notify_secured` work is pending. */
  datatype ConnRecord = ConnRecord(curConn: Option<ConnId>, secured: bool, protocolBoot: bool,
                                   securedPending: bool)

  const Disconnected: ConnRecord := ConnRecord(None, false, false, false)

  /** A call of `broadcast_subscription_change(r_id, enabled)`. */
  datatype Broadcast = Broadcast(reportId: nat, enabled: bool)

  /** The broadcasts `notify_secured_fn` makes: one per report id, in ascending order,
      each with the id's entry of `report_enabled`. */
  function SubscriptionBroadcasts(reportEnabled: seq<bool>): (b: seq<Broadcast>)
    ensures |b| == |reportEnabled|
    ensures forall i :: 0 <= i < |b| ==> b[i] == Broadcast(i, reportEnabled[i])
    decreases |reportEnabled|
  {
    if reportEnabled == [] then []
    else
      var n := |reportEnabled| - 1;
      SubscriptionBroadcasts(reportEnabled[..n]) + [Broadcast(n, reportEnabled[n])]
  }

  /** The record's invariant: without a host nothing is secured, the protocol is the
      report protocol and no secured notification is pending. */
  predicate Consistent(rec: ConnRecord)
  {
    rec.curConn.None? ==> !rec.secured && !rec.protocolBoot && !rec.securedPending
  }

  /** The result of handling a peer event: the new record, or a failed
      `__ASSERT_NO_MSG` (the record is then left as it was). */
  datatype NotifyOutcome = Done(rec: ConnRecord) | AssertFailed

  /** `notify_secured_fn`: the link becomes secured. */
  function NotifySecured(rec: ConnRecord): (r: ConnRecord)
    ensures r.secured && !r.securedPending
    ensures r.curConn == rec.curConn && r.protocolBoot == rec.protocolBoot
  {
    rec.(secured := true, securedPending := false)
  }

  /** `notify_hids` with `CONFIG_DESKTOP_HIDS_FIRST_REPORT_DELAY` = `delayMs`. */
  function Notify(rec: ConnRecord, ev: PeerEvent, delayMs: int): (o: NotifyOutcome)
    ensures ev.state == PeerConnected ==>
              if rec.curConn.Some? then o == AssertFailed
              else o == Done(rec.(curConn := Some(ev.id)))
    ensures ev.state == PeerDisconnected ==>
              if rec.curConn != Some(ev.id) then o == AssertFailed
              else o == Done(Disconnected)
    ensures ev.state == PeerSecured ==>
              if rec.curConn != Some(ev.id) then o == AssertFailed
              else if delayMs > 0 then o == Done(rec.(securedPending := true))
              else o.Done? && o.rec.secured && o.rec.curConn == rec.curConn
                   && o.rec.protocolBoot == rec.protocolBoot
    ensures ev.state == PeerDisconnecting || ev.state == PeerConnFailed ==> o == Done(rec)
    ensures ev.state.PeerUnknown? ==> o == AssertFailed
  {
    match ev.state
    case PeerConnected =>
      if rec.curConn.Some? then AssertFailed else Done(rec.(curConn := Some(ev.id)))
    case PeerDisconnected =>
      if rec.curConn != Some(ev.id) then AssertFailed else Done(Disconnected)
    case PeerSecured =>
      if rec.curConn != Some(ev.id) then AssertFailed
      else if delayMs > 0 then Done(rec.(securedPending := true))
      else Done(NotifySecured(rec))
    case PeerDisconnecting => Done(rec)
    case PeerConnFailed => Done(rec)
    case PeerUnknown(_) => AssertFailed
  }

  /** The delayed `notify_secured` work running: it only has an effect while pending
      (a disconnection cancels it). */
  function SecuredWorkRuns(rec: ConnRecord): (r: ConnRecord)
    ensures rec.securedPending ==> r == NotifySecured(rec)
    ensures !rec.securedPending ==> r == rec
  {
    if rec.securedPending then NotifySecured(rec) else rec
  }

  /** Every peer event that passes the assertions keeps the record consistent. */
  lemma NotifyPreservesConsistent(rec: ConnRecord, ev: PeerEvent, delayMs: int)
    requires Consistent(rec)
    ensures Notify(rec, ev, delayMs).Done? ==> Consistent(Notify(rec, ev, delayMs).rec)
  {
  }

  /** A sequence of peer events handled in order; the first failed assertion stops it. */
  function NotifyAll(rec: ConnRecord, evs: seq<PeerEvent>, delayMs: int): NotifyOutcome
    decreases |evs|
  {
    if evs == [] then Done(rec)
    else match Notify(rec, evs[0], delayMs)
      case AssertFailed => AssertFailed
      case Done(r) => NotifyAll(r, evs[1..], delayMs)
  }

  /** From the power-on record, any series of peer events that passes the assertions
      leaves a consistent record: in particular the link is never reported secured while
      no host is connected. */
  lemma {:induction false} NotifyAllConsistent(rec: ConnRecord, evs: seq<PeerEvent>, delayMs: int)
    requires Consistent(rec)
    ensures NotifyAll(rec, evs, delayMs).Done? ==> Consistent(NotifyAll(rec, evs, delayMs).rec)
    decreases |evs|
  {
    if evs != [] {
      NotifyPreservesConsistent(rec, evs[0], delayMs);
      if Notify(rec, evs[0], delayMs).Done? {
        NotifyAllConsistent(Notify(rec, evs[0], delayMs).rec, evs[1..], delayMs);
      }
    }
  }

  /** How many CONNECTED events `evs` holds minus how many DISCONNECTED ones. */
  function OpenConnections(evs: seq<PeerEvent>): int
  {
    if evs == [] then 0
    else OpenConnections(evs[..|evs| - 1])
         + (if evs[|evs| - 1].state == PeerConnected then 1
            else if evs[|evs| - 1].state == PeerDisconnected then -1 else 0)
  }

  /** One host at a time: from no connection, a series of peer events passes the
      assertions only if every prefix has at most one more CONNECTED than DISCONNECTED;
      the final record holds a host exactly when that difference is one. */
  lemma {:induction false} NotifyAllOneHost(evs: seq<PeerEvent>, delayMs: int)
    ensures NotifyAll(Disconnected, evs, delayMs).Done? ==>
              && (forall k :: 0 <= k <= |evs| ==> 0 <= OpenConnections(evs[..k]) <= 1)
              && (NotifyAll(Disconnected, evs, delayMs).rec.curConn.Some? <==> OpenConnections(evs) == 1)
  {
    OneHostFrom(Disconnected, evs, delayMs, []);
    assert evs == [] + evs;
  }

  /** The induction behind `NotifyAllOneHost`, with the events already handled as `done`. */
  lemma {:induction false} OneHostFrom(rec: ConnRecord, evs: seq<PeerEvent>, delayMs: int, done: seq<PeerEvent>)
    requires OpenConnections(done) == (if rec.curConn.Some? then 1 else 0)
    requires forall k :: 0 <= k <= |done| ==> 0 <= OpenConnections(done[..k]) <= 1
    ensures NotifyAll(rec, evs, delayMs).Done? ==>
              && (forall k :: 0 <= k <= |done + evs| ==> 0 <= OpenConnections((done + evs)[..k]) <= 1)
              && (NotifyAll(rec, evs, delayMs).rec.curConn.Some? <==> OpenConnections(done + evs) == 1)
    decreases |evs|
  {
    if evs == [] {
      assert done + evs == done;
    } else {
      var o := Notify(rec, evs[0], delayMs);
      if o.Done? {
        var done' := done + [evs[0]];
        assert done'[..|done'| - 1] == done;
        forall k | 0 <= k <= |done'|
          ensures 0 <= OpenConnections(done'[..k]) <= 1
        {
          if k <= |done| {
            assert done'[..k] == done[..k];
          } else {
            assert done'[..k] == done';
          }
        }
        assert done' + evs[1..] == done + evs;
        OneHostFrom(o.rec, evs[1..], delayMs, done');
      }
    }
  }

  /** How `send_hid_report` classifies a failed send. */
  datatype SendError = NotConnected | IncompatibleMode | OtherError(err: int)

  function Classify(err: int): (c: SendError)
    requires err != 0
    ensures c == NotConnected <==> err == -ENOTCONN
    ensures c == IncompatibleMode <==> err == -EBADF
    ensures c.OtherError? ==> c.err == err && err != -ENOTCONN && err != -EBADF
  {
    if err == -ENOTCONN then NotConnected
    else if err == -EBADF then IncompatibleMode
    else OtherError(err)
  }

  /** What one `send_hid_report` call does: nothing (the report is not for the current
      host); a successful send over the link; or a failure, classified once and reported
      back through `hid_report_sent(cur_conn, ..., true)`, with no retry. `linkCalled`
      says whether `bt_hids_inp_rep_send` was called. */
  datatype SendOutcome = Ignored | Sent | Failed(err: int, kind: SendError)
  datatype SendResult = SendResult(linkCalled: bool, outcome: SendOutcome)

  /** `send_hid_report` for a report addressed to `subscriber`; `linkErr` is what the
      link-layer send would return. */
  function SendHidReport(rec: ConnRecord, subscriber: Option<ConnId>, linkErr: int): (r: SendResult)
    ensures (rec.curConn.None? || rec.curConn != subscriber) <==> r.outcome == Ignored
    ensures r.outcome == Ignored ==> !r.linkCalled
    ensures r.linkCalled <==> r.outcome != Ignored && !rec.protocolBoot
    ensures r.outcome != Ignored && rec.protocolBoot ==> r.outcome == Failed(-EBADF, IncompatibleMode)
    ensures r.outcome == Sent <==> r.linkCalled && linkErr == 0
    ensures r.outcome.Failed? ==> r.outcome.err != 0 && r.outcome.kind == Classify(r.outcome.err)
    ensures r.linkCalled && linkErr != 0 ==> r.outcome.Failed? && r.outcome.err == linkErr
  {
    if rec.curConn.None? || rec.curConn != subscriber then SendResult(false, Ignored)
    else
      var linkCalled := !rec.protocolBoot;
      var err := if rec.protocolBoot then -EBADF else linkErr;
      if err != 0 then SendResult(linkCalled, Failed(err, Classify(err)))
      else SendResult(linkCalled, Sent)
  }

  /** The send gate does not look at `secured`: a report for a connected host goes to
      the link before the link is secured. */
  lemma SendBeforeSecured(id: ConnId, linkErr: int)
    ensures var rec := ConnRecord(Some(id), false, false, false);
            SendHidReport(rec, Some(id), linkErr).linkCalled
  {
  }

  /** The events the module listens to. `SpeedReport` is a qdec module event, which the
      handler hands to `send_hid_report` in place of a HID report event; `subscriber` is
      the value that function reads as the report's addressee. `Unsubscribed` stands for
      any other event type, which trips the assertion. */
  datatype HidAppEvent =
    | SpeedReport(subscriber: Option<ConnId>)
    | Peer(ev: PeerEvent)
    | HidNotification
    | ModuleStateChanged(source: ModuleId, state: ModuleState)
    | Unsubscribed

  /** The module's variables, and the logs of its calls out: the hosts a report was
      sent to over the link (`bt_hids_inp_rep_send`), the hosts to which a failed send
      was reported (`hid_report_sent(cur_conn, ..., true)`), the subscription
      broadcasts, and the number of notifications handed to `sync_notif_handler`.
      `reportEnabled` is `report_enabled`, one entry per report id. */
  class HidModule {
    const firstReportDelayMs: int
    const reportEnabled: seq<bool>
    var curConn: Option<ConnId>
    var secured: bool
    var protocolBoot: bool
    var securedPending: bool
    var initialized: bool
    var ready: bool
    var linkSends: seq<ConnId>
    var failedReports: seq<ConnId>
    var broadcasts: seq<Broadcast>
    var syncNotifs: nat

    /** The connection record the variables hold. */
    function Record(): ConnRecord
      reads this
    {
      ConnRecord(curConn, secured, protocolBoot, securedPending)
    }

    /** The record is consistent, and without a first-report delay the secured
        notification is never left pending. */
    predicate Valid()
      reads this
    {
      Consistent(Record()) && (firstReportDelayMs <= 0 ==> !securedPending)
    }

    constructor (firstReportDelayMs: int, reportEnabled: seq<bool>)
      ensures Valid()
      ensures this.firstReportDelayMs == firstReportDelayMs && this.reportEnabled == reportEnabled
      ensures Record() == Disconnected && !initialized && !ready
      ensures linkSends == [] && failedReports == [] && broadcasts == [] && syncNotifs == 0
    {
      this.firstReportDelayMs := firstReportDelayMs;
      this.reportEnabled := reportEnabled;
      curConn, secured, protocolBoot, securedPending := None, false, false, false;
      initialized, ready := false, false;
      linkSends, failedReports, broadcasts, syncNotifs := [], [], [], 0;
    }

    method SetRecord(rec: ConnRecord)
      modifies this`curConn, this`secured, this`protocolBoot, this`securedPending
      ensures Record() == rec
    {
      curConn, secured, protocolBoot, securedPending :=
        rec.curConn, rec.secured, rec.protocolBoot, rec.securedPending;
    }

    /** `notify_secured_fn`: the link becomes secured, and every report's subscription
        state is broadcast. */
    method NotifySecuredFn()
      modifies this`secured, this`securedPending, this`broadcasts
      ensures Record() == NotifySecured(old(Record()))
      ensures broadcasts == old(broadcasts) + SubscriptionBroadcasts(reportEnabled)
    {
      secured := true;
      securedPending := false;
      for rId := 0 to |reportEnabled|
        modifies this`broadcasts
        invariant broadcasts == old(broadcasts) + SubscriptionBroadcasts(reportEnabled[..rId])
      {
        assert reportEnabled[..rId + 1][..rId] == reportEnabled[..rId];
        broadcasts := broadcasts + [Broadcast(rId, reportEnabled[rId])];
      }
      assert reportEnabled[..|reportEnabled|] == reportEnabled;
    }

    /** The delayed `notify_secured` work item running after its delay. */
    method SecuredWorkHandler()
      requires Valid()
      modifies this`secured, this`securedPending, this`broadcasts
      ensures Valid()
      ensures Record() == SecuredWorkRuns(old(Record()))
      ensures broadcasts == old(broadcasts) +
                (if old(securedPending) then SubscriptionBroadcasts(reportEnabled) else [])
    {
      if securedPending {
        NotifySecuredFn();
      }
    }

    /** `notify_hids`: `ok` is false when an assertion fails, and then nothing changes.
        A SECURED event without a first-report delay runs `notify_secured_fn` at once,
        with its broadcasts. */
    method NotifyHids(ev: PeerEvent) returns (ok: bool)
      requires Valid()
      modifies this`curConn, this`secured, this`protocolBoot, this`securedPending, this`broadcasts
      ensures Valid()
      ensures var o := Notify(old(Record()), ev, firstReportDelayMs);
              ok == o.Done? && Record() == (if ok then o.rec else old(Record()))
      ensures broadcasts == old(broadcasts) +
                (if ok && ev.state == PeerSecured && firstReportDelayMs <= 0
                 then SubscriptionBroadcasts(reportEnabled) else [])
    {
      ok := true;
      match ev.state {
        case PeerConnected =>
          if curConn.Some? {
            ok := false;
            return;
          }
          curConn := Some(ev.id);
        case PeerDisconnected =>
          if curConn != Some(ev.id) {
            ok := false;
            return;
          }
          curConn := None;
          secured := false;
          protocolBoot := false;
          if firstReportDelayMs > 0 {
            securedPending := false;
          }
        case PeerSecured =>
          if curConn != Some(ev.id) {
            ok := false;
            return;
          }
          if firstReportDelayMs > 0 {
            securedPending := true;
          } else {
            NotifySecuredFn();
          }
        case PeerDisconnecting =>
        case PeerConnFailed =>
        case PeerUnknown(_) =>
          ok := false;
      }
    }

    /** `send_hid_report`: the logs grow by the link send and the failure report the
        pure description calls for; the record does not change. */
    method SendReport(subscriber: Option<ConnId>, linkErr: int)
      modifies this`linkSends, this`failedReports
      ensures var r := SendHidReport(Record(), subscriber, linkErr);
              && linkSends == old(linkSends) + (if r.linkCalled then [curConn.value] else [])
              && failedReports == old(failedReports) + (if r.outcome.Failed? then [curConn.value] else [])
    {
      if curConn.None? || curConn != subscriber {
        return;
      }
      var err: int;
      if protocolBoot {
        err := -EBADF;
      } else {
        linkSends := linkSends + [curConn.value];
        err := linkErr;
      }
      if err != 0 {
        var _ := Classify(err);
        failedReports := failedReports + [curConn.value];
      }
    }

    /** `app_event_handler`. Speed events are sent, peer events update the record,
        `ble_state` READY runs the one-time initialisation (a second one trips the
        assertion) and sets the module READY only if the service initialised (`initErr`
        is what `bt_hids_init` returns). A HID notification event is handed to
        `sync_notif_handler`. `ok` is false when an assertion fails. */
    method AppEventHandler(e: HidAppEvent, linkErr: int, initErr: int) returns (consumed: bool, ok: bool)
      requires Valid()
      modifies this
      ensures !consumed
      ensures Valid()
      ensures e.SpeedReport? ==>
                var r := SendHidReport(Record(), e.subscriber, linkErr);
                && ok && Record() == old(Record())
                && linkSends == old(linkSends) + (if r.linkCalled then [curConn.value] else [])
                && failedReports == old(failedReports) + (if r.outcome.Failed? then [curConn.value] else [])
      ensures e.Peer? ==>
                var o := Notify(old(Record()), e.ev, firstReportDelayMs);
                ok == o.Done? && Record() == (if ok then o.rec else old(Record()))
      ensures !e.SpeedReport? ==> linkSends == old(linkSends) && failedReports == old(failedReports)
      ensures broadcasts == old(broadcasts) +
                (if e.Peer? && ok && e.ev.state == PeerSecured && firstReportDelayMs <= 0
                 then SubscriptionBroadcasts(reportEnabled) else [])
      ensures syncNotifs == old(syncNotifs) + (if e.HidNotification? then 1 else 0)
      ensures e.ModuleStateChanged? && e.source == BleStateModule && e.state == StateReady ==>
                && ok == !old(initialized)
                && initialized
                && ready == (if ok then old(ready) || initErr == 0 else old(ready))
      ensures !e.Peer? && !(e.ModuleStateChanged? && e.source == BleStateModule && e.state == StateReady) ==>
                Record() == old(Record()) && initialized == old(initialized) && ready == old(ready)
                && ok == !e.Unsubscribed?
    {
      consumed, ok := false, true;
      match e {
        case SpeedReport(subscriber) =>
          SendReport(subscriber, linkErr);
        case Peer(ev) =>
          ok := NotifyHids(ev);
        case HidNotification =>
          syncNotifs := syncNotifs + 1;
        case ModuleStateChanged(source, state) =>
          if source == BleStateModule && state == StateReady {
            if initialized {
              ok := false;
              return;
            }
            initialized := true;
            if initErr != 0 {
              return;
            }
            ready := true;
          }
        case Unsubscribed =>
          ok := false;
      }
    }
  }
}
