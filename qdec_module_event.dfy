/** The qdec module's event (project/src/events/qdec_module_event.c): its kinds, the
    name each kind is logged under, and the log line the event manager prints for it. */
module QdecEvents {
  import Common

  /** `enum qdec_module_event_type` as the event's source file names it, plus
      `QDEC_EVT_DATA_SEND`, which the BLE module tests for but the source file's name
      table does not list. `Other` is any value outside the enumeration. */
  datatype QdecEventType =
    | ADataSend
    | BDataSend
    | DataReady
    | ShutdownReady
    | Error
    | DataSend
    | Other(raw: int)

  /** `struct qdec_module_event`: the kind, the error code of an ERROR event and the
      two wheel speeds of a DATA_READY event. */
  datatype QdecEvent = QdecEvent(kind: QdecEventType, err: int, rotSpeedA: real, rotSpeedB: real)

  /** The name `get_evt_type_str` returns for a kind. */
  function EvtTypeStr(t: QdecEventType): (name: string)
    ensures t.ADataSend? <==> name == "QDEC_A_EVT_DATA_SEND"
    ensures t.BDataSend? <==> name == "QDEC_B_EVT_DATA_SEND"
    ensures t.DataReady? <==> name == "QDEC_EVT_DATA_READY"
    ensures t.ShutdownReady? <==> name == "QDEC_EVT_SHUTDOWN_READY"
    ensures t.Error? <==> name == "QDEC_EVT_ERROR"
    ensures t.DataSend? || t.Other? <==> name == "Unknown event"
  {
    match t
    case ADataSend => "QDEC_A_EVT_DATA_SEND"
    case BDataSend => "QDEC_B_EVT_DATA_SEND"
    case DataReady => "QDEC_EVT_DATA_READY"
    case ShutdownReady => "QDEC_EVT_SHUTDOWN_READY"
    case Error => "QDEC_EVT_ERROR"
    case _ => "Unknown event"
  }

  /** Reading a kind back from a logged name: `None` for "Unknown event" and for any
      text that is no kind's name. */
  function EvtTypeFromStr(name: string): Common.Option<QdecEventType>
  {
    if name == "QDEC_A_EVT_DATA_SEND" then Common.Some(ADataSend)
    else if name == "QDEC_B_EVT_DATA_SEND" then Common.Some(BDataSend)
    else if name == "QDEC_EVT_DATA_READY" then Common.Some(DataReady)
    else if name == "QDEC_EVT_SHUTDOWN_READY" then Common.Some(ShutdownReady)
    else if name == "QDEC_EVT_ERROR" then Common.Some(Error)
    else Common.None
  }

  /** The five listed kinds are logged under names that identify them: the name reads
      back as the kind. Every other value is logged as "Unknown event", which reads back
      as no kind. */
  lemma EvtTypeStrRoundTrip(t: QdecEventType)
    ensures EvtTypeFromStr(EvtTypeStr(t)) == (if t.DataSend? || t.Other? then Common.None else Common.Some(t))
  {
  }

  /** Conversely, every name that reads back as a kind is that kind's name. */
  lemma EvtTypeFromStrSound(name: string)
    ensures EvtTypeFromStr(name).Some? ==> EvtTypeStr(EvtTypeFromStr(name).value) == name
  {
  }

  /** An argument of a log line. */
  datatype LogArg = StrArg(s: string) | IntArg(i: int) | RealArg(r: real)

  /** A call `APP_EVENT_MANAGER_LOG(aeh, fmt, args...)`. */
  datatype LogLine = LogLine(fmt: string, args: seq<LogArg>)

  /** `log_event`: an ERROR event logs its name and error code, a DATA_READY event its
      name and both wheel speeds, any other event only its name. */
  function LogEvent(e: QdecEvent): (line: LogLine)
    ensures |line.args| >= 1 && line.args[0] == StrArg(EvtTypeStr(e.kind))
    ensures e.kind.Error? ==> line == LogLine("%s - Error code %d", [StrArg("QDEC_EVT_ERROR"), IntArg(e.err)])
    ensures e.kind.DataReady? ==>
              line.fmt == "%s - (QDEC_A, QDEC_B)[deg/s] = (%f, %f)"
              && line.args[1..] == [RealArg(e.rotSpeedA), RealArg(e.rotSpeedB)]
    ensures !e.kind.Error? && !e.kind.DataReady? ==> line == LogLine("%s", [StrArg(EvtTypeStr(e.kind))])
  {
    if e.kind == Error then
      LogLine("%s - Error code %d", [StrArg(EvtTypeStr(e.kind)), IntArg(e.err)])
    else if e.kind == DataReady then
      LogLine("%s - (QDEC_A, QDEC_B)[deg/s] = (%f, %f)",
              [StrArg(EvtTypeStr(e.kind)), RealArg(e.rotSpeedA), RealArg(e.rotSpeedB)])
    else
      LogLine("%s", [StrArg(EvtTypeStr(e.kind))])
  }

  /** The log line tells which kind of event it was for every listed kind: the first
      argument reads back as the event's kind. */
  lemma LogLineNamesKind(e: QdecEvent)
    requires !e.kind.DataSend? && !e.kind.Other?
    ensures var line := LogEvent(e);
            line.args[0].StrArg? && EvtTypeFromStr(line.args[0].s) == Common.Some(e.kind)
  {
    EvtTypeStrRoundTrip(e.kind);
  }
}
