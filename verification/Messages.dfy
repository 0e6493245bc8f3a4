/** What travels between the RTIAs and the RTIG, and what an RTIA tells its federate. */
module Messages {
  import opened FederationTime

  // A dated update or interaction: the only kind of message delivered in time stamp order.
  datatype Event = Event(src: Handle, date: Time, id: nat)

  datatype Notice =
    | RegulationEnabled(date: Time)
    | ConstrainedEnabled
    | Confirmed(point: string, success: bool)
    | Announced(point: string, tag: string)
    | Synchronized(point: string)
    | RestoreAccepted(title: string)
    | RestoreBegun
    | InitiateRestore(title: string)
    | RestoreEnded(restored: bool)
    | Other(id: nat)

  datatype Message =
    | Null(src: Handle, date: Time)
    | RegulatorOn(src: Handle, date: Time)
    | RegulatorOff(src: Handle)
    | Constraining(src: Handle, on: bool)
    | Timed(event: Event)
    | Plain(src: Handle, id: nat)
    | InitiateSave(title: string)
    | SaveEnded(saved: bool)
    | Command(notice: Notice)
    | JoinReply(federate: Handle, regulators: nat)
    | EventReply(src: Handle)

  // The answers an RTIA blocks for.
  datatype Kind = NullKind | JoinKind | EventReplyKind | OtherKind

  function KindOf(m: Message): Kind {
    if m.Null? then NullKind else if m.JoinReply? then JoinKind else if m.EventReply? then EventReplyKind else OtherKind
  }

  // The federate field of a message, zero when it carries none.
  function FederateOf(m: Message): Handle {
    match m
    case Null(src, _) => src
    case RegulatorOn(src, _) => src
    case RegulatorOff(src) => src
    case Constraining(src, _) => src
    case Timed(event) => event.src
    case Plain(src, _) => src
    case JoinReply(federate, _) => federate
    case EventReply(src) => src
    case _ => 0
  }

  // One message of the RTIG, with the federates it is sent to.
  datatype Response = Response(to: set<Handle>, message: Message)
}
