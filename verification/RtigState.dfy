/** One federation as the RTIG keeps it, and each service of the RTIG as a function on it.

    The class Federation is proved to compute these functions.
 */
module RtigState {
  import opened FederationTime
  import opened Lbts
  import opened Messages

  datatype Member = Member(
    regulator: bool,
    constrained: bool,
    saving: bool,
    restoring: bool,
    usingNerx: bool,
    nerx: Time,
    points: set<string>)

  datatype Rtig = Rtig(
    members: map<Handle, Member>,
    regulators: Clocks,
    points: map<string, string>,
    saveInProgress: bool,
    saveStatus: bool,
    restoreInProgress: bool,
    restoreStatus: bool,
    minNerx: Time)

  const NEW_MEMBER := Member(false, false, false, false, false, ZERO, {})

  const INITIAL := Rtig(map[], map[], map[], false, true, false, true, ZERO)

  // `ok` is false when the service ends in an exception.
  datatype Answer = Answer(rtig: Rtig, responses: seq<Response>, ok: bool)

  function Failure(r: Rtig): Answer {
    Answer(r, [], false)
  }

  // ---- Membership ----

  // The new member owes every pending synchronization point.
  function Add(r: Rtig, h: Handle): Answer
    requires h !in r.members
  {
    Answer(r.(members := r.members[h := NEW_MEMBER.(points := r.points.Keys)]), [], true)
  }

  // ---- Regulators ----

  function AddRegulator(r: Rtig, h: Handle, date: Time): Answer {
    if h !in r.members || h in r.regulators then Failure(r)
    else
      var r1 := r.(regulators := r.regulators[h := date]);
      if r.members[h].regulator then Failure(r1) else
      Answer(r1.(members := r.members[h := r.members[h].(regulator := true)]),
             [Response(r.members.Keys, RegulatorOn(h, date)),
              Response({h}, Command(RegulationEnabled(date)))],
             true)
  }

  function UpdateRegulator(r: Rtig, h: Handle, date: Time): Answer {
    if h !in r.members || !r.members[h].regulator || h !in r.regulators then Failure(r)
    else
      Answer(r.(regulators := r.regulators[h := Advanced(r.regulators[h], date)]),
             [Response(r.members.Keys - {h}, Null(h, date))],
             true)
  }

  function RemoveRegulator(r: Rtig, h: Handle): Answer {
    if h !in r.members || h !in r.regulators then Failure(r)
    else
      var r1 := r.(regulators := r.regulators - {h});
      if !r.members[h].regulator then Failure(r1) else
      Answer(r1.(members := r.members[h := r.members[h].(regulator := false)]),
             [Response(r.members.Keys, RegulatorOff(h))],
             true)
  }

  function SetConstrained(r: Rtig, h: Handle, on: bool): Answer {
    if h !in r.members || r.members[h].constrained == on then Failure(r)
    else
      Answer(r.(members := r.members[h := r.members[h].(constrained := on)]),
             if on then [Response({h}, Command(ConstrainedEnabled))] else [],
             true)
  }

  // ---- Synchronization points ----

  // No federate owes a point that is not pending.
  ghost predicate NoStrayPoints(r: Rtig) {
    forall h :: h in r.members ==> r.members[h].points <= r.points.Keys
  }

  // What every service keeps.
  ghost predicate Sound(r: Rtig) {
    r.regulators.Keys <= r.members.Keys && NoStrayPoints(r)
  }

  function Owing(m: Member, point: string): Member {
    m.(points := m.points + {point})
  }

  function RegistrationFailed(r: Rtig, h: Handle, point: string): Answer {
    Answer(r, [Response({h}, Command(Confirmed(point, false)))], false)
  }

  // For all members. Nobody owes the new point yet, so nobody refuses it.
  function RegisterForAll(r: Rtig, h: Handle, point: string, tag: string): Answer
    requires NoStrayPoints(r)
  {
    if h !in r.members || point == "" || point in r.points then RegistrationFailed(r, h, point)
    else
      Answer(r.(points := r.points[point := tag], members := map k | k in r.members :: Owing(r.members[k], point)),
             [Response(r.members.Keys, Command(Announced(point, tag))), Response({h}, Command(Confirmed(point, true)))],
             true)
  }

  datatype Owed = Accepted | AlreadyOwed | NotMember

  // Each of `who` in turn comes to owe `point`, up to the first that cannot.
  function OweInTurn(members: map<Handle, Member>, who: seq<Handle>, point: string): (map<Handle, Member>, Owed)
    decreases |who|
  {
    if who == [] then (members, Accepted)
    else if who[0] !in members then (members, NotMember)
    else if point in members[who[0]].points then (members, AlreadyOwed)
    else OweInTurn(members[who[0] := Owing(members[who[0]], point)], who[1..], point)
  }

  // The requester comes first, unless the set is empty.
  function Owers(h: Handle, who: seq<Handle>): seq<Handle> {
    if who == [] then [] else [h] + who
  }

  // For a set of federates. A failure midway leaves the point pending, owed by those before it;
  // a handle that is not a member ends in an exception no handler catches.
  function RegisterForSome(r: Rtig, h: Handle, point: string, tag: string, who: seq<Handle>): Answer {
    if h !in r.members || point == "" || point in r.points then RegistrationFailed(r, h, point)
    else
      var (members, owed) := OweInTurn(r.members, Owers(h, who), point);
      var r1 := r.(points := r.points[point := tag], members := members);
      match owed
      case Accepted =>
        Answer(r1,
               [Response((set k | k in who), Command(Announced(point, tag))),
                Response({h}, Command(Confirmed(point, true)))],
               true)
      case AlreadyOwed => RegistrationFailed(r1, h, point)
      case NotMember => Failure(r1)
  }

  predicate Owes(r: Rtig, h: Handle, point: string) {
    h in r.members && point in r.members[h].points
  }

  function Achieve(r: Rtig, h: Handle, point: string): Answer {
    if point == "" || !Owes(r, h, point) then Failure(r)
    else
      var m := r.members[h];
      var r1 := r.(members := r.members[h := m.(points := m.points - {point})]);
      if exists k :: k in r1.members && Owes(r1, k, point) then Answer(r1, [], true)
      else
        Answer(r1.(points := r.points - {point}), [Response(r.members.Keys, Command(Synchronized(point)))], true)
  }

  // ---- Save and restore ----

  predicate AnySaving(r: Rtig) {
    exists h :: h in r.members && r.members[h].saving
  }

  predicate AnyRestoring(r: Rtig) {
    exists h :: h in r.members && r.members[h].restoring
  }

  function RequestSave(r: Rtig, h: Handle, title: string): Answer {
    if h !in r.members || r.saveInProgress then Failure(r)
    else
      Answer(r.(members := map k | k in r.members :: r.members[k].(saving := true), saveStatus := true,
                saveInProgress := true),
             [Response(r.members.Keys, InitiateSave(title))], true)
  }

  // `written` tells whether the RTIG's own data could be written, should it come to that.
  function SaveReport(r: Rtig, h: Handle, saved: bool, written: bool): Answer {
    if h !in r.members then Failure(r)
    else
      var r1 := r.(members := r.members[h := r.members[h].(saving := false)], saveStatus := r.saveStatus && saved);
      if AnySaving(r1) then Answer(r1, [], true)
      else
        Answer(r1.(saveStatus := true, saveInProgress := false),
               [Response(r.members.Keys, SaveEnded(r1.saveStatus && written))], true)
  }

  // Whether the saved data can be read is ignored.
  function RequestRestore(r: Rtig, h: Handle, title: string): Answer {
    if h !in r.members || r.restoreInProgress then Failure(r)
    else
      Answer(r.(members := map k | k in r.members :: r.members[k].(restoring := true),
                restoreStatus := true, restoreInProgress := true),
             [Response({h}, Command(RestoreAccepted(title))),
              Response(r.members.Keys, Command(RestoreBegun)),
              Response(r.members.Keys, Command(InitiateRestore(title)))], true)
  }

  function RestoreReport(r: Rtig, h: Handle, restored: bool): Answer {
    if h !in r.members then Failure(r)
    else
      var r1 := r.(members := r.members[h := r.members[h].(restoring := false)],
                   restoreStatus := r.restoreStatus && restored);
      if AnyRestoring(r1) then Answer(r1, [], true)
      else
        Answer(r1.(restoreStatus := true, restoreInProgress := false),
               [Response(r.members.Keys, Command(RestoreEnded(r1.restoreStatus)))], true)
  }

  // ---- Next event requests of several regulators ----

  function Asking(r: Rtig): set<Handle>
    requires r.regulators.Keys <= r.members.Keys
  {
    set h | h in r.regulators && r.members[h].usingNerx
  }

  // A regulator counts with the date it asks for, if it asks, and with its clock otherwise.
  function NerxClocks(r: Rtig): Clocks
    requires r.regulators.Keys <= r.members.Keys
  {
    map h | h in r.regulators :: if r.members[h].usingNerx then r.members[h].nerx else r.regulators[h]
  }

  ghost function MinNerx(r: Rtig): Time
    requires r.regulators.Keys <= r.members.Keys
  {
    if |Asking(r)| < 2 then ZERO else Least(NerxClocks(r), 0)
  }

  function NoLongerAsking(m: Member): Member {
    if m.usingNerx then m.(nerx := ZERO, usingNerx := false) else m
  }

  // A new minimum goes to everyone as an anonymous null message.
  ghost function NullPrime(r: Rtig, h: Handle, date: Time): Answer
    requires r.regulators.Keys <= r.members.Keys
  {
    if h !in r.members then Failure(r)
    else
      var r1 := r.(members := r.members[h := r.members[h].(nerx := date, usingNerx := true)]);
      var least := MinNerx(r1);
      if !r.minNerx.Lt(least) then Answer(r1, [], true)
      else
        Answer(r1.(minNerx := least, members := map k | k in r1.members :: NoLongerAsking(r1.members[k])),
               [Response(r.members.Keys, Null(0, least))], true)
  }

  // ---- One message of a federate ----

  // Updates and interactions go to `subscribers`, which the object model decides.
  function Process(r: Rtig, m: Message, subscribers: set<Handle>): Answer {
    match m
    case Null(src, date) => UpdateRegulator(r, src, date)
    case RegulatorOn(src, date) => AddRegulator(r, src, date)
    case RegulatorOff(src) => RemoveRegulator(r, src)
    case Constraining(src, on) => SetConstrained(r, src, on)
    case Timed(event) => Answer(r, [Response(subscribers - {event.src}, m)], true)
    case Plain(src, _) => Answer(r, [Response(subscribers - {src}, m)], true)
    case _ => Failure(r)
  }

  // What `responses` hold for one federate, in order.
  function For(responses: seq<Response>, h: Handle): seq<Message> {
    if responses == [] then []
    else (if h in responses[0].to then [responses[0].message] else []) + For(responses[1..], h)
  }
}
