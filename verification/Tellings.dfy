/** Whom the RTIG tells what: federate by federate, and of synchronization points over whole runs. */
module Tellings {
  import opened FederationTime
  import opened Messages
  import opened RtigState
  import opened RtigRuns
  import opened SyncBarrier
  import Federation
  import opened WorldInvariant

  // ---- Registering a point ----

  // The tags with which `point` is announced in a stream, in order.
  function Tags(messages: seq<Message>, point: string): seq<string> {
    if messages == [] then []
    else
      (match messages[0]
       case Command(Announced(p, tag)) => if p == point then [tag] else []
       case _ => [])
      + Tags(messages[1..], point)
  }

  // Neither an announcement nor a confirmation.
  predicate Unrelated(m: Message) {
    !(m.Command? && (m.notice.Announced? || m.notice.Confirmed?))
  }

  lemma {:induction false} OthersHaveNoTags(messages: seq<Message>, point: string)
    requires forall m :: m in messages ==> !(m.Command? && m.notice.Announced?)
    ensures Tags(messages, point) == []
  {
    if messages != [] {
      assert messages[0] in messages;
      OthersHaveNoTags(messages[1..], point);
    }
  }

  lemma TagsOfTwo(m: Message, n: Message, point: string)
    ensures Tags([], point) == []
    ensures Tags([m], point) == match m
      case Command(Announced(p, tag)) => if p == point then [tag] else []
      case _ => []
    ensures Tags([m, n], point) == Tags([m], point) + Tags([n], point)
  {
    assert [m][1..] == [] && [m, n][1..] == [n] && [n][1..] == [];
  }

  // What federate k is sent of `responses`: one, or two in order.
  lemma ForNoneOneTwo(a: Response, b: Response, k: Handle)
    ensures For([], k) == []
    ensures For([a], k) == if k in a.to then [a.message] else []
    ensures For([a, b], k)
         == (if k in a.to then [a.message] else []) + (if k in b.to then [b.message] else [])
  {
    ForOne(a, k);
    ForOne(b, k);
    ForTwo(a, b, k);
  }

  // A registration for all is accepted from a member for a new point with a name.
  predicate AcceptsForAll(r: Rtig, h: Handle, point: string) {
    h in r.members && point != "" && point !in r.points
  }

  // A registration for a set, if also the set is empty or holds distinct members other than the requester.
  predicate AcceptsForSome(r: Rtig, h: Handle, point: string, who: seq<Handle>) {
    AcceptsForAll(r, h, point)
    && (who == [] || (h !in who && NoRepeats(who) && forall k :: k in who ==> k in r.members))
  }

  // Accepted, every member is told of the point once, with its tag, and then the requester that it was accepted;
  // refused, only the requester is told so.
  lemma RegisterTells(r: Rtig, h: Handle, point: string, tag: string, k: Handle)
    requires Sound(r)
    ensures For(Serve(r, Registers(h, point, tag)).responses, k) ==
      if AcceptsForAll(r, h, point) then
        (if k in r.members then [Command(Announced(point, tag))] else [])
        + (if k == h then [Command(Confirmed(point, true))] else [])
      else if k == h then [Command(Confirmed(point, false))] else []
  {
    var a := Response(r.members.Keys, Command(Announced(point, tag)));
    ForNoneOneTwo(a, Response({h}, Command(Confirmed(point, true))), k);
    ForNoneOneTwo(Response({h}, Command(Confirmed(point, false))), a, k);
    hide For, Sound;
  }

  // For a set, the members of the set are told, and the requester only that it was accepted.
  lemma RegisterForTells(r: Rtig, h: Handle, point: string, tag: string, who: seq<Handle>, k: Handle)
    requires Sound(r)
    ensures AcceptsForSome(r, h, point, who) ==>
      For(Serve(r, RegistersFor(h, point, tag, who)).responses, k)
      == (if k in who then [Command(Announced(point, tag))] else [])
         + (if k == h then [Command(Confirmed(point, true))] else [])
    ensures !AcceptsForSome(r, h, point, who) ==>
      forall m :: m in For(Serve(r, RegistersFor(h, point, tag, who)).responses, k) ==>
        k == h && m == Command(Confirmed(point, false))
  {
    SetFormSucceeds(r, h, point, tag, who);
    SetFormAnswers(r, h, point, tag, who);
    var a := Response((set j | j in who), Command(Announced(point, tag)));
    assert Serve(r, RegistersFor(h, point, tag, who)).ok == AcceptsForSome(r, h, point, who);
    hide *;
    assert k in a.to <==> k in who;
    if AcceptsForSome(r, h, point, who) {
      ForNoneOneTwo(a, Response({h}, Command(Confirmed(point, true))), k);
    } else {
      ForNoneOneTwo(Response({h}, Command(Confirmed(point, false))), a, k);
    }
  }

  lemma SetFormAnswers(r: Rtig, h: Handle, point: string, tag: string, who: seq<Handle>)
    requires Sound(r)
    ensures var a := Serve(r, RegistersFor(h, point, tag, who));
      if a.ok then
        a.responses == [Response((set j | j in who), Command(Announced(point, tag))),
                        Response({h}, Command(Confirmed(point, true)))]
      else a.responses == [] || a.responses == [Response({h}, Command(Confirmed(point, false)))]
  {
    hide OweInTurn, Sound;
  }

  // ---- Who owes the point ----

  lemma RegisterMakesAllOwe(r: Rtig, h: Handle, point: string, tag: string)
    requires Sound(r) && AcceptsForAll(r, h, point)
    ensures var r' := Serve(r, Registers(h, point, tag)).rtig;
      && r'.points == r.points[point := tag]
      && forall k :: Owes(r', k, point) <==> k in r.members
  {
  }

  lemma JoinerOwesAll(r: Rtig, h: Handle, point: string)
    requires Sound(r) && h !in r.members
    ensures Owes(Serve(r, Joins(h)).rtig, h, point) <==> point in r.points
  {
  }

  // Whoever owes a point owes it until it achieves it.
  lemma OwesOn(r: Rtig, s: Service, k: Handle, point: string)
    requires Sound(r) && Owes(r, k, point) && s != Achieves(k, point)
    ensures Owes(Serve(r, s).rtig, k, point)
  {
    if s.Achieves? {
      AchieveChanges(r, s.h, s.point);
    } else if s.RegistersFor? {
      RegisterForSomeChanges(r, s.h, s.point, s.tag, s.who);
    } else if !s.Registers? && !s.Joins? {
      OthersLeavePoints(r, s);
    }
    hide Process, NullPrime, Achieve, SaveReport, RequestSave, RestoreReport, RequestRestore, OweInTurn;
  }

  lemma {:induction false} OwesUntilAchieved(r: Rtig, services: seq<Service>, k: Handle, point: string)
    requires Sound(r) && Owes(r, k, point) && Achieves(k, point) !in services
    ensures Owes(After(r, services), k, point)
    decreases |services|
  {
    hide Sound, Serve, Owes;
    if services != [] {
      ServeIsSound(r, services[0]);
      OwesOn(r, services[0], k, point);
      OwesUntilAchieved(Serve(r, services[0]).rtig, services[1..], k, point);
    }
  }

  // The requester of a set form owes the point like the others, but nobody tells it of the point.
  lemma RequesterOwesUntold(r: Rtig, h: Handle, point: string, tag: string, who: seq<Handle>, k: Handle)
    requires Sound(r) && AcceptsForSome(r, h, point, who)
    ensures var a := Serve(r, RegistersFor(h, point, tag, who));
      Owes(a.rtig, k, point) && Tags(For(a.responses, k), point) == [] <==> who != [] && k == h
  {
    RegisterForTells(r, h, point, tag, who, k);
    TagsOfTwo(Command(Announced(point, tag)), Command(Confirmed(point, true)), point);
    TagsOfTwo(Command(Confirmed(point, true)), Command(Confirmed(point, true)), point);
    SetFormSucceeds(r, h, point, tag, who);
    WhoOwes(r, h, point, tag, who, k);
    hide Serve, Tags, For;
  }

  lemma WhoOwes(r: Rtig, h: Handle, point: string, tag: string, who: seq<Handle>, k: Handle)
    requires Sound(r) && Serve(r, RegistersFor(h, point, tag, who)).ok && point !in r.points
    ensures Owes(Serve(r, RegistersFor(h, point, tag, who)).rtig, k, point) <==> who != [] && (k == h || k in who)
  {
    var owers := Owers(h, who);
    assert h in r.members && point != "" && OweInTurn(r.members, owers, point).1.Accepted?;
    AllOweInTurn(r.members, owers, point, k);
    RegisterForSomeLeaves(r, h, point, tag, who);
    assert k in owers <==> who != [] && (k == h || k in who);
    assert !Owes(r, k, point);
    hide OweInTurn, RegisterForSome;
  }

  lemma {:induction false} AllOweInTurn(members: map<Handle, Member>, who: seq<Handle>, point: string, k: Handle)
    requires OweInTurn(members, who, point).1.Accepted?
    ensures var members' := OweInTurn(members, who, point).0;
      && members'.Keys == members.Keys && (k in who ==> k in members)
      && (k in members' && point in members'[k].points
          <==> k in members && (k in who || point in members[k].points))
    decreases |who|
  {
    if who != [] {
      AllOweInTurn(members[who[0] := Owing(members[who[0]], point)], who[1..], point, k);
    }
  }

  // ---- What is said of a point, over runs ----

  // What a joiner is sent before its reply: one announcement for each pending point.
  ghost predicate Welcomes(r: Rtig, services: seq<Service>, lists: seq<seq<Message>>)
    requires Sound(r)
    decreases |services|
  {
    |lists| == |services| && (services == [] || (
      ServeIsSound(r, services[0]);
      && (services[0].Joins? ==> Federation.ListsPoints(lists[0], r.points))
      && Welcomes(Serve(r, services[0]).rtig, services[1..], lists[1..])))
  }

  // The tags with which `point` is announced to `k` by one service.
  ghost function AnnouncedBy(r: Rtig, s: Service, list: seq<Message>, k: Handle, point: string): seq<string>
    requires Sound(r)
  {
    if s.Joins? && s.h == k && k !in r.members then Tags(list, point) else Tags(For(Serve(r, s).responses, k), point)
  }

  // The tags with which `point` was announced to `k` since it last became pending.
  ghost function AnnouncedSince(r: Rtig, services: seq<Service>, lists: seq<seq<Message>>, k: Handle, point: string,
                        before: seq<string>): seq<string>
    requires Sound(r) && |lists| == |services|
    decreases |services|
  {
    if services == [] then before else
      ServeIsSound(r, services[0]);
      AnnouncedSince(Serve(r, services[0]).rtig, services[1..], lists[1..], k, point,
             (if point in r.points then before else []) + AnnouncedBy(r, services[0], lists[0], k, point))
  }

  // Every service but a registration and a join says nothing of points to come, nor does it touch membership.
  lemma OthersSayNothing(r: Rtig, s: Service, k: Handle)
    requires Sound(r) && !s.Registers? && !s.RegistersFor?
    ensures forall m :: m in For(Serve(r, s).responses, k) ==> Unrelated(m)
  {
    OthersAnswerUnrelated(r, s);
    hide Serve, Sound, Unrelated;
    ForAnswers(Serve(r, s).responses, k, Unrelated);
  }

  // Only what was answered is told.
  lemma {:induction false} ForAnswers(responses: seq<Response>, k: Handle, p: Message -> bool)
    requires forall a :: a in responses ==> p(a.message)
    ensures forall m :: m in For(responses, k) ==> p(m)
    decreases |responses|
  {
    if responses != [] {
      assert responses[0] in responses;
      ForAnswers(responses[1..], k, p);
    }
  }

  lemma OthersAnswerUnrelated(r: Rtig, s: Service)
    requires Sound(r) && !s.Registers? && !s.RegistersFor?
    ensures forall a :: a in Serve(r, s).responses ==> Unrelated(a.message)
  {
    hide Sound, AnySaving, AnyRestoring, MinNerx;
    if s.Relays? {
      RelayAnswersUnrelated(r, s.m, s.subscribers);
      hide Process;
    }
  }

  lemma RelayAnswersUnrelated(r: Rtig, m: Message, subscribers: set<Handle>)
    ensures forall a :: a in Process(r, m, subscribers).responses ==> Unrelated(a.message)
  {
  }

  // Who is a member changes only by joins; the points, by registrations and achievements.
  lemma SameMembers(r: Rtig, s: Service)
    requires Sound(r) && !s.Joins?
    ensures Serve(r, s).rtig.members.Keys == r.members.Keys
  {
    if s.Registers? {
    } else if s.RegistersFor? {
      RegisterForSomeLeaves(r, s.h, s.point, s.tag, s.who);
      OweInTurnOwes(r.members, Owers(s.h, s.who), s.point);
    } else if s.Achieves? {
      AchieveKeepsMembers(r, s.h, s.point);
    } else {
      OthersLeavePoints(r, s);
    }
    hide Process, NullPrime, Achieve, SaveReport, RequestSave, RestoreReport, RequestRestore, OweInTurn,
         RegisterForSome;
  }

  lemma AchieveKeepsTags(r: Rtig, h: Handle, p: string)
    ensures var points := Achieve(r, h, p).rtig.points; points == r.points || points == r.points - {p}
  {
  }

  // ---- A list of the pending points announces each once ----

  function PointsOf(list: seq<Message>): set<string>
    requires forall m :: m in list ==> m.Command? && m.notice.Announced?
  {
    set m | m in list :: m.notice.point
  }

  // A point announced twice is missing elsewhere.
  lemma {:induction false} RepeatsAreMissed(list: seq<Message>, point: string)
    requires forall m :: m in list ==> m.Command? && m.notice.Announced?
    ensures |Tags(list, point)| + |PointsOf(list)| <= |list| + if point in PointsOf(list) then 1 else 0
    decreases |list|
  {
    if list == [] {
      assert PointsOf(list) == {};
    } else {
      RepeatsAreMissed(list[1..], point);
      assert list[0] in list;
      assert PointsOf(list) == PointsOf(list[1..]) + {list[0].notice.point};
    }
  }

  lemma {:induction false} TagsAreOfTheList(list: seq<Message>, point: string)
    ensures forall tag :: tag in Tags(list, point) <==> Command(Announced(point, tag)) in list
    decreases |list|
  {
    if list != [] {
      TagsAreOfTheList(list[1..], point);
      assert list == [list[0]] + list[1..];
    }
  }

  lemma ListedOnce(list: seq<Message>, points: map<string, string>, point: string)
    requires Federation.ListsPoints(list, points)
    ensures Tags(list, point) == if point in points then [points[point]] else []
  {
    RepeatsAreMissed(list, point);
    TagsAreOfTheList(list, point);
    assert PointsOf(list) == points.Keys by {
      forall p | p in points ensures p in PointsOf(list) {
        assert Command(Announced(p, points[p])) in list;
      }
    }
    assert |points.Keys| == |points|;
    var tags := Tags(list, point);
    assert tags != [] ==> tags[0] in tags;
    assert point in points ==> points[point] in tags;
    hide Tags;
  }

  // ---- Everyone who owes a point has been told of it once ----

  // A joiner is told of the pending points, all members of a point registered for all, and the members of the set of
  // one registered for a set; nobody is told of a point otherwise.
  lemma AnnouncedExactly(r: Rtig, s: Service, list: seq<Message>, k: Handle, point: string)
    requires Sound(r) && (s.Joins? ==> Federation.ListsPoints(list, r.points))
    ensures AnnouncedBy(r, s, list, k, point) == match s
      case Joins(h) => if h == k && k !in r.members && point in r.points then [r.points[point]] else []
      case Registers(h, p, tag) => if p == point && AcceptsForAll(r, h, p) && k in r.members then [tag] else []
      case RegistersFor(h, p, tag, who) => if p == point && AcceptsForSome(r, h, p, who) && k in who then [tag] else []
      case _ => []
  {
    hide For, Tags, Sound, Serve, AcceptsForAll, AcceptsForSome;
    match s
    case Joins(h) =>
      ListedOnce(list, r.points, point);
      OthersSayNothing(r, s, k);
      OthersHaveNoTags(For(Serve(r, s).responses, k), point);
    case Registers(h, p, tag) =>
      RegisterSays(r, h, p, tag, k, point);
    case RegistersFor(h, p, tag, who) =>
      RegisterForSays(r, h, p, tag, who, k, point);
    case _ =>
      OthersSayNothing(r, s, k);
      OthersHaveNoTags(For(Serve(r, s).responses, k), point);
  }

  // An announcement, if any, and then an acceptance, if any.
  lemma TagsWithAnswer(told: bool, asked: bool, p: string, tag: string, point: string)
    ensures Tags((if told then [Command(Announced(p, tag))] else [])
                 + (if asked then [Command(Confirmed(p, true))] else []), point)
         == if told && p == point then [tag] else []
    ensures Tags(if asked then [Command(Confirmed(p, false))] else [], point) == []
    ensures multiset((if told then [Command(Announced(p, tag))] else [])
                     + (if asked then [Command(Confirmed(p, true))] else []))[Command(Confirmed(point, true))]
         == if asked && p == point then 1 else 0
  {
    var a, b := Command(Announced(p, tag)), Command(Confirmed(p, true));
    TagsOfTwo(a, b, point);
    TagsOfTwo(b, Command(Confirmed(p, false)), point);
    TagsOfTwo(Command(Confirmed(p, false)), b, point);
    assert [a] + [b] == [a, b] && [a] + [] == [a] && [] + [b] == [b];
  }

  lemma NotCounted(messages: seq<Message>, m: Message)
    requires m !in messages
    ensures multiset(messages)[m] == 0
  {
  }

  lemma RegisterSays(r: Rtig, h: Handle, p: string, tag: string, k: Handle, point: string)
    requires Sound(r)
    ensures var said := For(Serve(r, Registers(h, p, tag)).responses, k);
      && Tags(said, point) == (if p == point && AcceptsForAll(r, h, p) && k in r.members then [tag] else [])
      && multiset(said)[Command(Confirmed(point, true))]
         == if p == point && AcceptsForAll(r, h, p) && k == h then 1 else 0
  {
    RegisterTells(r, h, p, tag, k);
    TagsWithAnswer(k in r.members, k == h, p, tag, point);
    hide For, Serve, Sound, AcceptsForAll, Tags;
  }

  lemma RegisterForSays(r: Rtig, h: Handle, p: string, tag: string, who: seq<Handle>, k: Handle, point: string)
    requires Sound(r)
    ensures var said := For(Serve(r, RegistersFor(h, p, tag, who)).responses, k);
      && Tags(said, point) == (if p == point && AcceptsForSome(r, h, p, who) && k in who then [tag] else [])
      && multiset(said)[Command(Confirmed(point, true))]
         == if p == point && AcceptsForSome(r, h, p, who) && k == h then 1 else 0
  {
    hide For, Serve, Sound, AcceptsForSome, Tags;
    RegisterForTells(r, h, p, tag, who, k);
    var said := For(Serve(r, RegistersFor(h, p, tag, who)).responses, k);
    if AcceptsForSome(r, h, p, who) {
      TagsWithAnswer(k in who, k == h, p, tag, point);
    } else {
      OthersHaveNoTags(said, point);
      NotCounted(said, Command(Confirmed(point, true)));
    }
  }

  // Whoever owes a pending point after a service did before, or joined in it; and when the point was not pending, the
  // service registered it, for all or for a set.
  lemma OwedSince(r: Rtig, s: Service, k: Handle, point: string)
    requires Sound(r) && Owes(Serve(r, s).rtig, k, point)
    ensures var r' := Serve(r, s).rtig;
      && point in r'.points
      && (if point in r.points then
            && r'.points[point] == r.points[point]
            && (if k in r.members then Owes(r, k, point) else s == Joins(k))
          else
            && k in r.members
            && ((s.Registers? && s.point == point && AcceptsForAll(r, s.h, point) && r'.points[point] == s.tag)
                || (s.RegistersFor? && s.point == point && r'.points[point] == s.tag
                    && (AcceptsForSome(r, s.h, point, s.who) ==> k == s.h || k in s.who))))
  {
    ServeIsSound(r, s);
    match s
    case Joins(_) =>
    case Registers(h, p, tag) =>
    case RegistersFor(h, p, tag, who) => OwedSinceSet(r, h, p, tag, who, k, point);
    case Achieves(h, p) =>
      AchieveChanges(r, h, p);
      AchieveKeepsTags(r, h, p);
      AchieveKeepsMembers(r, h, p);
    case _ => OthersLeavePoints(r, s);
    hide Process, NullPrime, Achieve, SaveReport, RequestSave, RestoreReport, RequestRestore, OweInTurn,
         RegisterForSome, AcceptsForSome;
  }

  lemma OwedSinceSet(r: Rtig, h: Handle, p: string, tag: string, who: seq<Handle>, k: Handle, point: string)
    requires Sound(r) && Owes(RegisterForSome(r, h, p, tag, who).rtig, k, point)
    ensures var r' := RegisterForSome(r, h, p, tag, who).rtig;
      if Owes(r, k, point) then point in r'.points && r'.points[point] == r.points[point]
      else
        && point !in r.points && k in r.members && p == point && point in r'.points && r'.points[point] == tag
        && (AcceptsForSome(r, h, p, who) ==> k == h || k in who)
  {
    RegisterForSomeChanges(r, h, p, tag, who);
    SameMembers(r, RegistersFor(h, p, tag, who));
    SetFormSucceeds(r, h, p, tag, who);
    if AcceptsForSome(r, h, p, who) {
      WhoOwes(r, h, p, tag, who, k);
    }
    hide RegisterForSome;
  }

  // Whether `k` owes the point from a registration for a set that nobody told it of: its own, or one that failed.
  ghost predicate Untold(r: Rtig, services: seq<Service>, k: Handle, point: string, before: bool)
    requires Sound(r)
    decreases |services|
  {
    if services == [] then before else
      var s := services[0];
      ServeIsSound(r, s);
      Untold(Serve(r, s).rtig, services[1..], k, point,
             if k !in r.members then false
             else if point in r.points then before
             else s.RegistersFor? && s.point == point && (k == s.h || !AcceptsForSome(r, s.h, point, s.who)))
  }

  ghost predicate ToldSoFar(r: Rtig, k: Handle, point: string, tags: seq<string>, untold: bool) {
    && (Owes(r, k, point) && point in r.points ==> tags == if untold then [] else [r.points[point]])
    && (k !in r.members && point in r.points ==> tags == [])
  }

  lemma StepTells(r: Rtig, s: Service, list: seq<Message>, k: Handle, point: string, tags: seq<string>, untold: bool)
    requires Sound(r) && (s.Joins? ==> Federation.ListsPoints(list, r.points)) && ToldSoFar(r, k, point, tags, untold)
    ensures ToldSoFar(Serve(r, s).rtig, k, point,
                      (if point in r.points then tags else []) + AnnouncedBy(r, s, list, k, point),
                      if k !in r.members then false
                      else if point in r.points then untold
                      else s.RegistersFor? && s.point == point
                           && (k == s.h || !AcceptsForSome(r, s.h, point, s.who)))
  {
    var r' := Serve(r, s).rtig;
    AnnouncedExactly(r, s, list, k, point);
    if Owes(r', k, point) {
      OwedSince(r, s, k, point);
    }
    if k !in r'.members && point in r'.points {
      StillOutside(r, s, k);
    }
    hide AnnouncedBy, Serve, Sound;
  }

  lemma StillOutside(r: Rtig, s: Service, k: Handle)
    requires Sound(r) && k !in Serve(r, s).rtig.members
    ensures k !in r.members && s != Joins(k)
  {
    if !s.Joins? {
      SameMembers(r, s);
      hide Serve;
    }
  }

  lemma {:induction false} RunTells(r: Rtig, services: seq<Service>, lists: seq<seq<Message>>, k: Handle,
                                    point: string, tags: seq<string>, untold: bool)
    requires Sound(r) && Welcomes(r, services, lists) && ToldSoFar(r, k, point, tags, untold)
    ensures |lists| == |services|
    ensures ToldSoFar(After(r, services), k, point, AnnouncedSince(r, services, lists, k, point, tags),
                      Untold(r, services, k, point, untold))
    decreases |services|
  {
    hide Sound, Serve, ToldSoFar, AnnouncedBy, AcceptsForSome;
    if services != [] {
      ServeIsSound(r, services[0]);
      StepTells(r, services[0], lists[0], k, point, tags, untold);
      RunTells(Serve(r, services[0]).rtig, services[1..], lists[1..], k, point,
               (if point in r.points then tags else []) + AnnouncedBy(r, services[0], lists[0], k, point),
               if k !in r.members then false
               else if point in r.points then untold
               else services[0].RegistersFor? && services[0].point == point
                    && (k == services[0].h || !AcceptsForSome(r, services[0].h, point, services[0].who)));
    }
  }

  // Over any run, whoever owes a point, late joiners included, has been told of it exactly once since it was
  // registered, with the tag it was registered with; only the requester of a set, and the members left owing by a set
  // that failed, never are.
  lemma OwersWereTold(services: seq<Service>, lists: seq<seq<Message>>, k: Handle, point: string)
    requires Sound(INITIAL) && Welcomes(INITIAL, services, lists)
    requires Owes(After(INITIAL, services), k, point)
    ensures |lists| == |services| && point in After(INITIAL, services).points
    ensures AnnouncedSince(INITIAL, services, lists, k, point, [])
         == if Untold(INITIAL, services, k, point, false) then [] else [After(INITIAL, services).points[point]]
  {
    RunTells(INITIAL, services, lists, k, point, [], false);
    hide After, AnnouncedSince, Untold;
  }

  // Without registrations for a set, all are told.
  lemma {:induction false} NobodyUntold(r: Rtig, services: seq<Service>, k: Handle, point: string)
    requires Sound(r) && forall s :: s in services ==> !(s.RegistersFor? && s.point == point)
    ensures !Untold(r, services, k, point, false)
    decreases |services|
  {
    hide Sound, Serve, AcceptsForSome;
    if services != [] {
      ServeIsSound(r, services[0]);
      NobodyUntold(Serve(r, services[0]).rtig, services[1..], k, point);
    }
  }

  // ---- What the requester is told ----

  predicate Registering(r: Rtig, s: Service, h: Handle, point: string) {
    match s
    case Registers(g, p, _) => g == h && p == point && AcceptsForAll(r, h, p)
    case RegistersFor(g, p, _, who) => g == h && p == point && AcceptsForSome(r, h, p, who)
    case _ => false
  }

  // The registrations of the point by h that are accepted during the run.
  ghost function RegisteredBy(r: Rtig, services: seq<Service>, h: Handle, point: string): nat
    requires Sound(r)
    decreases |services|
  {
    if services == [] then 0 else
      ServeIsSound(r, services[0]);
      (if Registering(r, services[0], h, point) then 1 else 0)
      + RegisteredBy(Serve(r, services[0]).rtig, services[1..], h, point)
  }

  lemma ConfirmedIffRegistered(r: Rtig, s: Service, h: Handle, point: string)
    requires Sound(r)
    ensures multiset(For(Serve(r, s).responses, h))[Command(Confirmed(point, true))]
         == if Registering(r, s, h, point) then 1 else 0
  {
    hide For, Serve, Sound, AcceptsForAll, AcceptsForSome, Tags;
    match s
    case Registers(g, p, tag) =>
      RegisterSays(r, g, p, tag, h, point);
    case RegistersFor(g, p, tag, who) =>
      RegisterForSays(r, g, p, tag, who, h, point);
    case _ =>
      OthersSayNothing(r, s, h);
      NotCounted(For(Serve(r, s).responses, h), Command(Confirmed(point, true)));
  }

  lemma ForNothing(h: Handle)
    ensures For([], h) == []
  {
  }

  // Over any run, a federate is told as often that the point was registered as a registration of its own was accepted.
  lemma {:induction false} ConfirmedAsRegistered(r: Rtig, services: seq<Service>, h: Handle, point: string)
    requires Sound(r)
    ensures multiset(For(Responses(r, services), h))[Command(Confirmed(point, true))]
         == RegisteredBy(r, services, h, point)
    decreases |services|
  {
    hide Sound, Serve, Registering, For;
    if services == [] {
      ForNothing(h);
    } else {
      var answer := Serve(r, services[0]);
      ServeIsSound(r, services[0]);
      ConfirmedIffRegistered(r, services[0], h, point);
      ConfirmedAsRegistered(answer.rtig, services[1..], h, point);
      Federation.ForConcat(answer.responses, Responses(answer.rtig, services[1..]), h);
    }
  }

  // ---- Regulation and constraint ----

  predicate Enables(m: Message) {
    m.Command? && (m.notice.RegulationEnabled? || m.notice.ConstrainedEnabled?)
  }

  lemma OthersEnableNothing(r: Rtig, s: Service, k: Handle)
    requires Sound(r) && !s.Relays?
    ensures forall m :: m in For(Serve(r, s).responses, k) ==> !Enables(m)
  {
    OthersAnswerNoEnabling(r, s);
    hide Serve, Sound, Enables;
    ForAnswers(Serve(r, s).responses, k, m => !Enables(m));
  }

  lemma OthersAnswerNoEnabling(r: Rtig, s: Service)
    requires Sound(r) && !s.Relays?
    ensures forall a :: a in Serve(r, s).responses ==> !Enables(a.message)
  {
    hide Sound, AnySaving, AnyRestoring, MinNerx, OweInTurn;
  }

  // What a federate is sent of a change of regulation or constraint: the others' clocks, and its own confirmation.
  lemma ChangeTells(r: Rtig, m: Message, subscribers: set<Handle>, k: Handle)
    ensures var said := For(Process(r, m, subscribers).responses, k); var all := r.members;
      match m
      case RegulatorOn(h, date) =>
        said == if h in all && !all[h].regulator && h !in r.regulators then
          (if k in all then [m] else []) + (if k == h then [Command(RegulationEnabled(date))] else []) else []
      case RegulatorOff(h) => said == if h in all && all[h].regulator && h in r.regulators && k in all then [m] else []
      case Null(h, date) =>
        said == if h in all && all[h].regulator && h in r.regulators && k in all && k != h then [m] else []
      case Constraining(h, on) =>
        said == if h in all && on && !all[h].constrained && k == h then [Command(ConstrainedEnabled)] else []
      case _ => true
  {
    var none := Response({}, m);
    match m
    case RegulatorOn(h, date) =>
      ForNoneOneTwo(Response(r.members.Keys, m), Response({h}, Command(RegulationEnabled(date))), k);
    case RegulatorOff(h) => ForNoneOneTwo(Response(r.members.Keys, m), none, k);
    case Null(h, date) => ForNoneOneTwo(Response(r.members.Keys - {h}, m), none, k);
    case Constraining(h, _) => ForNoneOneTwo(Response({h}, Command(ConstrainedEnabled)), none, k);
    case _ =>
    hide For;
  }

  // A federate is told that it regulates, or is constrained, exactly when its own request is accepted.
  lemma EnabledIffAccepted(r: Rtig, s: Service, k: Handle, date: Time)
    requires Sound(r)
    ensures var said := For(Serve(r, s).responses, k);
      && (Command(RegulationEnabled(date)) in said <==>
            s.Relays? && s.m == RegulatorOn(k, date) && k in r.members && !r.members[k].regulator
            && k !in r.regulators)
      && (Command(ConstrainedEnabled) in said <==>
            s.Relays? && s.m == Constraining(k, true) && k in r.members && !r.members[k].constrained)
  {
    if s.Relays? {
      ChangeTells(r, s.m, s.subscribers, k);
      if !s.m.RegulatorOn? && !s.m.RegulatorOff? && !s.m.Null? && !s.m.Constraining? {
        RelaysEnableNothing(r, s.m, s.subscribers, k);
      }
    } else {
      OthersEnableNothing(r, s, k);
    }
    hide For, Process, Serve, Sound;
  }

  // A change of constraint takes effect.
  lemma ConstraintTakes(r: Rtig, h: Handle, on: bool, subscribers: set<Handle>)
    requires h in r.members
    ensures var r' := Process(r, Constraining(h, on), subscribers).rtig;
      r' == r.(members := r'.members) && r'.members == r.members[h := r.members[h].(constrained := on)]
  {
    assert r.members[h := r.members[h]] == r.members;
  }

  // A change of regulation does too: the flag and the clock of the federate come and go together.
  lemma RegulationTakes(r: Rtig, h: Handle, date: Time, subscribers: set<Handle>)
    requires h in r.members && (r.members[h].regulator <==> h in r.regulators)
    ensures var r' := Process(r, RegulatorOn(h, date), subscribers).rtig;
      && r'.members == r.members[h := r.members[h].(regulator := true)]
      && r'.regulators == if h in r.regulators then r.regulators else r.regulators[h := date]
  {
    assert r.members[h := r.members[h]] == r.members;
  }

  lemma RegulationEnds(r: Rtig, h: Handle, subscribers: set<Handle>)
    requires h in r.members && (r.members[h].regulator <==> h in r.regulators)
    ensures var r' := Process(r, RegulatorOff(h), subscribers).rtig;
      r'.members == r.members[h := r.members[h].(regulator := false)] && r'.regulators == r.regulators - {h}
  {
    assert r.members[h := r.members[h]] == r.members;
    assert h !in r.regulators ==> r.regulators - {h} == r.regulators;
  }

  lemma RelaysEnableNothing(r: Rtig, m: Message, subscribers: set<Handle>, k: Handle)
    requires !m.RegulatorOn? && !m.RegulatorOff? && !m.Null? && !m.Constraining?
    ensures forall x :: x in For(Process(r, m, subscribers).responses, k) ==> !Enables(x)
  {
    assert forall a :: a in Process(r, m, subscribers).responses ==> !Enables(a.message);
    hide For, Process, Enables;
    ForAnswers(Process(r, m, subscribers).responses, k, x => !Enables(x));
  }

  // ---- Saves and restores ----

  // All members are told to save, under the title asked for; of a restore, the requester first that it was accepted,
  // then all members that it begins and to initiate theirs.
  lemma RoundTells(r: Rtig, h: Handle, title: string, k: Handle)
    requires Sound(r)
    ensures For(Serve(r, RequestsSave(h, title)).responses, k)
         == if h in r.members && !r.saveInProgress && k in r.members then [InitiateSave(title)] else []
    ensures For(Serve(r, RequestsRestore(h, title)).responses, k) ==
      if h !in r.members || r.restoreInProgress then []
      else (if k == h then [Command(RestoreAccepted(title))] else [])
           + (if k in r.members then [Command(RestoreBegun), Command(InitiateRestore(title))] else [])
  {
    hide For, Sound;
    var all := r.members.Keys;
    var a, b, c := Response({h}, Command(RestoreAccepted(title))), Response(all, Command(RestoreBegun)),
                   Response(all, Command(InitiateRestore(title)));
    ForNoneOneTwo(Response(all, InitiateSave(title)), a, k);
    ForNoneOneTwo(a, b, k);
    ForNoneOneTwo(b, c, k);
    assert [a, b, c] == [a] + [b, c];
    Federation.ForConcat([a], [b, c], k);
  }
}
