/** Synchronization points, over any run of the RTIG. */
module SyncBarrier {
  import opened FederationTime
  import opened Messages
  import opened RtigState
  import opened RtigRuns

  // ---- A point is pending while someone owes it ----

  ghost predicate Held(r: Rtig, point: string) {
    exists h :: h in r.members && Owes(r, h, point)
  }

  ghost predicate PendingIffHeld(r: Rtig, point: string) {
    point in r.points <==> Held(r, point)
  }

  // A registration for an empty set of federates.
  predicate ForNobody(s: Service) {
    s.RegistersFor? && s.who == []
  }

  // The services that deal with points.
  predicate Synchronizing(s: Service) {
    s.Registers? || s.RegistersFor? || s.Achieves? || s.Joins?
  }

  ghost predicate SamePoints(r: Rtig, r': Rtig) {
    && r'.points == r.points
    && r'.members.Keys == r.members.Keys
    && forall h :: h in r.members ==> r'.members[h].points == r.members[h].points
  }

  lemma RelayLeavesPoints(r: Rtig, m: Message, subscribers: set<Handle>)
    ensures SamePoints(r, Process(r, m, subscribers).rtig)
  {
    match m
    case Null(src, date) => UpdateLeavesPoints(r, src, date);
    case RegulatorOn(src, date) => AddLeavesPoints(r, src, date);
    case RegulatorOff(src) => RemoveLeavesPoints(r, src);
    case Constraining(src, on) => ConstrainLeavesPoints(r, src, on);
    case _ =>
    hide AddRegulator, UpdateRegulator, RemoveRegulator, SetConstrained;
  }

  lemma AddLeavesPoints(r: Rtig, h: Handle, date: Time)
    ensures SamePoints(r, AddRegulator(r, h, date).rtig)
  {
  }

  lemma UpdateLeavesPoints(r: Rtig, h: Handle, date: Time)
    ensures SamePoints(r, UpdateRegulator(r, h, date).rtig)
  {
  }

  lemma RemoveLeavesPoints(r: Rtig, h: Handle)
    ensures SamePoints(r, RemoveRegulator(r, h).rtig)
  {
  }

  lemma ConstrainLeavesPoints(r: Rtig, h: Handle, on: bool)
    ensures SamePoints(r, SetConstrained(r, h, on).rtig)
  {
  }

  lemma SaveLeavesPoints(r: Rtig, s: Service)
    requires Sound(r) && (s.RequestsSave? || s.ReportsSave?)
    ensures SamePoints(r, Serve(r, s).rtig)
  {
    hide Sound, AnySaving;
  }

  lemma RestoreLeavesPoints(r: Rtig, s: Service)
    requires Sound(r) && (s.RequestsRestore? || s.ReportsRestore?)
    ensures SamePoints(r, Serve(r, s).rtig)
  {
    hide Sound, AnyRestoring;
  }

  lemma NullPrimeLeavesPoints(r: Rtig, h: Handle, date: Time)
    requires Sound(r)
    ensures SamePoints(r, NullPrime(r, h, date).rtig)
  {
    if h in r.members {
      var r1 := r.(members := r.members[h := r.members[h].(nerx := date, usingNerx := true)]);
      assert r1.members.Keys == r.members.Keys && SamePoints(r, r1);
      assert forall k :: k in r1.members ==> NoLongerAsking(r1.members[k]).points == r1.members[k].points;
    }
    hide MinNerx, NoStrayPoints, NoLongerAsking;
  }

  lemma OthersLeavePoints(r: Rtig, s: Service)
    requires Sound(r) && !Synchronizing(s)
    ensures SamePoints(r, Serve(r, s).rtig)
  {
    hide SamePoints, Sound, Process, NullPrime, SaveReport, RequestSave, RestoreReport, RequestRestore;
    match s
    case Relays(m, subscribers) => RelayLeavesPoints(r, m, subscribers);
    case AsksNext(h, date) => NullPrimeLeavesPoints(r, h, date);
    case RequestsSave(_, _) => SaveLeavesPoints(r, s);
    case ReportsSave(_, _, _) => SaveLeavesPoints(r, s);
    case RequestsRestore(_, _) => RestoreLeavesPoints(r, s);
    case ReportsRestore(_, _) => RestoreLeavesPoints(r, s);
  }

  // If each member owes a point after a change exactly when some member did before, little is left to see.
  lemma HeldBoth(r: Rtig, r': Rtig, point: string)
    requires forall h :: Owes(r, h, point) ==> Owes(r', h, point)
    requires forall h :: Owes(r', h, point) ==> Owes(r, h, point)
    ensures Held(r, point) <==> Held(r', point)
  {
    if Held(r, point) {
      var h :| h in r.members && Owes(r, h, point);
      assert Owes(r', h, point);
    }
    if Held(r', point) {
      var h :| h in r'.members && Owes(r', h, point);
      assert Owes(r, h, point);
    }
  }

  lemma LeavingKeepsPending(r: Rtig, r': Rtig, point: string)
    requires PendingIffHeld(r, point) && SamePoints(r, r')
    ensures PendingIffHeld(r', point)
  {
    HeldBoth(r, r', point);
  }

  lemma JoinKeepsPending(r: Rtig, h: Handle, point: string)
    requires Sound(r) && PendingIffHeld(r, point) && h !in r.members
    ensures PendingIffHeld(Add(r, h).rtig, point)
  {
    var r' := Add(r, h).rtig;
    if point in r.points {
      assert Owes(r', h, point);
    } else {
      HeldBoth(r, r', point);
    }
  }

  lemma RegisterForAllKeepsPending(r: Rtig, h: Handle, p: string, tag: string, point: string)
    requires Sound(r) && PendingIffHeld(r, point)
    ensures PendingIffHeld(RegisterForAll(r, h, p, tag).rtig, point)
  {
    var r' := RegisterForAll(r, h, p, tag).rtig;
    if RegisterForAll(r, h, p, tag).ok && p == point {
      assert Owes(r', h, point);
    } else {
      HeldBoth(r, r', point);
    }
  }

  // What everyone owed before is still owed, and nothing else but the new point.
  lemma {:induction false} OweInTurnOwes(members: map<Handle, Member>, who: seq<Handle>, point: string)
    ensures var (members', owed) := OweInTurn(members, who, point);
      && members'.Keys == members.Keys
      && (forall k :: k in members ==> members[k].points <= members'[k].points <= members[k].points + {point})
      && (who != [] && who[0] in members ==> point in members'[who[0]].points)
    decreases |who|
  {
    if who != [] && who[0] in members && point !in members[who[0]].points {
      OweInTurnOwes(members[who[0] := Owing(members[who[0]], point)], who[1..], point);
    }
  }

  lemma SameButFor(r: Rtig, r': Rtig, p: string)
    requires r'.members.Keys == r.members.Keys
    requires forall k :: k in r.members ==> r.members[k].points <= r'.members[k].points <= r.members[k].points + {p}
    ensures forall k, point :: point != p ==> (Owes(r', k, point) <==> Owes(r, k, point))
  {
  }

  // A registration for some either changes nothing or makes its point pending, owed by the requester.
  lemma RegisterForSomeChanges(r: Rtig, h: Handle, p: string, tag: string, who: seq<Handle>)
    ensures var r' := RegisterForSome(r, h, p, tag, who).rtig;
      && (forall k, point :: point != p ==> (Owes(r', k, point) <==> Owes(r, k, point)))
      && (if h !in r.members || p == "" || p in r.points then r' == r
          else r'.points == r.points[p := tag] && (who != [] ==> Owes(r', h, p)))
  {
    RegisterForSomeLeaves(r, h, p, tag, who);
    OweInTurnOwes(r.members, Owers(h, who), p);
    SameButFor(r, r.(members := OweInTurn(r.members, Owers(h, who), p).0), p);
    hide OweInTurn, RegisterForSome;
  }

  lemma RegisterForSomeKeepsPending(r: Rtig, h: Handle, p: string, tag: string, who: seq<Handle>, point: string)
    requires PendingIffHeld(r, point) && who != []
    ensures PendingIffHeld(RegisterForSome(r, h, p, tag, who).rtig, point)
  {
    RegisterForSomeChanges(r, h, p, tag, who);
    hide RegisterForSome;
    var r' := RegisterForSome(r, h, p, tag, who).rtig;
    if r' != r && p == point {
      assert h in r'.members && Owes(r', h, point);
    } else {
      HeldBoth(r, r', point);
    }
  }

  // An achievement takes the point from the federate, and from the pending ones with the last holder.
  lemma AchieveOwes(r: Rtig, h: Handle, p: string)
    ensures var answer := Achieve(r, h, p);
      && answer.ok == (p != "" && Owes(r, h, p))
      && (!answer.ok ==> answer == Failure(r))
      && (forall k, point :: Owes(answer.rtig, k, point) <==> Owes(r, k, point) && (answer.ok ==> k != h || point != p))
  {
  }

  lemma AchieveEnds(r: Rtig, h: Handle, p: string)
    requires p != "" && Owes(r, h, p)
    ensures var answer := Achieve(r, h, p); var held := exists k :: k in r.members && k != h && Owes(r, k, p);
      && answer.rtig.points == (if held then r.points else r.points - {p})
      && answer.responses == (if held then [] else [Response(r.members.Keys, Command(Synchronized(p)))])
      && answer.rtig.members.Keys == r.members.Keys
  {
    var m := r.members[h];
    var r1 := r.(members := r.members[h := m.(points := m.points - {p})]);
    assert forall k :: Owes(r1, k, p) <==> Owes(r, k, p) && k != h;
  }

  lemma AchieveChanges(r: Rtig, h: Handle, p: string)
    ensures var answer := Achieve(r, h, p); var r' := answer.rtig;
      && answer.ok == (p != "" && Owes(r, h, p))
      && (!answer.ok ==> answer == Failure(r))
      && (forall k, point :: Owes(r', k, point) <==> Owes(r, k, point) && (answer.ok ==> k != h || point != p))
      && (answer.ok ==> r'.points == if Held(r', p) then r.points else r.points - {p})
      && (answer.ok ==>
            answer.responses == (if Held(r', p) then [] else [Response(r.members.Keys, Command(Synchronized(p)))]))
  {
    AchieveOwes(r, h, p);
    if p != "" && Owes(r, h, p) {
      AchieveEnds(r, h, p);
    }
    hide Achieve, Owes;
  }

  lemma AchieveKeepsPending(r: Rtig, h: Handle, p: string, point: string)
    requires PendingIffHeld(r, point)
    ensures PendingIffHeld(Achieve(r, h, p).rtig, point)
  {
    AchieveChanges(r, h, p);
    hide Achieve;
    var r' := Achieve(r, h, p).rtig;
    if Achieve(r, h, p).ok && p == point {
      assert Held(r, p);
    } else {
      HeldBoth(r, r', point);
    }
  }

  lemma ServeKeepsPending(r: Rtig, s: Service, point: string)
    requires Sound(r) && PendingIffHeld(r, point) && !ForNobody(s)
    ensures PendingIffHeld(Serve(r, s).rtig, point)
  {
    hide Sound, PendingIffHeld, SamePoints, RegisterForAll, RegisterForSome, Achieve, Process, NullPrime, Add;
    match s
    case Joins(h) => if h !in r.members { JoinKeepsPending(r, h, point); }
    case Registers(h, p, tag) => RegisterForAllKeepsPending(r, h, p, tag, point);
    case RegistersFor(h, p, tag, who) => RegisterForSomeKeepsPending(r, h, p, tag, who, point);
    case Achieves(h, p) => AchieveKeepsPending(r, h, p, point);
    case _ =>
      OthersLeavePoints(r, s);
      LeavingKeepsPending(r, Serve(r, s).rtig, point);
  }

  lemma {:induction false} RunKeepsPending(r: Rtig, services: seq<Service>, point: string)
    requires Sound(r) && PendingIffHeld(r, point) && forall s :: s in services ==> !ForNobody(s)
    ensures PendingIffHeld(After(r, services), point)
    decreases |services|
  {
    hide Sound, PendingIffHeld, Serve;
    if services != [] {
      ServeIsSound(r, services[0]);
      ServeKeepsPending(r, services[0], point);
      RunKeepsPending(Serve(r, services[0]).rtig, services[1..], point);
    }
  }

  // Over any run in which no point is registered for nobody, a point is pending exactly while some
  // federate, late joiners included, still owes it.
  lemma PendingExactlyWhileHeld(services: seq<Service>, point: string)
    requires forall s :: s in services ==> !ForNobody(s)
    ensures Sound(INITIAL)
    ensures point in After(INITIAL, services).points <==> Held(After(INITIAL, services), point)
  {
    assert PendingIffHeld(INITIAL, point);
    RunKeepsPending(INITIAL, services, point);
  }

  // ---- Registration for nobody ----

  predicate Stranded(r: Rtig, point: string) {
    point in r.points && forall h :: h in r.members ==> !Owes(r, h, point)
  }

  // Registering for nobody breaks this exactly when a member does so for a new point with a name; the point is
  // then stranded, and otherwise nothing changes.
  lemma NobodyStrandsPoint(r: Rtig, h: Handle, point: string, tag: string)
    requires Sound(r) && PendingIffHeld(r, point)
    ensures var r' := Serve(r, RegistersFor(h, point, tag, [])).rtig;
      && (!PendingIffHeld(r', point) <==> h in r.members && point != "" && point !in r.points)
      && (if h in r.members && point != "" && point !in r.points then Stranded(r', point) else r' == r)
  {
    var answer := Serve(r, RegistersFor(h, point, tag, []));
    if answer.ok {
      assert forall k :: k in r.members ==> !Owes(answer.rtig, k, point);
      assert !Held(answer.rtig, point) && point in answer.rtig.points;
    }
  }

  lemma StrandedStep(r: Rtig, s: Service, point: string)
    requires Sound(r) && Stranded(r, point) && !s.Joins?
    ensures Stranded(Serve(r, s).rtig, point)
  {
    if s.RegistersFor? {
      RegisterForSomeChanges(r, s.h, s.point, s.tag, s.who);
    } else if s.Achieves? {
      AchieveChanges(r, s.h, s.point);
    } else if s.Registers? {
    } else {
      OthersLeavePoints(r, s);
    }
    hide Process, NullPrime, RegisterForSome, Achieve, SaveReport, RequestSave, RestoreReport, RequestRestore;
  }

  // A stranded point stays pending, and cannot be achieved, until someone joins.
  lemma {:induction false} StrandedStays(r: Rtig, services: seq<Service>, point: string)
    requires Sound(r) && Stranded(r, point) && forall s :: s in services ==> !s.Joins?
    ensures Stranded(After(r, services), point)
    decreases |services|
  {
    hide Sound, Serve, Stranded;
    if services != [] {
      ServeIsSound(r, services[0]);
      StrandedStep(r, services[0], point);
      StrandedStays(Serve(r, services[0]).rtig, services[1..], point);
    }
  }

  // ---- When all have synchronized ----

  // Only `h` still owes the point.
  predicate LastHolder(r: Rtig, h: Handle, point: string) {
    Owes(r, h, point) && forall k :: k in r.members && k != h ==> !Owes(r, k, point)
  }

  predicate Announces(responses: seq<Response>, point: string) {
    exists i :: 0 <= i < |responses| && responses[i].message == Command(Synchronized(point))
  }

  lemma OthersDoNotAnnounce(r: Rtig, s: Service, point: string)
    requires Sound(r) && !s.Achieves?
    ensures !Announces(Serve(r, s).responses, point)
  {
    hide Sound, MinNerx, OweInTurn, AnySaving, AnyRestoring;
  }

  // The federation is told that a point is synchronized exactly when its last holder achieves it, and
  // then every member is told.
  lemma AnnouncedByLastHolder(r: Rtig, s: Service, point: string)
    requires Sound(r) && point != ""
    ensures Announces(Serve(r, s).responses, point) <==> s.Achieves? && s.point == point && LastHolder(r, s.h, point)
    ensures Announces(Serve(r, s).responses, point) ==>
      Serve(r, s).responses == [Response(r.members.Keys, Command(Synchronized(point)))]
  {
    if s.Achieves? {
      AchieveChanges(r, s.h, s.point);
      hide Achieve;
      var answer := Achieve(r, s.h, s.point);
      if answer.ok {
        assert answer.rtig.members.Keys == r.members.Keys by { AchieveKeepsMembers(r, s.h, s.point); }
        LastLeavesNone(r, answer.rtig, s.h, s.point);
        assert answer.responses != [] ==> answer.responses[0].message == Command(Synchronized(s.point));
      }
    } else {
      OthersDoNotAnnounce(r, s, point);
    }
  }

  lemma AchieveKeepsMembers(r: Rtig, h: Handle, point: string)
    ensures Achieve(r, h, point).rtig.members.Keys == r.members.Keys
  {
  }

  lemma LastLeavesNone(r: Rtig, r': Rtig, h: Handle, point: string)
    requires Owes(r, h, point) && r'.members.Keys == r.members.Keys
    requires forall k :: Owes(r', k, point) <==> Owes(r, k, point) && k != h
    ensures Held(r', point) <==> !LastHolder(r, h, point)
  {
    if !LastHolder(r, h, point) {
      var k :| k in r.members && k != h && Owes(r, k, point);
      assert Owes(r', k, point);
    }
  }

  // ---- Once for each registration ----

  // The services of a run that make the point pending.
  ghost function Registrations(r: Rtig, services: seq<Service>, point: string): nat
    requires Sound(r)
    decreases |services|
  {
    if services == [] then 0 else
      ServeIsSound(r, services[0]);
      var r' := Serve(r, services[0]).rtig;
      (if point !in r.points && point in r'.points then 1 else 0) + Registrations(r', services[1..], point)
  }

  // The services of a run that have the point announced as synchronized.
  ghost function Synchronizations(r: Rtig, services: seq<Service>, point: string): nat
    requires Sound(r)
    decreases |services|
  {
    if services == [] then 0 else
      ServeIsSound(r, services[0]);
      (if Announces(Serve(r, services[0]).responses, point) then 1 else 0)
      + Synchronizations(Serve(r, services[0]).rtig, services[1..], point)
  }

  // A point stops being pending exactly when it is announced.
  lemma PendingEndsWithAnnouncement(r: Rtig, s: Service, point: string)
    requires Sound(r) && point != ""
    ensures Announces(Serve(r, s).responses, point) <==> point in r.points && point !in Serve(r, s).rtig.points
  {
    AnnouncedByLastHolder(r, s, point);
    match s
    case Achieves(h, p) =>
      AchieveChanges(r, h, p);
      if Achieve(r, h, p).ok && p == point {
        LastLeavesNone(r, Achieve(r, h, p).rtig, h, p) by { hide Achieve; }
      }
    case RegistersFor(h, p, tag, who) => RegisterForSomeChanges(r, h, p, tag, who);
    case Registers(_, _, _) =>
    case Joins(_) =>
    case _ => OthersLeavePoints(r, s);
  }

  lemma {:induction false} EachRegistrationAnnounced(r: Rtig, services: seq<Service>, point: string)
    requires Sound(r) && point != ""
    ensures Registrations(r, services, point) + (if point in r.points then 1 else 0)
         == Synchronizations(r, services, point) + (if point in After(r, services).points then 1 else 0)
    decreases |services|
  {
    hide Sound, Serve, Announces;
    if services != [] {
      ServeIsSound(r, services[0]);
      PendingEndsWithAnnouncement(r, services[0], point);
      EachRegistrationAnnounced(Serve(r, services[0]).rtig, services[1..], point);
    }
  }

  // Over any run, a point is announced as synchronized once for each time it was registered, but for
  // the last time if it is still pending.
  lemma SynchronizedOncePerRegistration(services: seq<Service>, point: string)
    requires point != ""
    ensures Sound(INITIAL)
    ensures Synchronizations(INITIAL, services, point) + (if point in After(INITIAL, services).points then 1 else 0)
         == Registrations(INITIAL, services, point)
  {
    EachRegistrationAnnounced(INITIAL, services, point);
  }

  // ---- Registration for a set of federates ----

  predicate NoRepeats(who: seq<Handle>) {
    forall i, j :: 0 <= i < j < |who| ==> who[i] != who[j]
  }

  lemma {:induction false} OweInTurnAccepts(members: map<Handle, Member>, who: seq<Handle>, point: string)
    ensures OweInTurn(members, who, point).1 == Accepted <==>
      NoRepeats(who) && forall i :: 0 <= i < |who| ==> who[i] in members && point !in members[who[i]].points
    decreases |who|
  {
    if who != [] && who[0] in members && point !in members[who[0]].points {
      var next := members[who[0] := Owing(members[who[0]], point)];
      OweInTurnAccepts(next, who[1..], point);
      if NoRepeats(who) && forall i :: 0 <= i < |who| ==> who[i] in members && point !in members[who[i]].points {
        forall i | 0 <= i < |who[1..]| ensures who[1..][i] in next && point !in next[who[1..][i]].points {
          assert who[1..][i] == who[i + 1] && who[0] != who[i + 1];
        }
      }
      if NoRepeats(who[1..])
         && forall i :: 0 <= i < |who[1..]| ==> who[1..][i] in next && point !in next[who[1..][i]].points
      {
        forall i | 0 < i < |who| ensures who[i] in members && who[i] != who[0] && point !in members[who[i]].points {
          assert who[1..][i - 1] == who[i];
        }
        assert forall i, j :: 0 < i < j < |who| ==> who[i] == who[1..][i - 1] && who[j] == who[1..][j - 1];
      }
    }
  }

  // It succeeds exactly for a new point, from a member, when the set is empty or holds distinct members
  // other than the requester.
  lemma SetFormSucceeds(r: Rtig, h: Handle, point: string, tag: string, who: seq<Handle>)
    requires Sound(r)
    ensures Serve(r, RegistersFor(h, point, tag, who)).ok <==>
      && h in r.members && point != "" && point !in r.points
      && (who == [] || (h !in who && NoRepeats(who) && forall k :: k in who ==> k in r.members))
  {
    var all := Owers(h, who);
    OweInTurnAccepts(r.members, all, point);
    hide OweInTurn;
    if who != [] {
      assert all[0] == h && forall i :: 0 <= i < |who| ==> all[i + 1] == who[i];
      if NoRepeats(all) {
        forall i, j | 0 <= i < j < |who| ensures who[i] != who[j] {
          assert all[i + 1] != all[j + 1];
        }
      }
      if h !in who && NoRepeats(who) {
        forall i, j | 0 <= i < j < |all| ensures all[i] != all[j] {
          assert all[j] == who[j - 1] && all[j] in who;
        }
      }
    }
  }
}
