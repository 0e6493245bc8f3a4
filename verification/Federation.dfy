/** The RTIG's federation and its federates, as the objects its services update in place. */
module Federation {
  import opened FederationTime
  import Lbts
  import opened Messages
  import opened RtigState

  class Federate {
    var regulator: bool
    var constrained: bool
    var saving: bool
    var restoring: bool
    var usingNerx: bool
    var lastNerx: Time
    var labels: set<string>

    ghost function View(): Member
      reads this
    {
      Member(regulator, constrained, saving, restoring, usingNerx, lastNerx, labels)
    }

    constructor ()
      ensures View() == NEW_MEMBER
    {
      regulator, constrained, saving, restoring, usingNerx := false, false, false, false, false;
      lastNerx, labels := ZERO, {};
    }

    method SetRegulator(on: bool) returns (ok: bool)
      modifies this`regulator
      ensures ok == (old(regulator) != on) && View() == old(View()).(regulator := on)
    {
      ok := regulator != on;
      regulator := on;
    }

    method SetConstrained(on: bool) returns (ok: bool)
      modifies this`constrained
      ensures ok == (old(constrained) != on) && View() == old(View()).(constrained := on)
    {
      ok := constrained != on;
      constrained := on;
    }

    method SetLastNerxValue(date: Time)
      modifies this`lastNerx, this`usingNerx
      ensures View() == old(View()).(nerx := date, usingNerx := true)
    {
      lastNerx := date;
      usingNerx := true;
    }

    method AddSynchronizationLabel(point: string) returns (ok: bool)
      modifies this`labels
      ensures ok == (point !in old(labels)) && (!ok ==> labels == old(labels)) && View() == Owing(old(View()), point)
    {
      ok := point !in labels;
      labels := labels + {point};
    }

    method RemoveSynchronizationLabel(point: string) returns (ok: bool)
      modifies this`labels
      ensures ok == (point in old(labels)) && (!ok ==> labels == old(labels))
      ensures View() == old(View()).(points := old(labels) - {point})
    {
      ok := point in labels;
      labels := labels - {point};
    }
  }

  class Federation {
    var federates: map<Handle, Federate>
    const regulators: Lbts.ClockSet
    var labels: map<string, string>
    var saveInProgress: bool
    var saveStatus: bool
    var restoreInProgress: bool
    var restoreStatus: bool
    var minNerx: Time

    ghost predicate Shape()
      reads this, regulators
    {
      && (forall h, k :: h in federates && k in federates && h != k ==> federates[h] != federates[k])
      && regulators.Valid() && regulators.me == 0 && 0 !in federates
    }

    ghost predicate Valid()
      reads this, regulators, federates.Values
    {
      Shape() && Sound(View())
    }

    ghost function Members(): (members: map<Handle, Member>)
      reads this, federates.Values
    {
      map h | h in federates :: federates[h].View()
    }

    ghost function View(): (r: Rtig)
      reads this, regulators, federates.Values
      ensures r.members.Keys == federates.Keys
    {
      Rtig(Members(), regulators.clocks, labels, saveInProgress, saveStatus, restoreInProgress, restoreStatus, minNerx)
    }

    // The state left behind and the answer given are those of the service's function.
    ghost predicate Gives(answer: Answer, responses: seq<Response>, ok: bool)
      reads this, regulators, federates.Values
    {
      Valid() && View() == answer.rtig && responses == answer.responses && ok == answer.ok
    }

    constructor ()
      ensures Valid() && fresh(regulators) && View() == INITIAL
    {
      regulators := new Lbts.ClockSet();
      federates, labels := map[], map[];
      saveInProgress, saveStatus, restoreInProgress, restoreStatus := false, true, false, true;
      minNerx := ZERO;
    }

    // ---- One federate, or the clocks, at a time ----

    twostate lemma OnlyMember(h: Handle)
      requires federates == old(federates) && Shape() && h in federates
      requires forall k :: k in federates && k != h ==> unchanged(federates[k])
      ensures Members() == old(Members())[h := federates[h].View()]
    {
    }

    method SetRegulator(h: Handle, on: bool) returns (ok: bool)
      requires Shape() && h in federates
      modifies federates[h]
      ensures Shape() && ok == (old(View()).members[h].regulator != on)
      ensures View() == if ok then var r := old(View()); r.(members := r.members[h := r.members[h].(regulator := on)])
                        else old(View())
    {
      ok := federates[h].SetRegulator(on);
      OnlyMember(h);
      assert !ok ==> Members() == old(Members());
    }

    method InsertRegulator(h: Handle, date: Time) returns (ok: bool)
      requires Shape()
      modifies regulators
      ensures Shape() && ok == (h !in old(View()).regulators)
      ensures View() == if ok then var r := old(View()); r.(regulators := r.regulators[h := date]) else old(View())
    {
      ok := regulators.Insert(h, date);
      assert Members() == old(Members());
    }

    method UpdateClock(h: Handle, date: Time) returns (ok: bool)
      requires Shape() && h in federates
      modifies regulators
      ensures Shape() && ok == (h in old(View()).regulators)
      ensures View() == if ok then var r := old(View());
        r.(regulators := r.regulators[h := Lbts.Advanced(r.regulators[h], date)])
                        else old(View())
    {
      ok := regulators.Update(h, date);
      assert Members() == old(Members());
    }

    method RemoveClock(h: Handle) returns (ok: bool)
      requires Shape()
      modifies regulators
      ensures Shape() && ok == (h in old(View()).regulators)
      ensures View() == if ok then var r := old(View()); r.(regulators := r.regulators - {h}) else old(View())
    {
      ok := regulators.Remove(h);
      assert Members() == old(Members());
    }

    method SetConstrainedFlag(h: Handle, on: bool) returns (ok: bool)
      requires Shape() && h in federates
      modifies federates[h]
      ensures Shape() && ok == (old(View()).members[h].constrained != on)
      ensures View() == if ok then var r := old(View()); r.(members := r.members[h := r.members[h].(constrained := on)])
                        else old(View())
    {
      ok := federates[h].SetConstrained(on);
      OnlyMember(h);
      assert !ok ==> Members() == old(Members());
    }

    method SetLastNerxValue(h: Handle, date: Time)
      requires Shape() && h in federates
      modifies federates[h]
      ensures Shape()
      ensures var r := old(View());
        View() == r.(members := r.members[h := r.members[h].(nerx := date, usingNerx := true)])
    {
      federates[h].SetLastNerxValue(date);
      OnlyMember(h);
    }

    method AddLabel(h: Handle, point: string) returns (ok: bool)
      requires Shape() && h in federates
      modifies federates[h]
      ensures Shape() && ok == (point !in old(View()).members[h].points)
      ensures View() == if ok then var r := old(View()); r.(members := r.members[h := Owing(r.members[h], point)])
                        else old(View())
    {
      ok := federates[h].AddSynchronizationLabel(point);
      OnlyMember(h);
      assert !ok ==> Members() == old(Members());
    }

    method RemoveLabel(h: Handle, point: string) returns (ok: bool)
      requires Shape() && h in federates
      modifies federates[h]
      ensures Shape() && ok == (point in old(View()).members[h].points)
      ensures View() == if ok then var r := old(View()); var m := r.members[h];
                          r.(members := r.members[h := m.(points := m.points - {point})])
                        else old(View())
    {
      ok := federates[h].RemoveSynchronizationLabel(point);
      OnlyMember(h);
      assert !ok ==> Members() == old(Members());
    }

    method SetSaving(h: Handle, on: bool)
      requires Shape() && h in federates
      modifies federates[h]
      ensures Shape()
      ensures var r := old(View()); View() == r.(members := r.members[h := r.members[h].(saving := on)])
    {
      federates[h].saving := on;
      OnlyMember(h);
    }

    method SetRestoring(h: Handle, on: bool)
      requires Shape() && h in federates
      modifies federates[h]
      ensures Shape()
      ensures var r := old(View()); View() == r.(members := r.members[h := r.members[h].(restoring := on)])
    {
      federates[h].restoring := on;
      OnlyMember(h);
    }

    method StopAsking(h: Handle)
      requires Shape() && h in federates
      modifies federates[h]
      ensures Shape()
      ensures var r := old(View()); View() == r.(members := r.members[h := NoLongerAsking(r.members[h])])
    {
      if federates[h].usingNerx {
        federates[h].SetLastNerxValue(ZERO);
        federates[h].usingNerx := false;
      }
      OnlyMember(h);
    }

    // ---- Membership ----

    method ListClocks() returns (nulls: seq<Message>)
      ensures ListsClocks(nulls, View().regulators)
    {
      nulls := [];
      var todo := regulators.clocks.Keys;
      while todo != {}
        invariant todo <= regulators.clocks.Keys
        invariant ListsClocks(nulls, regulators.clocks - todo)
      {
        var k :| k in todo;
        ListOneClock(nulls, regulators.clocks, todo, k);
        nulls := nulls + [Null(k, regulators.clocks[k])];
        todo := todo - {k};
      }
      assert regulators.clocks - {} == regulators.clocks;
    }

    method ListPoints() returns (announcements: seq<Message>)
      ensures ListsPoints(announcements, View().points)
    {
      announcements := [];
      var todo := labels.Keys;
      while todo != {}
        invariant todo <= labels.Keys
        invariant ListsPoints(announcements, labels - todo)
      {
        var point :| point in todo;
        ListOnePoint(announcements, labels, todo, point);
        announcements := announcements + [Command(Announced(point, labels[point]))];
        todo := todo - {point};
      }
      assert labels - {} == labels;
    }

    // A new member owes every pending point.
    method Enroll(h: Handle)
      requires Shape() && h !in federates && h != 0
      modifies this`federates
      ensures Shape() && federates.Keys == old(federates).Keys + {h}
      ensures View() == RtigState.Add(old(View()), h).rtig
    {
      var federate := new Federate();
      federate.labels := labels.Keys;
      federates := federates[h := federate];
      assert Members() == old(Members())[h := NEW_MEMBER.(points := labels.Keys)];
    }

    lemma ValidAgain()
      requires Shape() && Sound(View())
      ensures Valid()
    {
    }

    // What a new federate is sent: a clock for each regulator, the pending points, then the reply.
    method Welcome(h: Handle) returns (nulls: seq<Message>, announcements: seq<Message>, reply: Message)
      ensures ListsClocks(nulls, View().regulators) && ListsPoints(announcements, View().points)
      ensures reply == JoinReply(h, |View().regulators|)
    {
      nulls := ListClocks();
      announcements := ListPoints();
      reply := JoinReply(h, |regulators.clocks|);
    }

    // Handles are given out from 1 on.
    method Add(h: Handle) returns (nulls: seq<Message>, announcements: seq<Message>, reply: Message)
      requires Valid() && h !in federates && h != 0
      modifies this`federates
      ensures Valid() && View() == RtigState.Add(old(View()), h).rtig
      ensures ListsClocks(nulls, old(View()).regulators) && ListsPoints(announcements, old(View()).points)
      ensures reply == JoinReply(h, |old(View()).regulators|)
    {
      ghost var r := View();
      AddIsSound(r, h);
      assert Shape();
      hide *;
      nulls, announcements, reply := Welcome(h);
      assert View() == r;
      Enroll(h);
      ValidAgain();
    }

    // ---- Regulators ----

    lemma Given(answer: Answer, responses: seq<Response>, ok: bool)
      requires Shape() && Sound(answer.rtig)
      requires View() == answer.rtig && responses == answer.responses && ok == answer.ok
      ensures Gives(answer, responses, ok)
    {
    }

    // The clock set first, then the flag; either may refuse.
    method Enlist(h: Handle, date: Time) returns (ok: bool)
      requires Shape()
      modifies regulators, federates.Values
      ensures var answer := RtigState.AddRegulator(old(View()), h, date);
        Shape() && View() == answer.rtig && ok == answer.ok
    {
      hide View, Shape, Gives, Members;
      ok := h in federates;
      if ok {
        ok := InsertRegulator(h, date);
      }
      if ok {
        ok := SetRegulator(h, true);
      }
    }

    method AddRegulator(h: Handle, date: Time) returns (responses: seq<Response>, ok: bool)
      requires Valid()
      modifies regulators, federates.Values
      ensures Gives(RtigState.AddRegulator(old(View()), h, date), responses, ok)
    {
      ghost var answer := RtigState.AddRegulator(View(), h, date);
      AddRegulatorIsSound(View(), h, date);
      hide View, Shape, Sound, Gives, Members;
      responses := [];
      ok := Enlist(h, date);
      if ok {
        responses := [Response(federates.Keys, RegulatorOn(h, date)), Response({h}, Command(RegulationEnabled(date)))];
      }
      Given(answer, responses, ok);
    }

    method UpdateRegulator(h: Handle, date: Time) returns (responses: seq<Response>, ok: bool)
      requires Valid()
      modifies regulators
      ensures Gives(RtigState.UpdateRegulator(old(View()), h, date), responses, ok)
    {
      ghost var answer := RtigState.UpdateRegulator(View(), h, date);
      UpdateRegulatorIsSound(View(), h, date);
      assert h in federates ==> View().members[h].regulator == federates[h].regulator;
      hide View, Shape, Sound, Gives, Members;
      responses, ok := [], h in federates && federates[h].regulator;
      if ok {
        ok := UpdateClock(h, date);
        if ok {
          responses := [Response(federates.Keys - {h}, Null(h, date))];
        }
      }
      Given(answer, responses, ok);
    }

    method Strike(h: Handle) returns (ok: bool)
      requires Shape()
      modifies regulators, federates.Values
      ensures var answer := RtigState.RemoveRegulator(old(View()), h);
        Shape() && View() == answer.rtig && ok == answer.ok
    {
      hide View, Shape, Gives, Members;
      ok := h in federates;
      if ok {
        ok := RemoveClock(h);
      }
      if ok {
        ok := SetRegulator(h, false);
      }
    }

    method RemoveRegulator(h: Handle) returns (responses: seq<Response>, ok: bool)
      requires Valid()
      modifies regulators, federates.Values
      ensures Gives(RtigState.RemoveRegulator(old(View()), h), responses, ok)
    {
      ghost var answer := RtigState.RemoveRegulator(View(), h);
      RemoveRegulatorIsSound(View(), h);
      hide View, Shape, Sound, Gives, Members;
      responses := [];
      ok := Strike(h);
      if ok {
        responses := [Response(federates.Keys, RegulatorOff(h))];
      }
      Given(answer, responses, ok);
    }

    method SetConstrained(h: Handle, on: bool) returns (responses: seq<Response>, ok: bool)
      requires Valid()
      modifies federates.Values
      ensures Gives(RtigState.SetConstrained(old(View()), h, on), responses, ok)
    {
      ghost var answer := RtigState.SetConstrained(View(), h, on);
      SetConstrainedIsSound(View(), h, on);
      hide View, Shape, Sound, Gives, Members;
      responses, ok := [], h in federates;
      if ok {
        ok := SetConstrainedFlag(h, on);
        if ok && on {
          responses := [Response({h}, Command(ConstrainedEnabled))];
        }
      }
      Given(answer, responses, ok);
    }

    // ---- Synchronization points ----

    method AddLabelToAll(point: string)
      requires Shape() && forall k :: k in federates ==> !Owes(View(), k, point)
      modifies federates.Values
      ensures Shape() && View() == Changed(old(View()), {}, m => Owing(m, point))
    {
      ghost var r, f := View(), m => Owing(m, point);
      ChangedNone(r, f);
      hide View, Shape, Gives, Members, Changed, Owing;
      var todo := federates.Keys;
      while todo != {}
        invariant todo <= federates.Keys && Shape() && View() == Changed(r, todo, f)
      {
        var k :| k in todo;
        ChangedOne(r, todo, k, f);
        assert !Owes(r, k, point);
        var ok := AddLabel(k, point);
        assert ok;
        todo := todo - {k};
      }
    }

    // The federates of `who` in turn, up to the first that cannot take the point.
    method AddLabels(who: seq<Handle>, point: string) returns (owed: Owed)
      requires Shape()
      modifies federates.Values
      ensures Shape()
      ensures var r := old(View()); var given := OweInTurn(r.members, who, point);
        View() == r.(members := given.0) && owed == given.1
    {
      ghost var r := View();
      hide View, Shape, Gives, Members;
      var i := 0;
      while i < |who|
        invariant 0 <= i <= |who| && Shape()
        invariant View() == r.(members := View().members)
        invariant OweInTurn(View().members, who[i..], point) == OweInTurn(r.members, who, point)
      {
        if who[i] !in federates {
          return NotMember;
        }
        var ok := AddLabel(who[i], point);
        if !ok {
          return AlreadyOwed;
        }
        i := i + 1;
      }
      return Accepted;
    }

    method AddPending(point: string, tag: string)
      requires Shape()
      modifies this`labels
      ensures Shape() && federates == old(federates)
      ensures var r := old(View()); View() == r.(points := r.points[point := tag])
    {
      labels := labels[point := tag];
      assert Members() == old(Members());
    }

    method PendForAll(point: string, tag: string)
      requires Shape() && forall k :: k in federates ==> !Owes(View(), k, point)
      modifies this`labels, federates.Values
      ensures Shape() && federates == old(federates) && View() == PendingForAll(old(View()), point, tag)
    {
      ghost var r := View();
      OwesOnlyItsPoints(r, point, tag);
      hide View, Shape, Members, Owes, Changed, Owing;
      AddPending(point, tag);
      AddLabelToAll(point);
    }

    method RegisterSynchronization(h: Handle, point: string, tag: string) returns (responses: seq<Response>, ok: bool)
      requires Valid()
      modifies this`labels, federates.Values
      ensures Gives(RegisterForAll(old(View()), h, point, tag), responses, ok)
    {
      ghost var r, answer := View(), RegisterForAll(View(), h, point, tag);
      RegisterForAllPends(r, h, point, tag);
      assert labels == r.points && (point !in labels ==> forall k :: k in federates ==> !Owes(r, k, point));
      hide View, Shape, Sound, Gives, Members, NoStrayPoints, Owes, PendingForAll;
      ok := h in federates && point != "" && point !in labels;
      if ok {
        PendForAll(point, tag);
        responses := [Response(federates.Keys, Command(Announced(point, tag))),
                      Response({h}, Command(Confirmed(point, true)))];
      } else {
        responses := [Response({h}, Command(Confirmed(point, false)))];
      }
      Given(answer, responses, ok);
    }

    method PendForSome(h: Handle, point: string, tag: string, who: seq<Handle>) returns (owed: Owed)
      requires Shape() && h in federates && point != "" && point !in labels
      modifies this`labels, federates.Values
      ensures Shape() && federates == old(federates)
      ensures PendedForSome(old(View()), h, point, tag, who, View(), owed)
    {
      ghost var r := View();
      hide View, Shape, Members, OweInTurn;
      AddPending(point, tag);
      owed := AddLabels(Owers(h, who), point);
    }

    method RegisterSynchronizationSet(h: Handle, point: string, tag: string, who: seq<Handle>)
      returns (responses: seq<Response>, ok: bool)
      requires Valid()
      modifies this`labels, federates.Values
      ensures Gives(RegisterForSome(old(View()), h, point, tag, who), responses, ok)
    {
      ghost var r, answer := View(), RegisterForSome(View(), h, point, tag, who);
      RegisterForSomeIsSound(r, h, point, tag, who);
      assert labels == r.points && Shape();
      hide *;
      ok := h in federates && point != "" && point !in labels;
      responses := [Response({h}, Command(Confirmed(point, false)))];
      if ok {
        var owed := PendForSome(h, point, tag, who);
        PendedAnswer(r, h, point, tag, who, View(), owed);
        ok := owed == Accepted;
        if owed == Accepted {
          responses := [Response((set k | k in who), Command(Announced(point, tag))),
                        Response({h}, Command(Confirmed(point, true)))];
        } else if owed == NotMember {
          responses := [];
        }
      } else {
        NotPendedAnswer(r, h, point, tag, who);
      }
      Given(answer, responses, ok);
    }

    method AnyOwing(point: string) returns (any: bool)
      ensures any == exists k :: k in View().members && Owes(View(), k, point)
    {
      var todo := federates.Keys;
      while todo != {}
        invariant todo <= federates.Keys
        invariant forall k :: k in federates && k !in todo ==> !Owes(View(), k, point)
      {
        var k :| k in todo;
        if point in federates[k].labels {
          assert Owes(View(), k, point);
          return true;
        }
        todo := todo - {k};
      }
      return false;
    }

    method DropPending(point: string)
      requires Shape()
      modifies this`labels
      ensures Shape() && federates == old(federates)
      ensures var r := old(View()); View() == r.(points := r.points - {point})
    {
      labels := labels - {point};
      assert Members() == old(Members());
    }

    // `done` tells whether it was the last to owe the point.
    method Settle(h: Handle, point: string) returns (ok: bool, done: bool)
      requires Shape()
      modifies this`labels, federates.Values
      ensures Shape() && federates == old(federates)
      ensures var answer := Achieve(old(View()), h, point);
        View() == answer.rtig && ok == answer.ok && done == (answer.responses != [])
    {
      hide View, Shape, Sound, Gives, Members;
      ok, done := h in federates && point != "", false;
      if ok {
        ok := RemoveLabel(h, point);
        if ok {
          var any := AnyOwing(point);
          if !any {
            done := true;
            DropPending(point);
          }
        }
      }
    }

    method UnregisterSynchronization(h: Handle, point: string) returns (responses: seq<Response>, ok: bool)
      requires Valid()
      modifies this`labels, federates.Values
      ensures Gives(Achieve(old(View()), h, point), responses, ok)
    {
      ghost var r, answer := View(), Achieve(View(), h, point);
      AchieveIsSound(r, h, point);
      hide View, Shape, Sound, Gives, Members;
      assert answer.responses != [] ==> answer.responses == [Response(r.members.Keys, Command(Synchronized(point)))];
      hide Achieve;
      responses := [];
      var done: bool;
      ok, done := Settle(h, point);
      if done {
        responses := [Response(federates.Keys, Command(Synchronized(point)))];
      }
      Given(answer, responses, ok);
    }

    // ---- Save and restore ----

    method SetSavingForAll()
      requires Shape()
      modifies federates.Values
      ensures Shape() && View() == Changed(old(View()), {}, MarkedSaving)
    {
      ghost var r, f := View(), MarkedSaving;
      ChangedNone(r, f);
      hide View, Shape, Gives, Members, Changed;
      var todo := federates.Keys;
      while todo != {}
        invariant todo <= federates.Keys && Shape() && View() == Changed(r, todo, f)
      {
        var k :| k in todo;
        ChangedOne(r, todo, k, f);
        SetSaving(k, true);
        todo := todo - {k};
      }
    }

    method SetRestoringForAll()
      requires Shape()
      modifies federates.Values
      ensures Shape() && View() == Changed(old(View()), {}, MarkedRestoring)
    {
      ghost var r, f := View(), MarkedRestoring;
      ChangedNone(r, f);
      hide View, Shape, Gives, Members, Changed;
      var todo := federates.Keys;
      while todo != {}
        invariant todo <= federates.Keys && Shape() && View() == Changed(r, todo, f)
      {
        var k :| k in todo;
        ChangedOne(r, todo, k, f);
        SetRestoring(k, true);
        todo := todo - {k};
      }
    }

    method IsAnySaving() returns (any: bool)
      ensures any == AnySaving(View())
    {
      var todo := federates.Keys;
      while todo != {}
        invariant todo <= federates.Keys
        invariant forall k :: k in federates && k !in todo ==> !View().members[k].saving
      {
        var k :| k in todo;
        assert View().members[k] == federates[k].View();
        if federates[k].saving {
          return true;
        }
        todo := todo - {k};
      }
      return false;
    }

    method IsAnyRestoring() returns (any: bool)
      ensures any == AnyRestoring(View())
    {
      var todo := federates.Keys;
      while todo != {}
        invariant todo <= federates.Keys
        invariant forall k :: k in federates && k !in todo ==> !View().members[k].restoring
      {
        var k :| k in todo;
        assert View().members[k] == federates[k].View();
        if federates[k].restoring {
          return true;
        }
        todo := todo - {k};
      }
      return false;
    }

    method SetSaveState(inProgress: bool, status: bool)
      requires Shape()
      modifies this`saveInProgress, this`saveStatus
      ensures Shape() && federates == old(federates)
      ensures View() == old(View()).(saveInProgress := inProgress, saveStatus := status)
    {
      saveInProgress, saveStatus := inProgress, status;
      assert Members() == old(Members());
    }

    method SetRestoreState(inProgress: bool, status: bool)
      requires Shape()
      modifies this`restoreInProgress, this`restoreStatus
      ensures Shape() && federates == old(federates)
      ensures View() == old(View()).(restoreInProgress := inProgress, restoreStatus := status)
    {
      restoreInProgress, restoreStatus := inProgress, status;
      assert Members() == old(Members());
    }

    method RequestFederationSave(h: Handle, title: string) returns (responses: seq<Response>, ok: bool)
      requires Valid()
      modifies this`saveInProgress, this`saveStatus, federates.Values
      ensures Gives(RequestSave(old(View()), h, title), responses, ok)
    {
      ghost var r, answer := View(), RequestSave(View(), h, title);
      RequestSaveChanges(r, h, title);
      assert saveInProgress == r.saveInProgress;
      hide View, Shape, Sound, Gives, Members, Changed;
      responses, ok := [], h in federates && !saveInProgress;
      if ok {
        SetSavingForAll();
        SetSaveState(true, true);
        responses := [Response(federates.Keys, InitiateSave(title))];
      }
      Given(answer, responses, ok);
    }

    // `written` stands for the attempt to write the RTIG's own data, made only when all saved.
    method EndSave(written: bool) returns (saved: bool)
      requires Shape()
      modifies this`saveInProgress, this`saveStatus
      ensures Shape() && federates == old(federates) && saved == (old(View()).saveStatus && written)
      ensures View() == old(View()).(saveInProgress := false, saveStatus := true)
    {
      saved := saveStatus;
      if saved {
        saved := written;
      }
      SetSaveState(false, true);
    }

    method ReportSave(h: Handle, status: bool)
      requires Shape() && h in federates
      modifies this`saveInProgress, this`saveStatus, federates.Values
      ensures Shape() && federates == old(federates)
      ensures var r := old(View()); View() == r.(members := r.members[h := r.members[h].(saving := false)],
                                                 saveStatus := r.saveStatus && status)
    {
      ghost var r := View();
      assert saveInProgress == r.saveInProgress && saveStatus == r.saveStatus;
      SetSaving(h, false);
      assert saveInProgress == r.saveInProgress;
      hide View, Shape, Members;
      if !status {
        SetSaveState(saveInProgress, false);
      }
    }

    // `done` tells whether it was the last report, and `saved` then the outcome.
    method TakeSaveReport(h: Handle, status: bool, written: bool) returns (done: bool, saved: bool)
      requires Shape() && h in federates
      modifies this`saveInProgress, this`saveStatus, federates.Values
      ensures Shape() && federates == old(federates)
      ensures var r, answer := old(View()), SaveReport(old(View()), h, status, written);
        View() == answer.rtig && answer.responses == if done then [Response(r.members.Keys, SaveEnded(saved))] else []
    {
      hide View, Shape, Members, AnySaving;
      ReportSave(h, status);
      var any := IsAnySaving();
      done, saved := !any, false;
      if done {
        saved := EndSave(written);
      }
    }

    method FederateSaveStatus(h: Handle, status: bool, written: bool) returns (responses: seq<Response>, ok: bool)
      requires Valid()
      modifies this`saveInProgress, this`saveStatus, federates.Values
      ensures Gives(SaveReport(old(View()), h, status, written), responses, ok)
    {
      ghost var r, answer := View(), SaveReport(View(), h, status, written);
      SaveReportIsSound(r, h, status, written);
      assert answer.ok == (h in r.members) && (!answer.ok ==> answer == Failure(r));
      hide View, Shape, Sound, Gives, Members, SaveReport;
      responses, ok := [], h in federates;
      if ok {
        var done, saved := TakeSaveReport(h, status, written);
        if done {
          responses := [Response(federates.Keys, SaveEnded(saved))];
        }
      }
      Given(answer, responses, ok);
    }

    method PrepareRestore(h: Handle, title: string)
      requires Shape() && Sound(View()) && h in federates && !restoreInProgress
      modifies this`restoreInProgress, this`restoreStatus, federates.Values
      ensures Shape() && federates == old(federates)
      ensures View() == RequestRestore(old(View()), h, title).rtig
    {
      RequestRestoreChanges(View(), h, title);
      assert RequestRestore(View(), h, title).ok;
      hide View, Shape, Sound, Members, Changed, RequestRestore;
      SetRestoringForAll();
      SetRestoreState(true, true);
    }

    method RestoreResponses(h: Handle, title: string) returns (responses: seq<Response>)
      ensures SameDelivery(responses, Begun(h, federates.Keys, title))
    {
      var each := InitiateForEach(title);
      var first := [Response({h}, Command(RestoreAccepted(title))), Response(federates.Keys, Command(RestoreBegun))];
      responses := first + each;
      ghost var last := Response(federates.Keys, Command(InitiateRestore(title)));
      forall k ensures For(responses, k) == For(Begun(h, federates.Keys, title), k) {
        ForConcat(first, each, k);
        ForConcat(first, [last], k);
        ForSingle(last, k);
      }
    }

    method RequestFederationRestore(h: Handle, title: string) returns (responses: seq<Response>, ok: bool)
      requires Valid()
      modifies this`restoreInProgress, this`restoreStatus, federates.Values
      ensures Valid()
      ensures var answer := RequestRestore(old(View()), h, title);
        View() == answer.rtig && ok == answer.ok && SameDelivery(responses, answer.responses)
    {
      ghost var r, answer := View(), RequestRestore(View(), h, title);
      RequestRestoreChanges(r, h, title);
      RequestRestoreAnswers(r, h, title);
      assert r.restoreInProgress == restoreInProgress && Shape();
      hide *;
      responses, ok := [], h in federates && !restoreInProgress;
      if ok {
        PrepareRestore(h, title);
        responses := RestoreResponses(h, title);
      }
      ValidAgain();
    }

    // One message to each federate, with its own handle.
    method InitiateForEach(title: string) returns (responses: seq<Response>)
      ensures forall k :: For(responses, k) == if k in federates then [Command(InitiateRestore(title))] else []
    {
      responses := [];
      var todo := federates.Keys;
      while todo != {}
        invariant todo <= federates.Keys
        invariant forall k ::
          For(responses, k) == if k in federates && k !in todo then [Command(InitiateRestore(title))] else []
      {
        var h :| h in todo;
        todo := todo - {h};
        var one := Response({h}, Command(InitiateRestore(title)));
        forall k
          ensures For(responses + [one], k) == For(responses, k) + For([one], k)
          ensures For([one], k) == if k == h then [one.message] else []
        {
          ForConcat(responses, [one], k);
          ForSingle(one, k);
        }
        responses := responses + [one];
      }
    }

    method EndRestore() returns (restored: bool)
      requires Shape()
      modifies this`restoreInProgress, this`restoreStatus
      ensures Shape() && federates == old(federates) && restored == old(View()).restoreStatus
      ensures View() == old(View()).(restoreInProgress := false, restoreStatus := true)
    {
      restored := restoreStatus;
      SetRestoreState(false, true);
    }

    method ReportRestore(h: Handle, status: bool)
      requires Shape() && h in federates
      modifies this`restoreInProgress, this`restoreStatus, federates.Values
      ensures Shape() && federates == old(federates)
      ensures var r := old(View()); View() == r.(members := r.members[h := r.members[h].(restoring := false)],
                                                 restoreStatus := r.restoreStatus && status)
    {
      ghost var r := View();
      assert restoreInProgress == r.restoreInProgress && restoreStatus == r.restoreStatus;
      SetRestoring(h, false);
      assert restoreInProgress == r.restoreInProgress;
      hide View, Shape, Members;
      if !status {
        SetRestoreState(restoreInProgress, false);
      }
    }

    method TakeRestoreReport(h: Handle, status: bool) returns (done: bool, restored: bool)
      requires Shape() && h in federates
      modifies this`restoreInProgress, this`restoreStatus, federates.Values
      ensures Shape() && federates == old(federates)
      ensures var r, answer := old(View()), RestoreReport(old(View()), h, status);
        && View() == answer.rtig
        && answer.responses == if done then [Response(r.members.Keys, Command(RestoreEnded(restored)))] else []
    {
      hide View, Shape, Members, AnyRestoring;
      ReportRestore(h, status);
      var any := IsAnyRestoring();
      done, restored := !any, false;
      if done {
        restored := EndRestore();
      }
    }

    method FederateRestoreStatus(h: Handle, status: bool) returns (responses: seq<Response>, ok: bool)
      requires Valid()
      modifies this`restoreInProgress, this`restoreStatus, federates.Values
      ensures Gives(RestoreReport(old(View()), h, status), responses, ok)
    {
      ghost var r, answer := View(), RestoreReport(View(), h, status);
      RestoreReportIsSound(r, h, status);
      assert answer.ok == (h in r.members) && (!answer.ok ==> answer == Failure(r));
      hide View, Shape, Sound, Gives, Members, RestoreReport;
      responses, ok := [], h in federates;
      if ok {
        var done, restored := TakeRestoreReport(h, status);
        if done {
          responses := [Response(federates.Keys, Command(RestoreEnded(restored)))];
        }
      }
      Given(answer, responses, ok);
    }

    // ---- Next event requests of several regulators ----

    // What is left to count, and what has been, when the regulators of `todo` are still to come.
    ghost function Counted(todo: set<Handle>): (Lbts.Clocks, nat)
      requires regulators.clocks.Keys <= federates.Keys
      reads this, regulators, federates.Values
    {
      (NerxClocks(View()) - todo, |Asking(View()) - todo|)
    }

    lemma CountOne(todo: set<Handle>, k: Handle)
      requires regulators.clocks.Keys <= federates.Keys && k in regulators.clocks && k in todo
      ensures Counted(todo - {k})
           == (Counted(todo).0[k := if federates[k].usingNerx then federates[k].lastNerx else regulators.clocks[k]],
               Counted(todo).1 + if federates[k].usingNerx then 1 else 0)
    {
      var all, asking := NerxClocks(View()), Asking(View());
      assert View().members[k] == federates[k].View();
      assert all[k] == if federates[k].usingNerx then federates[k].lastNerx else regulators.clocks[k];
      assert k in asking <==> federates[k].usingNerx;
      hide View, NerxClocks, Asking;
      OneMore(all, asking, todo, k);
    }

    lemma CountAll()
      requires regulators.clocks.Keys <= federates.Keys
      ensures Counted(regulators.clocks.Keys) == (map[], 0)
      ensures Counted({}) == (NerxClocks(View()), |Asking(View())|)
    {
      NoneCounted(View());
      AllCounted(NerxClocks(View()), Asking(View()), {});
    }

    method CollectClocks() returns (clocks: Lbts.Clocks, count: nat)
      requires regulators.clocks.Keys <= federates.Keys
      ensures clocks == NerxClocks(View()) && count == |Asking(View())|
    {
      hide *;
      CountAll();
      var todo := regulators.clocks.Keys;
      clocks, count := map[], 0;
      while todo != {}
        invariant todo <= regulators.clocks.Keys && (clocks, count) == Counted(todo)
      {
        var k :| k in todo;
        CountOne(todo, k);
        clocks := clocks[k := if federates[k].usingNerx then federates[k].lastNerx else regulators.clocks[k]];
        count := count + if federates[k].usingNerx then 1 else 0;
        todo := todo - {k};
      }
    }

    lemma MinOfView()
      requires regulators.clocks.Keys <= federates.Keys
      ensures MinNerx(View()) == if |Asking(View())| < 2 then ZERO else Lbts.Least(NerxClocks(View()), 0)
    {
    }

    method ComputeMinNerx() returns (least: Time)
      requires regulators.clocks.Keys <= federates.Keys
      ensures least == MinNerx(View())
    {
      hide *;
      var clocks, count := CollectClocks();
      MinOfView();
      least := LeastOf(clocks);
      if count < 2 {
        least := ZERO;
      }
    }

    // A clock set of nobody in particular, filled with `clocks`.
    static method LeastOf(clocks: Lbts.Clocks) returns (least: Time)
      ensures least == Lbts.Least(clocks, 0)
    {
      var all := new Lbts.ClockSet();
      var todo := clocks.Keys;
      assert clocks - todo == map[];
      while todo != {}
        invariant todo <= clocks.Keys && fresh(all) && all.Valid() && all.me == 0
        invariant all.clocks == clocks - todo
      {
        var k :| k in todo;
        OneMore(clocks, {}, todo, k);
        var ok := all.Insert(k, clocks[k]);
        todo := todo - {k};
      }
      assert clocks - {} == clocks;
      least := all.bound;
    }

    method StopAskingForAll()
      requires Shape()
      modifies federates.Values
      ensures Shape() && View() == Changed(old(View()), {}, NoLongerAsking)
    {
      ghost var r := View();
      ChangedNone(r, NoLongerAsking);
      hide View, Shape, Gives, Members, Changed, NoLongerAsking;
      var todo := federates.Keys;
      while todo != {}
        invariant todo <= federates.Keys && Shape() && View() == Changed(r, todo, NoLongerAsking)
      {
        var k :| k in todo;
        ChangedOne(r, todo, k, NoLongerAsking);
        StopAsking(k);
        todo := todo - {k};
      }
    }

    method SetMinNerx(least: Time)
      requires Shape()
      modifies this`minNerx
      ensures Shape() && federates == old(federates) && View() == old(View()).(minNerx := least)
    {
      minNerx := least;
      assert Members() == old(Members());
    }

    method Issue(least: Time)
      requires Shape()
      modifies this`minNerx, federates.Values
      ensures Shape() && federates == old(federates)
      ensures View() == Changed(old(View()).(minNerx := least), {}, NoLongerAsking)
    {
      hide View, Shape, Members, Changed;
      SetMinNerx(least);
      StopAskingForAll();
    }

    method UpdateLastNerx(h: Handle, date: Time) returns (issue: bool)
      requires Shape() && Sound(View()) && h in federates
      modifies this`minNerx, federates.Values
      ensures Shape() && federates == old(federates) && old(View()).regulators.Keys <= old(View()).members.Keys
      ensures var answer := NullPrime(old(View()), h, date);
        && View() == answer.rtig
        && answer.responses == if issue then [Response(old(View()).members.Keys, Null(0, View().minNerx))] else []
    {
      ghost var r := View();
      assert r.regulators.Keys <= r.members.Keys && regulators.clocks.Keys <= federates.Keys;
      hide *;
      SetLastNerxValue(h, date);
      var least := ComputeMinNerx();
      LeastOfView();
      issue := minNerx.Lt(least);
      if issue {
        Issue(least);
      }
      NullPrimeEnds(r, h, date, least, View());
    }

    lemma LeastOfView()
      ensures minNerx == View().minNerx
    {
    }

    method ReceiveNullPrime(h: Handle, date: Time) returns (responses: seq<Response>, ok: bool)
      requires Valid()
      modifies this`minNerx, federates.Values
      ensures Sound(old(View())) && Gives(NullPrime(old(View()), h, date), responses, ok)
    {
      ghost var r, answer := View(), NullPrime(View(), h, date);
      NullPrimeIsSound(r, h, date);
      assert answer.ok == (h in r.members) && (!answer.ok ==> answer == Failure(r));
      hide View, Shape, Sound, Gives, Members, NullPrime;
      responses, ok := [], h in federates;
      if ok {
        var issue := UpdateLastNerx(h, date);
        LeastOfView();
        if issue {
          responses := [Response(federates.Keys, Null(0, minNerx))];
        }
      }
      Given(answer, responses, ok);
    }
  }

  // The order of responses to different federates is left open.
  ghost predicate SameDelivery(a: seq<Response>, b: seq<Response>) {
    forall h :: For(a, h) == For(b, h)
  }

  function Begun(h: Handle, all: set<Handle>, title: string): seq<Response> {
    [Response({h}, Command(RestoreAccepted(title))), Response(all, Command(RestoreBegun))]
    + [Response(all, Command(InitiateRestore(title)))]
  }

  // ---- The same change to every member ----

  function MarkedSaving(m: Member): Member {
    m.(saving := true)
  }

  function MarkedRestoring(m: Member): Member {
    m.(restoring := true)
  }

  // `f` has been applied to all members but those of `todo`.
  ghost function Changed(r: Rtig, todo: set<Handle>, f: Member -> Member): Rtig {
    r.(members := map k | k in r.members :: if k in todo then r.members[k] else f(r.members[k]))
  }

  lemma ChangedNone(r: Rtig, f: Member -> Member)
    ensures Changed(r, r.members.Keys, f) == r
  {
    assert Changed(r, r.members.Keys, f).members == r.members;
  }

  lemma ChangedOne(r: Rtig, todo: set<Handle>, k: Handle, f: Member -> Member)
    requires k in todo && k in r.members
    ensures var before := Changed(r, todo, f);
      && before.members.Keys == r.members.Keys && before.members[k] == r.members[k]
      && before.(members := before.members[k := f(r.members[k])]) == Changed(r, todo - {k}, f)
  {
    var before := Changed(r, todo, f);
    assert before.members[k := f(r.members[k])] == Changed(r, todo - {k}, f).members;
  }

  ghost function PendingForAll(r: Rtig, point: string, tag: string): Rtig {
    Changed(r.(points := r.points[point := tag]), {}, m => Owing(m, point))
  }

  lemma OwesOnlyItsPoints(r: Rtig, point: string, tag: string)
    requires forall k :: k in r.members ==> !Owes(r, k, point)
    ensures forall k :: k in r.members ==> !Owes(r.(points := r.points[point := tag]), k, point)
  {
  }

  lemma RegisterForAllPends(r: Rtig, h: Handle, point: string, tag: string)
    requires Sound(r)
    ensures Sound(RegisterForAll(r, h, point, tag).rtig)
    ensures h in r.members && point != "" && point !in r.points ==>
      RegisterForAll(r, h, point, tag).rtig == PendingForAll(r, point, tag)
  {
    assert Changed(r, {}, m => Owing(m, point)).members == map k | k in r.members :: Owing(r.members[k], point);
  }

  lemma AddIsSound(r: Rtig, h: Handle)
    requires Sound(r) && h !in r.members
    ensures Sound(RtigState.Add(r, h).rtig)
  {
  }

  lemma AddRegulatorIsSound(r: Rtig, h: Handle, date: Time)
    requires Sound(r)
    ensures Sound(RtigState.AddRegulator(r, h, date).rtig)
  {
  }

  lemma UpdateRegulatorIsSound(r: Rtig, h: Handle, date: Time)
    requires Sound(r)
    ensures Sound(RtigState.UpdateRegulator(r, h, date).rtig)
  {
  }

  lemma RemoveRegulatorIsSound(r: Rtig, h: Handle)
    requires Sound(r)
    ensures Sound(RtigState.RemoveRegulator(r, h).rtig)
  {
  }

  lemma SetConstrainedIsSound(r: Rtig, h: Handle, on: bool)
    requires Sound(r)
    ensures Sound(RtigState.SetConstrained(r, h, on).rtig)
  {
  }

  lemma {:induction false} OweInTurnOwesNoOther(members: map<Handle, Member>, who: seq<Handle>, point: string)
    ensures var members' := OweInTurn(members, who, point).0;
      && members'.Keys == members.Keys
      && forall k :: k in members ==> members[k].points <= members'[k].points <= members[k].points + {point}
    decreases |who|
  {
    if who != [] && who[0] in members && point !in members[who[0]].points {
      OweInTurnOwesNoOther(members[who[0] := Owing(members[who[0]], point)], who[1..], point);
    }
  }

  // The point has become pending and the federates of the set have been asked in turn.
  ghost predicate PendedForSome(r: Rtig, h: Handle, point: string, tag: string, who: seq<Handle>, r': Rtig,
                                owed: Owed) {
    var (members, answer) := OweInTurn(r.members, Owers(h, who), point);
    r' == r.(points := r.points[point := tag], members := members) && owed == answer
  }

  lemma PendedAnswer(r: Rtig, h: Handle, point: string, tag: string, who: seq<Handle>, r': Rtig, owed: Owed)
    requires PendedForSome(r, h, point, tag, who, r', owed) && h in r.members && point != "" && point !in r.points
    ensures var answer := RegisterForSome(r, h, point, tag, who);
      && answer.rtig == r' && answer.ok == (owed == Accepted)
      && answer.responses == match owed
           case Accepted => [Response((set k | k in who), Command(Announced(point, tag))),
                             Response({h}, Command(Confirmed(point, true)))]
           case AlreadyOwed => [Response({h}, Command(Confirmed(point, false)))]
           case NotMember => []
  {
    hide OweInTurn;
  }

  lemma NotPendedAnswer(r: Rtig, h: Handle, point: string, tag: string, who: seq<Handle>)
    requires h !in r.members || point == "" || point in r.points
    ensures RegisterForSome(r, h, point, tag, who) 
         == Answer(r, [Response({h}, Command(Confirmed(point, false)))], false)
  {
    hide OweInTurn;
  }

  lemma OneMorePointIsSound(r: Rtig, members: map<Handle, Member>, point: string, tag: string)
    requires Sound(r) && members.Keys == r.members.Keys
    requires forall k :: k in members ==> members[k].points <= r.members[k].points + {point}
    ensures Sound(r.(points := r.points[point := tag], members := members))
  {
  }

  lemma RegisterForSomeIsSound(r: Rtig, h: Handle, point: string, tag: string, who: seq<Handle>)
    requires Sound(r)
    ensures Sound(RegisterForSome(r, h, point, tag, who).rtig)
  {
    OweInTurnOwesNoOther(r.members, Owers(h, who), point);
    OneMorePointIsSound(r, OweInTurn(r.members, Owers(h, who), point).0, point, tag);
    hide OweInTurn, Sound, NoStrayPoints;
  }

  lemma AchieveIsSound(r: Rtig, h: Handle, point: string)
    requires Sound(r)
    ensures Sound(Achieve(r, h, point).rtig)
  {
    if point != "" && Owes(r, h, point) {
      var m := r.members[h];
      var r1 := r.(members := r.members[h := m.(points := m.points - {point})]);
      forall k | k in r1.members && !exists k :: k in r1.members && Owes(r1, k, point)
        ensures r1.members[k].points <= r.points.Keys - {point}
      {
        assert !Owes(r1, k, point);
      }
    }
  }

  lemma RequestSaveChanges(r: Rtig, h: Handle, title: string)
    requires Sound(r)
    ensures Sound(RequestSave(r, h, title).rtig)
    ensures RequestSave(r, h, title).ok ==>
      Changed(r, {}, MarkedSaving).(saveInProgress := true, saveStatus := true) == RequestSave(r, h, title).rtig
  {
    assert Changed(r, {}, MarkedSaving).members == map k | k in r.members :: r.members[k].(saving := true);
  }

  lemma SaveReportIsSound(r: Rtig, h: Handle, saved: bool, written: bool)
    requires Sound(r)
    ensures Sound(SaveReport(r, h, saved, written).rtig)
  {
  }

  lemma RequestRestoreChanges(r: Rtig, h: Handle, title: string)
    requires Sound(r)
    ensures Sound(RequestRestore(r, h, title).rtig)
    ensures RequestRestore(r, h, title).ok ==>
      && Changed(r, {}, MarkedRestoring).(restoreInProgress := true, restoreStatus := true)
         == RequestRestore(r, h, title).rtig
  {
    assert Changed(r, {}, MarkedRestoring).members == map k | k in r.members :: r.members[k].(restoring := true);
  }

  lemma RequestRestoreAnswers(r: Rtig, h: Handle, title: string)
    ensures var answer := RequestRestore(r, h, title);
      && answer.ok == (h in r.members && !r.restoreInProgress)
      && answer.responses == (if answer.ok then Begun(h, r.members.Keys, title) else [])
      && (!answer.ok ==> answer.rtig == r)
    ensures SameDelivery([], [])
  {
  }

  lemma RestoreReportIsSound(r: Rtig, h: Handle, restored: bool)
    requires Sound(r)
    ensures Sound(RestoreReport(r, h, restored).rtig)
  {
  }

  lemma ForSingle(r: Response, h: Handle)
    ensures For([r], h) == if h in r.to then [r.message] else []
  {
    assert [r][1..] == [];
  }

  lemma {:induction false} ForConcat(a: seq<Response>, b: seq<Response>, h: Handle)
    ensures For(a + b, h) == For(a, h) + For(b, h)
  {
    if a == [] {
      assert a + b == b;
    } else {
      assert (a + b)[1..] == a[1..] + b && (a + b)[0] == a[0];
      ForConcat(a[1..], b, h);
      var head := if h in a[0].to then [a[0].message] else [];
      assert head + (For(a[1..], h) + For(b, h)) == head + For(a[1..], h) + For(b, h);
    }
  }

  lemma OneMore(all: Lbts.Clocks, asking: set<Handle>, todo: set<Handle>, k: Handle)
    requires k in todo && k in all
    ensures (all - todo)[k := all[k]] == all - (todo - {k})
    ensures |asking - (todo - {k})| == |asking - todo| + if k in asking then 1 else 0
  {
    if k in asking {
      assert asking - (todo - {k}) == (asking - todo) + {k};
    } else {
      assert asking - (todo - {k}) == asking - todo;
    }
  }

  lemma AllCounted(all: Lbts.Clocks, asking: set<Handle>, todo: set<Handle>)
    requires todo == {}
    ensures all - todo == all && asking - todo == asking
  {
  }

  lemma NoneCounted(r: Rtig)
    requires r.regulators.Keys <= r.members.Keys
    ensures NerxClocks(r).Keys == r.regulators.Keys
    ensures NerxClocks(r) - r.regulators.Keys == map[] && |Asking(r) - r.regulators.Keys| == 0
  {
    assert Asking(r) - r.regulators.Keys == {};
  }

  lemma NullPrimeEnds(r: Rtig, h: Handle, date: Time, least: Time, r2: Rtig)
    requires Sound(r) && h in r.members
    requires var r1 := r.(members := r.members[h := r.members[h].(nerx := date, usingNerx := true)]);
      && r1.members.Keys == r.members.Keys && least == MinNerx(r1)
      && r2 == if r.minNerx.Lt(least) then Changed(r1.(minNerx := least), {}, NoLongerAsking) else r1
    ensures var answer := NullPrime(r, h, date);
      && r2 == answer.rtig
      && answer.responses == if r.minNerx.Lt(least) then [Response(r.members.Keys, Null(0, r2.minNerx))] else []
  {
    var r1 := r.(members := r.members[h := r.members[h].(nerx := date, usingNerx := true)]);
    assert Changed(r1, {}, NoLongerAsking).members == map k | k in r1.members :: NoLongerAsking(r1.members[k]);
  }

  lemma NullPrimeIsSound(r: Rtig, h: Handle, date: Time)
    requires Sound(r)
    ensures Sound(NullPrime(r, h, date).rtig)
  {
    hide MinNerx;
  }

  // ---- What a new federate is sent ----

  // One null message for each clock.
  ghost predicate ListsClocks(nulls: seq<Message>, clocks: Lbts.Clocks) {
    && |nulls| == |clocks|
    && (forall i :: 0 <= i < |nulls| ==>
          nulls[i].Null? && nulls[i].src in clocks && nulls[i].date == clocks[nulls[i].src])
    && (forall i, j :: 0 <= i < j < |nulls| ==> nulls[i].src != nulls[j].src)
  }

  // One announcement for each pending point.
  ghost predicate ListsPoints(announcements: seq<Message>, points: map<string, string>) {
    && |announcements| == |points|
    && (forall m :: m in announcements <==>
          m.Command? && m.notice.Announced? && m.notice.point in points && m.notice.tag == points[m.notice.point])
  }

  lemma ListOneClock(nulls: seq<Message>, clocks: Lbts.Clocks, todo: set<Handle>, k: Handle)
    requires k in todo && k in clocks && ListsClocks(nulls, clocks - todo)
    ensures ListsClocks(nulls + [Null(k, clocks[k])], clocks - (todo - {k}))
  {
    assert (clocks - (todo - {k})).Keys == (clocks - todo).Keys + {k};
  }

  lemma ListOnePoint(announcements: seq<Message>, points: map<string, string>, todo: set<string>, point: string)
    requires point in todo && point in points && ListsPoints(announcements, points - todo)
    ensures ListsPoints(announcements + [Command(Announced(point, points[point]))], points - (todo - {point}))
  {
    assert (points - (todo - {point})).Keys == (points - todo).Keys + {point};
  }
}
