/** Two runs of two federates, in which messages overtake each other.

    In the one, a federate that was told the end of a save asks for the next while the other was not, and the
    other gets stuck. In the other a federate reports twice, and is told an end before its own start.
 */
module OvertakingRuns {
  import opened FederationTime
  import opened Messages
  import opened RtigState
  import opened SaveOrder
  import opened SaveOvertaking
  import opened StuckSaves

  // Two federates and their stations, whether a save is on, and which of them has yet to report.
  ghost predicate Pair(f: Field, a: Handle, b: Handle, sa: Station, sb: Station, begun: nat, busy: bool, ma: bool,
                       mb: bool) {
    && a != b && f.begun == begun
    && f.stations.Keys == f.rtig.members.Keys == {a, b} && f.stations[a] == sa && f.stations[b] == sb
    && f.rtig.saveInProgress == busy && f.rtig.members[a].saving == ma && f.rtig.members[b].saving == mb
  }

  lemma Swap(f: Field, a: Handle, b: Handle, sa: Station, sb: Station, begun: nat, busy: bool, ma: bool, mb: bool)
    requires Pair(f, a, b, sa, sb, begun, busy, ma, mb)
    ensures Pair(f, b, a, sb, sa, begun, busy, mb, ma)
  {
  }

  // A step of one of them alone.
  lemma PairAlone(f: Field, e: Step, b: Handle, sa: Station, sb: Station, begun: nat, busy: bool, ma: bool, mb: bool)
    requires Pair(f, e.h, b, sa, sb, begun, busy, ma, mb) && !e.RtigTakes?
    requires (e.RtiaTakes? ==> sa.down != []) && (e.Ticks? ==> sa.commands != [])
    ensures Allowed(f, e) && Pair(Next(f, e), e.h, b, Alone(sa, e, begun), sb, begun, busy, ma, mb)
    ensures !e.Reports? || !sa.reported ==> ReportsOnce(f, e)
  {
    hide Alone, Taken;
  }

  // What a step of the RTIG sends to both.
  lemma SentTo(f: Field, h: Handle, f': Field, message: Option<Message>, k: Handle)
    requires h in f.stations && f.stations[h].up != [] && AllSent(f, h, f', message) && k in f.stations
    ensures f'.stations.Keys == f.stations.Keys
    ensures f'.stations[k] == f.stations[k].(up := if k == h then f.stations[k].up[1..] else f.stations[k].up,
      down := if message.Some? then f.stations[k].down + [Tagged(message.value, f'.begun)] else f.stations[k].down)
  {
  }

  // A step of the RTIG that sends `sent` to both.
  lemma PairSent(f: Field, a: Handle, b: Handle, sa: Station, sb: Station, f': Field, message: Option<Message>)
    requires a != b && f.stations.Keys == {a, b} && f.stations[a] == sa && f.stations[b] == sb
    requires sa.up != [] && AllSent(f, a, f', message)
    ensures f'.stations.Keys == {a, b}
    ensures var sent := if message.Some? then [Tagged(message.value, f'.begun)] else [];
      && f'.stations[a] == sa.(up := sa.up[1..], down := sa.down + sent)
      && f'.stations[b] == sb.(down := sb.down + sent)
  {
    SentTo(f, a, f', message, a);
    SentTo(f, a, f', message, b);
    assert sa.down + [] == sa.down && sb.down + [] == sb.down;
    hide AllSent;
  }

  // The RTIG takes the request of `a` and begins a save.
  lemma PairBegins(f: Field, a: Handle, b: Handle, sa: Station, sb: Station, begun: nat, title: string)
    requires Pair(f, a, b, sa, sb, begun, false, false, false) && sa.up == [AskSave(title)]
    ensures Allowed(f, RtigTakes(a, true))
    ensures var start := Tagged(InitiateSave(title), begun + 1);
      Pair(Next(f, RtigTakes(a, true)), a, b, sa.(up := [], down := sa.down + [start]), sb.(down := sb.down + [start]),
           begun + 1, true, true, true)
  {
    hide AllSent, For, Taken;
    SentOne(f, a, true, InitiateSave(title));
    TakenRtig(f, a, true);
    PairSent(f, a, b, sa, sb, Taken(f, a, true), Some(InitiateSave(title)));
  }

  // It takes the report of `a`, and waits for that of `b`.
  lemma PairWaits(f: Field, a: Handle, b: Handle, sa: Station, sb: Station, begun: nat, ma: bool)
    requires Pair(f, a, b, sa, sb, begun, true, ma, true) && sa.up != [] && sa.up[0] == TellSaved(true)
    ensures Allowed(f, RtigTakes(a, true))
    ensures Pair(Next(f, RtigTakes(a, true)), a, b, sa.(up := sa.up[1..]), sb, begun, true, false, true)
  {
    Waits(f.rtig, a, true, true);
    hide AllSent;
    SentNothing(f, a, true);
    PairSent(f, a, b, sa, sb, Taken(f, a, true), None);
    assert sa.down + [] == sa.down && sb.down + [] == sb.down;
    hide For, SaveReport;
  }

  // It takes that of `b` as well, and ends the save.
  lemma PairEnds(f: Field, b: Handle, a: Handle, sb: Station, sa: Station, begun: nat) returns (end: Tagged)
    requires Pair(f, b, a, sb, sa, begun, true, true, false) && sb.up == [TellSaved(true)]
    ensures Allowed(f, RtigTakes(b, true)) && Is(end, End(begun))
    ensures Pair(Next(f, RtigTakes(b, true)), b, a, sb.(up := [], down := sb.down + [end]),
                 sa.(down := sa.down + [end]), begun, false, false, false)
  {
    var message := SaveEnded(f.rtig.saveStatus);
    end := Tagged(message, begun);
    assert Answered(f.rtig, b, sb.up[0], true) == SaveReport(f.rtig, b, true, true);
    hide AllSent, For, SaveReport, AnySaving, Taken, Answered;
    LastEnds(f.rtig, b, a);
    SentOne(f, b, true, message);
    TakenRtig(f, b, true);
    PairSent(f, b, a, sb, sa, Taken(f, b, true), Some(message));
  }

  lemma TakenRtig(f: Field, h: Handle, written: bool)
    requires h in f.stations && f.stations[h].up != []
    ensures var f', answer := Taken(f, h, written), Answered(f.rtig, h, f.stations[h].up[0], written);
      && f'.rtig == answer.rtig
      && f'.begun == f.begun + if !f.rtig.saveInProgress && answer.rtig.saveInProgress then 1 else 0
  {
    hide Answered, For;
  }

  lemma LastEnds(r: Rtig, b: Handle, a: Handle)
    requires a != b && r.members.Keys == {a, b} && !r.members[a].saving
    ensures var answer := SaveReport(r, b, true, true);
      && answer.responses == [Response({a, b}, SaveEnded(r.saveStatus))]
      && !answer.rtig.saveInProgress && answer.rtig.members.Keys == {a, b}
      && !answer.rtig.members[a].saving && !answer.rtig.members[b].saving
  {
    SomeoneElse(r, b, true);
  }

  // ---- Where runs lead ----

  ghost predicate LeadsTo(f: Field, once: bool, goal: Field -> bool) {
    exists steps :: IsRun(f, steps) && (once ==> AllReportOnce(f, steps)) && goal(After(f, steps))
  }

  lemma IsThere(f: Field, once: bool, goal: Field -> bool)
    requires goal(f)
    ensures LeadsTo(f, once, goal)
  {
    assert IsRun(f, []) && After(f, []) == f && AllReportOnce(f, []);
  }

  lemma Before(f: Field, e: Step, once: bool, goal: Field -> bool)
    requires Allowed(f, e) && (once ==> ReportsOnce(f, e)) && LeadsTo(Next(f, e), once, goal)
    ensures LeadsTo(f, once, goal)
  {
    hide Next, Allowed, ReportsOnce;
    var steps :| IsRun(Next(f, e), steps) && (once ==> AllReportOnce(Next(f, e), steps))
              && goal(After(Next(f, e), steps));
    assert ([e] + steps)[1..] == steps;
    assert IsRun(f, [e] + steps);
  }

  // A station at rest but for what is on its way to it.
  predicate Resting(st: Station, down: seq<Tagged>) {
    st.up == [] && st.commands == [] && st.down == down
  }

  lemma TakesAndTicks(st: Station, h: Handle, begun: nat, t: Tagged)
    requires Resting(st, [t]) && (t.message.InitiateSave? || t.message.SaveEnded?)
    ensures var st1 := Alone(st, RtiaTakes(h), begun);
      && st1.commands == [t]
      && var st2 := Alone(st1, Ticks(h), begun);
      && Resting(st2, []) && st2.isSaving == t.message.InitiateSave? && (t.message.InitiateSave? ==> !st2.reported)
  {
    assert st.down[1..] == [] && [t] + st.commands == [t] && [t][1..] == [];
  }

  // A federate takes what is on its way to it, and is told.
  lemma IsTold(f: Field, a: Handle, b: Handle, sa: Station, sb: Station, begun: nat, busy: bool, ma: bool, mb: bool,
               t: Tagged, once: bool, goal: Field -> bool)
    returns (f': Field, sa': Station)
    requires Pair(f, a, b, sa, sb, begun, busy, ma, mb) && Resting(sa, [t])
    requires t.message.InitiateSave? || t.message.SaveEnded?
    ensures Pair(f', a, b, sa', sb, begun, busy, ma, mb) && Resting(sa', [])
    ensures sa'.isSaving == t.message.InitiateSave? && (t.message.InitiateSave? ==> !sa'.reported)
    ensures LeadsTo(f', once, goal) ==> LeadsTo(f, once, goal)
  {
    hide Pair, LeadsTo, Next, Allowed, ReportsOnce;
    TakesAndTicks(sa, a, begun, t);
    PairAlone(f, RtiaTakes(a), b, sa, sb, begun, busy, ma, mb);
    var f1, sa1 := Next(f, RtiaTakes(a)), Alone(sa, RtiaTakes(a), begun);
    PairAlone(f1, Ticks(a), b, sa1, sb, begun, busy, ma, mb);
    f', sa' := Next(f1, Ticks(a)), Alone(sa1, Ticks(a), begun);
    if LeadsTo(f', once, goal) {
      Before(f1, Ticks(a), once, goal);
      Before(f, RtiaTakes(a), once, goal);
    }
  }

  lemma Reporting(f: Field, a: Handle, b: Handle, sa: Station, sb: Station, begun: nat, ma: bool, mb: bool, once: bool,
                  goal: Field -> bool)
    returns (f': Field, sa': Station)
    requires Pair(f, a, b, sa, sb, begun, true, ma, mb) && sa.isSaving && (once ==> !sa.reported)
    ensures Pair(f', a, b, sa', sb, begun, true, ma, mb)
    ensures sa' == sa.(up := sa.up + [TellSaved(true)], reported := true)
    ensures LeadsTo(f', once, goal) ==> LeadsTo(f, once, goal)
  {
    hide Pair, LeadsTo, Next, Allowed;
    PairAlone(f, Reports(a, true), b, sa, sb, begun, true, ma, mb);
    f', sa' := Next(f, Reports(a, true)), Alone(sa, Reports(a, true), begun);
    if LeadsTo(f', once, goal) {
      hide ReportsOnce;
      Before(f, Reports(a, true), once, goal);
    }
  }

  lemma AsksAndBegins(f: Field, a: Handle, b: Handle, sa: Station, sb: Station, begun: nat, title: string, once: bool,
                      goal: Field -> bool)
    returns (f': Field)
    requires Pair(f, a, b, sa, sb, begun, false, false, false) && sa.up == [] && !sa.isSaving
    ensures var start := Tagged(InitiateSave(title), begun + 1);
      Pair(f', a, b, sa.(down := sa.down + [start]), sb.(down := sb.down + [start]), begun + 1, true, true, true)
    ensures LeadsTo(f', once, goal) ==> LeadsTo(f, once, goal)
  {
    hide Pair, LeadsTo, Next, Allowed, ReportsOnce;
    PairAlone(f, AsksSave(a, title), b, sa, sb, begun, false, false, false);
    var f1, sa1 := Next(f, AsksSave(a, title)), Alone(sa, AsksSave(a, title), begun);
    assert [] + [AskSave(title)] == [AskSave(title)];
    PairBegins(f1, a, b, sa1, sb, begun, title);
    f' := Next(f1, RtigTakes(a, true));
    if LeadsTo(f', once, goal) {
      TakingIsNoReport(f1, a);
      Before(f1, RtigTakes(a, true), once, goal);
      Before(f, AsksSave(a, title), once, goal);
    }
  }

  lemma TakingIsNoReport(f: Field, h: Handle)
    ensures ReportsOnce(f, RtigTakes(h, true))
  {
  }

  // The start of a save comes to both, both report, and the RTIG ends the save.
  lemma BothSave(f: Field, a: Handle, b: Handle, sa: Station, sb: Station, begun: nat, start: Tagged,
                 goal: Field -> bool)
    returns (f': Field, sa': Station, sb': Station, end: Tagged)
    requires Pair(f, a, b, sa, sb, begun, true, true, true) && Resting(sa, [start]) && Resting(sb, [start])
    requires start.message.InitiateSave?
    ensures Pair(f', a, b, sa', sb', begun, false, false, false) && Resting(sa', [end]) && Resting(sb', [end])
    ensures Is(end, End(begun))
    ensures LeadsTo(f', true, goal) ==> LeadsTo(f, true, goal)
  {
    hide Pair, LeadsTo, Next, Allowed, ReportsOnce;
    var f1, sa1 := IsTold(f, a, b, sa, sb, begun, true, true, true, start, true, goal);
    var f2, sa2 := Reporting(f1, a, b, sa1, sb, begun, true, true, true, goal);
    assert [] + [TellSaved(true)] == [TellSaved(true)] && [TellSaved(true)][1..] == [];
    PairWaits(f2, a, b, sa2, sb, begun, true);
    var f3, sa3 := Next(f2, RtigTakes(a, true)), sa2.(up := []);
    Swap(f3, a, b, sa3, sb, begun, true, false, true);
    var f4, sb4 := IsTold(f3, b, a, sb, sa3, begun, true, true, false, start, true, goal);
    var f5, sb5 := Reporting(f4, b, a, sb4, sa3, begun, true, false, true, goal);
    end := PairEnds(f5, b, a, sb5, sa3, begun);
    f' := Next(f5, RtigTakes(b, true));
    sa', sb' := sa3.(down := sa3.down + [end]), sb5.(up := [], down := sb5.down + [end]);
    Swap(f', b, a, sb', sa', begun, false, false, false);
    assert [] + [end] == [end];
    if LeadsTo(f', true, goal) {
      TakingIsNoReport(f5, b);
      TakingIsNoReport(f2, a);
      Before(f5, RtigTakes(b, true), true, goal);
      Before(f2, RtigTakes(a, true), true, goal);
    }
  }

  // ---- A start overtakes an end ----

  // With an end and the next start on their way, in this order, `b` is told them in the other.
  lemma OvertakenGetsStuck(f: Field, b: Handle, a: Handle, sb: Station, sa: Station, begun: nat, end: Tagged,
                           start: Tagged, goal: Field -> bool)
    requires Pair(f, b, a, sb, sa, begun, true, true, true) && Resting(sb, [end, start])
    requires end.message.SaveEnded? && start.message.InitiateSave?
    requires forall f' :: Stuck(f', b) ==> goal(f')
    ensures LeadsTo(f, true, goal)
  {
    hide Pair, LeadsTo, Next, Allowed, ReportsOnce, Stuck;
    PairAlone(f, RtiaTakes(b), a, sb, sa, begun, true, true, true);
    var f1, sb1 := Next(f, RtiaTakes(b)), Alone(sb, RtiaTakes(b), begun);
    assert sb.down[1..] == [start] && [end] + [] == [end];
    PairAlone(f1, RtiaTakes(b), a, sb1, sa, begun, true, true, true);
    var f2, sb2 := Next(f1, RtiaTakes(b)), Alone(sb1, RtiaTakes(b), begun);
    assert [start][1..] == [] && [start] + [end] == [start, end];
    PairAlone(f2, Ticks(b), a, sb2, sa, begun, true, true, true);
    var f3, sb3 := Next(f2, Ticks(b)), Alone(sb2, Ticks(b), begun);
    assert [start, end][1..] == [end];
    PairAlone(f3, Ticks(b), a, sb3, sa, begun, true, true, true);
    var f4, sb4 := Next(f3, Ticks(b)), Alone(sb3, Ticks(b), begun);
    assert [end][1..] == [];
    PairStuck(f4, b, a, sb4, sa, begun);
    IsThere(f4, true, goal);
    Before(f3, Ticks(b), true, goal);
    Before(f2, Ticks(b), true, goal);
    Before(f1, RtiaTakes(b), true, goal);
    Before(f, RtiaTakes(b), true, goal);
  }

  lemma PairStuck(f: Field, b: Handle, a: Handle, sb: Station, sa: Station, begun: nat)
    requires Pair(f, b, a, sb, sa, begun, true, true, true) && Resting(sb, []) && !sb.isSaving
    ensures Stuck(f, b)
  {
  }

  lemma BeginPair(a: Handle, b: Handle)
    requires a != b
    ensures Pair(Begin({a, b}), a, b, NEW_STATION, NEW_STATION, 0, false, false, false)
  {
  }

  // From the beginning to the end of a first save, which is still on its way to both.
  lemma OneSave(a: Handle, b: Handle, goal: Field -> bool) returns (f: Field, sa: Station, sb: Station, end: Tagged)
    requires a != b
    ensures Pair(f, a, b, sa, sb, 1, false, false, false) && Resting(sa, [end]) && Resting(sb, [end]) && Is(end, End(1))
    ensures LeadsTo(f, true, goal) ==> LeadsTo(Begin({a, b}), true, goal)
  {
    hide Pair, LeadsTo, Begin;
    BeginPair(a, b);
    var f1 := AsksAndBegins(Begin({a, b}), a, b, NEW_STATION, NEW_STATION, 0, "a", true, goal);
    var start := Tagged(InitiateSave("a"), 1);
    assert [] + [start] == [start];
    f, sa, sb, end := BothSave(f1, a, b, NEW_STATION.(down := [start]), NEW_STATION.(down := [start]), 1, start, goal);
  }

  // After the end of the save has come to `a`, but not to `b`, `a` asks for another.
  lemma StartOvertakes(a: Handle, b: Handle, goal: Field -> bool)
    requires a != b && forall f :: Stuck(f, b) ==> goal(f)
    ensures LeadsTo(Begin({a, b}), true, goal)
  {
    hide Pair, LeadsTo, Begin, Stuck;
    var f, sa, sb, end := OneSave(a, b, goal);
    var f1, sa1 := IsTold(f, a, b, sa, sb, 1, false, false, false, end, true, goal);
    var f2 := AsksAndBegins(f1, a, b, sa1, sb, 1, "b", true, goal);
    var start := Tagged(InitiateSave("b"), 2);
    var sa2, sb2 := sa1.(down := sa1.down + [start]), sb.(down := sb.down + [start]);
    Swap(f2, a, b, sa2, sb2, 2, true, true, true);
    assert [end] + [start] == [end, start];
    OvertakenGetsStuck(f2, b, a, sb2, sa2, 2, end, start, goal);
  }

  // Two federates are enough for one of them to get stuck, though they report once.
  lemma StartMayOvertakeEnd(a: Handle, b: Handle)
    requires a != b
    ensures exists steps :: IsRun(Begin({a, b}), steps) && AllReportOnce(Begin({a, b}), steps)
                         && Stuck(After(Begin({a, b}), steps), b)
  {
    var goal := (f: Field) => Stuck(f, b);
    StartOvertakes(a, b, goal);
    hide Stuck;
  }

  // ---- An end overtakes its own start ----

  ghost predicate EndFirst(f: Field, h: Handle) {
    h in f.stations && Precedes(f.stations[h].delivered, End(2), Start(2))
  }

  // With the end of one save, the start of the next and its end on their way, `a` is told the last before the
  // second.
  lemma OvertakenIsToldFirst(f: Field, a: Handle, b: Handle, sa: Station, sb: Station, busy: bool, ma: bool, mb: bool,
                             end: Tagged, start: Tagged, end': Tagged, goal: Field -> bool)
    requires Pair(f, a, b, sa, sb, 2, busy, ma, mb) && Resting(sa, [end, start, end'])
    requires Is(end, End(1)) && Is(start, Start(2)) && Is(end', End(2))
    requires forall f' :: EndFirst(f', a) ==> goal(f')
    ensures LeadsTo(f, false, goal)
  {
    hide Pair, LeadsTo, Next, Allowed, EndFirst;
    PairAlone(f, RtiaTakes(a), b, sa, sb, 2, busy, ma, mb);
    var f1, sa1 := Next(f, RtiaTakes(a)), Alone(sa, RtiaTakes(a), 2);
    assert sa.down[1..] == [start, end'] && [end] + [] == [end];
    PairAlone(f1, RtiaTakes(a), b, sa1, sb, 2, busy, ma, mb);
    var f2, sa2 := Next(f1, RtiaTakes(a)), Alone(sa1, RtiaTakes(a), 2);
    assert [start, end'][1..] == [end'] && [start] + [end] == [start, end];
    PairAlone(f2, RtiaTakes(a), b, sa2, sb, 2, busy, ma, mb);
    var f3, sa3 := Next(f2, RtiaTakes(a)), Alone(sa2, RtiaTakes(a), 2);
    assert [end'] + [start, end] == [end', start, end];
    PairAlone(f3, Ticks(a), b, sa3, sb, 2, busy, ma, mb);
    var f4, sa4 := Next(f3, Ticks(a)), Alone(sa3, Ticks(a), 2);
    assert [end', start, end][1..] == [start, end];
    PairAlone(f4, Ticks(a), b, sa4, sb, 2, busy, ma, mb);
    var f5, sa5 := Next(f4, Ticks(a)), Alone(sa4, Ticks(a), 2);
    TellsInTurn(sa.delivered, end', start);
    PairEndFirst(f5, a, b, sa5, sb, busy, ma, mb);
    IsThere(f5, false, goal);
    Before(f4, Ticks(a), false, goal);
    Before(f3, Ticks(a), false, goal);
    Before(f2, RtiaTakes(a), false, goal);
    Before(f1, RtiaTakes(a), false, goal);
    Before(f, RtiaTakes(a), false, goal);
  }

  lemma TellsInTurn(told: seq<Tagged>, end: Tagged, start: Tagged)
    requires Is(start, Start(2)) && Is(end, End(2))
    ensures Precedes(told + [end] + [start], End(2), Start(2))
  {
    var q, n := told + [end] + [start], |told|;
    assert Is(q[n], End(2)) && Is(q[n + 1], Start(2));
  }

  lemma PairEndFirst(f: Field, a: Handle, b: Handle, sa: Station, sb: Station, busy: bool, ma: bool, mb: bool)
    requires Pair(f, a, b, sa, sb, 2, busy, ma, mb) && Precedes(sa.delivered, End(2), Start(2))
    ensures EndFirst(f, a)
  {
  }

  // `b` is told a start, reports, and the RTIG ends the save; `a` has been taken for one that reported.
  lemma LastSaves(f: Field, b: Handle, a: Handle, sb: Station, sa: Station, begun: nat, start: Tagged,
                  goal: Field -> bool)
    returns (f': Field, sb': Station, end: Tagged)
    requires Pair(f, b, a, sb, sa, begun, true, true, false) && Resting(sb, [start]) && start.message.InitiateSave?
    ensures Is(end, End(begun)) && Resting(sb', [end])
    ensures Pair(f', b, a, sb', sa.(down := sa.down + [end]), begun, false, false, false)
    ensures LeadsTo(f', false, goal) ==> LeadsTo(f, false, goal)
  {
    hide Pair, LeadsTo, Next, Allowed, ReportsOnce;
    var f1, sb1 := IsTold(f, b, a, sb, sa, begun, true, true, false, start, false, goal);
    var f2, sb2 := Reporting(f1, b, a, sb1, sa, begun, true, false, false, goal);
    assert [] + [TellSaved(true)] == [TellSaved(true)];
    end := PairEnds(f2, b, a, sb2, sa, begun);
    f', sb' := Next(f2, RtigTakes(b, true)), sb2.(up := [], down := sb2.down + [end]);
    assert [] + [end] == [end];
    if LeadsTo(f', false, goal) {
      Before(f2, RtigTakes(b, true), false, goal);
    }
  }

  // The RTIG takes a report of `a` while it waits for `b`.
  lemma FirstSaves(f: Field, a: Handle, b: Handle, sa: Station, sb: Station, begun: nat, goal: Field -> bool)
    returns (f': Field)
    requires Pair(f, a, b, sa, sb, begun, true, true, true) && sa.up != [] && sa.up[0] == TellSaved(true)
    ensures Pair(f', b, a, sb, sa.(up := sa.up[1..]), begun, true, true, false)
    ensures LeadsTo(f', false, goal) ==> LeadsTo(f, false, goal)
  {
    hide Pair, LeadsTo, Next, Allowed, ReportsOnce;
    PairWaits(f, a, b, sa, sb, begun, true);
    f' := Next(f, RtigTakes(a, true));
    Swap(f', a, b, sa.(up := sa.up[1..]), sb, begun, true, false, true);
    if LeadsTo(f', false, goal) {
      Before(f, RtigTakes(a, true), false, goal);
    }
  }

  // In a first save `a` reports twice; the save ends, and the second report is still on its way.
  lemma ReportsTwice(a: Handle, b: Handle, goal: Field -> bool)
    returns (f: Field, sa: Station, sb: Station, end: Tagged)
    requires a != b
    ensures Pair(f, b, a, sb, sa, 1, false, false, false) && Is(end, End(1))
    ensures Resting(sb, [end]) && sa.up == [TellSaved(true)] && sa.down == [end] && sa.commands == []
    ensures LeadsTo(f, false, goal) ==> LeadsTo(Begin({a, b}), false, goal)
  {
    hide Pair, LeadsTo, Begin;
    BeginPair(a, b);
    var f1 := AsksAndBegins(Begin({a, b}), a, b, NEW_STATION, NEW_STATION, 0, "a", false, goal);
    var start := Tagged(InitiateSave("a"), 1);
    assert [] + [start] == [start];
    var sa1, sb1 := NEW_STATION.(down := [start]), NEW_STATION.(down := [start]);
    var f2, sa2 := IsTold(f1, a, b, sa1, sb1, 1, true, true, true, start, false, goal);
    var f3, sa3 := Reporting(f2, a, b, sa2, sb1, 1, true, true, false, goal);
    var f4, sa4 := Reporting(f3, a, b, sa3, sb1, 1, true, true, false, goal);
    assert sa4.up == [TellSaved(true), TellSaved(true)] && sa4.up[1..] == [TellSaved(true)];
    var f5 := FirstSaves(f4, a, b, sa4, sb1, 1, goal);
    f, sb, end := LastSaves(f5, b, a, sb1, sa4.(up := sa4.up[1..]), 1, start, goal);
    sa := sa4.(up := sa4.up[1..], down := sa4.down + [end]);
    assert [] + [end] == [end];
  }

  // `b` asks for another save; the old report of `a` counts for it, and that save ends before `a` is told of it.
  lemma EndOvertakes(a: Handle, b: Handle, goal: Field -> bool)
    requires a != b && forall f :: EndFirst(f, a) ==> goal(f)
    ensures LeadsTo(Begin({a, b}), false, goal)
  {
    hide Pair, LeadsTo, Begin, EndFirst;
    var f, sa, sb, end := ReportsTwice(a, b, goal);
    var f1, sb1 := IsTold(f, b, a, sb, sa, 1, false, false, false, end, false, goal);
    var f2 := AsksAndBegins(f1, b, a, sb1, sa, 1, "b", false, goal);
    var start := Tagged(InitiateSave("b"), 2);
    var sa2, sb2 := sa.(down := sa.down + [start]), sb1.(down := sb1.down + [start]);
    assert [] + [start] == [start] && [TellSaved(true)][1..] == [];
    Swap(f2, b, a, sb2, sa2, 2, true, true, true);
    var f3 := FirstSaves(f2, a, b, sa2, sb2, 2, goal);
    var f4, sb4, end' := LastSaves(f3, b, a, sb2, sa2.(up := sa2.up[1..]), 2, start, goal);
    var sa4 := sa2.(up := sa2.up[1..], down := sa2.down + [end']);
    assert sa4.down == [end, start, end'];
    Swap(f4, b, a, sb4, sa4, 2, false, false, false);
    OvertakenIsToldFirst(f4, a, b, sa4, sb4, false, false, false, end, start, end', goal);
  }

  // When a federate reports twice it may be told the end of a save before its start.
  lemma EndMayOvertakeStart(a: Handle, b: Handle)
    requires a != b
    ensures exists steps :: IsRun(Begin({a, b}), steps) && EndFirst(After(Begin({a, b}), steps), a)
  {
    var goal := (f: Field) => EndFirst(f, a);
    EndOvertakes(a, b, goal);
    hide EndFirst;
  }
}
