/** What can overtake in a run of saves: every start and every end is put at the front of a command list, so a
    later one is told before an earlier one exactly when it is put there while the earlier one still waits.
 */
module SaveOvertaking {
  import opened FederationTime
  import opened Messages
  import opened RtigState
  import opened SaveOrder

  // ---- The messages of the rounds, in the order in which they are sent ----

  datatype Mark = Start(round: nat) | End(round: nat)

  predicate Is(t: Tagged, mark: Mark) {
    match mark
    case Start(round) => t.message.InitiateSave? && t.round == round
    case End(round) => t.message.SaveEnded? && t.round == round
  }

  predicate SentBefore(soon: Mark, late: Mark) {
    soon.round < late.round || (soon.round == late.round && soon.Start? && late.End?)
  }

  // The start of a round is sent before all else in it.
  function Rank(t: Tagged): nat {
    2 * t.round + if t.message.InitiateSave? then 0 else 1
  }

  // ---- Overtaking, seen from its end and from its cause ----

  ghost predicate Has(q: seq<Tagged>, mark: Mark) {
    exists j :: 0 <= j < |q| && Is(q[j], mark)
  }

  // In `q`, the one comes before the other.
  ghost predicate Precedes(q: seq<Tagged>, first: Mark, second: Mark) {
    exists i, j :: 0 <= i < j < |q| && Is(q[i], first) && Is(q[j], second)
  }

  // The RTIA of `h` takes the one while the other waits in its command list.
  ghost predicate QueuesOver(f: Field, e: Step, h: Handle, late: Mark, soon: Mark) {
    && e == RtiaTakes(h) && h in f.stations && f.stations[h].down != []
    && Is(f.stations[h].down[0], late) && Has(f.stations[h].commands, soon)
  }

  ghost predicate EverQueuedOver(f: Field, steps: seq<Step>, h: Handle, late: Mark, soon: Mark)
    requires IsRun(f, steps)
    decreases |steps|
  {
    steps != [] &&
    (QueuesOver(f, steps[0], h, late, soon) || EverQueuedOver(Next(f, steps[0]), steps[1..], h, late, soon))
  }

  // What the federate was told and, as things stand, will be told next.
  function Line(st: Station): seq<Tagged> {
    st.delivered + st.commands
  }

  // Messages are taken in the order in which they were sent.
  ghost predicate Rising(st: Station, begun: nat) {
    && (forall i, j :: 0 <= i < j < |st.down| ==> Rank(st.down[i]) <= Rank(st.down[j]))
    && (forall t, d :: t in Line(st) && d in st.down ==> Rank(t) <= Rank(d))
    && (forall t :: t in Line(st) || t in st.down ==> t.round <= begun)
  }

  ghost predicate AllRising(f: Field) {
    forall h :: h in f.stations ==> Rising(f.stations[h], f.begun)
  }

  // A start is the first message of a new round.
  lemma SentRising(st: Station, sent: seq<Tagged>, begun: nat, begun': nat)
    requires Rising(st, begun) && begun <= begun' && |sent| <= 1
    requires forall t :: t in sent ==> t.round == begun' && (t.message.InitiateSave? ==> begun < begun')
    ensures Rising(st.(down := st.down + sent), begun')
  {
  }

  lemma SameLineRising(st: Station, st': Station, begun: nat)
    requires Rising(st, begun) && Line(st') == Line(st) && st'.down == st.down
    ensures Rising(st', begun)
  {
  }

  lemma TakeKeepsRising(st: Station, begun: nat)
    requires Rising(st, begun) && st.down != []
    ensures Rising(st.(down := st.down[1..], commands := Queued(st.commands, st.down[0])), begun)
  {
    var st' := st.(down := st.down[1..], commands := Queued(st.commands, st.down[0]));
    assert forall t :: t in Line(st') ==> t in Line(st) || t == st.down[0];
    assert forall i :: 0 <= i < |st'.down| ==> st'.down[i] == st.down[i + 1];
  }

  lemma AloneKeepsRising(st: Station, e: Step, begun: nat)
    requires Rising(st, begun) && !e.RtigTakes?
    requires (e.RtiaTakes? ==> st.down != []) && (e.Ticks? ==> st.commands != [])
    ensures Rising(Alone(st, e, begun), begun)
  {
    hide Rising, Queued, Delivered;
    match e
    case RtigTells(_, notice) => SentRising(st, [Tagged(Command(notice), begun)], begun, begun);
    case RtiaTakes(_) => TakeKeepsRising(st, begun);
    case Ticks(_) => SameLineRising(st, Delivered(st), begun) by { TickKeepsLine(st); }
    case AsksSave(_, title) => SameLineRising(st, Asked(st, title), begun);
    case Reports(_, saved) => SameLineRising(st, Reported(st, saved), begun);
  }

  lemma TickKeepsLine(st: Station)
    requires st.commands != []
    ensures Line(Delivered(st)) == Line(st) && Delivered(st).down == st.down
  {
    assert st.commands == [st.commands[0]] + st.commands[1..];
  }

  // What the RTIG sends when it takes a call belongs to the round it is then in, and is a start only when that
  // round is new.
  lemma TakenSends(f: Field, h: Handle, written: bool, k: Handle) returns (sent: seq<Tagged>)
    requires h in f.stations && f.stations[h].up != [] && k in f.stations
    ensures var f' := Taken(f, h, written);
      && f'.stations.Keys == f.stations.Keys && f.begun <= f'.begun
      && f'.stations[k].delivered == f.stations[k].delivered && f'.stations[k].commands == f.stations[k].commands
      && f'.stations[k].down == f.stations[k].down + sent && |sent| <= 1
      && forall t :: t in sent ==> t.round == f'.begun && (t.message.InitiateSave? ==> f.begun < f'.begun)
  {
    AnswersInTurn(f.rtig, h, f.stations[h].up[0], written, k);
    hide Answered, For;
    sent := TagAll(For(Answered(f.rtig, h, f.stations[h].up[0], written).responses, k), Taken(f, h, written).begun);
  }

  lemma AnswersInTurn(r: Rtig, h: Handle, call: Call, written: bool, k: Handle)
    ensures var a := Answered(r, h, call, written);
      && |For(a.responses, k)| <= 1
      && forall m :: m in For(a.responses, k) && m.InitiateSave? ==> !r.saveInProgress && a.rtig.saveInProgress
  {
    var responses := Answered(r, h, call, written).responses;
    assert responses == [] || responses[1..] == [];
  }

  lemma TakenKeepsRising(f: Field, h: Handle, written: bool, k: Handle)
    requires AllRising(f) && h in f.stations && f.stations[h].up != [] && k in f.stations
    ensures Taken(f, h, written).stations.Keys == f.stations.Keys
    ensures Rising(Taken(f, h, written).stations[k], Taken(f, h, written).begun)
    ensures Line(Taken(f, h, written).stations[k]) == Line(f.stations[k])
  {
    hide Rising, Taken;
    var sent := TakenSends(f, h, written, k);
    var st, f' := f.stations[k], Taken(f, h, written);
    SentRising(st, sent, f.begun, f'.begun);
    SameLineRising(st.(down := st.down + sent), f'.stations[k], f'.begun);
  }

  lemma StepKeepsRising(f: Field, e: Step)
    requires AllRising(f) && Allowed(f, e)
    ensures AllRising(Next(f, e))
  {
    hide Rising, Taken, Alone;
    if e.RtigTakes? {
      TakenKeepsRising(f, e.h, e.written, e.h);
      forall k | k in f.stations ensures Rising(Next(f, e).stations[k], Next(f, e).begun) {
        TakenKeepsRising(f, e.h, e.written, k);
      }
    } else {
      AloneKeepsRising(f.stations[e.h], e, f.begun);
    }
  }

  // ---- One step ----

  lemma AtBack(q: seq<Tagged>, t: Tagged, first: Mark, second: Mark)
    requires !Is(t, second)
    ensures Precedes(q + [t], first, second) <==> Precedes(q, first, second)
  {
    var q' := q + [t];
    if i, j :| 0 <= i < j < |q| && Is(q[i], first) && Is(q[j], second) {
      assert Is(q'[i], first) && Is(q'[j], second);
    }
    if i, j :| 0 <= i < j < |q'| && Is(q'[i], first) && Is(q'[j], second) {
      assert Is(q[i], first) && Is(q[j], second);
    }
  }

  // A message put between what was told and what waits.
  lemma InBetween(told: seq<Tagged>, waiting: seq<Tagged>, t: Tagged, first: Mark, second: Mark)
    requires Is(t, second) ==> forall i :: 0 <= i < |told| ==> !Is(told[i], first)
    ensures Precedes(told + [t] + waiting, first, second)
       <==> Precedes(told + waiting, first, second) || (Is(t, first) && Has(waiting, second))
  {
    var q, q', n := told + waiting, told + [t] + waiting, |told|;
    if i, j :| 0 <= i < j < |q| && Is(q[i], first) && Is(q[j], second) {
      assert Is(q'[if i < n then i else i + 1], first) && Is(q'[if j < n then j else j + 1], second);
    }
    if j :| 0 <= j < |waiting| && Is(waiting[j], second) && Is(t, first) {
      assert Is(q'[n], first) && Is(q'[n + 1 + j], second);
    }
    if i, j :| 0 <= i < j < |q'| && Is(q'[i], first) && Is(q'[j], second) {
      assert i < n ==> q'[i] == told[i];
      if i == n {
        assert Is(waiting[j - n - 1], second);
      } else if j != n {
        assert Is(q[if i < n then i else i - 1], first) && Is(q[if j < n then j else j - 1], second);
      }
    }
  }

  lemma TakeOvertakes(st: Station, begun: nat, late: Mark, soon: Mark)
    requires Rising(st, begun) && st.down != [] && SentBefore(soon, late)
    ensures Precedes(st.delivered + Queued(st.commands, st.down[0]), late, soon)
       <==> Precedes(Line(st), late, soon) || (Is(st.down[0], late) && Has(st.commands, soon))
  {
    var t := st.down[0];
    forall i | 0 <= i < |st.delivered| ensures Rank(st.delivered[i]) <= Rank(t) {
      assert st.delivered[i] in Line(st);
    }
    hide Rising, Precedes, Has;
    InBetween(st.delivered, st.commands, t, late, soon);
    assert st.delivered + ([t] + st.commands) == st.delivered + [t] + st.commands;
    if !t.message.InitiateSave? && !t.message.SaveEnded? {
      AtBack(Line(st), t, late, soon);
      assert st.delivered + (st.commands + [t]) == Line(st) + [t];
    }
  }

  lemma StepOvertakes(f: Field, e: Step, h: Handle, late: Mark, soon: Mark)
    requires AllRising(f) && Allowed(f, e) && h in f.stations && SentBefore(soon, late)
    ensures h in Next(f, e).stations
    ensures Precedes(Line(Next(f, e).stations[h]), late, soon)
       <==> Precedes(Line(f.stations[h]), late, soon) || QueuesOver(f, e, h, late, soon)
  {
    hide Rising, Taken, Precedes, Has, Queued, Delivered;
    if e.RtigTakes? {
      TakenKeepsRising(f, e.h, e.written, h);
    } else if e.h == h {
      var st := f.stations[h];
      if e.RtiaTakes? {
        TakeOvertakes(st, f.begun, late, soon);
      } else if e.Ticks? {
        TickKeepsLine(st);
      }
    }
  }

  // ---- Over runs ----

  lemma {:induction false} RunOvertakes(f: Field, steps: seq<Step>, h: Handle, late: Mark, soon: Mark)
    requires AllRising(f) && IsRun(f, steps) && h in f.stations && SentBefore(soon, late)
    ensures h in After(f, steps).stations
    ensures Precedes(Line(After(f, steps).stations[h]), late, soon)
       <==> Precedes(Line(f.stations[h]), late, soon) || EverQueuedOver(f, steps, h, late, soon)
    decreases |steps|
  {
    hide AllRising, Next, Allowed, Precedes, QueuesOver, Line;
    if steps != [] {
      StepKeepsRising(f, steps[0]);
      StepOvertakes(f, steps[0], h, late, soon);
      RunOvertakes(Next(f, steps[0]), steps[1..], h, late, soon);
    }
  }

  // In every run, over any number of rounds, of any two starts or ends: a federate is told the later one first
  // only if its RTIA took it while the earlier one waited in its command list; and once the earlier one no
  // longer waits there, if and only if.
  lemma LaterToldFirstIffQueuedOver(members: set<Handle>, steps: seq<Step>, h: Handle, late: Mark, soon: Mark)
    requires IsRun(Begin(members), steps) && h in members && SentBefore(soon, late)
    ensures h in After(Begin(members), steps).stations
    ensures var st := After(Begin(members), steps).stations[h];
      && (Precedes(st.delivered, late, soon) ==> EverQueuedOver(Begin(members), steps, h, late, soon))
      && (!Has(st.commands, soon) ==>
            (Precedes(st.delivered, late, soon) <==> EverQueuedOver(Begin(members), steps, h, late, soon)))
  {
    RunOvertakes(Begin(members), steps, h, late, soon);
    hide After, IsRun, EverQueuedOver, Begin;
    var st := After(Begin(members), steps).stations[h];
    ToldOrWaiting(st, late, soon);
    assert !Precedes(Line(NEW_STATION), late, soon);
    assert Begin(members).stations[h] == NEW_STATION by { BeginStation(members, h); }
  }

  lemma BeginStation(members: set<Handle>, h: Handle)
    requires h in members
    ensures h in Begin(members).stations && Begin(members).stations[h] == NEW_STATION
  {
  }

  lemma ToldOrWaiting(st: Station, first: Mark, second: Mark)
    ensures Precedes(st.delivered, first, second) ==> Precedes(Line(st), first, second)
    ensures Precedes(Line(st), first, second) && !Has(st.commands, second) ==> Precedes(st.delivered, first, second)
  {
    var q, n := Line(st), |st.delivered|;
    if i, j :| 0 <= i < j < n && Is(st.delivered[i], first) && Is(st.delivered[j], second) {
      assert Is(q[i], first) && Is(q[j], second);
    }
    if i, j :| 0 <= i < j < |q| && Is(q[i], first) && Is(q[j], second) {
      if j < n {
        assert Is(st.delivered[i], first) && Is(st.delivered[j], second);
      } else {
        assert Is(st.commands[j - n], second);
      }
    }
  }

  // The start of a round against the end of an earlier one.
  lemma StartOvertakesIffQueuedOver(members: set<Handle>, steps: seq<Step>, h: Handle, start: nat, end: nat)
    requires IsRun(Begin(members), steps) && h in members && end < start
    ensures h in After(Begin(members), steps).stations
    ensures !Has(After(Begin(members), steps).stations[h].commands, End(end)) ==>
      (Precedes(After(Begin(members), steps).stations[h].delivered, Start(start), End(end))
       <==> EverQueuedOver(Begin(members), steps, h, Start(start), End(end)))
  {
    LaterToldFirstIffQueuedOver(members, steps, h, Start(start), End(end));
  }

  // The end of a round against its own start. When federates report once, this never happens: see SaveOrder.
  lemma EndOvertakesIffQueuedOver(members: set<Handle>, steps: seq<Step>, h: Handle, round: nat)
    requires IsRun(Begin(members), steps) && h in members
    ensures h in After(Begin(members), steps).stations
    ensures !Has(After(Begin(members), steps).stations[h].commands, Start(round)) ==>
      (Precedes(After(Begin(members), steps).stations[h].delivered, End(round), Start(round))
       <==> EverQueuedOver(Begin(members), steps, h, End(round), Start(round)))
  {
    LaterToldFirstIffQueuedOver(members, steps, h, End(round), Start(round));
  }
}
