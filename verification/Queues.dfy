/** The three message lists of an RTIA: commands, receive-order and time stamp order. */
module Queues {
  import opened FederationTime
  import opened Messages

  // ---- What the time stamp order list holds ----

  ghost predicate Sorted(q: seq<Event>) {
    forall i, j :: 0 <= i < j < |q| ==> q[i].date.Le(q[j].date)
  }

  // A new event goes behind those of the same date.
  function Inserted(q: seq<Event>, e: Event): seq<Event> {
    if q == [] || e.date.Lt(q[0].date) then [e] + q else [q[0]] + Inserted(q[1..], e)
  }

  predicate Gives(q: seq<Event>, bound: Time) {
    q != [] && q[0].date.Le(bound)
  }

  // The events of one date, oldest first.
  function Dated(q: seq<Event>, date: Time): seq<Event> {
    if q == [] then [] else (if q[0].date == date then [q[0]] else []) + Dated(q[1..], date)
  }

  // `q` holds the events of `arrivals` by date, and those of one date in order of arrival.
  ghost predicate StablySorts(q: seq<Event>, arrivals: seq<Event>) {
    Sorted(q) && forall d :: Dated(q, d) == Dated(arrivals, d)
  }

  class Lists {
    var fifos: seq<Message>
    var tsos: seq<Event>
    var commands: seq<Message>

    constructor ()
      ensures fifos == [] && tsos == [] && commands == []
    {
      fifos, tsos, commands := [], [], [];
    }

    method InsertFifo(m: Message)
      modifies this`fifos
      ensures fifos == old(fifos) + [m]
    {
      fifos := fifos + [m];
    }

    method GiveFifo() returns (given: Option<Message>, more: bool)
      modifies this`fifos
      ensures old(fifos) == (if given.Some? then [given.value] else []) + fifos
      ensures given.None? ==> old(fifos) == []
      ensures more == (fifos != [])
    {
      given, more := None, false;
      if fifos != [] {
        given := Some(fifos[0]);
        fifos := fifos[1..];
        more := fifos != [];
      }
    }

    method InsertTso(e: Event)
      modifies this`tsos
      ensures tsos == Inserted(old(tsos), e)
    {
      if tsos == [] {
        tsos := [e];
        return;
      }
      var i := 0;
      while i < |tsos|
        invariant 0 <= i <= |tsos|
        invariant tsos == old(tsos)
        invariant forall k :: 0 <= k < i ==> !e.date.Lt(tsos[k].date)
      {
        if e.date.Lt(tsos[i].date) {
          InsertedAt(tsos, e, i);
          tsos := tsos[..i] + [e] + tsos[i..];
          return;
        }
        i := i + 1;
      }
      InsertedAt(tsos, e, i);
      assert tsos[..i] == tsos && tsos[i..] == [];
      tsos := tsos + [e];
    }

    method GiveTso(bound: Time) returns (given: Option<Event>, more: bool)
      modifies this`tsos
      ensures given.Some? == Gives(old(tsos), bound)
      ensures old(tsos) == (if given.Some? then [given.value] else []) + tsos
      ensures more == (given.Some? && Gives(tsos, bound))
    {
      given, more := None, false;
      if tsos != [] {
        var first := tsos[0];
        if first.date.Le(bound) {
          tsos := tsos[1..];
          given := Some(first);
          if tsos != [] {
            more := tsos[0].date.Le(bound);
          }
        }
      }
    }

    method NextTsoDate() returns (next: Option<Time>)
      ensures next == if tsos == [] then None else Some(tsos[0].date)
    {
      next := if tsos == [] then None else Some(tsos[0].date);
    }

    method InsertBeginCommand(m: Message)
      modifies this`commands
      ensures commands == [m] + old(commands)
    {
      commands := [m] + commands;
    }

    method InsertLastCommand(m: Message)
      modifies this`commands
      ensures commands == old(commands) + [m]
    {
      commands := commands + [m];
    }

    method GiveCommand() returns (given: Option<Message>, more: bool)
      modifies this`commands
      ensures old(commands) == (if given.Some? then [given.value] else []) + commands
      ensures given.None? ==> old(commands) == []
      ensures more == (commands != [])
    {
      given, more := None, false;
      if commands != [] {
        given := Some(commands[0]);
        commands := commands[1..];
        more := commands != [];
      }
    }
  }

  lemma {:induction false} InsertedAt(q: seq<Event>, e: Event, i: nat)
    requires i <= |q|
    requires forall k :: 0 <= k < i ==> !e.date.Lt(q[k].date)
    requires i < |q| ==> e.date.Lt(q[i].date)
    ensures Inserted(q, e) == q[..i] + [e] + q[i..]
  {
    if i > 0 {
      InsertedAt(q[1..], e, i - 1);
      assert q[1..][..i - 1] == q[1..i] && q[1..][i - 1..] == q[i..];
      assert [q[0]] + q[1..i] == q[..i];
    }
  }

  lemma {:induction false} InsertedMembers(q: seq<Event>, e: Event)
    ensures forall x :: x in Inserted(q, e) <==> x == e || x in q
  {
    if q != [] && !e.date.Lt(q[0].date) {
      InsertedMembers(q[1..], e);
    }
  }

  lemma {:induction false} InsertedSorted(q: seq<Event>, e: Event)
    requires Sorted(q)
    ensures Sorted(Inserted(q, e))
  {
    if q != [] && !e.date.Lt(q[0].date) {
      InsertedSorted(q[1..], e);
      InsertedMembers(q[1..], e);
      var rest := Inserted(q[1..], e);
      forall j | 0 <= j < |rest| ensures q[0].date.Le(rest[j].date) {
        assert rest[j] in rest;
      }
    }
  }

  // ---- The list is the stable sort of what arrived and was not yet given ----

  lemma {:induction false} DatedAppend(q: seq<Event>, e: Event, d: Time)
    ensures Dated(q + [e], d) == Dated(q, d) + (if e.date == d then [e] else [])
  {
    if q != [] {
      assert (q + [e])[1..] == q[1..] + [e];
      DatedAppend(q[1..], e, d);
    }
  }

  lemma {:induction false} DatedLater(q: seq<Event>, d: Time)
    requires forall k :: 0 <= k < |q| ==> q[k].date != d
    ensures Dated(q, d) == []
  {
    if q != [] {
      DatedLater(q[1..], d);
    }
  }

  lemma {:induction false} DatedMember(q: seq<Event>, d: Time)
    requires Dated(q, d) != []
    ensures exists k :: 0 <= k < |q| && q[k].date == d && q[k] == Dated(q, d)[0]
  {
    if q[0].date != d {
      DatedMember(q[1..], d);
      var k :| 0 <= k < |q[1..]| && q[1..][k].date == d && q[1..][k] == Dated(q[1..], d)[0];
      assert q[k + 1] == q[1..][k];
    }
  }

  lemma DatedCons(x: Event, q: seq<Event>, d: Time)
    ensures Dated([x] + q, d) == (if x.date == d then [x] else []) + Dated(q, d)
  {
    assert ([x] + q)[1..] == q;
  }

  lemma {:induction false} DatedInserted(q: seq<Event>, e: Event, d: Time)
    requires Sorted(q)
    ensures Dated(Inserted(q, e), d) == Dated(q, d) + (if e.date == d then [e] else [])
  {
    if q == [] {
    } else if e.date.Lt(q[0].date) {
      DatedCons(e, q, d);
      if e.date == d {
        DatedLater(q, d);
      }
    } else {
      assert Sorted(q[1..]) && q == [q[0]] + q[1..];
      hide Sorted, Dated;
      DatedCons(q[0], q[1..], d);
      DatedCons(q[0], Inserted(q[1..], e), d);
      DatedInserted(q[1..], e, d);
    }
  }

  lemma InsertKeepsStableSort(q: seq<Event>, arrivals: seq<Event>, e: Event)
    requires StablySorts(q, arrivals)
    ensures StablySorts(Inserted(q, e), arrivals + [e])
  {
    InsertedSorted(q, e);
    forall d ensures Dated(Inserted(q, e), d) == Dated(arrivals + [e], d) {
      DatedInserted(q, e, d);
      DatedAppend(arrivals, e, d);
    }
  }

  // There is only one stable sort, so `StablySorts` fixes the whole list.
  lemma StableSortIsUnique(p: seq<Event>, q: seq<Event>, arrivals: seq<Event>)
    requires StablySorts(p, arrivals) && StablySorts(q, arrivals)
    ensures p == q
  {
    SameDatedSameList(p, q);
  }

  lemma DatedTail(q: seq<Event>, d: Time)
    requires q != []
    ensures Dated(q[1..], d) == if q[0].date == d then Dated(q, d)[1..] else Dated(q, d)
  {
  }

  lemma FirstOfItsDate(q: seq<Event>)
    requires q != []
    ensures Dated(q, q[0].date) != [] && Dated(q, q[0].date)[0] == q[0]
  {
  }

  lemma NoEarlierHead(p: seq<Event>, q: seq<Event>)
    requires Sorted(q) && p != [] && q != [] && Dated(p, p[0].date) == Dated(q, p[0].date)
    ensures q[0].date.Le(p[0].date)
  {
    FirstOfItsDate(p);
    DatedMember(q, p[0].date);
    hide Dated;
  }

  // The first elements of the two lists are the same.
  lemma SameHead(p: seq<Event>, q: seq<Event>)
    requires Sorted(p) && Sorted(q) && p != [] && q != []
    requires forall d :: Dated(p, d) == Dated(q, d)
    ensures p[0] == q[0]
  {
    hide Dated, Sorted;
    NoEarlierHead(p, q);
    NoEarlierHead(q, p);
    FirstOfItsDate(p);
    FirstOfItsDate(q);
  }

  lemma SameTails(p: seq<Event>, q: seq<Event>)
    requires p != [] && q != [] && p[0] == q[0]
    requires forall d :: Dated(p, d) == Dated(q, d)
    ensures forall d :: Dated(p[1..], d) == Dated(q[1..], d)
  {
    forall d ensures Dated(p[1..], d) == Dated(q[1..], d) {
      assert Dated(p, d) == Dated(q, d);
      DatedTail(p, d);
      DatedTail(q, d);
    }
  }

  lemma {:induction false} SameDatedSameList(p: seq<Event>, q: seq<Event>)
    requires Sorted(p) && Sorted(q)
    requires forall d :: Dated(p, d) == Dated(q, d)
    ensures p == q
  {
    if p != [] {
      FirstOfItsDate(p);
      assert Dated(p, p[0].date) == Dated(q, p[0].date);
    }
    if q != [] {
      FirstOfItsDate(q);
      assert Dated(p, q[0].date) == Dated(q, q[0].date);
    }
    if p != [] && q != [] {
      SameHead(p, q);
      SameTails(p, q);
      hide Dated;
      SameDatedSameList(p[1..], q[1..]);
      assert p == [p[0]] + p[1..] && q == [q[0]] + q[1..];
    }
  }

  // The arrivals without the oldest event of date `d`.
  function WithoutOldest(arrivals: seq<Event>, d: Time): seq<Event> {
    if arrivals == [] then []
    else if arrivals[0].date == d then arrivals[1..]
    else [arrivals[0]] + WithoutOldest(arrivals[1..], d)
  }

  lemma {:induction false} DatedWithoutOldest(arrivals: seq<Event>, gone: Time, d: Time)
    ensures Dated(WithoutOldest(arrivals, gone), d)
         == if d == gone && Dated(arrivals, d) != [] then Dated(arrivals, d)[1..] else Dated(arrivals, d)
  {
    if arrivals != [] && arrivals[0].date != gone {
      DatedWithoutOldest(arrivals[1..], gone, d);
      assert ([arrivals[0]] + WithoutOldest(arrivals[1..], gone))[1..] == WithoutOldest(arrivals[1..], gone);
    }
  }

  // The next event in time stamp order: least date, and oldest of that date.
  ghost predicate IsNext(arrivals: seq<Event>, e: Event) {
    exists k :: 0 <= k < |arrivals| && arrivals[k] == e
      && (forall j :: 0 <= j < |arrivals| ==> e.date.Le(arrivals[j].date))
      && (forall j :: 0 <= j < k ==> arrivals[j].date != e.date)
  }

  lemma {:induction false} OldestOfItsDate(arrivals: seq<Event>, d: Time)
    requires Dated(arrivals, d) != []
    ensures exists k :: 0 <= k < |arrivals| && arrivals[k] == Dated(arrivals, d)[0]
                     && arrivals[k].date == d && forall j :: 0 <= j < k ==> arrivals[j].date != d
  {
    if arrivals[0].date != d {
      OldestOfItsDate(arrivals[1..], d);
      var k :| 0 <= k < |arrivals[1..]| && arrivals[1..][k] == Dated(arrivals[1..], d)[0]
               && arrivals[1..][k].date == d && forall j :: 0 <= j < k ==> arrivals[1..][j].date != d;
      assert arrivals[k + 1] == arrivals[1..][k];
      forall j | 0 <= j < k + 1 ensures arrivals[j].date != d {
        if j > 0 { assert arrivals[j] == arrivals[1..][j - 1]; }
      }
    }
  }

  lemma HeadIsNext(q: seq<Event>, arrivals: seq<Event>)
    requires StablySorts(q, arrivals) && q != []
    ensures IsNext(arrivals, q[0])
    ensures StablySorts(q[1..], WithoutOldest(arrivals, q[0].date))
  {
    var d := q[0].date;
    assert Dated(q, d) == Dated(arrivals, d) && Dated(q, d)[0] == q[0];
    OldestOfItsDate(arrivals, d);
    forall j | 0 <= j < |arrivals| ensures d.Le(arrivals[j].date) {
      DatedNonempty(arrivals, j);
      DatedMember(q, arrivals[j].date);
    }
    forall x ensures Dated(q[1..], x) == Dated(WithoutOldest(arrivals, d), x) {
      DatedWithoutOldest(arrivals, d, x);
      assert Dated(q, x) == Dated(arrivals, x);
    }
  }

  lemma {:induction false} DatedNonempty(q: seq<Event>, j: nat)
    requires j < |q|
    ensures Dated(q, q[j].date) != []
  {
    if j > 0 {
      DatedNonempty(q[1..], j - 1);
    }
  }

  // ---- Any interleaving of arrivals and bounded removals ----

  datatype QueueOp = Arrive(event: Event) | Give(bound: Time)

  // One step of the list: its new contents and the event it gave, if any.
  function ListStep(q: seq<Event>, op: QueueOp): (seq<Event>, Option<Event>) {
    match op
    case Arrive(e) => (Inserted(q, e), None)
    case Give(bound) => if Gives(q, bound) then (q[1..], Some(q[0])) else (q, None)
  }

  function ListAfter(q: seq<Event>, ops: seq<QueueOp>): seq<Event>
    decreases |ops|
  {
    if ops == [] then q else ListStep(ListAfter(q, ops[..|ops| - 1]), ops[|ops| - 1]).0
  }

  function GivenBy(ops: seq<QueueOp>): Option<Event>
    requires ops != []
  {
    ListStep(ListAfter([], ops[..|ops| - 1]), ops[|ops| - 1]).1
  }

  // What arrived and was not given, in order of arrival.
  function Outstanding(ops: seq<QueueOp>): seq<Event>
    decreases |ops|
  {
    if ops == [] then [] else
      var before := Outstanding(ops[..|ops| - 1]);
      match ops[|ops| - 1]
      case Arrive(e) => before + [e]
      case Give(_) => match GivenBy(ops) case None => before case Some(e) => WithoutOldest(before, e.date)
  }

  lemma {:induction false} ListRefinesStableSort(ops: seq<QueueOp>)
    ensures StablySorts(ListAfter([], ops), Outstanding(ops))
    decreases |ops|
  {
    if ops != [] {
      var before := ops[..|ops| - 1];
      ListRefinesStableSort(before);
      var q := ListAfter([], before);
      match ops[|ops| - 1]
      case Arrive(e) => InsertKeepsStableSort(q, Outstanding(before), e);
      case Give(bound) =>
        if Gives(q, bound) {
          HeadIsNext(q, Outstanding(before));
        }
    }
  }

  // A removal gives the next outstanding event, and refuses only when all are dated later.
  lemma GivesTheNext(ops: seq<QueueOp>, bound: Time)
    ensures var given := GivenBy(ops + [Give(bound)]);
      && (given.Some? ==> IsNext(Outstanding(ops), given.value) && given.value.date.Le(bound))
      && (given.None? ==> forall e :: e in Outstanding(ops) ==> bound.Lt(e.date))
  {
    var q := ListAfter([], ops);
    assert (ops + [Give(bound)])[..|ops|] == ops;
    ListRefinesStableSort(ops);
    if Gives(q, bound) {
      HeadIsNext(q, Outstanding(ops));
    } else {
      forall e | e in Outstanding(ops) ensures bound.Lt(e.date) {
        var j :| 0 <= j < |Outstanding(ops)| && Outstanding(ops)[j] == e;
        DatedNonempty(Outstanding(ops), j);
        DatedMember(q, e.date);
      }
    }
  }

  // Removals with one bound, until one is refused.
  function Drained(q: seq<Event>, bound: Time): seq<Event> {
    if Gives(q, bound) then [q[0]] + Drained(q[1..], bound) else []
  }

  lemma {:induction false} DrainGivesAllUpTo(q: seq<Event>, bound: Time)
    requires Sorted(q)
    ensures var given := Drained(q, bound);
      && given <= q
      && (forall e :: e in given ==> e.date.Le(bound))
      && (forall e :: e in q[|given|..] ==> bound.Lt(e.date))
  {
    if Gives(q, bound) {
      DrainGivesAllUpTo(q[1..], bound);
    } else if q != [] {
      forall e | e in q ensures bound.Lt(e.date) {
        var j :| 0 <= j < |q| && q[j] == e;
      }
    }
  }
}
