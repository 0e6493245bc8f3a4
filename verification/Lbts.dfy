/** The clock set every RTIA and the RTIG keep: one clock for each regulating federate,
    and the least clock of the others.
 */
module Lbts {
  import opened FederationTime

  type Clocks = map<Handle, Time>

  // `bound` is the greatest lower bound of the clocks of everyone but `me`.
  ghost predicate IsLeast(clocks: Clocks, me: Handle, bound: Time) {
    && (forall h :: h in clocks && h != me ==> bound.Le(clocks[h]))
    && (bound == Infinity || exists h :: h in clocks && h != me && clocks[h] == bound)
  }

  ghost function Least(clocks: Clocks, me: Handle): (bound: Time)
    ensures IsLeast(clocks, me, bound)
    decreases |clocks.Keys|
  {
    if clocks.Keys <= {me} then
      Infinity
    else
      var h :| h in clocks && h != me;
      var rest := clocks - {h};
      assert rest.Keys == clocks.Keys - {h};
      var bound := Min(clocks[h], Least(rest, me));
      assert forall k :: k in clocks && k != h ==> k in rest && rest[k] == clocks[k];
      bound
  }

  lemma LeastIsUnique(clocks: Clocks, me: Handle, a: Time, b: Time)
    requires IsLeast(clocks, me, a) && IsLeast(clocks, me, b)
    ensures a == b
  {
  }

  lemma WidenLeast(clocks: Clocks, me: Handle, bound: Time, h: Handle, date: Time)
    requires h !in clocks && IsLeast(clocks, me, bound)
    ensures IsLeast(clocks[h := date], me, if h != me && date.Lt(bound) then date else bound)
  {
    var wider := clocks[h := date];
    if h != me && date.Lt(bound) {
      assert wider[h] == date;
    } else if bound != Infinity {
      var k :| k in clocks && k != me && clocks[k] == bound;
      assert wider[k] == bound;
    }
  }

  // A clock is never moved back.
  function Advanced(clock: Time, date: Time): Time {
    if date.Lt(clock) then clock else date
  }

  // What an anonymous null message, from nobody in particular, does to all clocks.
  function AllAdvanced(clocks: Clocks, date: Time): Clocks {
    map h | h in clocks :: Advanced(clocks[h], date)
  }

  // Every clock ends up at the later of its value and the date, and so does the bound.
  lemma RaisedToDate(clocks: Clocks, date: Time, me: Handle)
    ensures AllAdvanced(clocks, date).Keys == clocks.Keys
    ensures forall h :: h in clocks ==>
      AllAdvanced(clocks, date)[h] == if clocks[h].Lt(date) then date else clocks[h]
    ensures Least(AllAdvanced(clocks, date), me)
         == if Least(clocks, me).Lt(date) then date else Least(clocks, me)
  {
    var raised, bound := AllAdvanced(clocks, date), Least(clocks, me);
    var later := if bound.Lt(date) then date else bound;
    if bound != Infinity {
      var h :| h in clocks && h != me && clocks[h] == bound;
      assert raised[h] == later;
    }
    LeastIsUnique(raised, me, Least(raised, me), later);
  }

  class ClockSet {
    var clocks: Clocks
    var bound: Time
    var me: Handle

    ghost predicate Valid()
      reads this
    {
      bound == Least(clocks, me)
    }

    constructor ()
      ensures Valid() && clocks == map[] && me == 0
    {
      clocks, me, bound := map[], 0, Infinity;
    }

    method Compute()
      modifies this`bound
      ensures Valid()
    {
      bound := Infinity;
      var todo := clocks.Keys;
      ghost var seen: Clocks := map[];
      while todo != {}
        invariant todo <= clocks.Keys && seen.Keys == clocks.Keys - todo
        invariant forall h :: h in seen ==> seen[h] == clocks[h]
        invariant IsLeast(seen, me, bound)
      {
        var h :| h in todo;
        todo := todo - {h};
        WidenLeast(seen, me, bound, h, clocks[h]);
        seen := seen[h := clocks[h]];
        if h != me && clocks[h].Lt(bound) {
          bound := clocks[h];
        }
      }
      assert seen == clocks;
      LeastIsUnique(clocks, me, bound, Least(clocks, me));
    }

    // Only a federate whose clock set is still empty learns its own handle.
    method SetFederate(handle: Handle)
      requires Valid() && clocks == map[]
      modifies this`me
      ensures Valid() && me == handle
    {
      me := handle;
    }

    method Insert(h: Handle, date: Time) returns (ok: bool)
      requires Valid()
      modifies this`clocks, this`bound
      ensures Valid()
      ensures ok == (h !in old(clocks))
      ensures clocks == if ok then old(clocks)[h := date] else old(clocks)
    {
      ok := h !in clocks;
      if ok {
        clocks := clocks[h := date];
        Compute();
      }
    }

    // The branch of the update for federate 0: the loop passes over every clock.
    method UpdateAll(date: Time)
      requires Valid()
      modifies this`clocks, this`bound
      ensures Valid() && clocks == AllAdvanced(old(clocks), date)
    {
      ghost var before := clocks;
      var todo := clocks.Keys;
      while todo != {}
        invariant todo <= clocks.Keys == before.Keys
        invariant forall h :: h in clocks ==> clocks[h] == if h in todo then before[h] else Advanced(before[h], date)
      {
        var h :| h in todo;
        todo := todo - {h};
        if !date.Lt(clocks[h]) {
          clocks := clocks[h := date];
        }
      }
      assert clocks == AllAdvanced(before, date);
      Compute();
    }

    // Of an empty set, the update for federate 0 reads a clock that is not there; it is refused here.
    method Update(h: Handle, date: Time) returns (ok: bool)
      requires Valid()
      modifies this`clocks, this`bound
      ensures Valid()
      ensures ok == if h == 0 then old(clocks) != map[] else h in old(clocks)
      ensures clocks == if !ok then old(clocks) else if h == 0 then AllAdvanced(old(clocks), date)
                        else old(clocks)[h := Advanced(old(clocks)[h], date)]
    {
      if h == 0 {
        ok := clocks != map[];
        if ok {
          UpdateAll(date);
        }
        return;
      }
      ok := h in clocks;
      if ok {
        if !date.Lt(clocks[h]) {
          clocks := clocks[h := date];
        }
        Compute();
      }
    }

    method Remove(h: Handle) returns (ok: bool)
      requires Valid()
      modifies this`clocks, this`bound
      ensures Valid()
      ensures ok == (h in old(clocks))
      ensures clocks == old(clocks) - {h}
    {
      ok := h in clocks;
      if ok {
        clocks := clocks - {h};
        Compute();
      }
    }
  }
}
