/**
 team_locations keeps half-open periods [valid_from, valid_to) of each (team, location) pair. Assigning
 and unassigning under a clock that never runs backwards makes it the history of a plain set of pairs.
 */
module TeamLocations {
  import opened Options

  datatype Pair = Pair(team: int, location: string)
  datatype Period = Period(pair: Pair, validFrom: int, validTo: Option<int>)

  predicate Covers(p: Period, t: int) {
    p.validFrom <= t && (p.validTo.None? || t < p.validTo.value)
  }

  predicate CurrentAt(periods: seq<Period>, i: nat, pair: Pair, now: int)
    requires i < |periods|
  {
    periods[i].pair == pair && Covers(periods[i], now)
  }

  predicate HasCurrent(periods: seq<Period>, pair: Pair, now: int) {
    exists i | 0 <= i < |periods| :: CurrentAt(periods, i, pair, now)
  }

  /** The exclusion constraint: two ranges of one pair share an instant. */
  predicate Overlap(p: Period, q: Period) {
    && p.pair == q.pair
    && (q.validTo.None? || p.validFrom < q.validTo.value)
    && (p.validTo.None? || q.validFrom < p.validTo.value)
  }

  /** AddTeamLocation; None when the exclusion constraint refuses the insert. */
  function Assign(periods: seq<Period>, pair: Pair, now: int): Option<seq<Period>> {
    var added := Period(pair, now, None);
    if HasCurrent(periods, pair, now) then Some(periods)
    else if exists i | 0 <= i < |periods| :: Overlap(periods[i], added) then None
    else Some(periods + [added])
  }

  function Closed(periods: seq<Period>, pair: Pair, now: int): seq<Period> {
    seq(|periods|, i requires 0 <= i < |periods| =>
      if CurrentAt(periods, i, pair, now) then periods[i].(validTo := Some(now)) else periods[i])
  }

  /** A current period of the pair began at this very instant. */
  predicate BeganAt(periods: seq<Period>, pair: Pair, now: int) {
    exists i | 0 <= i < |periods| :: CurrentAt(periods, i, pair, now) && periods[i].validFrom == now
  }

  /** DeleteTeamLocation; None when CHECK (valid_to > valid_from) refuses the update. */
  function Unassign(periods: seq<Period>, pair: Pair, now: int): Option<seq<Period>> {
    if BeganAt(periods, pair, now) then None
    else Some(Closed(periods, pair, now))
  }

  class Table {
    var periods: seq<Period>

    constructor ()
      ensures periods == []
    {
      periods := [];
    }

    /** A pair that is current is left alone; otherwise its period begins now, unless one of its periods shares an
        instant with that. */
    method AddTeamLocation(pair: Pair, now: int) returns (ok: bool)
      modifies this
      ensures ok <==> Assign(old(periods), pair, now).Some?
      ensures periods == (if ok then Assign(old(periods), pair, now).value else old(periods))
      ensures ok ==> HasCurrent(periods, pair, now)
      ensures HasCurrent(old(periods), pair, now) ==> ok && periods == old(periods)
      ensures ok && !HasCurrent(old(periods), pair, now) ==> periods == old(periods) + [Period(pair, now, None)]
      ensures forall other, t :: other != pair || t < now ==>
                (HasCurrent(periods, other, t) <==> HasCurrent(old(periods), other, t))
    {
      for i := 0 to |periods|
        invariant forall j :: 0 <= j < i ==> !CurrentAt(periods, j, pair, now)
      {
        if periods[i].pair == pair && Covers(periods[i], now) {
          assert CurrentAt(periods, i, pair, now);
          return true;
        }
      }
      var added := Period(pair, now, None);
      for i := 0 to |periods|
        invariant forall j :: 0 <= j < i ==> !Overlap(periods[j], added)
      {
        if Overlap(periods[i], added) {
          return false;
        }
      }
      AppendedCovers(periods, added, pair, now);
      periods := periods + [added];
      ok := true;
    }

    /** The rows are updated one by one; a refused row rolls the statement back. */
    method DeleteTeamLocation(pair: Pair, now: int) returns (ok: bool)
      modifies this
      ensures ok <==> Unassign(old(periods), pair, now).Some?
      ensures periods == (if ok then Unassign(old(periods), pair, now).value else old(periods))
    {
      var updated: seq<Period> := [];
      for i := 0 to |periods|
        invariant periods == old(periods)
        invariant updated == Closed(periods, pair, now)[..i]
        invariant forall j :: 0 <= j < i && CurrentAt(periods, j, pair, now) ==> periods[j].validFrom != now
      {
        if CurrentAt(periods, i, pair, now) {
          if periods[i].validFrom >= now {
            return false;
          }
          updated := updated + [periods[i].(validTo := Some(now))];
        } else {
          updated := updated + [periods[i]];
        }
      }
      periods := updated;
      ok := true;
    }
  }

  lemma AppendedCovers(periods: seq<Period>, added: Period, pair: Pair, now: int)
    requires added == Period(pair, now, None)
    ensures HasCurrent(periods + [added], pair, now)
    ensures forall other, t :: other != pair || t < now ==>
              (HasCurrent(periods + [added], other, t) <==> HasCurrent(periods, other, t))
  {
    var longer := periods + [added];
    assert CurrentAt(longer, |periods|, pair, now);
    forall other, t | other != pair || t < now ensures HasCurrent(longer, other, t) <==> HasCurrent(periods, other, t) {
      if i :| 0 <= i < |periods| && CurrentAt(periods, i, other, t) { assert CurrentAt(longer, i, other, t); }
      if i :| 0 <= i < |longer| && CurrentAt(longer, i, other, t) { assert CurrentAt(periods, i, other, t); }
    }
  }

  // ---------- runs ----------

  datatype Call = Call(at: int, pair: Pair, assign: bool)

  function Perform(periods: seq<Period>, c: Call): Option<seq<Period>> {
    if c.assign then Assign(periods, c.pair, c.at) else Unassign(periods, c.pair, c.at)
  }

  /** The table after the first n calls; a refused call leaves it alone. */
  function After(calls: seq<Call>, n: nat): seq<Period>
    requires n <= |calls|
  {
    if n == 0 then []
    else
      var before := After(calls, n - 1);
      match Perform(before, calls[n - 1])
      case None => before
      case Some(periods) => periods
  }

  predicate Refused(calls: seq<Call>, i: nat)
    requires i < |calls|
  {
    Perform(After(calls, i), calls[i]).None?
  }

  /** The plain set of pairs: the first n calls, those later than t and, if wanted, the refused ones left out. */
  function PlainSet(calls: seq<Call>, n: nat, t: int, skipRefused: bool): set<Pair>
    requires n <= |calls|
  {
    if n == 0 then {}
    else
      var before := PlainSet(calls, n - 1, t, skipRefused);
      var c := calls[n - 1];
      if c.at > t || (skipRefused && Refused(calls, n - 1)) then before
      else if c.assign then before + {c.pair} else before - {c.pair}
  }

  ghost predicate Clocked(calls: seq<Call>) {
    forall i, j :: 0 <= i < j < |calls| ==> calls[i].at <= calls[j].at
  }

  /** Every period lies before now or is still open, and no two periods of a pair overlap. */
  ghost predicate Settled(periods: seq<Period>, now: int) {
    && (forall i :: 0 <= i < |periods| ==>
          && periods[i].validFrom <= now
          && (periods[i].validTo.Some? ==> periods[i].validFrom < periods[i].validTo.value <= now))
    && (forall i, j :: 0 <= i < j < |periods| ==> !Overlap(periods[i], periods[j]))
  }

  ghost predicate Agrees(periods: seq<Period>, plain: set<Pair>, t: int) {
    forall pair :: HasCurrent(periods, pair, t) <==> pair in plain
  }

  /** Assigning is never refused, keeps the periods apart, and covers the pair from now on only. */
  lemma AssignStep(periods: seq<Period>, pair: Pair, last: int, now: int)
    requires Settled(periods, last) && last <= now
    ensures Assign(periods, pair, now).Some?
    ensures var next := Assign(periods, pair, now).value;
            && Settled(next, now)
            && forall q, t :: HasCurrent(next, q, t) <==> HasCurrent(periods, q, t) || (q == pair && now <= t)
  {
    var added := Period(pair, now, None);
    if HasCurrent(periods, pair, now) {
      var i :| 0 <= i < |periods| && CurrentAt(periods, i, pair, now);
      forall t | now <= t ensures HasCurrent(periods, pair, t) {
        assert CurrentAt(periods, i, pair, t);
      }
    } else {
      forall i | 0 <= i < |periods|
        ensures !Overlap(periods[i], added)
      {
        assert !CurrentAt(periods, i, pair, now);
      }
      forall q, t {
        AddedCovers(periods, added, q, t);
      }
    }
  }

  lemma AddedCovers(periods: seq<Period>, added: Period, q: Pair, t: int)
    ensures HasCurrent(periods + [added], q, t) <==> HasCurrent(periods, q, t) || (q == added.pair && Covers(added, t))
  {
    var next := periods + [added];
    if HasCurrent(periods, q, t) {
      var i :| 0 <= i < |periods| && CurrentAt(periods, i, q, t);
      assert CurrentAt(next, i, q, t);
    }
    if q == added.pair && Covers(added, t) {
      assert CurrentAt(next, |periods|, q, t);
    }
    if HasCurrent(next, q, t) {
      var i :| 0 <= i < |next| && CurrentAt(next, i, q, t);
      assert i < |periods| ==> CurrentAt(periods, i, q, t);
    }
  }

  /** An accepted unassignment keeps the periods apart and uncovers the pair from now on only. */
  lemma UnassignStep(periods: seq<Period>, pair: Pair, last: int, now: int)
    requires Settled(periods, last) && last <= now
    requires Unassign(periods, pair, now).Some?
    ensures var next := Unassign(periods, pair, now).value;
            && Settled(next, now)
            && forall q, t :: HasCurrent(next, q, t) <==> HasCurrent(periods, q, t) && !(q == pair && now <= t)
  {
    var next := Unassign(periods, pair, now).value;
    forall q, t
      ensures HasCurrent(next, q, t) <==> HasCurrent(periods, q, t) && !(q == pair && now <= t)
    {
      forall i | 0 <= i < |periods|
        ensures CurrentAt(next, i, q, t) <==> CurrentAt(periods, i, q, t) && !(q == pair && now <= t)
      {
        assert CurrentAt(periods, i, pair, now) || periods[i].pair != pair
               || (periods[i].validTo.Some? && periods[i].validTo.value <= now);
      }
    }
  }

  lemma {:induction false} HistoryStep(calls: seq<Call>, n: nat, t: int, last: int)
    requires Clocked(calls) && n <= |calls|
    requires n > 0 ==> calls[n - 1].at <= last
    ensures Settled(After(calls, n), last)
    ensures Agrees(After(calls, n), PlainSet(calls, n, t, true), t)
  {
    if n > 0 {
      var c := calls[n - 1];
      HistoryStep(calls, n - 1, t, c.at);
      if c.assign {
        AssignStep(After(calls, n - 1), c.pair, c.at, c.at);
      } else if !Refused(calls, n - 1) {
        UnassignStep(After(calls, n - 1), c.pair, c.at, c.at);
      }
    }
  }

  /** At every instant the table covers exactly the pairs of the plain set built from the accepted calls up to it. */
  lemma HistoryRefinesSet(calls: seq<Call>, t: int)
    requires Clocked(calls)
    ensures Agrees(After(calls, |calls|), PlainSet(calls, |calls|, t, true), t)
  {
    HistoryStep(calls, |calls|, t, if |calls| == 0 then 0 else calls[|calls| - 1].at);
  }

  /** No two periods of one pair ever share an instant, and at most one of them is open. */
  lemma PeriodsAreApart(calls: seq<Call>, i: nat, j: nat, t: int)
    requires Clocked(calls) && i < |After(calls, |calls|)| && j < |After(calls, |calls|)|
    requires After(calls, |calls|)[i].pair == After(calls, |calls|)[j].pair
    requires Covers(After(calls, |calls|)[i], t) && Covers(After(calls, |calls|)[j], t)
    ensures i == j
  {
    var last := if |calls| == 0 then 0 else calls[|calls| - 1].at;
    HistoryStep(calls, |calls|, t, last);
    var periods := After(calls, |calls|);
    if i < j {
      assert Overlap(periods[i], periods[j]);
    } else if j < i {
      assert Overlap(periods[j], periods[i]);
    }
  }

  // ---------- the refused calls ----------

  /** A call is refused exactly when it ends a period at the very instant at which the period began. */
  lemma RefusedIff(calls: seq<Call>, k: nat)
    requires Clocked(calls) && k < |calls|
    ensures Refused(calls, k) <==>
            !calls[k].assign && BeganAt(After(calls, k), calls[k].pair, calls[k].at)
  {
    var c := calls[k];
    HistoryStep(calls, k, 0, c.at);
    if c.assign {
      AssignStep(After(calls, k), c.pair, c.at, c.at);
    }
  }

  lemma {:induction false} SkippingNothing(calls: seq<Call>, n: nat, t: int)
    requires n <= |calls|
    requires forall k :: 0 <= k < n ==> !Refused(calls, k)
    ensures PlainSet(calls, n, t, true) == PlainSet(calls, n, t, false)
  {
    if n > 0 {
      SkippingNothing(calls, n - 1, t);
    }
  }

  /** A refused call leaves its pair covered, which the plain set has dropped. */
  lemma RefusedDisagrees(calls: seq<Call>, k: nat)
    requires Clocked(calls) && k < |calls| && Refused(calls, k)
    ensures !Agrees(After(calls, k + 1), PlainSet(calls, k + 1, calls[k].at, false), calls[k].at)
  {
    RefusedIff(calls, k);
    assert HasCurrent(After(calls, k), calls[k].pair, calls[k].at);
  }

  lemma NoneRefusedAgrees(calls: seq<Call>, n: nat, t: int)
    requires Clocked(calls) && n <= |calls|
    requires forall k :: 0 <= k < |calls| ==> !Refused(calls, k)
    ensures Agrees(After(calls, n), PlainSet(calls, n, t, false), t)
  {
    SkippingNothing(calls, n, t);
    HistoryStep(calls, n, t, if n == 0 then 0 else calls[n - 1].at);
  }

  /**
   The table is at every moment and for every instant the history of the set built from all calls,
   refused ones included, exactly when no call was refused.
   */
  lemma ExactIffNoneRefused(calls: seq<Call>)
    requires Clocked(calls)
    ensures (forall n, t :: 0 <= n <= |calls| ==> Agrees(After(calls, n), PlainSet(calls, n, t, false), t))
            <==> (forall k :: 0 <= k < |calls| ==> !Refused(calls, k))
  {
    if k :| 0 <= k < |calls| && Refused(calls, k) {
      RefusedDisagrees(calls, k);
    } else {
      forall n, t | 0 <= n <= |calls|
        ensures Agrees(After(calls, n), PlainSet(calls, n, t, false), t)
      {
        NoneRefusedAgrees(calls, n, t);
      }
    }
  }

  /** Assigned and unassigned at one instant: the second call is refused and the pair stays assigned. */
  lemma SameInstantIsRefused(pair: Pair)
    ensures var calls := [Call(5, pair, true), Call(5, pair, false)];
            Refused(calls, 1) && pair !in PlainSet(calls, 2, 5, false) && HasCurrent(After(calls, 2), pair, 5)
  {
    var calls := [Call(5, pair, true), Call(5, pair, false)];
    assert After(calls, 0) == [];
    assert After(calls, 1) == [Period(pair, 5, None)];
    assert CurrentAt(After(calls, 1), 0, pair, 5);
    assert After(calls, 2) == After(calls, 1);
  }
}
