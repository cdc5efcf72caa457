/** One pass of the expired-event monitor over the event table, while other instances may complete events too. */
module Monitor {
  import opened Tables

  /** How the database calls of one attempt go: the completion transaction, the verification read, and the events
      other instances complete in between. */
  datatype Attempt = Attempt(completes: bool, verifies: bool, others: set<Id>)

  class EventTable {
    var events: map<Id, Event>

    ghost predicate Overdue(e: Id, now: int)
      reads this
    {
      e in events && events[e].status == Active && events[e].endDate < now
    }

    /** completeEvent as far as the table sees it: the compare-and-swap, if its transaction commits. */
    method CompleteEvent(e: Id, commits: bool) returns (done: bool)
      modifies this
      ensures done <==> commits && e in old(events) && old(events)[e].status == Active
      // this event is completed if and only if the call reports it, and no other event is touched
      ensures events.Keys == old(events).Keys
      ensures forall d | d in events && d != e :: events[d] == old(events)[d]
      ensures e in events ==> events[e] == if done then old(events)[e].(status := Completed) else old(events)[e]
    {
      done := commits && e in events && events[e].status == Active;
      if done {
        events := events[e := events[e].(status := Completed)];
      }
    }

    /** checkAndCompleteExpiredEvents. `found` is the result of the query, in end-date order; None when it failed. */
    method CheckAndComplete(found: Option<seq<Id>>, attempts: seq<Attempt>, now: int)
      returns (success: nat, failure: nat, alreadyFinal: nat)
      requires found.Some? ==> |attempts| == |found.value|
      requires found.Some? ==> forall i | 0 <= i < |found.value| :: Overdue(found.value[i], now)
      modifies this
      // only found events and events that other instances completed change, and only from active to completed
      ensures events.Keys == old(events).Keys
      ensures found.None? ==> events == old(events)
      ensures found.Some? ==>
                forall d | d in events && d !in found.value
                           && (forall i | 0 <= i < |attempts| :: d !in attempts[i].others) ::
                  events[d] == old(events)[d]
      ensures forall d | d in events && events[d] != old(events)[d] ::
                old(events)[d].status == Active && events[d] == old(events)[d].(status := Completed)
      // and those are completed: every one whose transaction commits here or elsewhere
      ensures found.Some? ==>
                forall i | 0 <= i < |attempts| && attempts[i].completes ::
                  found.value[i] in events && events[found.value[i]].status == Completed
      ensures found.Some? ==>
                forall i, d | 0 <= i < |attempts| && d in attempts[i].others && d in events ::
                  events[d].status != Active
      // the successes are the events that were found completed by an answered verification read
      ensures found.Some? ==>
                success == |set i: nat | i < |attempts| && attempts[i].verifies
                             && (exists j :: 0 <= j <= i && Completes(found.value, attempts, j, found.value[i]))|
      // the counters add up, whatever fails
      ensures success + failure + alreadyFinal == if found.Some? then |found.value| else 0
      // a completed event counts as a success whoever completed it, so nothing is left for the third counter
      ensures alreadyFinal == 0
      // in a pass without failing calls nothing that was found is still active
      ensures found.Some? && AllGood(attempts) ==>
                success == |found.value|
                && forall i | 0 <= i < |found.value| ::
                     found.value[i] in events && events[found.value[i]].status == Completed
    {
      success, failure, alreadyFinal := 0, 0, 0;
      if found.None? {
        return;
      }
      success, failure, alreadyFinal := TryEach(found.value, attempts);
      PassChanges(old(events), found.value, attempts);
      if AllGood(attempts) {
        AllSucceed(found.value, attempts, |attempts|);
      }
    }

    /** One attempt, what other instances complete before its verification read, and that read if it is answered. */
    method TryOne(e: Id, a: Attempt) returns (status: Option<EventStatus>)
      requires e in events
      modifies this
      ensures e in events && status == if a.verifies then Some(events[e].status) else None
      ensures events == CompletedAll(CompletedAll(old(events), if a.completes then {e} else {}), a.others)
    {
      var _ := CompleteEvent(e, a.completes);
      assert events == CompletedAll(old(events), if a.completes then {e} else {});
      events := CompletedAll(events, a.others);
      status := if a.verifies then Some(events[e].status) else None;
    }

    /** The loop over the events found. */
    method TryEach(ids: seq<Id>, attempts: seq<Attempt>) returns (success: nat, failure: nat, alreadyFinal: int)
      requires |attempts| == |ids|
      requires forall i | 0 <= i < |ids| :: ids[i] in events && events[ids[i]].status == Active
      modifies this
      ensures events == CompletedAll(old(events), Touched(ids, attempts, |ids|))
      ensures success == |Successes(ids, attempts, |ids|)|
      ensures success + failure == |ids| && alreadyFinal == 0
    {
      success, failure, alreadyFinal := 0, 0, 0;
      ghost var before := events;
      for i := 0 to |ids|
        invariant events == CompletedAll(before, Touched(ids, attempts, i))
        invariant success == |Successes(ids, attempts, i)|
        invariant success + failure == i && alreadyFinal == 0
      {
        TouchedStep(before, ids, attempts, i);
        ReadFinds(before, ids, attempts, i);
        var status := TryOne(ids[i], attempts[i]);
        match status
        case Some(Completed) => success := success + 1;
        case Some(Active) => failure := failure + 1;
        case Some(_) => alreadyFinal := alreadyFinal + 1;
        case None => failure := failure + 1;
      }
    }
  }

  ghost predicate AllGood(attempts: seq<Attempt>) {
    forall i | 0 <= i < |attempts| :: attempts[i].completes && attempts[i].verifies
  }

  /** The active ones among these events become completed. */
  function CompletedAll(events: map<Id, Event>, ids: set<Id>): map<Id, Event> {
    map e | e in events :: if e in ids && events[e].status == Active then events[e].(status := Completed) else events[e]
  }

  /** Attempt j, or another instance during it, completes event d. */
  ghost predicate Completes(ids: seq<Id>, attempts: seq<Attempt>, j: nat, d: Id)
    requires j < |ids| == |attempts|
  {
    (attempts[j].completes && d == ids[j]) || d in attempts[j].others
  }

  /** The events that a completion was committed for in the first n attempts. */
  ghost function Touched(ids: seq<Id>, attempts: seq<Attempt>, n: nat): set<Id>
    requires n <= |ids| == |attempts|
  {
    if n == 0 then {}
    else
      Touched(ids, attempts, n - 1) + (if attempts[n - 1].completes then {ids[n - 1]} else {}) + attempts[n - 1].others
  }

  lemma TouchedStep(events: map<Id, Event>, ids: seq<Id>, attempts: seq<Attempt>, i: nat)
    requires i < |ids| == |attempts|
    ensures var before := CompletedAll(events, Touched(ids, attempts, i));
            CompletedAll(CompletedAll(before, if attempts[i].completes then {ids[i]} else {}), attempts[i].others)
            == CompletedAll(events, Touched(ids, attempts, i + 1))
  {
  }

  lemma {:induction false} TouchedExactly(ids: seq<Id>, attempts: seq<Attempt>, n: nat, d: Id)
    requires n <= |ids| == |attempts|
    ensures d in Touched(ids, attempts, n) <==> exists j :: 0 <= j < n && Completes(ids, attempts, j, d)
  {
    if n > 0 {
      TouchedExactly(ids, attempts, n - 1, d);
      assert d in Touched(ids, attempts, n)
        <==> d in Touched(ids, attempts, n - 1) || Completes(ids, attempts, n - 1, d);
    }
  }

  /** The attempts whose verification read is answered and finds the event completed, by this attempt or an earlier
      one, or meanwhile by another instance. */
  ghost function Successes(ids: seq<Id>, attempts: seq<Attempt>, n: nat): set<nat>
    requires n <= |ids| == |attempts|
  {
    set i: nat | i < n && attempts[i].verifies && exists j :: 0 <= j <= i && Completes(ids, attempts, j, ids[i])
  }

  lemma {:induction false} AllSucceed(ids: seq<Id>, attempts: seq<Attempt>, n: nat)
    requires n <= |ids| == |attempts| && AllGood(attempts)
    ensures |Successes(ids, attempts, n)| == n
  {
    if n > 0 {
      AllSucceed(ids, attempts, n - 1);
      assert Completes(ids, attempts, n - 1, ids[n - 1]);
      assert Successes(ids, attempts, n) == Successes(ids, attempts, n - 1) + {n - 1};
    }
  }

  /** What the verification read of attempt i finds. */
  lemma ReadFinds(events: map<Id, Event>, ids: seq<Id>, attempts: seq<Attempt>, i: nat)
    requires i < |ids| == |attempts| && ids[i] in events && events[ids[i]].status == Active
    ensures var found := ids[i] in Touched(ids, attempts, i + 1);
            && CompletedAll(events, Touched(ids, attempts, i + 1))[ids[i]].status
               == (if found then Completed else Active)
            && (attempts[i].completes ==> found)
            && |Successes(ids, attempts, i + 1)|
               == |Successes(ids, attempts, i)| + if attempts[i].verifies && found then 1 else 0
  {
    TouchedExactly(ids, attempts, i + 1, ids[i]);
    var found := ids[i] in Touched(ids, attempts, i + 1);
    var more := if attempts[i].verifies && found then {i} else {};
    assert Successes(ids, attempts, i + 1) == Successes(ids, attempts, i) + more;
  }

  /** A pass leaves alone what it neither found nor was completed elsewhere, and completes what committed. */
  lemma PassChanges(events: map<Id, Event>, ids: seq<Id>, attempts: seq<Attempt>)
    requires |ids| == |attempts| && forall i | 0 <= i < |ids| :: ids[i] in events && events[ids[i]].status == Active
    ensures var after := CompletedAll(events, Touched(ids, attempts, |ids|));
            && (forall d | d in after && d !in ids && (forall i | 0 <= i < |attempts| :: d !in attempts[i].others) ::
                  after[d] == events[d])
            && (forall i | 0 <= i < |attempts| && attempts[i].completes ::
                  ids[i] in after && after[ids[i]].status == Completed)
            && (forall i, d | 0 <= i < |attempts| && d in attempts[i].others && d in after ::
                  after[d].status != Active)
  {
    forall d
      ensures d in Touched(ids, attempts, |ids|) <==> exists j :: 0 <= j < |ids| && Completes(ids, attempts, j, d)
    {
      TouchedExactly(ids, attempts, |ids|, d);
    }
    forall j, d | 0 <= j < |ids| && Completes(ids, attempts, j, d) ensures d in Touched(ids, attempts, |ids|) {}
    assert forall i | 0 <= i < |attempts| && attempts[i].completes :: Completes(ids, attempts, i, ids[i]);
    assert forall i, d | 0 <= i < |attempts| && d in attempts[i].others :: Completes(ids, attempts, i, d);
  }
}
