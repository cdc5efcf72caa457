/** Who gets a row in a run of the engine: only a user whom the join guards let through, for a guild assigned to that
    very room. Rows and uncommitted versions keep their guild, and messages on their way were let through. */
module EngineAdmission {
  import opened Tables
  import opened Engine
  import opened EngineRuns

  ghost predicate AllAdmitted(rows: map<Key, Player>, entrants: set<Pass>) {
    forall k | k in rows :: Pass(rows[k].guild, k) in entrants
  }

  /** The room is there, and the guild takes part in its event. */
  ghost predicate Participates(db: Db, p: Pass) {
    p.key.room in db.rooms && db.rooms[p.key.room] in db.joined && p.guild in db.joined[db.rooms[p.key.room]]
  }

  ghost predicate HasBegun(db: Db, e: Id) {
    e in db.events && db.events[e].status != Pending
  }

  /** Each player row is for a guild that takes part in the event of its room. */
  ghost predicate RowsOfParticipants(db: Db) {
    forall k | k in db.players :: Participates(db, Pass(db.players[k].guild, k))
  }

  ghost predicate Admitted(s: State) {
    HoldsPasses(s) && HoldsRooms(s)
  }

  ghost predicate HoldsPasses(s: State) {
    && AllAdmitted(s.db.players, s.db.entrants)
    && (forall t | t in s.txs :: AllAdmitted(s.txs[t].writes, s.db.entrants))
    && s.passes <= s.db.entrants
    && (forall e | e in s.db.events :: s.db.events[e].startDate <= s.db.events[e].endDate)
  }

  /** Rooms, entrants and participants belong to events that are no longer pending. */
  ghost predicate HoldsRooms(s: State) {
    && (forall p | p in s.db.entrants :: Participates(s.db, p))
    && (forall e | HasBegun(s.db, e) :: e in s.db.joined)
    && (forall r | r in s.db.rooms :: HasBegun(s.db, s.db.rooms[r]))
    && (forall t | t in s.txs && s.txs[t].Complete? && s.txs[t].cpc != Opened :: HasBegun(s.db, s.txs[t].event))
  }

  lemma OutsidePasses(s: State, step: Step)
    requires HoldsPasses(s) && Can(s, step) && IsOutside(step)
    ensures HoldsPasses(Do(s, step))
  {
  }

  lemma EndPasses(s: State, step: Step)
    requires HoldsPasses(s) && Can(s, step) && IsEnd(step)
    ensures HoldsPasses(Do(s, step))
  {
    assert AllAdmitted(View(s.db.players, s.txs[step.t].writes), s.db.entrants);
  }

  lemma ApproveRooms(s: State, e: Id, startDate: int, endDate: int)
    requires HoldsRooms(s) && Can(s, Approve(e, startDate, endDate))
    ensures HoldsRooms(Do(s, Approve(e, startDate, endDate)))
  {
  }

  lemma ActivateRooms(s: State, e: Id, guilds: map<Id, Guild>, problems: map<Id, int>)
    requires HoldsRooms(s) && Can(s, Activate(e, guilds, problems))
    ensures HoldsRooms(Do(s, Activate(e, guilds, problems)))
  {
    forall p | p in Do(s, Activate(e, guilds, problems)).db.entrants
      ensures Participates(Do(s, Activate(e, guilds, problems)).db, p)
    {
      ActivateEntrant(s, e, guilds, problems, p);
    }
    ActivateBegins(s, e, guilds, problems);
  }

  lemma ActivateEntrant(s: State, e: Id, guilds: map<Id, Guild>, problems: map<Id, int>, p: Pass)
    requires HoldsRooms(s) && Can(s, Activate(e, guilds, problems))
    requires p in Do(s, Activate(e, guilds, problems)).db.entrants
    ensures Participates(Do(s, Activate(e, guilds, problems)).db, p)
  {
    if p in s.db.entrants {
      assert Participates(s.db, p);
    }
  }

  lemma ActivateBegins(s: State, e: Id, guilds: map<Id, Guild>, problems: map<Id, int>)
    requires HoldsRooms(s) && Can(s, Activate(e, guilds, problems))
    ensures var s' := Do(s, Activate(e, guilds, problems));
            && s'.txs == s.txs
            && (forall d | HasBegun(s'.db, d) :: d in s'.db.joined)
            && (forall d | HasBegun(s.db, d) :: HasBegun(s'.db, d))
            && (forall r | r in s'.db.rooms :: HasBegun(s'.db, s'.db.rooms[r]))
  {
  }

  lemma OutsideRooms(s: State, step: Step)
    requires HoldsRooms(s) && Can(s, step) && IsOutside(step)
    ensures HoldsRooms(Do(s, step))
  {
    if step.Approve? {
      ApproveRooms(s, step.e, step.startDate, step.endDate);
    } else if step.Activate? {
      ActivateRooms(s, step.e, step.guilds, step.problems);
    } else {
      SameRooms(s, step);
    }
  }

  lemma SameRooms(s: State, step: Step)
    requires Can(s, step) && IsOutside(step) && !step.Approve? && !step.Activate?
    ensures Do(s, step).txs == s.txs
    ensures Do(s, step).db == s.db.(players := Do(s, step).db.players, subs := Do(s, step).db.subs)
  {
  }

  lemma EndRooms(s: State, step: Step)
    requires HoldsRooms(s) && Can(s, step) && IsEnd(step)
    ensures HoldsRooms(Do(s, step))
  {
  }

  lemma TxStepRooms(s: State, step: Step)
    requires HoldsRooms(s) && Can(s, step) && !IsOutside(step) && !IsEnd(step)
    ensures HoldsRooms(Do(s, step))
  {
  }

  lemma PlaceAdmits(s: State, t: Id, order: seq<Key>)
    requires HoldsPasses(s) && CanPlace(s, t, order)
    ensures HoldsPasses(DoPlace(s, t, order))
  {
    var view := View(s.db.players, s.txs[t].writes);
    var keys := RowKeys(view, s.db.subs, RoomRows(view, RoomOf(s.db, s.txs[t])));
    forall i | 0 <= i < |order| ensures order[i] in view {
      assert order[i] in keys;
    }
    PlacedAdmitted(view, order, s.db.entrants);
  }

  lemma PlacedAdmitted(view: map<Key, Player>, order: seq<Key>, entrants: set<Pass>)
    requires AllAdmitted(view, entrants) && forall i | 0 <= i < |order| :: order[i] in view
    ensures AllAdmitted(WithPlaces(view, order), entrants)
  {
  }

  lemma TxStepPasses(s: State, step: Step)
    requires HoldsPasses(s) && Can(s, step) && !IsOutside(step) && !IsEnd(step)
    ensures HoldsPasses(Do(s, step))
  {
    if step.Place? {
      PlaceAdmits(s, step.t, step.order);
    }
  }

  lemma StepAdmits(s: State, step: Step)
    requires Admitted(s) && Can(s, step)
    ensures Admitted(Do(s, step))
  {
    if IsOutside(step) {
      OutsidePasses(s, step);
      OutsideRooms(s, step);
    } else if IsEnd(step) {
      EndPasses(s, step);
      EndRooms(s, step);
    } else {
      TxStepPasses(s, step);
      TxStepRooms(s, step);
    }
  }

  /** In every reachable state each player row is for a guild assigned to its room and a user selected for that guild,
      and so is each join that was let through but not yet carried out. */
  lemma {:induction false} RowsAdmitted(states: seq<State>, steps: seq<Step>, n: nat)
    requires IsRun(states, steps) && n < |states|
    ensures Admitted(states[n])
  {
    if n > 0 {
      RowsAdmitted(states, steps, n - 1);
      StepAdmits(states[n - 1], steps[n - 1]);
    }
  }
}
