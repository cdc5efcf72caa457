/** Exactly when a completion settles its event for good: at the moment it takes its row locks, no room of the event
    may be exposed, that is, without players while somebody can still get a row there and points that count in time. */
module EngineSettled {
  import opened Tables
  import opened Sums
  import opened Engine
  import opened EngineInvariant
  import opened EngineRuns
  import opened EngineTheorems
  import opened EngineRace
  import opened EngineAdmission
  import opened EngineCalm

  ghost predicate IsCompleted(s: State, e: Id) {
    e in s.db.events && s.db.events[e].status == Completed
  }

  /** The result stands: the player snapshot shows the stored scores and misses no points, the guild totals are the
      sums over their players, and both add up to all points ever awarded in the event. */
  ghost predicate Settled(db: Db, e: Id) {
    var rows := EventRows(db.players, db.rooms, e);
    && e in db.finals
    && FinalsExact(db.players, db.rooms, e, db.finals[e])
    && FinalsSum(db.finals[e]) == ScoreSum(db.players, rows) == Awarded(db.ledger, rows)
    && (e in db.guildFinals ==>
          && TotalsExact(db.players, db.rooms, e, db.guildFinals[e])
          && TotalsSum(db.guildFinals[e]) == ScoreSum(db.players, rows))
  }

  /** Scorer `u` of this user's submission has not added its points yet, began in time, and nothing else forbids its
      acceptance. */
  ghost predicate InFlight(s: State, e: Id, k: Key, u: Id)
    requires e in s.db.events
  {
    && NotAdded(s, u)
    && var sub := s.db.subs[s.txs[u].sub];
    && sub.key == k && sub.points != 0 && InInt32(sub.points)
    && s.txs[u].startedAt <= s.db.events[e].endDate
    && !HasDuplicate(s.db.subs, sub)
  }

  /** Nobody has a row in the room, and somebody can still get one and score: before the end of the event anybody who is
      entitled to join, after it only a user who was let through earlier and whose scorer is in flight. */
  ghost predicate Exposed(s: State, e: Id, r: Id)
    requires e in s.db.events
  {
    && r in s.db.rooms && s.db.rooms[r] == e && RoomRows(s.db.players, r) == {}
    && ((s.now <= s.db.events[e].endDate && !Closed(s.db, r))
        || exists p, u :: p in s.passes && p.key.room == r && InFlight(s, e, p.key, u))
  }

  // ---- no exposed room: settled in every future ----

  /** The event is over for this user: no row, nothing on its way, too late to ask. */
  ghost predicate IsBarred(s: State, e: Id, k: Key)
    requires e in s.db.events
  {
    && k.room in s.db.rooms && s.db.rooms[k.room] == e && s.now > s.db.events[e].endDate
    && k !in s.db.players && forall p | p in s.passes :: p.key != k
  }

  ghost function WatchOf(s: State, e: Id): Watch
    requires e in s.db.events
  {
    Watch(e, s.db.events[e].endDate, EventRows(s.db.players, s.db.rooms, e),
          set t | t in s.txs && NotAdded(s, t) && IsBarred(s, e, s.db.subs[s.txs[t].sub].key) ::
            s.db.subs[s.txs[t].sub].key)
  }

  lemma QuietIsEmpty(s: State, e: Id, r: Id)
    requires e in s.db.events && Quiet(WatchOf(s, e), s.db.rooms, r)
    ensures RoomRows(s.db.players, r) == {}
  {
    RowsSeal(s.db, e, r);
  }

  lemma RowsSeal(db: Db, e: Id, r: Id)
    requires r in db.rooms && db.rooms[r] == e
    ensures RoomRows(db.players, r) != {} ==> Sealed(EventRows(db.players, db.rooms, e), r)
  {
    if RoomRows(db.players, r) != {} {
      var k :| k in RoomRows(db.players, r);
      assert k in EventRows(db.players, db.rooms, e);
    }
  }

  lemma UnexposedScorer(s: State, e: Id, t: Id, k: Key)
    requires e in s.db.events && t in s.txs && s.txs[t].Score? && TxOk(s.db, s.txs[t])
    requires k == s.db.subs[s.txs[t].sub].key && !Exposed(s, e, k.room)
    requires Quiet(WatchOf(s, e), s.db.rooms, k.room)
    ensures Harmless(WatchOf(s, e), s.db, s.txs[t])
  {
    QuietIsEmpty(s, e, k.room);
    assert k in s.db.players ==> k in RoomRows(s.db.players, k.room);
    if NotAdded(s, t) {
      if IsBarred(s, e, k) {
        assert k in WatchOf(s, e).barred;
      } else if s.now > s.db.events[e].endDate {
        var p :| p in s.passes && p.key == k;
        assert !InFlight(s, e, p.key, t);
      }
    }
  }

  lemma LockGate(s: State, t: Id)
    requires Can(s, Lock(t))
    requires forall r | r in s.db.rooms && s.db.rooms[r] == s.txs[t].event :: !Exposed(s, s.txs[t].event, r)
    ensures Gate(WatchOf(s, s.txs[t].event), Do(s, Lock(t)))
  {
    var e := s.txs[t].event;
    forall r | Quiet(WatchOf(s, e), s.db.rooms, r) ensures s.now > s.db.events[e].endDate || Closed(s.db, r) {
      QuietIsEmpty(s, e, r);
    }
  }

  lemma LockIsCalm(s: State, t: Id)
    requires Inv(s) && Can(s, Lock(t))
    requires forall r | r in s.db.rooms && s.db.rooms[r] == s.txs[t].event :: !Exposed(s, s.txs[t].event, r)
    ensures Calm(WatchOf(s, s.txs[t].event), Do(s, Lock(t)))
  {
    var e := s.txs[t].event;
    var w := WatchOf(s, e);
    forall r | Quiet(w, s.db.rooms, r) ensures RoomRows(s.db.players, r) == {} {
      QuietIsEmpty(s, e, r);
    }
    SnapshotsAt(s);
    SwappedIsActive(s, t);
    LockCalmDb(w, s.db);
    forall u | u in s.txs && u != t ensures CalmTx(w, s.db, s.txs[u]) {
      LockCalmTx(s, t, u);
    }
    LockedIsCalm(w, s, t);
  }

  lemma SwappedIsActive(s: State, t: Id)
    requires Inv(s) && CompleteAt(s, t, Swapped)
    ensures s.db.events[s.txs[t].event].status == Active && s.txs[t].guilds.None?
  {
    assert TxOk(s.db, s.txs[t]);
  }

  lemma LockedIsCalm(w: Watch, s: State, t: Id)
    requires CalmDb(w, s.db) && Can(s, Lock(t)) && s.txs[t].event == w.event && s.txs[t].guilds.None?
    requires w.held == EventRows(s.db.players, s.db.rooms, w.event)
    requires forall u | u in s.txs && u != t :: CalmTx(w, s.db, s.txs[u])
    ensures Calm(w, Do(s, Lock(t)))
  {
  }

  lemma LockCalmTx(s: State, t: Id, u: Id)
    requires Inv(s) && CompleteAt(s, t, Swapped) && u in s.txs && u != t
    requires forall r | r in s.db.rooms && s.db.rooms[r] == s.txs[t].event :: !Exposed(s, s.txs[t].event, r)
    ensures CalmTx(WatchOf(s, s.txs[t].event), s.db, s.txs[u])
  {
    var e := s.txs[t].event;
    assert TxOk(s.db, s.txs[u]) && Pair(s.db.subs, s.txs[t], s.txs[u]);
    if s.txs[u].Score? && Quiet(WatchOf(s, e), s.db.rooms, s.db.subs[s.txs[u].sub].key.room) {
      UnexposedScorer(s, e, u, s.db.subs[s.txs[u].sub].key);
    }
  }

  lemma LockCalmDb(w: Watch, db: Db)
    requires Snapshots(db) && w.event in db.events && db.events[w.event].status == Active
    requires w == Watch(w.event, db.events[w.event].endDate, EventRows(db.players, db.rooms, w.event), w.barred)
    requires forall r | Quiet(w, db.rooms, r) :: RoomRows(db.players, r) == {}
    ensures CalmDb(w, db)
  {
    assert forall k | k in db.players :: k in RoomRows(db.players, k.room);
  }

  lemma CalmStretch(states: seq<State>, steps: seq<Step>, w: Watch, n: nat)
    requires IsStretch(states, steps) && IsCalm(w, states[0]) && n < |states|
    ensures IsCalm(w, states[n])
  {
    var calm := (s: State) => IsCalm(w, s);
    forall i | 0 <= i < |steps| && calm(states[i]) ensures calm(states[i + 1]) {
      CalmAt(states, steps, w, i);
    }
    StretchKeeps(states, steps, calm, n);
  }

  /** Induction along a stretch. */
  lemma {:induction false} StretchKeeps(states: seq<State>, steps: seq<Step>, p: State -> bool, n: nat)
    requires |states| == |steps| + 1 && n < |states| && p(states[0])
    requires forall i | 0 <= i < |steps| && p(states[i]) :: p(states[i + 1])
    ensures p(states[n])
  {
    if n > 0 {
      StretchKeeps(states, steps, p, n - 1);
    }
  }

  lemma CalmAt(states: seq<State>, steps: seq<Step>, w: Watch, n: nat)
    requires IsStretch(states, steps) && n < |steps| && IsCalm(w, states[n])
    ensures IsCalm(w, states[n + 1])
  {
    StretchStep(states, steps, n);
    CalmNext(w, states[n], steps[n]);
  }

  ghost predicate IsCalm(w: Watch, s: State) {
    Inv(s) && Admitted(s) && Calm(w, s) && Gate(w, s)
  }

  lemma CalmNext(w: Watch, s: State, step: Step)
    requires IsCalm(w, s) && Can(s, step)
    ensures IsCalm(w, Do(s, step))
  {
    StepKeeps(s, step);
    StepAdmits(s, step);
    CalmStep(w, s, step);
  }

  lemma StretchStep(states: seq<State>, steps: seq<Step>, n: nat)
    requires IsStretch(states, steps) && n < |steps|
    ensures Can(states[n], steps[n]) && states[n + 1] == Do(states[n], steps[n])
  {
  }

  lemma CalmIsSettled(w: Watch, s: State)
    requires Inv(s) && Calm(w, s) && IsCompleted(s, w.event)
    ensures Settled(s.db, w.event)
  {
    SnapshotsAt(s);
    assert Books(s.db);
    SumsAgree(s.db, w.event);
    if w.event in s.db.guildFinals {
      assert GuildsOk(s.db, w.event, s.db.guildFinals[w.event], s.db.locked[w.event]);
      GuildsConserved(s.db, w.event, s.db.guildFinals[w.event]);
    }
  }

  lemma SumsAgree(db: Db, e: Id)
    requires Books(db) && Snapshots(db) && e in db.finals && FinalsExact(db.players, db.rooms, e, db.finals[e])
    ensures var rows := EventRows(db.players, db.rooms, e);
            FinalsSum(db.finals[e]) == ScoreSum(db.players, rows) == Awarded(db.ledger, rows)
  {
    var rows, finals := EventRows(db.players, db.rooms, e), db.finals[e];
    ScoreSumIsAwarded(db.players, rows, db.ledger);
    FinalsSumIsScoreSum(db.players, finals);
    forall k | k in rows - FinalKeys(finals) ensures db.players[k].score == 0 {
      assert !Listed(finals, k);
    }
    ZeroRows(db.players, FinalKeys(finals), rows);
  }

  // ---- an exposed room: some future contradicts the snapshot ----

  lemma {:induction false} FreshId(used: set<Id>) returns (id: Id)
    ensures forall x | x in used :: x < id
  {
    if used == {} {
      id := 0;
    } else {
      var x :| x in used;
      var other := FreshId(used - {x});
      id := if other > x then other else x + 1;
      assert forall y | y in used :: y == x || y in used - {x};
    }
  }

  /** `s` is the last state of some run. */
  ghost predicate Reached(s: State) {
    exists states, steps :: IsRun(states, steps) && states[|steps|] == s
  }

  lemma ReachedInv(s: State)
    requires Reached(s)
    ensures Inv(s)
  {
    var states, steps :| IsRun(states, steps) && states[|steps|] == s;
    RunInv(states, steps, |steps|);
  }

  lemma ReachedAdmitted(s: State)
    requires Reached(s)
    ensures Admitted(s)
  {
    var states, steps :| IsRun(states, steps) && states[|steps|] == s;
    RowsAdmitted(states, steps, |steps|);
  }

  lemma ReachedOn(s: State, s': State)
    requires Reached(s) && Leads(s, s')
    ensures Reached(s')
  {
    var a, aSteps :| IsRun(a, aSteps) && a[|aSteps|] == s;
    var b, bSteps :| Connects(b, bSteps, s, s');
    StretchesJoin(a, aSteps, b, bSteps);
    assert IsRun(a + b[1..], aSteps + bSteps);
  }

  lemma DivergedIsUnsettled(s: State, e: Id, k: Key)
    requires Diverged(s, e, k)
    ensures !FinalsExact(s.db.players, s.db.rooms, e, s.db.finals[e])
  {
    var finals := s.db.finals[e];
    var i :| 0 <= i < |finals| && finals[i].key == k && finals[i].score != s.db.players[k].score;
  }

  /** Completion `t` of `e` has its locks, and nobody plays in room `r` of the event. */
  ghost predicate Empty(s: State, t: Id, e: Id, r: Id) {
    && CompleteAt(s, t, Locked) && s.txs[t].event == e && e in s.db.events
    && r in s.db.rooms && s.db.rooms[r] == e && RoomRows(s.db.players, r) == {}
  }

  /** Some future completes the event with a result that does not stand. */
  ghost predicate CanUnsettle(s: State, e: Id) {
    exists s' :: Leads(s, s') && IsCompleted(s', e) && !Settled(s'.db, e)
  }

  lemma UnsettleLater(s: State, s1: State, e: Id)
    requires Leads(s, s1) && CanUnsettle(s1, e)
    ensures CanUnsettle(s, e)
  {
    var s' :| Leads(s1, s') && IsCompleted(s', e) && !Settled(s'.db, e);
    LeadsOn(s, s1, s');
  }

  /** No other transaction has the acceptance of this problem under way. */
  ghost predicate Unrivalled(s: State, u: Id)
    requires NotAdded(s, u)
  {
    forall v | v in s.txs && v != u && MarkedSub(s.db.subs, s.txs[v]) ::
      !SameProblem(s.db.subs[s.txs[v].sub], s.db.subs[s.txs[u].sub])
  }

  lemma LockedIsActive(s: State, t: Id)
    requires Reached(s) && CompleteAt(s, t, Locked)
    ensures s.db.events[s.txs[t].event].status == Active
  {
    ReachedInv(s);
    assert TxOk(s.db, s.txs[t]);
  }

  lemma UnrivalledDiverges(s: State, t: Id, e: Id, p: Pass, u: Id)
    requires Reached(s) && Empty(s, t, e, p.key.room) && p in s.passes && InFlight(s, e, p.key, u) && Unrivalled(s, u)
    ensures CanUnsettle(s, e)
  {
    ReachedInv(s);
    LockedIsActive(s, t);
    ReadyToDiverge(s, t, e, p, u);
    var s' := EmptyRoomCanDiverge(s, t, u, p);
    DivergedIsUnsettled(s', e, p.key);
  }

  lemma ReadyToDiverge(s: State, t: Id, e: Id, p: Pass, u: Id)
    requires Empty(s, t, e, p.key.room) && p in s.passes && InFlight(s, e, p.key, u) && Unrivalled(s, u)
    requires s.db.events[e].status == Active
    ensures AboutToDiverge(s, t, u, p)
  {
    assert !HasDuplicate(s.db.subs, s.db.subs[s.txs[u].sub]);
  }

  ghost function Without(s: State, v: Id): State {
    s.(txs := s.txs - {v})
  }

  lemma AbortLeads(s: State, v: Id)
    requires v in s.txs
    ensures Leads(s, Without(s, v))
  {
    StepLeads(s, Abort(v));
  }

  lemma OnlyRival(s: State, u: Id, v: Id)
    requires NotAdded(s, u) && v in s.txs && v != u && MarkedSub(s.db.subs, s.txs[v])
    requires SameProblem(s.db.subs[s.txs[v].sub], s.db.subs[s.txs[u].sub])
    requires forall x | x in s.txs && x != v && MarkedSub(s.db.subs, s.txs[x]) ::
               !SameProblem(s.db.subs[s.txs[x].sub], s.db.subs[s.txs[v].sub])
    ensures NotAdded(Without(s, v), u) && Unrivalled(Without(s, v), u)
  {
  }

  lemma RivalsDiffer(s: State, v: Id)
    requires Reached(s) && v in s.txs && MarkedSub(s.db.subs, s.txs[v])
    ensures forall x | x in s.txs && x != v && MarkedSub(s.db.subs, s.txs[x]) ::
              !SameProblem(s.db.subs[s.txs[x].sub], s.db.subs[s.txs[v].sub])
  {
    ReachedInv(s);
    forall x | x in s.txs && x != v && MarkedSub(s.db.subs, s.txs[x])
      ensures !SameProblem(s.db.subs[s.txs[x].sub], s.db.subs[s.txs[v].sub])
    {
      assert Pair(s.db.subs, s.txs[x], s.txs[v]);
    }
  }

  lemma AbortRival(s: State, t: Id, e: Id, p: Pass, u: Id, v: Id)
    requires Reached(s) && Empty(s, t, e, p.key.room) && InFlight(s, e, p.key, u)
    requires v in s.txs && v != u && MarkedSub(s.db.subs, s.txs[v])
    requires SameProblem(s.db.subs[s.txs[v].sub], s.db.subs[s.txs[u].sub])
    ensures Leads(s, Without(s, v)) && Reached(Without(s, v))
    ensures var s' := Without(s, v); Empty(s', t, e, p.key.room) && InFlight(s', e, p.key, u) && Unrivalled(s', u)
  {
    AbortLeads(s, v);
    ReachedOn(s, Without(s, v));
    RivalsDiffer(s, v);
    OnlyRival(s, u, v);
  }

  lemma InFlightDiverges(s: State, t: Id, e: Id, p: Pass, u: Id)
    requires Reached(s) && Empty(s, t, e, p.key.room) && p in s.passes && InFlight(s, e, p.key, u)
    ensures CanUnsettle(s, e)
  {
    if Unrivalled(s, u) {
      UnrivalledDiverges(s, t, e, p, u);
    } else {
      var v :| v in s.txs && v != u && MarkedSub(s.db.subs, s.txs[v])
               && SameProblem(s.db.subs[s.txs[v].sub], s.db.subs[s.txs[u].sub]);
      AbortRival(s, t, e, p, u, v);
      UnrivalledDiverges(Without(s, v), t, e, p, u);
      UnsettleLater(s, Without(s, v), e);
    }
  }

  /** An entitled user asks to join once the event is on. */
  ghost function LetThrough(s: State, e: Id, p: Pass): State
    requires e in s.db.events
  {
    var start := s.db.events[e].startDate;
    s.(now := if s.now < start then start else s.now, passes := s.passes + {p})
  }

  lemma LetThroughReached(s: State, t: Id, e: Id, p: Pass)
    requires Reached(s) && Empty(s, t, e, p.key.room) && p in s.db.entrants && s.now <= s.db.events[e].endDate
    ensures var s' := LetThrough(s, e, p);
            Leads(s, s') && Reached(s') && Empty(s', t, e, p.key.room) && s'.now <= s'.db.events[e].endDate
  {
    ReachedAdmitted(s);
    var s' := LetThrough(s, e, p);
    var s1 := s.(now := s'.now);
    StepLeads(s, Tick(s'.now));
    StepLeads(s1, CheckJoin(p));
    LeadsOn(s, s1, s');
    ReachedOn(s, s');
  }

  ghost function OneGuild(): map<Id, int> {
    map[0 := 0]
  }

  ghost function OneProblem(q: Id): map<Id, int> {
    map[q := 1]
  }

  /** Another event is approved and activated at this moment, with one guild and problem `q` for one point. The submit
      request names its event by itself, so this event's problems count in any room. */
  ghost function WithOffer(s: State, e2: Id, r2: Id, q: Id): State {
    s.(db := s.db.(events := s.db.events[e2 := Event(Active, s.now, s.now)],
                   rooms := s.db.rooms[r2 := e2],
                   joined := s.db.joined[e2 := OneGuild()],
                   offers := s.db.offers[e2 := OneProblem(q)]))
  }

  lemma ActivatedAlone(e2: Id, r2: Id)
    ensures var guilds := map[0 := Guild(0, r2, {})];
            && NewRooms(guilds) == {r2} && RoomsOf(e2, guilds) == map[r2 := e2]
            && NewEntrants(guilds) == {} && JoinedAt(guilds) == OneGuild()
  {
    var guilds: map<Id, Guild> := map[0 := Guild(0, r2, {})];
    assert NewRooms(guilds) == {guilds[0].room};
  }

  lemma OfferMaps(db: Db, after: Db, e2: Id, r2: Id, before: Event, event: Event)
    requires after.events == db.events[e2 := event] && after.rooms == db.rooms[r2 := e2]
    ensures db.events[e2 := before][e2 := event] == after.events
    ensures db.rooms + map[r2 := e2] == after.rooms
    ensures db.entrants + {} == db.entrants
  {
  }

  lemma OfferActivated(s: State, db: Db, e2: Id, r2: Id, q: Id)
    requires db == s.db.(events := s.db.events[e2 := Event(Pending, s.now, s.now)])
    ensures Activated(db, e2, map[0 := Guild(0, r2, {})], OneProblem(q)) == WithOffer(s, e2, r2, q).db
  {
    ActivatedAlone(e2, r2);
    OfferMaps(s.db, WithOffer(s, e2, r2, q).db, e2, r2, Event(Pending, s.now, s.now), Event(Active, s.now, s.now));
  }

  lemma ActivateLeads(s: State, s1: State, e2: Id, r2: Id, q: Id)
    requires e2 !in s.db.events && r2 !in s.db.rooms
    requires s1 == s.(db := s.db.(events := s.db.events[e2 := Event(Pending, s.now, s.now)]))
    ensures Leads(s1, WithOffer(s, e2, r2, q))
  {
    var guilds: map<Id, Guild> := map[0 := Guild(0, r2, {})];
    ActivatedAlone(e2, r2);
    StepLeads(s1, Activate(e2, guilds, OneProblem(q)));
    OfferActivated(s, s1.db, e2, r2, q);
  }

  lemma OfferLeads(s: State, e2: Id, r2: Id, q: Id)
    requires e2 !in s.db.events && r2 !in s.db.rooms
    ensures Leads(s, WithOffer(s, e2, r2, q))
  {
    var s1 := s.(db := s.db.(events := s.db.events[e2 := Event(Pending, s.now, s.now)]));
    StepLeads(s, Approve(e2, s.now, s.now));
    ActivateLeads(s, s1, e2, r2, q);
    LeadsOn(s, s1, WithOffer(s, e2, r2, q));
  }

  lemma OfferReached(s: State, t: Id, e: Id, r: Id, e2: Id, r2: Id, q: Id)
    requires Reached(s) && Empty(s, t, e, r) && e2 !in s.db.events && r2 !in s.db.rooms
    ensures var s' := WithOffer(s, e2, r2, q); Leads(s, s') && Reached(s') && Empty(s', t, e, r)
  {
    OfferLeads(s, e2, r2, q);
    ReachedOn(s, WithOffer(s, e2, r2, q));
  }

  /** Transaction `u` has taken up a new submission of this user. */
  ghost function WithScorer(s: State, id: Id, u: Id, k: Key, q: Id): State {
    WithSub(s, id, k, q, Handled).(txs := s.txs[u := Score(id, s.now, Begun, false, map[])])
  }

  ghost function WithSub(s: State, id: Id, k: Key, q: Id, phase: Phase): State {
    s.(db := s.db.(subs := s.db.subs[id := Submission(k, q, 1, s.now, Waiting, phase)]))
  }

  lemma NextPhase(s: State, id: Id, k: Key, q: Id, from: Phase, to: Phase)
    ensures var a, b := WithSub(s, id, k, q, from), WithSub(s, id, k, q, to);
            a.(db := a.db.(subs := a.db.subs[id := b.db.subs[id]])) == b
  {
  }

  lemma SendLeads(s: State, id: Id, e2: Id, k: Key, q: Id)
    requires id !in s.db.subs && k.room in s.db.rooms
    requires e2 in s.db.events && s.db.events[e2].status == Active && s.now <= s.db.events[e2].endDate
    requires e2 in s.db.offers && s.db.offers[e2] == OneProblem(q)
    ensures Leads(s, WithSub(s, id, k, q, Queued))
  {
    StepLeads(s, Submit(id, e2, k, q));
    var s1 := WithSub(s, id, k, q, Sent);
    NextPhase(s, id, k, q, Sent, Queued);
    StepLeads(s1, Record(id));
    LeadsOn(s, s1, WithSub(s, id, k, q, Queued));
  }

  lemma TakeUpLeads(s: State, id: Id, u: Id, k: Key, q: Id)
    requires u !in s.txs && k.room in s.db.rooms
    requires var e := s.db.rooms[k.room]; e in s.db.events && s.db.events[e].status == Active
    ensures Leads(WithSub(s, id, k, q, Queued), WithScorer(s, id, u, k, q))
  {
    var s1, s2 := WithSub(s, id, k, q, Queued), WithSub(s, id, k, q, Cleared);
    NextPhase(s, id, k, q, Queued, Cleared);
    StepLeads(s1, Clear(id));
    NextPhase(s, id, k, q, Cleared, Handled);
    StepLeads(s2, BeginScore(u, id));
    LeadsOn(s1, s2, WithScorer(s, id, u, k, q));
  }

  lemma ScorerInFlight(s: State, e: Id, id: Id, u: Id, k: Key, q: Id)
    requires e in s.db.events && s.now <= s.db.events[e].endDate
    requires id !in s.db.subs && forall i | i in s.db.subs :: s.db.subs[i].problem != q
    ensures InFlight(WithScorer(s, id, u, k, q), e, k, u)
  {
  }

  lemma ScorerReached(s: State, t: Id, e: Id, k: Key, id: Id, u: Id, e2: Id, q: Id)
    requires Reached(s) && Empty(s, t, e, k.room) && s.now <= s.db.events[e].endDate
    requires id !in s.db.subs && u !in s.txs && forall i | i in s.db.subs :: s.db.subs[i].problem != q
    requires e2 in s.db.events && s.db.events[e2].status == Active && s.now <= s.db.events[e2].endDate
    requires e2 in s.db.offers && s.db.offers[e2] == OneProblem(q)
    ensures var s' := WithScorer(s, id, u, k, q);
            Leads(s, s') && Reached(s') && Empty(s', t, e, k.room) && InFlight(s', e, k, u) && s'.passes == s.passes
  {
    LockedIsActive(s, t);
    SendLeads(s, id, e2, k, q);
    TakeUpLeads(s, id, u, k, q);
    LeadsOn(s, WithSub(s, id, k, q, Queued), WithScorer(s, id, u, k, q));
    ReachedOn(s, WithScorer(s, id, u, k, q));
    ScorerInFlight(s, e, id, u, k, q);
  }

  /** A user who was let through can still send a submission that begins in time. */
  lemma LateScorer(s: State, t: Id, e: Id, p: Pass)
    requires Reached(s) && Empty(s, t, e, p.key.room) && p in s.passes && s.now <= s.db.events[e].endDate
    ensures CanUnsettle(s, e)
  {
    var e2 := FreshId(s.db.events.Keys);
    var r2 := FreshId(s.db.rooms.Keys);
    var problems := set i | i in s.db.subs :: s.db.subs[i].problem;
    var q := FreshId(problems);
    assert forall i | i in s.db.subs :: s.db.subs[i].problem in problems;
    var s1 := WithOffer(s, e2, r2, q);
    OfferReached(s, t, e, p.key.room, e2, r2, q);
    var id := FreshId(s.db.subs.Keys);
    var u := FreshId(s.txs.Keys);
    ScorerReached(s1, t, e, p.key, id, u, e2, q);
    var s2 := WithScorer(s1, id, u, p.key, q);
    InFlightDiverges(s2, t, e, p, u);
    UnsettleLater(s1, s2, e);
    UnsettleLater(s, s1, e);
  }

  /** Before the end of the event an entitled user can join and score. */
  lemma LateJoiner(s: State, t: Id, e: Id, p: Pass)
    requires Reached(s) && Empty(s, t, e, p.key.room) && p in s.db.entrants && s.now <= s.db.events[e].endDate
    ensures CanUnsettle(s, e)
  {
    LetThroughReached(s, t, e, p);
    LateScorer(LetThrough(s, e, p), t, e, p);
    UnsettleLater(s, LetThrough(s, e, p), e);
  }

  lemma LockedEmpty(s: State, t: Id, r: Id)
    requires Reached(s) && Can(s, Lock(t)) && Exposed(s, s.txs[t].event, r)
    ensures var s1 := Do(s, Lock(t)); Reached(s1) && Empty(s1, t, s.txs[t].event, r)
  {
    StepLeads(s, Lock(t));
    ReachedOn(s, Do(s, Lock(t)));
  }

  lemma ExposedDiverges(s: State, t: Id, r: Id)
    requires Reached(s) && Can(s, Lock(t)) && Exposed(s, s.txs[t].event, r)
    ensures CanUnsettle(Do(s, Lock(t)), s.txs[t].event)
  {
    var e, s1 := s.txs[t].event, Do(s, Lock(t));
    LockedEmpty(s, t, r);
    if s.now <= s.db.events[e].endDate && !Closed(s.db, r) {
      var p :| p in s.db.entrants && p.key.room == r;
      LateJoiner(s1, t, e, p);
    } else {
      var p, u :| p in s.passes && p.key.room == r && InFlight(s, e, p.key, u);
      assert InFlight(s1, e, p.key, u);
      InFlightDiverges(s1, t, e, p, u);
    }
  }

  // ---- exactly when ----

  /** In any reachable state in which a completion may take its row locks: whatever happens afterwards, the result
      stands once the event is completed, if and only if no room of the event is exposed at this moment. */
  lemma SettledExactlyWhen(s: State, t: Id)
    requires Reached(s) && Can(s, Lock(t))
    ensures var e := s.txs[t].event;
            (forall s' | Leads(Do(s, Lock(t)), s') && IsCompleted(s', e) :: Settled(s'.db, e))
            <==> (forall r | r in s.db.rooms && s.db.rooms[r] == e :: !Exposed(s, e, r))
  {
    var e := s.txs[t].event;
    if forall r | r in s.db.rooms && s.db.rooms[r] == e :: !Exposed(s, e, r) {
      forall s' | Leads(Do(s, Lock(t)), s') && IsCompleted(s', e) ensures Settled(s'.db, e) {
        UnexposedSettles(s, t, s');
      }
    } else {
      var r :| r in s.db.rooms && s.db.rooms[r] == e && Exposed(s, e, r);
      ExposedDiverges(s, t, r);
    }
  }

  lemma UnexposedSettles(s: State, t: Id, s': State)
    requires Reached(s) && Can(s, Lock(t)) && Leads(Do(s, Lock(t)), s') && IsCompleted(s', s.txs[t].event)
    requires forall r | r in s.db.rooms && s.db.rooms[r] == s.txs[t].event :: !Exposed(s, s.txs[t].event, r)
    ensures Settled(s'.db, s.txs[t].event)
  {
    var w := WatchOf(s, s.txs[t].event);
    ReachedInv(s);
    ReachedAdmitted(s);
    LockIsCalm(s, t);
    LockGate(s, t);
    StepKeeps(s, Lock(t));
    StepAdmits(s, Lock(t));
    var between, taken :| Connects(between, taken, Do(s, Lock(t)), s');
    CalmStretch(between, taken, w, |taken|);
    CalmIsSettled(w, s');
  }

  // ---- frozen and conserved in every event without an exposed room ----

  lemma LeadsLater(s1: State, s2: State)
    requires Reached(s1) && Leads(s1, s2)
    ensures Later(s1.db, s2.db)
  {
    var a, aSteps :| IsRun(a, aSteps) && a[|aSteps|] == s1;
    var b, bSteps :| Connects(b, bSteps, s1, s2);
    StretchesJoin(a, aSteps, b, bSteps);
    var all, steps := a + b[1..], aSteps + bSteps;
    assert IsRun(all, steps);
    RunLater(all, steps, |aSteps|, |steps|);
  }

  /** If no room of the event was exposed when its completion took the row locks, then once the event is completed (in
      s1) nothing about its result changes any more: at any later time (in s2) the snapshots are the same, no score has
      changed, players who joined later have none, and every entry shows the stored score. */
  lemma FrozenResult(s: State, t: Id, s1: State, s2: State)
    requires Reached(s) && Can(s, Lock(t)) && Leads(Do(s, Lock(t)), s1) && IsCompleted(s1, s.txs[t].event)
    requires forall r | r in s.db.rooms && s.db.rooms[r] == s.txs[t].event :: !Exposed(s, s.txs[t].event, r)
    requires Leads(s1, s2)
    ensures var e := s.txs[t].event;
            && IsCompleted(s2, e) && e in s1.db.finals && e in s2.db.finals && s2.db.finals[e] == s1.db.finals[e]
            && (e in s1.db.guildFinals <==> e in s2.db.guildFinals)
            && (e in s1.db.guildFinals ==> s2.db.guildFinals[e] == s1.db.guildFinals[e])
            && (forall k | k in EventRows(s2.db.players, s2.db.rooms, e) ::
                  s2.db.players[k].score == if k in s1.db.players then s1.db.players[k].score else 0)
            && FinalsExact(s2.db.players, s2.db.rooms, e, s2.db.finals[e])
  {
    var e := s.txs[t].event;
    LockedReached(s, t, s1);
    UnexposedSettles(s, t, s1);
    LeadsOn(Do(s, Lock(t)), s1, s2);
    LeadsLater(s1, s2);
    StillCompleted(s1, s2, e);
    UnexposedSettles(s, t, s2);
    RowsHaveRooms(s1);
    SameScores(s1.db, s2.db, e);
  }

  lemma RowsHaveRooms(s: State)
    requires Reached(s)
    ensures forall k | k in s.db.players :: k.room in s.db.rooms
  {
    ReachedInv(s);
    assert Shape(s.db);
  }

  lemma LockedReached(s: State, t: Id, s1: State)
    requires Reached(s) && Can(s, Lock(t)) && Leads(Do(s, Lock(t)), s1)
    ensures Reached(s1)
  {
    StepLeads(s, Lock(t));
    LeadsOn(s, Do(s, Lock(t)), s1);
    ReachedOn(s, s1);
  }

  lemma StillCompleted(s1: State, s2: State, e: Id)
    requires Reached(s1) && Leads(s1, s2) && Later(s1.db, s2.db) && IsCompleted(s1, e) && e in s1.db.finals
    ensures IsCompleted(s2, e)
  {
    ReachedOn(s1, s2);
    ReachedInv(s2);
    SnapshotsAt(s2);
  }

  lemma SameScores(a: Db, b: Db, e: Id)
    requires Later(a, b) && e in a.finals && e in b.finals && a.finals[e] == b.finals[e]
    requires forall k | k in a.players :: k.room in a.rooms
    requires FinalsExact(a.players, a.rooms, e, a.finals[e]) && FinalsExact(b.players, b.rooms, e, b.finals[e])
    ensures forall k | k in EventRows(b.players, b.rooms, e) ::
              b.players[k].score == if k in a.players then a.players[k].score else 0
  {
    forall k | k in EventRows(b.players, b.rooms, e)
      ensures b.players[k].score == if k in a.players then a.players[k].score else 0
    {
      if Listed(a.finals[e], k) {
        var i :| 0 <= i < |a.finals[e]| && a.finals[e][i].key == k;
        assert a.finals[e][i].key in EventRows(a.players, a.rooms, e);
      }
    }
  }

  /** Under the same condition, whenever the event is completed: each guild's total is the sum of its players' scores,
      and guild totals, player snapshot, stored scores and all points ever awarded add up to the same number. */
  lemma Conservation(s: State, t: Id, s': State)
    requires Reached(s) && Can(s, Lock(t)) && Leads(Do(s, Lock(t)), s') && IsCompleted(s', s.txs[t].event)
    requires forall r | r in s.db.rooms && s.db.rooms[r] == s.txs[t].event :: !Exposed(s, s.txs[t].event, r)
    ensures var db, e := s'.db, s.txs[t].event; var rows := EventRows(db.players, db.rooms, e);
            && e in db.finals
            && FinalsSum(db.finals[e]) == ScoreSum(db.players, rows) == Awarded(db.ledger, rows)
            && (e in db.guildFinals ==>
                  && TotalsSum(db.guildFinals[e]) == ScoreSum(db.players, rows)
                  && forall i | 0 <= i < |db.guildFinals[e]| :: db.guildFinals[e][i].total
                       == ScoreSum(db.players, OfGuild(db.players, rows, db.guildFinals[e][i].guild)))
  {
    UnexposedSettles(s, t, s');
  }
}
