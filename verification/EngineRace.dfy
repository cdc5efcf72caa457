/** Where the result is not frozen: a room without players when the completion takes its locks. A player who joins
    it afterwards has an unlocked row, and a scoring transaction that is already in flight can still commit points to
    that row after the snapshot was read. */
module EngineRace {
  import opened Tables
  import opened Ranking
  import opened Engine
  import opened EngineInvariant
  import opened EngineRuns
  import opened EngineTheorems

  /** A stretch of a run: the states before, between and after these steps. */
  ghost predicate IsStretch(states: seq<State>, steps: seq<Step>) {
    && |states| == |steps| + 1
    && forall i {:trigger steps[i]} | 0 <= i < |steps| ::
         Can(states[i], steps[i]) && states[i + 1] == Do(states[i], steps[i])
  }

  ghost predicate Connects(states: seq<State>, steps: seq<Step>, s: State, s': State) {
    IsStretch(states, steps) && states[0] == s && states[|steps|] == s'
  }

  /** Some stretch leads from `s` to `s'`. */
  ghost predicate Leads(s: State, s': State) {
    exists states, steps :: Connects(states, steps, s, s')
  }

  lemma StepLeads(s: State, step: Step)
    requires Can(s, step)
    ensures Leads(s, Do(s, step))
  {
    assert Connects([s, Do(s, step)], [step], s, Do(s, step));
  }

  lemma StretchesJoin(a: seq<State>, aSteps: seq<Step>, b: seq<State>, bSteps: seq<Step>)
    requires IsStretch(a, aSteps) && IsStretch(b, bSteps) && a[|aSteps|] == b[0]
    ensures IsStretch(a + b[1..], aSteps + bSteps)
    ensures (a + b[1..])[0] == a[0] && (a + b[1..])[|aSteps + bSteps|] == b[|bSteps|]
  {
    var all, steps := a + b[1..], aSteps + bSteps;
    forall i {:trigger steps[i]} | 0 <= i < |steps|
      ensures Can(all[i], steps[i]) && all[i + 1] == Do(all[i], steps[i])
    {
      if i < |aSteps| {
        assert steps[i] == aSteps[i];
      } else {
        assert steps[i] == bSteps[i - |aSteps|];
      }
    }
  }

  lemma LeadsOn(a: State, b: State, c: State)
    requires Leads(a, b) && Leads(b, c)
    ensures Leads(a, c)
  {
    var s1, t1 :| Connects(s1, t1, a, b);
    var s2, t2 :| Connects(s2, t2, b, c);
    StretchesJoin(s1, t1, s2, t2);
    assert Connects(s1 + s2[1..], t1 + t2, a, c);
  }

  /** Scorer `u` has not added its points yet. */
  ghost predicate NotAdded(s: State, u: Id) {
    ScoreAt(s, u, Begun) || ScoreAt(s, u, Checked)
  }

  /** Completion `t` has its locks; scorer `u`, which began in time, has a submission worth points for a room of the
      event in which nobody plays yet, its user was let through to that room, and nothing stands in the way of
      accepting it. */
  ghost predicate AboutToDiverge(s: State, t: Id, u: Id, p: Pass) {
    && p in s.passes && CompleteAt(s, t, Locked) && NotAdded(s, u)
    && var k := p.key;
    && var sub := s.db.subs[s.txs[u].sub];
    && sub.key == k && k.room in s.db.rooms && s.db.rooms[k.room] == s.txs[t].event
    && RoomRows(s.db.players, k.room) == {}
    && sub.points != 0 && InInt32(sub.points)
    && TriggerAllows(s.db, s.txs[u].sub, s.txs[u].startedAt)
    && IndexAllows(s, u, s.txs[u].sub)
  }

  /** The event is completed with both snapshots, and the player snapshot shows another score for `k` than its row. */
  ghost predicate Diverged(s: State, e: Id, k: Key) {
    && e in s.db.events && s.db.events[e].status == Completed && e in s.db.finals && e in s.db.guildFinals
    && k in s.db.players
    && exists i :: 0 <= i < |s.db.finals[e]| && s.db.finals[e][i].key == k
                   && s.db.finals[e][i].score != s.db.players[k].score
  }

  // ---- the nine steps ----

  /** The join went through: the row is there with score zero, alone in its room, and nobody has locked it. */
  ghost predicate Joined(s: State, t: Id, u: Id, k: Key, points: int) {
    && t != u && CompleteAt(s, t, Locked) && NotAdded(s, u) && s.txs[u].writes == map[]
    && (forall v | v in s.txs :: k !in s.txs[v].writes)
    && k in s.db.players && RoomRows(s.db.players, k.room) == {k} && s.db.players[k].score == 0
    && k.room in s.db.rooms && s.db.rooms[k.room] == s.txs[t].event
    && s.db.subs[s.txs[u].sub].key == k && s.db.subs[s.txs[u].sub].points == points
    && points != 0 && InInt32(points)
    && TriggerAllows(s.db, s.txs[u].sub, s.txs[u].startedAt)
    && IndexAllows(s, u, s.txs[u].sub)
  }

  lemma UnknownRowIsUnlocked(s: State, k: Key)
    requires Inv(s) && k !in s.db.players
    ensures forall v | v in s.txs :: k !in s.txs[v].writes
  {
    forall v | v in s.txs ensures k !in s.txs[v].writes {
      assert TxOk(s.db, s.txs[v]);
    }
  }

  lemma NotAddedIsBlank(s: State, u: Id)
    requires Inv(s) && NotAdded(s, u)
    ensures s.txs[u].writes == map[]
  {
    assert TxOk(s.db, s.txs[u]);
  }

  ghost function WithRow(s: State, p: Pass): State {
    s.(passes := s.passes - {p},
       db := s.db.(players := s.db.players[p.key := Player(p.guild, 0, None, s.now, Present)]))
  }

  lemma JoinLeads(s: State, p: Pass)
    requires p in s.passes && p.key.room in s.db.rooms && p.key !in s.db.players
    ensures Leads(s, WithRow(s, p))
  {
    StepLeads(s, Join(p));
  }

  lemma JoinStep(s: State, t: Id, u: Id, p: Pass)
    requires Inv(s) && AboutToDiverge(s, t, u, p)
    ensures p.key !in s.db.players && Leads(s, WithRow(s, p))
    ensures Joined(WithRow(s, p), t, u, p.key, s.db.subs[s.txs[u].sub].points)
  {
    assert p.key !in RoomRows(s.db.players, p.key.room);
    UnknownRowIsUnlocked(s, p.key);
    NotAddedIsBlank(s, u);
    JoinAlone(s, t, u, p);
    JoinLeads(s, p);
  }

  lemma JoinAlone(s: State, t: Id, u: Id, p: Pass)
    requires AboutToDiverge(s, t, u, p) && p.key !in s.db.players && s.txs[u].writes == map[]
    requires forall v | v in s.txs :: p.key !in s.txs[v].writes
    ensures Joined(WithRow(s, p), t, u, p.key, s.db.subs[s.txs[u].sub].points)
  {
    var s', k := WithRow(s, p), p.key;
    assert forall l | l in RoomRows(s'.db.players, k.room) && l != k :: l in RoomRows(s.db.players, k.room);
  }

  /** The scorer has got to `pc` since `base`; nothing else moved but completion `t`. */
  ghost predicate Scoring(base: State, s: State, t: Id, u: Id, k: Key, points: int, pc: ScorePc) {
    && s.db == base.db && s.txs.Keys == base.txs.Keys && u in s.txs && u != t
    && (forall v | v in s.txs && v != u && v != t :: s.txs[v] == base.txs[v])
    && (t in s.txs && t in base.txs && s.txs[t].Complete? && base.txs[t].Complete?
        && s.txs[t].writes == base.txs[t].writes && s.txs[t].event == base.txs[t].event)
    && s.txs[u].Score? && base.txs[u].Score? && s.txs[u].sub == base.txs[u].sub
    && s.txs[u].startedAt == base.txs[u].startedAt && s.txs[u].spc == pc
    && (if pc == Begun || pc == Checked then s.txs[u].writes == map[]
        else s.txs[u].writes.Keys == {k} && s.txs[u].writes[k].score == points)
  }

  ghost predicate ShowsZero(finals: seq<Final>, k: Key) {
    exists i :: 0 <= i < |finals| && finals[i].key == k && finals[i].score == 0
  }

  lemma CaptureStep(s: State, t: Id, u: Id, k: Key, points: int, order: seq<Key>)
    requires Joined(s, t, u, k, points) && CanCapture(s, t, order)
    ensures var s' := DoCapture(s, t, order);
            && Scoring(s, s', t, u, k, points, s.txs[u].spc)
            && s'.txs[t].cpc == Captured && ShowsZero(s'.txs[t].finals, k)
  {
    var view := View(s.db.players, s.txs[t].writes);
    var keys := RowKeys(view, s.db.subs, EventRows(view, s.db.rooms, s.txs[t].event));
    assert k in keys;
    var i :| 0 <= i < |order| && order[i] == k;
    var finals := DoCapture(s, t, order).txs[t].finals;
    assert finals[i].key == k && finals[i].score == 0;
  }

  lemma CheckStep(b: State, s: State, t: Id, u: Id, k: Key, points: int) returns (s': State)
    requires Joined(b, t, u, k, points)
    requires Scoring(b, s, t, u, k, points, Begun) || Scoring(b, s, t, u, k, points, Checked)
    ensures Leads(s, s') && Scoring(b, s', t, u, k, points, Checked) && s'.txs[t] == s.txs[t]
  {
    if s.txs[u].spc == Checked {
      s' := s;
      assert Connects([s], [], s, s);
    } else {
      assert Can(s, Check(u));
      s' := Do(s, Check(u));
      StepLeads(s, Check(u));
    }
  }

  lemma AddStep(b: State, s: State, t: Id, u: Id, k: Key, points: int) returns (s': State)
    requires Joined(b, t, u, k, points) && Scoring(b, s, t, u, k, points, Checked)
    ensures Leads(s, s') && Scoring(b, s', t, u, k, points, Added) && s'.txs[t] == s.txs[t]
  {
    assert CanAdd(s, u);
    s' := DoAdd(s, u);
    StepLeads(s, Add(u));
  }

  lemma AloneNumbers(view: map<Key, Player>, subs: map<Id, Submission>, k: Key)
    requires k in view
    ensures Numbers([k], RowKeys(view, subs, {k}))
    ensures WithPlaces(view, [k]).Keys == {k} && WithPlaces(view, [k])[k].score == view[k].score
  {
    assert k in WithPlaces(view, [k]);
  }

  lemma AloneCanPlace(b: State, s: State, t: Id, u: Id, k: Key, points: int)
    requires Joined(b, t, u, k, points) && Scoring(b, s, t, u, k, points, Added)
    ensures CanPlace(s, u, [k])
  {
    var view := View(s.db.players, s.txs[u].writes);
    assert RoomRows(view, k.room) == {k};
    AloneNumbers(view, s.db.subs, k);
  }

  lemma PlaceStep(b: State, s: State, t: Id, u: Id, k: Key, points: int) returns (s': State)
    requires Joined(b, t, u, k, points) && Scoring(b, s, t, u, k, points, Added)
    ensures Leads(s, s') && Scoring(b, s', t, u, k, points, Placed) && s'.txs[t] == s.txs[t]
  {
    AloneCanPlace(b, s, t, u, k, points);
    AloneNumbers(View(s.db.players, s.txs[u].writes), s.db.subs, k);
    s' := DoPlace(s, u, [k]);
    StepLeads(s, Place(u, [k]));
  }

  lemma MarkStep(b: State, s: State, t: Id, u: Id, k: Key, points: int) returns (s': State)
    requires Joined(b, t, u, k, points) && Scoring(b, s, t, u, k, points, Placed)
    ensures Leads(s, s') && Scoring(b, s', t, u, k, points, Marked) && s'.txs[t] == s.txs[t]
  {
    assert Can(s, Mark(u));
    s' := Do(s, Mark(u));
    StepLeads(s, Mark(u));
  }

  lemma PointsStep(b: State, s: State, t: Id, u: Id, k: Key, points: int) returns (s': State)
    requires Joined(b, t, u, k, points) && Scoring(b, s, t, u, k, points, Marked)
    requires s.txs[t].cpc == Captured && ShowsZero(s.txs[t].finals, k)
    ensures Leads(s, s') && Ready(s', t, k) && s'.txs[t] == s.txs[t]
  {
    assert Can(s, CommitScore(u));
    s' := Do(s, CommitScore(u));
    StepLeads(s, CommitScore(u));
  }

  ghost predicate Ready(s: State, t: Id, k: Key) {
    && CompleteAt(s, t, Captured) && ShowsZero(s.txs[t].finals, k) && k !in s.txs[t].writes
    && k in s.db.players && s.db.players[k].score != 0
  }

  lemma FinishSteps(s: State, t: Id, k: Key) returns (s': State)
    requires Ready(s, t, k)
    ensures Leads(s, s') && Diverged(s', s.txs[t].event, k)
  {
    var _, guilds := CapturesNeverStuck(s, t);
    var mid := DoTally(s, t, guilds);
    StepLeads(s, Tally(t, guilds));
    assert Can(mid, CommitComplete(t));
    s' := Do(mid, CommitComplete(t));
    StepLeads(mid, CommitComplete(t));
    LeadsOn(s, mid, s');
  }

  lemma OpeningSteps(s: State, t: Id, u: Id, p: Pass) returns (b: State, s': State)
    requires Inv(s) && AboutToDiverge(s, t, u, p)
    ensures var points := s.db.subs[s.txs[u].sub].points;
            && Leads(s, s') && Joined(b, t, u, p.key, points) && Scoring(b, s', t, u, p.key, points, s.txs[u].spc)
            && s'.txs[t].cpc == Captured && s'.txs[t].event == s.txs[t].event && ShowsZero(s'.txs[t].finals, p.key)
  {
    JoinStep(s, t, u, p);
    b := WithRow(s, p);
    var order, _ := CapturesNeverStuck(b, t);
    CaptureStep(b, t, u, p.key, s.db.subs[s.txs[u].sub].points, order);
    StepLeads(b, Capture(t, order));
    s' := DoCapture(b, t, order);
    LeadsOn(s, b, s');
  }

  /** Whenever a completion holds its locks while a room of its event is still empty, a scorer for that room is in
      flight and its user has been let through, the run can go on so that the permanent snapshot contradicts the
      stored score. */
  lemma EmptyRoomCanDiverge(s: State, t: Id, u: Id, p: Pass) returns (s': State)
    requires Inv(s) && AboutToDiverge(s, t, u, p)
    ensures Leads(s, s') && Diverged(s', s.txs[t].event, p.key)
  {
    var points, k := s.db.subs[s.txs[u].sub].points, p.key;
    var b, s0 := OpeningSteps(s, t, u, p);
    var s1 := CheckStep(b, s0, t, u, k, points);
    var s2 := AddStep(b, s1, t, u, k, points);
    var s3 := PlaceStep(b, s2, t, u, k, points);
    var s4 := MarkStep(b, s3, t, u, k, points);
    var s5 := PointsStep(b, s4, t, u, k, points);
    s' := FinishSteps(s5, t, k);
    LeadsOn(s, s0, s1);
    LeadsOn(s, s1, s2);
    LeadsOn(s, s2, s3);
    LeadsOn(s, s3, s4);
    LeadsOn(s, s4, s5);
    LeadsOn(s, s5, s');
  }

  // ---- such a moment is reachable ----

  // Event 0 lasts from 0 to 10 and offers problem 0 for 5 points. Guild 7 takes part: it is assigned to room 0 and has
  // selected user 0, who asks to join and submits at time 0. Transaction 1 takes the submission up at once.
  const RACE_KEY := Key(0, 0)
  const RACE_PASS := Pass(7, RACE_KEY)
  const EMPTY_DB := Db(map[], map[], map[], {}, map[], map[], map[], map[], map[], [], map[])
  const OPEN_DB := EMPTY_DB.(events := map[0 := Event(Active, 0, 10)], rooms := map[0 := 0],
                             joined := map[0 := map[7 := 0]], entrants := {RACE_PASS}, offers := map[0 := map[0 := 5]])
  const SCORER := Score(0, 0, Begun, false, map[])

  function RaceDb(phase: Phase): Db {
    OPEN_DB.(subs := map[0 := Submission(RACE_KEY, 0, 5, 0, Waiting, phase)])
  }

  function RaceState(phase: Phase, txs: map<Id, Tx>, now: int): State {
    State(RaceDb(phase), txs, {RACE_PASS}, now)
  }

  ghost function RaceGuilds(): map<Id, Guild> {
    map[7 := Guild(0, 0, {0})]
  }

  const PENDING_DB := EMPTY_DB.(events := map[0 := Event(Pending, 0, 10)])

  lemma RaceEntrants()
    ensures NewRooms(RaceGuilds()) == {0} && NewEntrants(RaceGuilds()) == {RACE_PASS}
  {
    var guilds := RaceGuilds();
    assert NewRooms(guilds) == {guilds[7].room};
    assert 7 in guilds && 0 in guilds[7].members;
    assert RACE_PASS in NewEntrants(guilds);
  }

  lemma OpenDb()
    ensures Activated(PENDING_DB, 0, RaceGuilds(), map[0 := 5]) == OPEN_DB
  {
    var db := Activated(PENDING_DB, 0, RaceGuilds(), map[0 := 5]);
    RaceEntrants();
    assert db.events == OPEN_DB.events && db.rooms == OPEN_DB.rooms;
    assert db.joined[0] == OPEN_DB.joined[0];
    assert db.joined == OPEN_DB.joined && db.offers == OPEN_DB.offers && db.entrants == OPEN_DB.entrants;
  }

  lemma OpenEvent()
    ensures Leads(State(EMPTY_DB, map[], {}, 0), State(OPEN_DB, map[], {}, 0))
  {
    var s0, s1 := State(EMPTY_DB, map[], {}, 0), State(PENDING_DB, map[], {}, 0);
    StepLeads(s0, Approve(0, 0, 10));
    RaceEntrants();
    OpenDb();
    StepLeads(s1, Activate(0, RaceGuilds(), map[0 := 5]));
    LeadsOn(s0, s1, State(OPEN_DB, map[], {}, 0));
  }

  lemma AskToJoin()
    ensures Leads(State(OPEN_DB, map[], {}, 0), State(OPEN_DB, map[], {RACE_PASS}, 0))
  {
    var s := State(OPEN_DB, map[], {}, 0);
    StepLeads(s, CheckJoin(RACE_PASS));
    assert Do(s, CheckJoin(RACE_PASS)).passes == {RACE_PASS};
  }

  lemma SendSubmission()
    ensures Leads(State(OPEN_DB, map[], {RACE_PASS}, 0), RaceState(Sent, map[], 0))
    ensures Leads(RaceState(Sent, map[], 0), RaceState(Queued, map[], 0))
  {
    var s0, s1 := State(OPEN_DB, map[], {RACE_PASS}, 0), RaceState(Sent, map[], 0);
    StepLeads(s0, Submit(0, 0, RACE_KEY, 0));
    assert Do(s0, Submit(0, 0, RACE_KEY, 0)).db.subs == s1.db.subs;
    StepLeads(s1, Record(0));
    assert Do(s1, Record(0)).db.subs == RaceDb(Queued).subs;
  }

  lemma OpenScorer()
    ensures Leads(RaceState(Queued, map[], 0), RaceState(Cleared, map[], 0))
    ensures Leads(RaceState(Cleared, map[], 0), RaceState(Handled, map[1 := SCORER], 0))
  {
    var s0, s1 := RaceState(Queued, map[], 0), RaceState(Cleared, map[], 0);
    StepLeads(s0, Clear(0));
    assert Do(s0, Clear(0)).db.subs == RaceDb(Cleared).subs;
    StepLeads(s1, BeginScore(1, 0));
    assert Do(s1, BeginScore(1, 0)).db.subs == RaceDb(Handled).subs;
  }

  function Completion(pc: CompletePc): Tx {
    Complete(0, pc, map[], [], None)
  }

  function RaceTxs(pc: CompletePc): map<Id, Tx> {
    map[1 := SCORER, 2 := Completion(pc)]
  }

  /** At time 10 a completion begins, */
  lemma BeginLate()
    ensures Leads(RaceState(Handled, map[1 := SCORER], 0), RaceState(Handled, RaceTxs(Opened), 10))
  {
    var s, s1 := RaceState(Handled, map[1 := SCORER], 0), RaceState(Handled, map[1 := SCORER], 10);
    StepLeads(s, Tick(10));
    StepLeads(s1, BeginComplete(2, 0));
    assert map[1 := SCORER][2 := Completion(Opened)] == RaceTxs(Opened);
    LeadsOn(s, s1, RaceState(Handled, RaceTxs(Opened), 10));
  }

  /** swaps the status, */
  lemma SwapLate()
    ensures Leads(RaceState(Handled, RaceTxs(Opened), 10), RaceState(Handled, RaceTxs(Swapped), 10))
  {
    StepLeads(RaceState(Handled, RaceTxs(Opened), 10), Swap(2));
    assert RaceTxs(Opened)[2 := Completion(Swapped)] == RaceTxs(Swapped);
  }

  /** and locks the rows of the event: there are none. */
  lemma LockNothing()
    ensures Leads(RaceState(Handled, RaceTxs(Swapped), 10), RaceState(Handled, RaceTxs(Locked), 10))
  {
    var s := RaceState(Handled, RaceTxs(Swapped), 10);
    assert LockedVersions(s.db, 0) == map[];
    StepLeads(s, Lock(2));
    assert RaceTxs(Swapped)[2 := Completion(Locked)] == RaceTxs(Locked);
  }

  lemma RaceIsOn()
    ensures AboutToDiverge(RaceState(Handled, RaceTxs(Locked), 10), 2, 1, RACE_PASS)
  {
  }

  lemma LockReached()
    ensures Leads(State(EMPTY_DB, map[], {}, 0), RaceState(Handled, RaceTxs(Locked), 10))
  {
    var s0 := State(EMPTY_DB, map[], {}, 0);
    OpenEvent();
    AskToJoin();
    SendSubmission();
    OpenScorer();
    BeginLate();
    SwapLate();
    LockNothing();
    LeadsOn(s0, State(OPEN_DB, map[], {}, 0), State(OPEN_DB, map[], {RACE_PASS}, 0));
    LeadsOn(s0, State(OPEN_DB, map[], {RACE_PASS}, 0), RaceState(Sent, map[], 0));
    LeadsOn(s0, RaceState(Sent, map[], 0), RaceState(Queued, map[], 0));
    LeadsOn(s0, RaceState(Queued, map[], 0), RaceState(Cleared, map[], 0));
    LeadsOn(s0, RaceState(Cleared, map[], 0), RaceState(Handled, map[1 := SCORER], 0));
    LeadsOn(s0, RaceState(Handled, map[1 := SCORER], 0), RaceState(Handled, RaceTxs(Opened), 10));
    LeadsOn(s0, RaceState(Handled, RaceTxs(Opened), 10), RaceState(Handled, RaceTxs(Swapped), 10));
    LeadsOn(s0, RaceState(Handled, RaceTxs(Swapped), 10), RaceState(Handled, RaceTxs(Locked), 10));
  }

  /** The frozen-result promise is false without its condition: a run, by a registered guild's selected member, in which
      a completed event's snapshot contradicts the player's row. */
  lemma SnapshotCanContradictRow() returns (states: seq<State>, steps: seq<Step>)
    ensures IsRun(states, steps) && Diverged(states[|steps|], 0, RACE_KEY)
  {
    var s0 := State(EMPTY_DB, map[], {}, 0);
    var s1 := RaceState(Handled, RaceTxs(Locked), 10);
    LockReached();
    RaceIsOn();
    states, steps := RunFromStart(s1);
    RunInv(states, steps, |steps|);
    var s2 := EmptyRoomCanDiverge(s1, 2, 1, RACE_PASS);
    LeadsOn(s0, s1, s2);
    states, steps := RunFromStart(s2);
  }

  lemma RunFromStart(s: State) returns (states: seq<State>, steps: seq<Step>)
    requires Leads(State(EMPTY_DB, map[], {}, 0), s)
    ensures IsRun(states, steps) && states[|steps|] == s
  {
    states, steps :| Connects(states, steps, State(EMPTY_DB, map[], {}, 0), s);
  }
}
