/** Every step keeps the invariant, and what a later state owes to an earlier one. */
module EngineRuns {
  import opened Tables
  import opened Engine
  import opened EngineInvariant
  import opened EngineTxSteps
  import opened EngineDbSteps
  import opened EngineCommits

  /** Requests, messages and the clock. */
  predicate IsOutside(step: Step) {
    || step.Tick? || step.Approve? || step.Activate? || step.CheckJoin? || step.Join? || step.DropPass?
    || step.SetState? || step.Submit? || step.Record? || step.Clear? || step.Dismiss?
  }

  predicate IsBegin(step: Step) {
    step.BeginScore? || step.BeginRerank? || step.BeginComplete?
  }

  predicate IsEnd(step: Step) {
    step.CommitScore? || step.CommitRerank? || step.CommitComplete? || step.Abort?
  }

  predicate IsCompletion(step: Step) {
    step.Swap? || step.Lock? || step.Capture? || step.Tally? || step.SkipTally?
  }

  lemma OutsideKeeps(s: State, step: Step)
    requires Inv(s) && Can(s, step) && IsOutside(step)
    ensures Inv(Do(s, step))
  {
    match step
    case Approve(_, _, _) => ScheduleStepKeeps(s, step);
    case Activate(_, _, _) => ScheduleStepKeeps(s, step);
    case Join(p) => JoinKeeps(s, p);
    case SetState(k, st) => SetStateKeeps(s, k, st);
    case Submit(id, e, k, problem) => SubmitKeeps(s, id, e, k, problem);
    case Record(id) => HandleKeeps(s, id, s.db.subs[id].(submittedAt := s.now, phase := Queued));
    case Clear(id) => HandleKeeps(s, id, s.db.subs[id].(phase := Cleared));
    case Dismiss(id, wrong) =>
      HandleKeeps(s, id, s.db.subs[id].(status := if wrong then WrongAnswer else Waiting, phase := Handled));
    case _ =>
  }

  lemma BeginKeeps(s: State, step: Step)
    requires Inv(s) && Can(s, step) && IsBegin(step)
    ensures Inv(Do(s, step))
  {
    match step
    case BeginScore(t, id) => BeginScoreKeeps(s, t, id);
    case BeginRerank(t, r) => FreshKeeps(s, t, Rerank(r, false, map[]));
    case BeginComplete(t, e) => FreshKeeps(s, t, Complete(e, Opened, map[], [], None));
  }

  lemma CompletionKeeps(s: State, step: Step)
    requires Inv(s) && Can(s, step) && IsCompletion(step)
    ensures Inv(Do(s, step))
  {
    match step
    case Swap(t) => SwapKeeps(s, t);
    case Lock(t) => LockKeeps(s, t);
    case Capture(t, order) => CaptureKeeps(s, t, order);
    case Tally(t, guildOrder) => TallyKeeps(s, t, guildOrder);
    case SkipTally(t) => SkipTallyKeeps(s, t);
  }

  lemma EndKeeps(s: State, step: Step)
    requires Inv(s) && Can(s, step) && IsEnd(step)
    ensures Inv(Do(s, step))
  {
    match step
    case CommitScore(t) => CommitScoreKeeps(s, t);
    case CommitRerank(t) => CommitRerankKeeps(s, t);
    case CommitComplete(t) => CommitCompleteKeeps(s, t);
    case Abort(t) => AbortKeeps(s, t);
  }

  lemma ScoringKeeps(s: State, step: Step)
    requires Inv(s) && Can(s, step) && (step.Check? || step.Add? || step.Place? || step.Mark?)
    ensures Inv(Do(s, step))
  {
    match step
    case Check(t) => CheckKeeps(s, t);
    case Add(t) => AddKeeps(s, t);
    case Place(t, order) => PlaceKeeps(s, t, order);
    case Mark(t) => MarkKeeps(s, t);
  }

  lemma StepKeeps(s: State, step: Step)
    requires Inv(s) && Can(s, step)
    ensures Inv(Do(s, step))
  {
    if IsOutside(step) {
      OutsideKeeps(s, step);
    } else if IsBegin(step) {
      BeginKeeps(s, step);
    } else if IsCompletion(step) {
      CompletionKeeps(s, step);
    } else if IsEnd(step) {
      EndKeeps(s, step);
    } else {
      ScoringKeeps(s, step);
    }
  }

  lemma ScheduleStepKeeps(s: State, step: Step)
    requires Inv(s) && Can(s, step) && (step.Approve? || step.Activate?)
    ensures Inv(Do(s, step))
  {
    StepSchedules(s, step);
    ScheduleKeeps(s, Do(s, step).db);
  }

  lemma StepSchedules(s: State, step: Step)
    requires Can(s, step) && (step.Approve? || step.Activate?)
    ensures Schedules(s.db, Do(s, step).db)
  {
  }

  lemma JoinKeeps(s: State, p: Pass)
    requires Inv(s) && Can(s, Join(p))
    ensures Inv(Do(s, Join(p)))
  {
    JoinGrows(s.db, p.key, Player(p.guild, 0, None, s.now, Present));
    GrowKeeps(s, s.db.players[p.key := Player(p.guild, 0, None, s.now, Present)]);
  }

  lemma JoinGrows(db: Db, k: Key, row: Player)
    requires Shape(db) && k.room in db.rooms && (k in db.players ==> row == db.players[k].(state := row.state))
    requires k !in db.players ==> row.score == 0 && row.place == None
    ensures var q := db.players[k := row]; Grows(db.players, q) && forall l | l in q :: l.room in db.rooms
  {
  }

  lemma SetStateKeeps(s: State, k: Key, st: PlayerState)
    requires Inv(s) && Can(s, SetState(k, st))
    ensures Inv(Do(s, SetState(k, st)))
  {
    JoinGrows(s.db, k, s.db.players[k].(state := st));
    GrowKeeps(s, s.db.players[k := s.db.players[k].(state := st)]);
  }

  lemma SubmitKeeps(s: State, id: Id, e: Id, k: Key, problem: Id)
    requires Inv(s) && Can(s, Submit(id, e, k, problem))
    ensures Inv(Do(s, Submit(id, e, k, problem)))
  {
    ResubKeeps(s, id, Submission(k, problem, s.db.offers[e][problem], s.now, Waiting, Sent));
  }

  lemma HandleKeeps(s: State, id: Id, sub: Submission)
    requires Inv(s) && id in s.db.subs && s.db.subs[id].phase != Handled
    requires sub == s.db.subs[id].(phase := sub.phase, status := sub.status, submittedAt := sub.submittedAt)
    requires sub.status == s.db.subs[id].status || sub.status == Waiting || sub.status == WrongAnswer
    ensures Inv(SetSub(s, id, sub))
  {
    UnhandledIsFree(s, id);
    ResubKeeps(s, id, sub);
  }

  lemma CheckKeeps(s: State, t: Id)
    requires Inv(s) && ScoreAt(s, t, Begun)
    ensures Inv(SetTx(s, t, s.txs[t].(spc := Checked)))
  {
    assert Local(s.db, s.txs[t]);
    AdvanceKeeps(s, t, s.txs[t].(spc := Checked));
  }

  lemma SkipTallyKeeps(s: State, t: Id)
    requires Inv(s) && CompleteAt(s, t, Captured)
    ensures Inv(SetTx(s, t, s.txs[t].(cpc := Tallied)))
  {
    assert Local(s.db, s.txs[t]);
    AdvanceKeeps(s, t, s.txs[t].(cpc := Tallied));
  }

  lemma {:induction false} RunInv(states: seq<State>, steps: seq<Step>, n: nat)
    requires IsRun(states, steps) && n < |states|
    ensures Inv(states[n])
  {
    if n == 0 {
      InitInv(states[0]);
    } else {
      RunInv(states, steps, n - 1);
      StepKeeps(states[n - 1], steps[n - 1]);
    }
  }

  // ---- from one state to a later one ----

  ghost predicate EventsLater(a: Db, b: Db) {
    && (forall e | e in a.events :: e in b.events && b.events[e].endDate == a.events[e].endDate
                                    && StatusOrder(a.events[e].status) <= StatusOrder(b.events[e].status))
    && (forall r | r in a.rooms :: r in b.rooms && b.rooms[r] == a.rooms[r])
    && (forall k | k in a.players :: k in b.players && b.players[k].guild == a.players[k].guild)
  }

  /** Acceptances and awards are never taken back. */
  ghost predicate AwardsLater(a: Db, b: Db) {
    && (forall i | i in a.subs && a.subs[i].status.Accepted? :: i in b.subs && b.subs[i] == a.subs[i])
    && a.ledger <= b.ledger
  }

  /** The snapshots of a completed event are written once. */
  ghost predicate SnapshotsLater(a: Db, b: Db) {
    forall e | e in a.finals ::
      && e in b.finals && b.finals[e] == a.finals[e]
      && (e in a.guildFinals <==> e in b.guildFinals)
      && (e in a.guildFinals ==> b.guildFinals[e] == a.guildFinals[e])
      && (e in a.locked ==> e in b.locked && b.locked[e] == a.locked[e])
  }

  /** In a sealed room of a completed event no score changes any more, and later rows stay at zero. */
  ghost predicate SealedLater(a: Db, b: Db) {
    forall e, k | e in a.finals && e in a.locked && k in b.players && Sealed(a.locked[e], k.room) ::
      b.players[k].score == if k in a.players then a.players[k].score else 0
  }

  ghost predicate Later(a: Db, b: Db) {
    EventsLater(a, b) && AwardsLater(a, b) && SnapshotsLater(a, b) && SealedLater(a, b)
  }

  lemma LaterTransitive(a: Db, b: Db, c: Db)
    requires Later(a, b) && Later(b, c)
    ensures Later(a, c)
  {
    forall e, k | e in a.finals && e in a.locked && k in c.players && Sealed(a.locked[e], k.room)
      ensures c.players[k].score == if k in a.players then a.players[k].score else 0
    {
      assert b.locked[e] == a.locked[e];
      if k in b.players {
        assert b.players[k].score == if k in a.players then a.players[k].score else 0;
      }
    }
  }

  /** Rows that keep their scores, with everything else the same, or nothing changed at all. */
  lemma ScoresKeptLater(a: Db, b: Db)
    requires KeepsScores(a.players, b.players, None) && b == a.(players := b.players)
    ensures Later(a, b)
  {
  }

  lemma ResubLater(a: Db, id: Id, sub: Submission)
    requires id in a.subs ==> !a.subs[id].status.Accepted?
    ensures Later(a, a.(subs := a.subs[id := sub]))
  {
  }

  lemma ScheduleLater(a: Db, b: Db)
    requires Schedules(a, b)
    ensures Later(a, b)
  {
  }

  lemma FinishLater(a: Db, tx: Tx)
    requires tx.Complete? && tx.event in a.events && a.events[tx.event].status == Active && tx.event !in a.finals
    ensures Later(a, EventFinished(a, tx))
  {
  }

  lemma StepLater(s: State, step: Step)
    requires Inv(s) && Can(s, step)
    ensures Later(s.db, Do(s, step).db)
  {
    if IsSub(step) {
      if !step.Submit? {
        UnhandledIsFree(s, step.id);
      }
      SubStepLater(s, step, step.id);
    } else if IsEnd(step) && !step.Abort? {
      CommitLater(s, step);
    } else {
      OtherStepLater(s, step);
    }
  }

  predicate IsSub(step: Step) {
    step.Submit? || step.Record? || step.Clear? || step.Dismiss? || step.BeginScore?
  }

  lemma CommitLater(s: State, step: Step)
    requires Inv(s) && Can(s, step) && IsEnd(step) && !step.Abort?
    ensures Later(s.db, Do(s, step).db)
  {
    match step
    case CommitScore(t) => CommitScoreLater(s, t);
    case CommitRerank(t) => CommitRerankLater(s, t);
    case CommitComplete(t) => CommitCompleteLater(s, t);
  }

  lemma SubStepLater(s: State, step: Step, id: Id)
    requires Can(s, step)
    requires IsSub(step) && step.id == id
    requires id in s.db.subs ==> !s.db.subs[id].status.Accepted?
    ensures Later(s.db, Do(s, step).db)
  {
    var sub := Do(s, step).db.subs[id];
    assert Do(s, step).db == s.db.(subs := s.db.subs[id := sub]);
    ResubLater(s.db, id, sub);
  }

  lemma OtherStepLater(s: State, step: Step)
    requires Can(s, step)
    requires !IsSub(step) && (IsEnd(step) ==> step.Abort?)
    ensures Later(s.db, Do(s, step).db)
  {
    var after := Do(s, step).db;
    if step.Approve? || step.Activate? {
      StepSchedules(s, step);
      ScheduleLater(s.db, after);
    } else {
      ScoresKeptLater(s.db, after);
    }
  }

  lemma CommitScoreLater(s: State, t: Id)
    requires Inv(s) && ScoreAt(s, t, Marked)
    ensures Later(s.db, ScoreCommitted(s.db, s.txs[t]))
  {
    var tx := s.txs[t];
    assert Local(s.db, tx);
    ScoreCommitLater(s.db, tx);
  }

  lemma ScoreCommitLater(db: Db, tx: Tx)
    requires Snapshots(db) && TxOk(db, tx) && VersionsOk(db, tx) && MarkedOk(db, tx) && tx.Score? && tx.spc == Marked
    ensures Later(db, ScoreCommitted(db, tx))
  {
    var after := ScoreCommitted(db, tx);
    forall e, k | e in db.finals && e in db.locked && k in after.players && Sealed(db.locked[e], k.room)
      ensures after.players[k].score == if k in db.players then db.players[k].score else 0
    {
      SealedRoomsAreOfEvent(db, e, k.room);
    }
  }

  lemma CommitRerankLater(s: State, t: Id)
    requires Inv(s) && t in s.txs && s.txs[t].Rerank? && s.txs[t].placed
    ensures Later(s.db, RowsCommitted(s.db, s.txs[t]))
  {
    var tx := s.txs[t];
    assert TxOk(s.db, tx) && VersionsOk(s.db, tx);
    RankedScores(s.db, tx, tx.room);
    ScoresKeptLater(s.db, RowsCommitted(s.db, tx));
  }

  lemma CommitCompleteLater(s: State, t: Id)
    requires Inv(s) && CompleteAt(s, t, Tallied)
    ensures Later(s.db, EventFinished(RowsCommitted(s.db, s.txs[t]), s.txs[t]))
  {
    var tx := s.txs[t];
    var mid := RowsCommitted(s.db, tx);
    CompletionGrows(s, t);
    ScoresKeptLater(s.db, mid);
    NotYetFinished(s.db, tx);
    FinishLater(mid, tx);
    LaterTransitive(s.db, mid, EventFinished(mid, tx));
  }

  lemma NotYetFinished(db: Db, tx: Tx)
    requires Snapshots(db) && TxOk(db, tx) && tx.Complete? && tx.cpc != Opened
    ensures db.events[tx.event].status == Active && tx.event !in db.finals
  {
  }

  lemma {:induction false} RunLater(states: seq<State>, steps: seq<Step>, i: nat, j: nat)
    requires IsRun(states, steps) && i <= j < |states|
    ensures Later(states[i].db, states[j].db)
    decreases j - i
  {
    if i < j {
      RunLater(states, steps, i, j - 1);
      NextLater(states, steps, j - 1);
      LaterTransitive(states[i].db, states[j - 1].db, states[j].db);
    }
  }

  lemma NextLater(states: seq<State>, steps: seq<Step>, n: nat)
    requires IsRun(states, steps) && n < |steps|
    ensures Later(states[n].db, states[n + 1].db)
  {
    RunInv(states, steps, n);
    StepLater(states[n], steps[n]);
  }
}
