/** What holds from the moment a completion has its row locks, when no room of the event is exposed: a held room keeps
    scorers out while a completion or its result is there, and in a quiet room no points can arrive at all. */
module EngineCalm {
  import opened Tables
  import opened Engine
  import opened EngineInvariant
  import opened EngineTxSteps
  import opened EngineDbSteps
  import opened EngineCommits
  import opened EngineRuns
  import opened EngineAdmission
  import opened EngineTheorems

  /** The event, its end date, the rows the completion locked, and users who can no longer get a row. */
  datatype Watch = Watch(event: Id, endDate: int, held: set<Key>, barred: set<Key>)

  /** Nobody can ever join this room. */
  ghost predicate Closed(db: Db, r: Id) {
    forall p | p in db.entrants :: p.key.room != r
  }

  ghost predicate Quiet(w: Watch, rooms: map<Id, Id>, r: Id) {
    r in rooms && rooms[r] == w.event && !Sealed(w.held, r)
  }

  /** The entries are rows of the event with their stored scores; rows without an entry have none. */
  ghost predicate FinalsExact(players: map<Key, Player>, rooms: map<Id, Id>, e: Id, finals: seq<Final>) {
    var rows := EventRows(players, rooms, e);
    && (forall i | 0 <= i < |finals| :: finals[i].key in rows && players[finals[i].key].score == finals[i].score)
    && (forall k | k in rows && !Listed(finals, k) :: players[k].score == 0)
  }

  ghost predicate CalmDb(w: Watch, db: Db) {
    && w.event in db.events && db.events[w.event].endDate == w.endDate
    && (db.events[w.event].status == Active || db.events[w.event].status == Completed)
    && (forall k | k in w.held :: k in EventRows(db.players, db.rooms, w.event))
    && (forall k | k in db.players && Quiet(w, db.rooms, k.room) :: db.players[k].score == 0)
    && (w.event in db.finals ==>
          && w.event in db.locked && w.held <= db.locked[w.event]
          && FinalsExact(db.players, db.rooms, w.event, db.finals[w.event])
          && (w.event in db.guildFinals ==> TotalsExact(db.players, db.rooms, w.event, db.guildFinals[w.event])))
  }

  ghost predicate HasDuplicate(subs: map<Id, Submission>, sub: Submission) {
    exists j :: j in subs && subs[j].status.Accepted? && SameProblem(subs[j], sub)
  }

  /** A scorer that cannot bring points to a room whose rows are all at zero. */
  ghost predicate Harmless(w: Watch, db: Db, tx: Tx)
    requires tx.Score? && tx.sub in db.subs
  {
    var sub := db.subs[tx.sub];
    || tx.startedAt > w.endDate || sub.points == 0 || HasDuplicate(db.subs, sub)
    || (if tx.spc == Begun || tx.spc == Checked
        then !InInt32(sub.points) || sub.key in w.barred || Closed(db, sub.key.room)
        else !tx.credited)
  }

  ghost predicate CalmTx(w: Watch, db: Db, tx: Tx) {
    match tx
    case Score(id, _, _, _, _) =>
      id in db.subs && (Quiet(w, db.rooms, db.subs[id].key.room) ==> Harmless(w, db, tx))
    case Rerank(_, _, _) => true
    case Complete(e, pc, writes, finals, guilds) =>
      e == w.event ==>
        && (pc != Opened && pc != Swapped ==> w.held <= writes.Keys)
        && (pc == Captured || pc == Tallied ==> FinalsExact(db.players, db.rooms, e, finals))
        && (guilds.Some? ==> TotalsExact(db.players, db.rooms, e, guilds.value))
  }

  ghost predicate Calm(w: Watch, s: State) {
    && CalmDb(w, s.db)
    && (forall t | t in s.txs :: CalmTx(w, s.db, s.txs[t]))
  }

  /** Nobody new gets into a quiet room in time: the event is over or the room is closed; and the barred stay out. */
  ghost predicate Gate(w: Watch, s: State) {
    && (forall r | Quiet(w, s.db.rooms, r) :: s.now > w.endDate || Closed(s.db, r))
    && (forall k | k in w.barred ::
          k !in s.db.players && k.room in s.db.rooms && s.db.rooms[k.room] == w.event && s.now > w.endDate)
    && (forall p | p in s.passes :: p.key !in w.barred)
  }

  // ---- frames ----

  /** Apart from the score of `except`, nothing that matters to the watched event has changed. */
  ghost predicate Gentle(w: Watch, a: Db, b: Db, except: Option<Key>) {
    && KeepsScores(a.players, b.players, except)
    && w.event in a.events && w.event in b.events && a.events[w.event] == b.events[w.event]
    && (forall r :: r in a.rooms && a.rooms[r] == w.event <==> r in b.rooms && b.rooms[r] == w.event)
    && (forall p | p in b.entrants && p.key.room in a.rooms :: p in a.entrants)
    && SubsKept(a.subs, b.subs)
    && (forall i | i in a.subs && a.subs[i].status.Accepted? :: b.subs[i].status.Accepted?)
  }

  ghost predicate SameResult(w: Watch, a: Db, b: Db) {
    && (w.event in b.finals ==> w.event in a.finals && a.finals[w.event] == b.finals[w.event])
    && (w.event in b.finals && w.event in b.guildFinals ==>
          w.event in a.guildFinals && a.guildFinals[w.event] == b.guildFinals[w.event])
    && (w.event in b.finals && w.event in a.locked ==>
          w.event in b.locked && a.locked[w.event] == b.locked[w.event])
  }

  lemma GentleRows(w: Watch, a: Db, b: Db, except: Option<Key>)
    requires Gentle(w, a, b, except)
    ensures EventRows(a.players, a.rooms, w.event) <= EventRows(b.players, b.rooms, w.event)
    ensures EventRows(b.players, b.rooms, w.event) == EventRows(b.players, a.rooms, w.event)
    ensures forall r :: Quiet(w, a.rooms, r) <==> Quiet(w, b.rooms, r)
  {
  }

  lemma GentleResults(w: Watch, a: Db, b: Db, except: Option<Key>, finals: seq<Final>)
    requires Gentle(w, a, b, except) && FinalsExact(a.players, a.rooms, w.event, finals)
    requires except.Some? ==> except.value !in EventRows(b.players, b.rooms, w.event)
    ensures FinalsExact(b.players, b.rooms, w.event, finals)
  {
    GentleRows(w, a, b, except);
  }

  lemma GentleTotals(w: Watch, a: Db, b: Db, except: Option<Key>, gs: seq<GuildFinal>)
    requires Gentle(w, a, b, except) && TotalsExact(a.players, a.rooms, w.event, gs)
    requires except.Some? ==> except.value !in EventRows(b.players, b.rooms, w.event)
    ensures TotalsExact(b.players, b.rooms, w.event, gs)
  {
    GentleRows(w, a, b, except);
    TotalsFrame(a.players, b.players, except, a.rooms, w.event, gs);
  }

  /** Points for a row of the event leave the result alone as long as there is none and the room is held. */
  lemma GentleDb(w: Watch, a: Db, b: Db, except: Option<Key>)
    requires CalmDb(w, a) && Gentle(w, a, b, except) && SameResult(w, a, b)
    requires except.Some? && except.value in EventRows(b.players, b.rooms, w.event) ==>
               Sealed(w.held, except.value.room) && w.event !in a.finals
    ensures CalmDb(w, b)
  {
    GentleRows(w, a, b, except);
    if w.event in b.finals {
      GentleResults(w, a, b, except, a.finals[w.event]);
      if w.event in b.guildFinals {
        GentleTotals(w, a, b, except, a.guildFinals[w.event]);
      }
    }
  }

  ghost predicate HasResult(w: Watch, tx: Tx) {
    tx.Complete? && tx.event == w.event && (tx.cpc == Captured || tx.cpc == Tallied || tx.guilds.Some?)
  }

  lemma GentleTx(w: Watch, a: Db, b: Db, except: Option<Key>, tx: Tx)
    requires CalmTx(w, a, tx) && Gentle(w, a, b, except)
    requires except.Some? && except.value in EventRows(b.players, b.rooms, w.event) ==> !HasResult(w, tx)
    ensures CalmTx(w, b, tx)
  {
    GentleRows(w, a, b, except);
    if tx.Score? {
      GentleScorer(w, a, b, except, tx);
    } else if HasResult(w, tx) {
      if tx.cpc == Captured || tx.cpc == Tallied {
        GentleResults(w, a, b, except, tx.finals);
      }
      if tx.guilds.Some? {
        GentleTotals(w, a, b, except, tx.guilds.value);
      }
    }
  }

  lemma GentleScorer(w: Watch, a: Db, b: Db, except: Option<Key>, tx: Tx)
    requires tx.Score? && CalmTx(w, a, tx) && Gentle(w, a, b, except)
    ensures CalmTx(w, b, tx)
  {
    GentleRows(w, a, b, except);
    if HasDuplicate(a.subs, a.subs[tx.sub]) {
      var j :| j in a.subs && a.subs[j].status.Accepted? && SameProblem(a.subs[j], a.subs[tx.sub]);
      assert b.subs[j].status.Accepted? && SameProblem(b.subs[j], b.subs[tx.sub]);
    }
  }

  /** A step that changes only the tables, gently, the time and the messages. */
  lemma CalmTables(w: Watch, s: State, s': State)
    requires Calm(w, s) && s'.txs == s.txs
    requires Gentle(w, s.db, s'.db, None) && SameResult(w, s.db, s'.db)
    ensures Calm(w, s')
  {
    GentleDb(w, s.db, s'.db, None);
    forall t | t in s'.txs ensures CalmTx(w, s'.db, s'.txs[t]) {
      GentleTx(w, s.db, s'.db, None, s.txs[t]);
    }
  }

  // ---- steps ----

  lemma ScheduleIsGentle(w: Watch, a: Db, b: Db)
    requires CalmDb(w, a) && Schedules(a, b)
    ensures Gentle(w, a, b, None)
  {
  }

  lemma GrowthIsGentle(w: Watch, a: Db, q: map<Key, Player>)
    requires CalmDb(w, a) && KeepsScores(a.players, q, None)
    ensures Gentle(w, a, a.(players := q), None)
  {
  }

  lemma ResubIsGentle(w: Watch, a: Db, id: Id, sub: Submission)
    requires CalmDb(w, a)
    requires id in a.subs ==> !a.subs[id].status.Accepted? && a.subs[id].key == sub.key
                              && a.subs[id].problem == sub.problem && a.subs[id].points == sub.points
    ensures Gentle(w, a, a.(subs := a.subs[id := sub]), None)
  {
  }

  lemma CalmSchedule(w: Watch, s: State, step: Step)
    requires Shape(s.db) && Calm(w, s) && Can(s, step) && (step.Approve? || step.Activate?)
    ensures Calm(w, Do(s, step))
  {
    ScheduleIsGentle(w, s.db, Do(s, step).db);
    CalmTables(w, s, Do(s, step));
  }

  lemma CalmRows(w: Watch, s: State, q: map<Key, Player>)
    requires Calm(w, s) && KeepsScores(s.db.players, q, None)
    ensures Calm(w, s.(db := s.db.(players := q)))
  {
    GrowthIsGentle(w, s.db, q);
    CalmTables(w, s, s.(db := s.db.(players := q)));
  }

  lemma CalmSub(w: Watch, s: State, id: Id, sub: Submission)
    requires Calm(w, s)
    requires id in s.db.subs ==> !s.db.subs[id].status.Accepted? && s.db.subs[id].key == sub.key
                                 && s.db.subs[id].problem == sub.problem && s.db.subs[id].points == sub.points
    ensures Calm(w, SetSub(s, id, sub))
  {
    ResubIsGentle(w, s.db, id, sub);
    CalmTables(w, s, SetSub(s, id, sub));
  }

  lemma CalmSubStep(w: Watch, s: State, step: Step)
    requires Inv(s) && Calm(w, s) && Can(s, step) && (step.Submit? || step.Record? || step.Clear? || step.Dismiss?)
    ensures Calm(w, Do(s, step))
  {
    if !step.Submit? {
      UnhandledIsFree(s, step.id);
    }
    CalmSub(w, s, step.id, Do(s, step).db.subs[step.id]);
  }

  lemma CalmBeginScore(w: Watch, s: State, t: Id, id: Id)
    requires Inv(s) && Calm(w, s) && Gate(w, s) && Can(s, BeginScore(t, id))
    ensures Calm(w, Do(s, BeginScore(t, id)))
  {
    var sub := s.db.subs[id].(phase := Handled);
    UnhandledIsFree(s, id);
    CalmSub(w, s, id, sub);
    NewScorer(w, s, t, id);
    CalmSetTx(w, SetSub(s, id, sub), t, Score(id, s.now, Begun, false, map[]));
  }

  lemma NewScorer(w: Watch, s: State, t: Id, id: Id)
    requires Gate(w, s) && id in s.db.subs
    ensures var sub := s.db.subs[id].(phase := Handled);
            CalmTx(w, SetSub(s, id, sub).db, Score(id, s.now, Begun, false, map[]))
  {
  }

  lemma CalmSetTx(w: Watch, s: State, t: Id, tx: Tx)
    requires Calm(w, s) && CalmTx(w, s.db, tx)
    ensures Calm(w, SetTx(s, t, tx))
  {
  }

  /** In a quiet room points are added to no row of a user who is barred or of a closed room, as there is none. */
  lemma CalmAdd(w: Watch, s: State, t: Id)
    requires Inv(s) && Admitted(s) && Calm(w, s) && Gate(w, s) && CanAdd(s, t)
    ensures Calm(w, DoAdd(s, t))
  {
    CheckedIsUncredited(s, t);
    AddIsAdds(s, t);
    AddsHarmlessly(w, s.db, s.txs[t], DoAdd(s, t).txs[t]);
    CalmSetTx(w, s, t, DoAdd(s, t).txs[t]);
  }

  lemma CheckedIsUncredited(s: State, t: Id)
    requires Inv(s) && ScoreAt(s, t, Checked)
    ensures !s.txs[t].credited
  {
    assert TxOk(s.db, s.txs[t]);
  }

  lemma AddsHarmlessly(w: Watch, db: Db, from: Tx, tx: Tx)
    requires CalmDb(w, db) && CalmTx(w, db, from) && Adds(db, from, tx) && !from.credited
    requires AllAdmitted(db.players, db.entrants) && forall k | k in w.barred :: k !in db.players
    requires var k := db.subs[from.sub].key;
             k in db.players ==> InInt32(db.players[k].score + db.subs[from.sub].points)
    ensures CalmTx(w, db, tx)
  {
    var k := db.subs[from.sub].key;
    assert k in db.players && Quiet(w, db.rooms, k.room) ==> db.players[k].score == 0;
    assert k in db.players ==> Pass(db.players[k].guild, k) in db.entrants;
  }

  lemma CalmPlace(w: Watch, s: State, t: Id, order: seq<Key>)
    requires Calm(w, s) && CanPlace(s, t, order)
    ensures Calm(w, DoPlace(s, t, order))
  {
    assert CalmTx(w, s.db, s.txs[t]);
    CalmSetTx(w, s, t, DoPlace(s, t, order).txs[t]);
  }

  lemma CalmLock(w: Watch, s: State, t: Id)
    requires Inv(s) && Calm(w, s) && Can(s, Lock(t))
    ensures Calm(w, Do(s, Lock(t)))
  {
    assert CalmTx(w, s.db, s.txs[t]) && TxOk(s.db, s.txs[t]);
    CalmSetTx(w, s, t, Do(s, Lock(t)).txs[t]);
  }

  lemma CalmCapture(w: Watch, s: State, t: Id, order: seq<Key>)
    requires Inv(s) && Calm(w, s) && CanCapture(s, t, order)
    ensures Calm(w, DoCapture(s, t, order))
  {
    CaptureExact(s, t, order);
    CapturedCalm(w, s.db, s.txs[t], DoCapture(s, t, order).txs[t]);
    CalmSetTx(w, s, t, DoCapture(s, t, order).txs[t]);
  }

  lemma CaptureExact(s: State, t: Id, order: seq<Key>)
    requires Inv(s) && CanCapture(s, t, order)
    ensures s.txs[t].guilds.None?
    ensures FinalsExact(s.db.players, s.db.rooms, s.txs[t].event, DoCapture(s, t, order).txs[t].finals)
  {
    assert TxOk(s.db, s.txs[t]);
    CaptureAt(s, t, order);
  }

  lemma CapturedCalm(w: Watch, db: Db, from: Tx, tx: Tx)
    requires CalmTx(w, db, from) && from.Complete? && from.cpc == Locked && from.guilds.None? && tx.Complete?
    requires tx == from.(cpc := Captured, finals := tx.finals) && FinalsExact(db.players, db.rooms, tx.event, tx.finals)
    ensures CalmTx(w, db, tx)
  {
  }

  lemma CalmTally(w: Watch, s: State, t: Id, order: seq<Id>)
    requires Inv(s) && Calm(w, s) && CanTally(s, t, order)
    ensures Calm(w, DoTally(s, t, order))
  {
    assert CalmTx(w, s.db, s.txs[t]);
    TallyOk(s, t, order);
    CalmSetTx(w, s, t, DoTally(s, t, order).txs[t]);
  }

  // ---- commits ----

  lemma CalmCommitRerank(w: Watch, s: State, t: Id)
    requires Inv(s) && Calm(w, s) && Can(s, CommitRerank(t))
    ensures Calm(w, Do(s, CommitRerank(t)))
  {
    var tx := s.txs[t];
    assert TxOk(s.db, tx) && VersionsOk(s.db, tx);
    RankedScores(s.db, tx, tx.room);
    CalmRows(w, s, View(s.db.players, tx.writes));
  }

  /** The row whose score this commit changes, if any. */
  ghost function Moved(db: Db, tx: Tx): Option<Key>
    requires tx.Score? && tx.sub in db.subs
  {
    if db.subs[tx.sub].points == 0 then None else ScoredRow(db, tx)
  }

  lemma ScoreIsGentle(w: Watch, db: Db, tx: Tx)
    requires TxOk(db, tx) && VersionsOk(db, tx) && tx.Score? && tx.spc == Marked && CalmDb(w, db)
    ensures Gentle(w, db, ScoreCommitted(db, tx), Moved(db, tx))
    ensures SameResult(w, db, ScoreCommitted(db, tx))
  {
    RankedScores(db, tx, db.subs[tx.sub].key.room);
  }

  /** Points that arrive at a row of the watched event arrive in a held room, before any result. */
  lemma MovedIsHeld(w: Watch, db: Db, tx: Tx)
    requires CalmDb(w, db) && CalmTx(w, db, tx) && TxOk(db, tx) && MarkedOk(db, tx) && tx.Score? && tx.spc == Marked
    ensures var m := Moved(db, tx);
            m.Some? && m.value.room in db.rooms && db.rooms[m.value.room] == w.event ==>
              Sealed(w.held, m.value.room) && w.event !in db.finals
  {
    var m := Moved(db, tx);
    if m.Some? && m.value.room in db.rooms && db.rooms[m.value.room] == w.event {
      if !Sealed(w.held, m.value.room) {
        assert false;
      }
      if w.event in db.finals {
        assert false;
      }
    }
  }

  lemma MovedBeforeResult(w: Watch, db: Db, tx: Tx, u: Tx)
    requires CalmTx(w, db, u) && TxOk(db, tx) && TxOk(db, u) && Pair(db.subs, tx, u) && tx.Score? && tx.spc == Marked
    requires Moved(db, tx).Some? && Sealed(w.held, Moved(db, tx).value.room)
    ensures !HasResult(w, u)
  {
    ScoredRoomIsFree(db, tx, u);
    if HasResult(w, u) {
      assert false;
    }
  }

  lemma CalmScoreDb(w: Watch, db: Db, tx: Tx)
    requires CalmDb(w, db) && CalmTx(w, db, tx) && Local(db, tx) && tx.Score? && tx.spc == Marked
    ensures CalmDb(w, ScoreCommitted(db, tx))
  {
    ScoreIsGentle(w, db, tx);
    MovedIsHeld(w, db, tx);
    GentleDb(w, db, ScoreCommitted(db, tx), Moved(db, tx));
  }

  lemma CalmLeave(w: Watch, s: State, t: Id, db: Db)
    requires CalmDb(w, db)
    requires forall u | u in s.txs && u != t :: CalmTx(w, db, s.txs[u])
    ensures Calm(w, s.(db := db, txs := s.txs - {t}))
  {
  }

  lemma CalmCommitScore(w: Watch, s: State, t: Id)
    requires Inv(s) && Calm(w, s) && ScoreAt(s, t, Marked)
    ensures Calm(w, s.(db := ScoreCommitted(s.db, s.txs[t]), txs := s.txs - {t}))
  {
    assert Local(s.db, s.txs[t]) && CalmTx(w, s.db, s.txs[t]);
    CalmScoreDb(w, s.db, s.txs[t]);
    forall u | u in s.txs && u != t ensures CalmTx(w, ScoreCommitted(s.db, s.txs[t]), s.txs[u]) {
      CalmBesideScore(w, s, t, u);
    }
    CalmLeave(w, s, t, ScoreCommitted(s.db, s.txs[t]));
  }

  lemma CalmBesideScore(w: Watch, s: State, t: Id, u: Id)
    requires Inv(s) && Calm(w, s) && ScoreAt(s, t, Marked) && u in s.txs && u != t
    ensures CalmTx(w, ScoreCommitted(s.db, s.txs[t]), s.txs[u])
  {
    var tx, after := s.txs[t], ScoreCommitted(s.db, s.txs[t]);
    assert Local(s.db, tx) && CalmTx(w, s.db, tx) && CalmTx(w, s.db, s.txs[u]) && TxOk(s.db, s.txs[u]);
    ScoreIsGentle(w, s.db, tx);
    MovedIsHeld(w, s.db, tx);
    var m := Moved(s.db, tx);
    if m.Some? && m.value in EventRows(after.players, after.rooms, w.event) {
      MovedBeforeResult(w, s.db, tx, s.txs[u]);
    }
    GentleTx(w, s.db, after, m, s.txs[u]);
  }

  lemma CalmCommitComplete(w: Watch, s: State, t: Id)
    requires Inv(s) && Calm(w, s) && CompleteAt(s, t, Tallied)
    ensures Calm(w, s.(db := EventFinished(RowsCommitted(s.db, s.txs[t]), s.txs[t]), txs := s.txs - {t}))
  {
    CompletionGrows(s, t);
    CalmRows(w, s, View(s.db.players, s.txs[t].writes));
    OpenTx(s, t);
    NoResultYet(s.db, s.txs[t]);
    CalmFinish(w, s.(db := RowsCommitted(s.db, s.txs[t])), t);
  }

  lemma OpenTx(s: State, t: Id)
    requires Inv(s) && t in s.txs
    ensures Snapshots(s.db) && TxOk(s.db, s.txs[t])
  {
    SnapshotsAt(s);
  }

  lemma NoResultYet(db: Db, tx: Tx)
    requires Snapshots(db) && TxOk(db, tx) && tx.Complete? && tx.cpc == Tallied
    ensures tx.event !in db.guildFinals
  {
  }

  lemma CalmFinish(w: Watch, s: State, t: Id)
    requires Calm(w, s) && CompleteAt(s, t, Tallied) && s.txs[t].event !in s.db.guildFinals
    ensures Calm(w, s.(db := EventFinished(s.db, s.txs[t]), txs := s.txs - {t}))
  {
    assert CalmTx(w, s.db, s.txs[t]);
    FinishCalm(w, s.db, s.txs[t]);
    forall u | u in s.txs && u != t ensures CalmTx(w, EventFinished(s.db, s.txs[t]), s.txs[u]) {
      FinishCalmTx(w, s.db, s.txs[t], s.txs[u]);
    }
    CalmLeave(w, s, t, EventFinished(s.db, s.txs[t]));
  }

  lemma FinishCalm(w: Watch, db: Db, tx: Tx)
    requires CalmDb(w, db) && CalmTx(w, db, tx) && tx.Complete? && tx.cpc == Tallied && tx.event in db.events
    requires tx.event !in db.guildFinals || tx.guilds.Some? || tx.event != w.event
    ensures CalmDb(w, EventFinished(db, tx))
  {
  }

  lemma FinishCalmTx(w: Watch, db: Db, tx: Tx, u: Tx)
    requires CalmTx(w, db, u) && tx.Complete? && tx.event in db.events
    ensures CalmTx(w, EventFinished(db, tx), u)
  {
  }

  /** Moving on to a step that changes neither the points added nor what was captured. */
  lemma CalmMove(w: Watch, s: State, t: Id, tx: Tx)
    requires Calm(w, s) && t in s.txs
    requires var from := s.txs[t];
             || (from.Score? && from.spc == Begun && tx == from.(spc := Checked))
             || (from.Score? && from.spc == Placed && tx == from.(spc := Marked))
             || (from.Complete? && from.cpc == Opened && tx == from.(cpc := Swapped))
             || (from.Complete? && from.cpc == Captured && tx == from.(cpc := Tallied))
    ensures Calm(w, SetTx(s, t, tx))
  {
    assert CalmTx(w, s.db, s.txs[t]);
    CalmSetTx(w, s, t, tx);
  }

  lemma CalmRowStep(w: Watch, s: State, step: Step)
    requires Calm(w, s) && Can(s, step) && (step.Join? || step.SetState?)
    ensures Calm(w, Do(s, step))
  {
    CalmRows(w, s, Do(s, step).db.players);
  }

  lemma CalmMessage(w: Watch, s: State, step: Step)
    requires Calm(w, s) && Can(s, step) && (step.Tick? || step.CheckJoin? || step.DropPass?)
    ensures Calm(w, Do(s, step))
  {
  }

  lemma CalmOutside(w: Watch, s: State, step: Step)
    requires Inv(s) && Calm(w, s) && Can(s, step) && IsOutside(step)
    ensures Calm(w, Do(s, step))
  {
    if step.Join? || step.SetState? {
      CalmRowStep(w, s, step);
    } else if step.Tick? || step.CheckJoin? || step.DropPass? {
      CalmMessage(w, s, step);
    } else if step.Approve? || step.Activate? {
      CalmSchedule(w, s, step);
    } else {
      CalmSubStep(w, s, step);
    }
  }

  lemma CalmBegin(w: Watch, s: State, step: Step)
    requires Inv(s) && Calm(w, s) && Gate(w, s) && Can(s, step) && IsBegin(step)
    ensures Calm(w, Do(s, step))
  {
    match step
    case BeginScore(t, id) => CalmBeginScore(w, s, t, id);
    case BeginRerank(t, r) => CalmSetTx(w, s, t, Rerank(r, false, map[]));
    case BeginComplete(t, e) => CalmSetTx(w, s, t, Complete(e, Opened, map[], [], None));
  }

  lemma CalmCompletion(w: Watch, s: State, step: Step)
    requires Inv(s) && Calm(w, s) && Can(s, step) && IsCompletion(step)
    ensures Calm(w, Do(s, step))
  {
    match step
    case Swap(t) => CalmMove(w, s, t, s.txs[t].(cpc := Swapped));
    case Lock(t) => CalmLock(w, s, t);
    case Capture(t, order) => CalmCapture(w, s, t, order);
    case Tally(t, order) => CalmTally(w, s, t, order);
    case SkipTally(t) => CalmMove(w, s, t, s.txs[t].(cpc := Tallied));
  }

  lemma CalmEnd(w: Watch, s: State, step: Step)
    requires Inv(s) && Calm(w, s) && Can(s, step) && IsEnd(step)
    ensures Calm(w, Do(s, step))
  {
    match step
    case CommitScore(t) => CalmCommitScore(w, s, t);
    case CommitRerank(t) => CalmCommitRerank(w, s, t);
    case CommitComplete(t) => CalmCommitComplete(w, s, t);
    case Abort(_) =>
  }

  lemma CalmScoring(w: Watch, s: State, step: Step)
    requires Inv(s) && Admitted(s) && Calm(w, s) && Gate(w, s) && Can(s, step)
    requires step.Check? || step.Add? || step.Place? || step.Mark?
    ensures Calm(w, Do(s, step))
  {
    match step
    case Check(t) => CalmMove(w, s, t, s.txs[t].(spc := Checked));
    case Add(t) => CalmAdd(w, s, t);
    case Place(t, order) => CalmPlace(w, s, t, order);
    case Mark(t) => CalmMove(w, s, t, s.txs[t].(spc := Marked));
  }

  lemma CalmStep(w: Watch, s: State, step: Step)
    requires Inv(s) && Admitted(s) && Calm(w, s) && Gate(w, s) && Can(s, step)
    ensures Calm(w, Do(s, step)) && Gate(w, Do(s, step))
  {
    GateStep(w, s, step);
    if IsOutside(step) {
      CalmOutside(w, s, step);
    } else if IsBegin(step) {
      CalmBegin(w, s, step);
    } else if IsCompletion(step) {
      CalmCompletion(w, s, step);
    } else if IsEnd(step) {
      CalmEnd(w, s, step);
    } else {
      CalmScoring(w, s, step);
    }
  }

  // ---- the gate ----

  lemma GateOutside(w: Watch, s: State, step: Step)
    requires Admitted(s) && CalmDb(w, s.db) && Gate(w, s) && Can(s, step) && IsOutside(step)
    ensures Gate(w, Do(s, step))
  {
    if step.Approve? || step.Activate? {
      StepSchedules(s, step);
      ScheduleIsGentle(w, s.db, Do(s, step).db);
      GateOpens(w, s, Do(s, step));
    }
  }

  lemma GateOpens(w: Watch, s: State, s': State)
    requires Gate(w, s) && Gentle(w, s.db, s'.db, None) && s'.passes == s.passes && s'.now == s.now
    requires s'.db.players == s.db.players && forall r | r in s.db.rooms :: r in s'.db.rooms
    ensures Gate(w, s')
  {
    GentleRows(w, s.db, s'.db, None);
  }

  lemma GateEnd(w: Watch, s: State, step: Step)
    requires Inv(s) && Gate(w, s) && Can(s, step) && IsEnd(step)
    ensures Gate(w, Do(s, step))
  {
    OwnRowsOnly(s, step.t);
    GateLeaves(w, s, step);
  }

  lemma OwnRowsOnly(s: State, t: Id)
    requires Inv(s) && t in s.txs
    ensures s.txs[t].writes.Keys <= s.db.players.Keys
  {
    assert TxOk(s.db, s.txs[t]);
  }

  lemma GateLeaves(w: Watch, s: State, step: Step)
    requires Gate(w, s) && Can(s, step) && IsEnd(step) && s.txs[step.t].writes.Keys <= s.db.players.Keys
    ensures Gate(w, Do(s, step))
  {
    SameGate(w, s, Do(s, step));
  }

  lemma SameGate(w: Watch, s: State, s': State)
    requires Gate(w, s) && s'.db.players.Keys == s.db.players.Keys && s'.db.rooms == s.db.rooms
    requires s'.db.entrants == s.db.entrants && s'.passes == s.passes && s'.now == s.now
    ensures Gate(w, s')
  {
  }

  lemma GateStep(w: Watch, s: State, step: Step)
    requires Inv(s) && Admitted(s) && CalmDb(w, s.db) && Gate(w, s) && Can(s, step)
    ensures Gate(w, Do(s, step))
  {
    if IsOutside(step) {
      GateOutside(w, s, step);
    } else if IsEnd(step) {
      GateEnd(w, s, step);
    } else {
      GateInside(w, s, step);
    }
  }

  lemma GateInside(w: Watch, s: State, step: Step)
    requires Gate(w, s) && Can(s, step) && !IsOutside(step) && !IsEnd(step)
    ensures Gate(w, Do(s, step))
  {
    SameGate(w, s, Do(s, step));
  }
}
