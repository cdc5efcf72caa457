/** The three commits keep the invariant. */
module EngineCommits {
  import opened Tables
  import opened Sums
  import opened Engine
  import opened EngineInvariant
  import opened EngineDbSteps

  /** Leaving: what holds of the tables and of every other transaction is enough. */
  lemma CommitKeeps(s: State, t: Id, db: Db)
    requires Inv(s) && t in s.txs && DbOk(db) && SubsKept(s.db.subs, db.subs)
    requires forall u | u in s.txs && u != t :: Local(db, s.txs[u])
    ensures Inv(s.(db := db, txs := s.txs - {t}))
  {
    PairsStay(s, db.subs);
  }

  lemma PairsStay(s: State, subs: map<Id, Submission>)
    requires SubsKept(s.db.subs, subs) && forall u | u in s.txs :: TxOk(s.db, s.txs[u])
    requires forall u, v | u in s.txs && v in s.txs && u != v :: Pair(s.db.subs, s.txs[u], s.txs[v])
    ensures forall u, v | u in s.txs && v in s.txs && u != v :: Pair(subs, s.txs[u], s.txs[v])
  {
    forall u, v | u in s.txs && v in s.txs && u != v ensures Pair(subs, s.txs[u], s.txs[v]) {
      PairFrame(s.db.subs, subs, s.txs[u], s.txs[v]);
    }
  }

  lemma AbortKeeps(s: State, t: Id)
    requires Inv(s) && t in s.txs
    ensures Inv(s.(txs := s.txs - {t}))
  {
  }

  // ---- what committing a ranked room does to boards and versions ----

  ghost function ScoredRow(db: Db, tx: Tx): Option<Key> {
    if tx.Score? && tx.credited && tx.sub in db.subs then Some(db.subs[tx.sub].key) else None
  }

  lemma RankedScores(db: Db, tx: Tx, r: Id)
    requires TxOk(db, tx) && VersionsOk(db, tx) && RankedIn(db.subs, tx, r)
    ensures KeepsScores(db.players, View(db.players, tx.writes), ScoredRow(db, tx))
    ensures (View(db.players, tx.writes)).Keys == db.players.Keys
  {
  }

  lemma RankedBoards(db: Db, tx: Tx, r: Id)
    requires TxOk(db, tx) && PlacedOk(db, tx) && RankedIn(db.subs, tx, r) && Boards(db)
    ensures forall r' | r' in db.rooms :: WellRanked(View(db.players, tx.writes), r')
  {
    var q := View(db.players, tx.writes);
    forall r' | r' in db.rooms ensures WellRanked(q, r') {
      if r' != r {
        assert KeepsBoard(db.players, q, r');
        BoardFrame(db.players, q, r');
      }
    }
  }

  lemma RankedOthers(db: Db, tx: Tx, r: Id, u: Tx)
    requires TxOk(db, tx) && PlacedOk(db, tx) && RankedIn(db.subs, tx, r)
    requires TxOk(db, u) && PlacedOk(db, u) && VersionsOk(db, u)
    requires Pair(db.subs, tx, u) && Pair(db.subs, u, tx)
    ensures var q := View(db.players, tx.writes);
            && (forall r' | RankedIn(db.subs, u, r') :: WellRanked(View(q, u.writes), r'))
            && VersionsOk(db.(players := q), u)
  {
    var q := View(db.players, tx.writes);
    forall r' | RankedIn(db.subs, u, r') ensures WellRanked(View(q, u.writes), r') {
      var p := View(db.players, u.writes);
      if r' != r {
        assert KeepsBoard(p, View(q, u.writes), r');
        BoardFrame(p, View(q, u.writes), r');
      } else if tx.writes == map[] {
        assert q == db.players;
      } else {
        assert u.writes == map[] by {
          assert forall k | k in u.writes :: HoldsRowIn(u, r);
        }
        assert View(q, u.writes) == q;
      }
    }
  }

  // ---- re-ranking ----

  lemma CommitRerankKeeps(s: State, t: Id)
    requires Inv(s) && t in s.txs && s.txs[t].Rerank? && s.txs[t].placed
    ensures Inv(s.(db := RowsCommitted(s.db, s.txs[t]), txs := s.txs - {t}))
  {
    var tx := s.txs[t];
    var db := RowsCommitted(s.db, tx);
    assert Local(s.db, tx);
    RerankDbOk(s.db, tx);
    forall u | u in s.txs && u != t ensures Local(db, s.txs[u]) {
      assert Local(s.db, s.txs[u]);
      RerankLocal(s.db, tx, s.txs[u]);
    }
    CommitKeeps(s, t, db);
  }

  lemma RerankDbOk(db: Db, tx: Tx)
    requires DbOk(db) && Local(db, tx) && tx.Rerank? && tx.placed
    ensures DbOk(db.(players := View(db.players, tx.writes)))
  {
    var q := View(db.players, tx.writes);
    RankedScores(db, tx, tx.room);
    RankedBoards(db, tx, tx.room);
    SameScoresDb(db, q);
  }

  /** Everything but the boards only looks at scores. */
  lemma SameScoresDb(db: Db, q: map<Key, Player>)
    requires Shape(db) && Books(db) && Snapshots(db) && Guilds(db)
    requires KeepsScores(db.players, q, None) && q.Keys == db.players.Keys
    ensures var after := db.(players := q); Shape(after) && Books(after) && Snapshots(after) && Guilds(after)
  {
    var after := db.(players := q);
    GrowBooks(db, q);
    forall e | e in db.finals
      ensures SnapshotOk(after, e, db.finals[e]) && Exact(q, db.finals[e], db.locked[e])
    {
      ExactFrame(db.players, q, None, db.finals[e], db.locked[e]);
    }
    forall e | e in db.guildFinals && e in db.locked
      ensures GuildsOk(after, e, db.guildFinals[e], db.locked[e])
    {
      GuildsFrame(db, q, None, e, db.guildFinals[e], db.locked[e]);
    }
  }

  lemma RerankLocal(db: Db, tx: Tx, u: Tx)
    requires Local(db, tx) && tx.Rerank? && tx.placed && Local(db, u)
    requires Pair(db.subs, tx, u) && Pair(db.subs, u, tx)
    ensures Local(db.(players := View(db.players, tx.writes)), u)
  {
    RankedScores(db, tx, tx.room);
    RankedOthers(db, tx, tx.room, u);
    CompletionKept(db, View(db.players, tx.writes), None, u);
  }

  /** A completion in progress does not notice score changes in rooms it holds no row of. */
  lemma CompletionKept(db: Db, q: map<Key, Player>, except: Option<Key>, u: Tx)
    requires CapturedOk(db, u) && TalliedOk(db, u) && KeepsScores(db.players, q, except)
    requires except.Some? && u.Complete? ==> !HoldsRowIn(u, except.value.room)
    ensures CapturedOk(db.(players := q), u) && TalliedOk(db.(players := q), u)
  {
    if u.Complete? {
      if except.Some? {
        assert !Sealed(u.writes.Keys, except.value.room);
      }
      if u.cpc == Captured || u.cpc == Tallied {
        ExactFrame(db.players, q, except, u.finals, u.writes.Keys);
      }
      if u.guilds.Some? {
        GuildsFrame(db, q, except, u.event, u.guilds.value, u.writes.Keys);
      }
    }
  }

  // ---- scoring ----

  lemma CommitScoreKeeps(s: State, t: Id)
    requires Inv(s) && ScoreAt(s, t, Marked)
    ensures Inv(s.(db := ScoreCommitted(s.db, s.txs[t]), txs := s.txs - {t}))
  {
    var tx := s.txs[t];
    ScoreDbOk(s.db, tx);
    ScoreOthers(s, t);
    CommitKeeps(s, t, ScoreCommitted(s.db, tx));
  }

  lemma ScoreOthers(s: State, t: Id)
    requires ScoreAt(s, t, Marked) && forall u | u in s.txs :: Local(s.db, s.txs[u])
    requires forall u, v | u in s.txs && v in s.txs && u != v :: Pair(s.db.subs, s.txs[u], s.txs[v])
    ensures forall u | u in s.txs && u != t :: Local(ScoreCommitted(s.db, s.txs[t]), s.txs[u])
    ensures SubsKept(s.db.subs, ScoreCommitted(s.db, s.txs[t]).subs)
  {
    forall u | u in s.txs && u != t ensures Local(ScoreCommitted(s.db, s.txs[t]), s.txs[u]) {
      ScoreLocal(s.db, s.txs[t], s.txs[u]);
    }
  }

  lemma ScoreDbOk(db: Db, tx: Tx)
    requires DbOk(db) && Local(db, tx) && tx.Score? && tx.spc == Marked
    ensures DbOk(ScoreCommitted(db, tx))
  {
    var r := db.subs[tx.sub].key.room;
    RankedScores(db, tx, r);
    RankedBoards(db, tx, r);
    ScoreShape(db, tx);
    ScoreBooks(db, tx);
    ScoreSnapshots(db, tx);
    ScoreGuilds(db, tx);
  }

  lemma ScoreShape(db: Db, tx: Tx)
    requires Shape(db) && AcceptedOnce(db.subs) && TxOk(db, tx) && MarkedOk(db, tx) && tx.Score? && tx.spc == Marked
    ensures var after := ScoreCommitted(db, tx); Shape(after) && AcceptedOnce(after.subs)
  {
  }

  lemma ScoreBooks(db: Db, tx: Tx)
    requires Books(db) && TxOk(db, tx) && VersionsOk(db, tx) && MarkedOk(db, tx) && tx.Score? && tx.spc == Marked
    ensures Books(ScoreCommitted(db, tx))
  {
    ScoreTotals(db, tx);
    ScoreLedger(db, tx);
  }

  lemma ScoreTotals(db: Db, tx: Tx)
    requires Books(db) && TxOk(db, tx) && VersionsOk(db, tx) && tx.Score?
    ensures var after := ScoreCommitted(db, tx);
            && (forall k | k in after.players :: after.players[k].score == Total(after.ledger, k))
            && (forall k | k !in after.players :: Total(after.ledger, k) == 0)
  {
    var after := ScoreCommitted(db, tx);
    var sub := db.subs[tx.sub];
    if tx.credited {
      var a := Award(tx.sub, sub.key, sub.points, tx.startedAt);
      forall k ensures Total(after.ledger, k) == Total(db.ledger, k) + (if a.key == k then a.points else 0) {
        TotalAppend(db.ledger, a, k);
      }
    }
  }

  lemma ScoreLedger(db: Db, tx: Tx)
    requires Books(db) && TxOk(db, tx) && MarkedOk(db, tx) && tx.Score? && tx.spc == Marked
    ensures var after := ScoreCommitted(db, tx);
            && (forall n | 0 <= n < |after.ledger| :: AwardOk(after, after.ledger[n]))
            && (forall m, n | 0 <= m < n < |after.ledger| :: after.ledger[m].sub != after.ledger[n].sub)
            && (forall i | i in after.subs && after.subs[i].status == Accepted(true) :: InLedger(after.ledger, i))
  {
    var after := ScoreCommitted(db, tx);
    forall n | 0 <= n < |after.ledger| ensures AwardOk(after, after.ledger[n]) {
      if n < |db.ledger| {
        assert AwardOk(db, db.ledger[n]);
      }
    }
    forall i | i in after.subs && after.subs[i].status == Accepted(true) ensures InLedger(after.ledger, i) {
      if i == tx.sub {
        assert after.ledger[|db.ledger|].sub == i;
      } else {
        var n :| 0 <= n < |db.ledger| && db.ledger[n].sub == i;
        assert after.ledger[n].sub == i;
      }
    }
  }

  /** Only rooms of its own event can be sealed by an event's locked rows. */
  lemma SealedRoomsAreOfEvent(db: Db, e: Id, r: Id)
    requires Snapshots(db) && e in db.finals && Sealed(db.locked[e], r)
    ensures r in db.rooms && db.rooms[r] == e
  {
    var k :| k in db.locked[e] && k.room == r;
    assert Listed(db.finals[e], k);
  }

  lemma ScoreSnapshots(db: Db, tx: Tx)
    requires Snapshots(db) && TxOk(db, tx) && VersionsOk(db, tx) && MarkedOk(db, tx) && tx.Score? && tx.spc == Marked
    ensures Snapshots(ScoreCommitted(db, tx))
  {
    var after := ScoreCommitted(db, tx);
    RankedScores(db, tx, db.subs[tx.sub].key.room);
    forall e | e in db.finals
      ensures SnapshotOk(after, e, after.finals[e]) && Exact(after.players, after.finals[e], after.locked[e])
    {
      ScoreNotSealed(db, tx, e);
      ExactFrame(db.players, after.players, ScoredRow(db, tx), db.finals[e], db.locked[e]);
    }
  }

  lemma ScoreNotSealed(db: Db, tx: Tx, e: Id)
    requires Snapshots(db) && e in db.finals && MarkedOk(db, tx) && tx.Score? && tx.spc == Marked
    ensures ScoredRow(db, tx).Some? ==> !Sealed(db.locked[e], ScoredRow(db, tx).value.room)
  {
    var except := ScoredRow(db, tx);
    if except.Some? && Sealed(db.locked[e], except.value.room) {
      SealedRoomsAreOfEvent(db, e, except.value.room);
      assert false;
    }
  }

  lemma ScoreGuilds(db: Db, tx: Tx)
    requires Guilds(db) && TxOk(db, tx) && VersionsOk(db, tx) && MarkedOk(db, tx) && tx.Score? && tx.spc == Marked
    ensures Guilds(ScoreCommitted(db, tx))
  {
    var after := ScoreCommitted(db, tx);
    forall e | e in after.guildFinals && e in after.locked
      ensures GuildsOk(after, e, after.guildFinals[e], after.locked[e])
    {
      GuildsFrame(db, after.players, ScoredRow(db, tx), e, db.guildFinals[e], db.locked[e]);
    }
  }

  lemma ScoreLocal(db: Db, tx: Tx, u: Tx)
    requires Local(db, tx) && tx.Score? && tx.spc == Marked && Local(db, u)
    requires Pair(db.subs, tx, u) && Pair(db.subs, u, tx)
    ensures Local(ScoreCommitted(db, tx), u)
  {
    var after := ScoreCommitted(db, tx);
    var q := View(db.players, tx.writes);
    var r := db.subs[tx.sub].key.room;
    RankedScores(db, tx, r);
    RankedOthers(db, tx, r, u);
    ScoredRoomIsFree(db, tx, u);
    CompletionKept(db, q, ScoredRow(db, tx), u);
    ScoreTxOk(db, tx, u);
    forall r' | RankedIn(after.subs, u, r') ensures WellRanked(View(after.players, u.writes), r') {
      assert RankedIn(db.subs, u, r');
    }
  }

  lemma ScoredRoomIsFree(db: Db, tx: Tx, u: Tx)
    requires TxOk(db, tx) && tx.Score? && tx.spc == Marked && Pair(db.subs, tx, u)
    ensures ScoredRow(db, tx).Some? && u.Complete? ==> !HoldsRowIn(u, ScoredRow(db, tx).value.room)
  {
    assert RankedIn(db.subs, tx, db.subs[tx.sub].key.room);
  }

  lemma ScoreTxOk(db: Db, tx: Tx, u: Tx)
    requires TxOk(db, tx) && tx.Score? && tx.spc == Marked && TxOk(db, u) && MarkedOk(db, u)
    requires VersionsOk(db.(players := View(db.players, tx.writes)), u)
    requires Pair(db.subs, tx, u) && Pair(db.subs, u, tx)
    ensures var after := ScoreCommitted(db, tx); TxOk(after, u) && MarkedOk(after, u) && VersionsOk(after, u)
  {
  }

  // ---- completion ----

  lemma CommitCompleteKeeps(s: State, t: Id)
    requires Inv(s) && CompleteAt(s, t, Tallied)
    ensures Inv(s.(db := EventFinished(RowsCommitted(s.db, s.txs[t]), s.txs[t]), txs := s.txs - {t}))
  {
    var tx := s.txs[t];
    CompletionGrows(s, t);
    GrowKeeps(s, View(s.db.players, tx.writes));
    FinishKeeps(s.(db := RowsCommitted(s.db, tx)), t);
  }

  /** The locked versions change states and nothing else that counts. */
  lemma CompletionGrows(s: State, t: Id)
    requires Inv(s) && CompleteAt(s, t, Tallied)
    ensures var q := View(s.db.players, s.txs[t].writes);
            Grows(s.db.players, q) && forall k | k in q :: k.room in s.db.rooms
  {
    assert Local(s.db, s.txs[t]);
    VersionsGrow(s.db, s.txs[t]);
  }

  lemma VersionsGrow(db: Db, tx: Tx)
    requires Shape(db) && TxOk(db, tx) && VersionsOk(db, tx) && tx.Complete?
    ensures var q := View(db.players, tx.writes);
            Grows(db.players, q) && forall k | k in q :: k.room in db.rooms
  {
  }

  lemma FinishKeeps(s: State, t: Id)
    requires Inv(s) && CompleteAt(s, t, Tallied)
    ensures Inv(s.(db := EventFinished(s.db, s.txs[t]), txs := s.txs - {t}))
  {
    var tx := s.txs[t];
    FinishDbOk(s.db, tx);
    forall u | u in s.txs && u != t ensures Local(EventFinished(s.db, tx), s.txs[u]) {
      FinishLocal(s.db, tx, s.txs[u]);
    }
    CommitKeeps(s, t, EventFinished(s.db, tx));
  }

  lemma FinishDbOk(db: Db, tx: Tx)
    requires DbOk(db) && Local(db, tx) && tx.Complete? && tx.cpc == Tallied
    ensures DbOk(EventFinished(db, tx))
  {
    FinishBooks(db, tx);
    FinishSnapshots(db, tx);
    FinishGuilds(db, tx);
  }

  lemma FinishBooks(db: Db, tx: Tx)
    requires Shape(db) && Books(db) && Boards(db) && tx.Complete? && tx.event in db.events
    ensures var after := EventFinished(db, tx); Shape(after) && Books(after) && Boards(after)
  {
    var after := EventFinished(db, tx);
    assert forall n | 0 <= n < |db.ledger| :: AwardOk(db, db.ledger[n]) ==> AwardOk(after, db.ledger[n]);
  }

  lemma FinishSnapshots(db: Db, tx: Tx)
    requires Snapshots(db) && CapturedOk(db, tx) && tx.Complete? && tx.cpc == Tallied && tx.event in db.events
    ensures Snapshots(EventFinished(db, tx))
  {
    forall e | e in EventFinished(db, tx).finals
      ensures SnapshotOk(EventFinished(db, tx), e, EventFinished(db, tx).finals[e])
    {
      FinishSnapshot(db, tx, e);
    }
  }

  lemma FinishSnapshot(db: Db, tx: Tx, e: Id)
    requires tx.Complete? && tx.event in db.events && e in EventFinished(db, tx).finals
    requires SnapshotOk(db, e, EventFinished(db, tx).finals[e])
    ensures SnapshotOk(EventFinished(db, tx), e, EventFinished(db, tx).finals[e])
  {
  }

  lemma FinishGuilds(db: Db, tx: Tx)
    requires Guilds(db) && Snapshots(db) && TxOk(db, tx) && TalliedOk(db, tx)
    requires tx.Complete? && tx.cpc == Tallied
    ensures Guilds(EventFinished(db, tx))
  {
    var after := EventFinished(db, tx);
    assert tx.event !in db.guildFinals;
    forall e | e in after.guildFinals && e in after.locked
      ensures GuildsOk(after, e, after.guildFinals[e], after.locked[e])
    {
      assert GuildsOk(db, e, after.guildFinals[e], after.locked[e]);
    }
  }

  lemma FinishLocal(db: Db, tx: Tx, u: Tx)
    requires Snapshots(db) && Local(db, tx) && tx.Complete? && tx.cpc == Tallied && Local(db, u)
    requires Pair(db.subs, tx, u) && Pair(db.subs, u, tx)
    ensures Local(EventFinished(db, tx), u)
  {
    FinishTxOk(db, tx, u);
    FinishMarked(db, tx, u);
    var after := EventFinished(db, tx);
    if u.Complete? && (u.cpc == Captured || u.cpc == Tallied) {
      assert SnapshotOk(db, u.event, u.finals);
    }
    if u.Complete? && u.guilds.Some? {
      assert GuildsOk(db, u.event, u.guilds.value, u.writes.Keys);
    }
  }

  lemma FinishTxOk(db: Db, tx: Tx, u: Tx)
    requires TxOk(db, tx) && tx.Complete? && tx.cpc == Tallied && TxOk(db, u) && VersionsOk(db, u) && PlacedOk(db, u)
    requires Pair(db.subs, tx, u)
    ensures var after := EventFinished(db, tx); TxOk(after, u) && VersionsOk(after, u) && PlacedOk(after, u)
  {
  }

  /** A marked transaction whose points are at stake holds a row of its room, so the completion holds none there:
      the room is not sealed. */
  lemma FinishMarked(db: Db, tx: Tx, u: Tx)
    requires tx.Complete? && tx.event in db.events && TxOk(db, u) && MarkedOk(db, u) && Pair(db.subs, u, tx)
    ensures MarkedOk(EventFinished(db, tx), u)
  {
    if MarkedSub(db.subs, u) && u.credited {
      var r := db.subs[u.sub].key.room;
      assert RankedIn(db.subs, u, r);
      assert !HoldsRowIn(tx, r);
      assert !Sealed(tx.writes.Keys, r);
    }
  }
}
