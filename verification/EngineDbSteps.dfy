/** Steps that change the committed tables outside scoring, and the frame lemmas that commits share with them. */
module EngineDbSteps {
  import opened Tables
  import opened Sums
  import opened Engine
  import opened EngineInvariant

  // ---- frames ----

  /** Rows stay, their scores change only at `except`, and a new row starts with score zero. */
  ghost predicate KeepsScores(p: map<Key, Player>, q: map<Key, Player>, except: Option<Key>) {
    && p.Keys <= q.Keys
    && forall k | k in q ::
         if k in p then q[k].guild == p[k].guild && q[k].joinedAt == p[k].joinedAt
                        && (Some(k) == except || q[k].score == p[k].score)
         else q[k].score == 0
  }

  /** In room `r` scores and places stay, and a new row has no place and score zero. */
  ghost predicate KeepsBoard(p: map<Key, Player>, q: map<Key, Player>, r: Id) {
    && (forall k | k in p && k.room == r :: k in q && q[k].score == p[k].score && q[k].place == p[k].place)
    && (forall k | k in q && k.room == r && k !in p :: q[k].place == None && q[k].score == 0)
  }

  lemma BoardFrame(p: map<Key, Player>, q: map<Key, Player>, r: Id)
    requires KeepsBoard(p, q, r) && WellRanked(p, r)
    ensures WellRanked(q, r)
  {
    var order :| Board(p, r, order);
    assert Board(q, r, order);
  }

  lemma ExactFrame(p: map<Key, Player>, q: map<Key, Player>, except: Option<Key>, finals: seq<Final>, locked: set<Key>)
    requires KeepsScores(p, q, except) && Exact(p, finals, locked)
    requires except.Some? ==> !Sealed(locked, except.value.room)
    ensures Exact(q, finals, locked)
  {
  }

  lemma TotalsFrame(p: map<Key, Player>, q: map<Key, Player>, except: Option<Key>, rooms: map<Id, Id>, e: Id,
                    gs: seq<GuildFinal>)
    requires KeepsScores(p, q, except) && TotalsExact(p, rooms, e, gs)
    requires except.Some? ==> except.value !in EventRows(q, rooms, e)
    ensures TotalsExact(q, rooms, e, gs)
  {
    var before, after := EventRows(p, rooms, e), EventRows(q, rooms, e);
    assert forall k | k in after :: q[k].score == if k in before then p[k].score else 0;
    forall i | 0 <= i < |gs| ensures gs[i].total == ScoreSum(q, OfGuild(q, after, gs[i].guild)) {
      ScoreSumSame(p, OfGuild(p, before, gs[i].guild), q, OfGuild(q, after, gs[i].guild));
    }
  }

  /** A room whose rows no score can change at is either not of the event or sealed: both leave totals alone. */
  lemma GuildsFrame(db: Db, q: map<Key, Player>, except: Option<Key>, e: Id, gs: seq<GuildFinal>, locked: set<Key>)
    requires KeepsScores(db.players, q, except) && GuildsOk(db, e, gs, locked)
    requires except.Some? && except.value.room in db.rooms && db.rooms[except.value.room] == e ==>
               !Sealed(locked, except.value.room)
    ensures GuildsOk(db.(players := q), e, gs, locked)
  {
    if AllSealed(db.rooms, e, locked) {
      TotalsFrame(db.players, q, except, db.rooms, e, gs);
    }
  }

  lemma PairFrame(subs: map<Id, Submission>, after: map<Id, Submission>, a: Tx, b: Tx)
    requires Pair(subs, a, b) && SubsKept(subs, after)
    requires a.Score? ==> a.sub in subs
    requires b.Score? ==> b.sub in subs
    ensures Pair(after, a, b)
  {
  }

  ghost predicate SubsKept(subs: map<Id, Submission>, after: map<Id, Submission>) {
    forall i | i in subs ::
      && i in after && after[i].key == subs[i].key && after[i].problem == subs[i].problem
      && after[i].points == subs[i].points
  }

  lemma DbKeeps(s: State, db: Db)
    requires Inv(s) && DbOk(db) && SubsKept(s.db.subs, db.subs)
    requires forall t | t in s.txs :: Local(db, s.txs[t])
    ensures Inv(s.(db := db))
  {
    forall t, u | t in s.txs && u in s.txs && t != u ensures Pair(db.subs, s.txs[t], s.txs[u]) {
      assert TxOk(s.db, s.txs[t]) && TxOk(s.db, s.txs[u]);
      PairFrame(s.db.subs, db.subs, s.txs[t], s.txs[u]);
    }
  }

  // ---- rows that are added or change state only: joins, state updates, the completion's versions ----

  ghost predicate Grows(p: map<Key, Player>, q: map<Key, Player>) {
    KeepsScores(p, q, None) && forall r :: KeepsBoard(p, q, r)
  }

  lemma GrowDbOk(db: Db, q: map<Key, Player>)
    requires DbOk(db) && Grows(db.players, q) && forall k | k in q :: k.room in db.rooms
    ensures DbOk(db.(players := q))
  {
    var after := db.(players := q);
    forall r | r in db.rooms ensures WellRanked(q, r) {
      assert KeepsBoard(db.players, q, r);
      BoardFrame(db.players, q, r);
    }
    GrowBooks(db, q);
    forall e | e in db.finals
      ensures SnapshotOk(after, e, db.finals[e]) && Exact(q, db.finals[e], db.locked[e])
    {
      ExactFrame(db.players, q, None, db.finals[e], db.locked[e]);
    }
    forall e | e in db.guildFinals && e in db.locked
      ensures GuildsOk(after, e, db.guildFinals[e], db.locked[e])
    {
      GuildsFrame(db, q, None, e, db.guildFinals[e], db.locked[e]);
    }
  }

  lemma GrowBooks(db: Db, q: map<Key, Player>)
    requires Books(db) && KeepsScores(db.players, q, None)
    ensures Books(db.(players := q))
  {
  }

  lemma GrowLocal(db: Db, q: map<Key, Player>, tx: Tx)
    requires Local(db, tx) && Grows(db.players, q)
    ensures Local(db.(players := q), tx)
  {
    GrowPlaced(db, q, tx);
    GrowVersions(db, q, tx);
    if tx.Complete? && (tx.cpc == Captured || tx.cpc == Tallied) {
      ExactFrame(db.players, q, None, tx.finals, tx.writes.Keys);
    }
    if tx.Complete? && tx.guilds.Some? {
      GuildsFrame(db, q, None, tx.event, tx.guilds.value, tx.writes.Keys);
    }
  }

  lemma GrowVersions(db: Db, q: map<Key, Player>, tx: Tx)
    requires TxOk(db, tx) && VersionsOk(db, tx) && Grows(db.players, q)
    ensures TxOk(db.(players := q), tx) && VersionsOk(db.(players := q), tx)
  {
    forall k | k in tx.writes && k in db.players ensures q[k].place == db.players[k].place {
      assert KeepsBoard(db.players, q, k.room);
    }
  }

  lemma GrowPlaced(db: Db, q: map<Key, Player>, tx: Tx)
    requires TxOk(db, tx) && PlacedOk(db, tx) && Grows(db.players, q)
    ensures PlacedOk(db.(players := q), tx)
  {
    forall r | RankedIn(db.subs, tx, r) ensures WellRanked(View(q, tx.writes), r) {
      assert KeepsBoard(db.players, q, r);
      assert KeepsBoard(View(db.players, tx.writes), View(q, tx.writes), r);
      BoardFrame(View(db.players, tx.writes), View(q, tx.writes), r);
    }
  }

  lemma GrowKeeps(s: State, q: map<Key, Player>)
    requires Inv(s) && Grows(s.db.players, q) && forall k | k in q :: k.room in s.db.rooms
    ensures Inv(s.(db := s.db.(players := q)))
  {
    GrowDbOk(s.db, q);
    forall t | t in s.txs ensures Local(s.db.(players := q), s.txs[t]) {
      GrowLocal(s.db, q, s.txs[t]);
    }
    DbKeeps(s, s.db.(players := q));
  }

  // ---- submissions: queued, cleared, dismissed, taken ----

  /** Submission `id` is new or was not handled yet, and does not become accepted. */
  ghost predicate Resub(db: Db, id: Id, sub: Submission) {
    && sub.key.room in db.rooms && !sub.status.Accepted?
    && (id in db.subs ==>
          && db.subs[id].phase != Handled
          && db.subs[id].key == sub.key && db.subs[id].problem == sub.problem && db.subs[id].points == sub.points)
  }

  lemma ResubDbOk(db: Db, id: Id, sub: Submission)
    requires DbOk(db) && Resub(db, id, sub)
    ensures DbOk(db.(subs := db.subs[id := sub]))
  {
    ResubShape(db, id, sub);
    ResubBooks(db, id, sub);
    ResubSnapshots(db, id, sub);
  }

  lemma ResubShape(db: Db, id: Id, sub: Submission)
    requires Shape(db) && AcceptedOnce(db.subs) && Resub(db, id, sub)
    ensures Shape(db.(subs := db.subs[id := sub])) && AcceptedOnce(db.subs[id := sub])
  {
  }

  lemma ResubSnapshots(db: Db, id: Id, sub: Submission)
    requires Boards(db) && Snapshots(db) && Guilds(db)
    ensures var after := db.(subs := db.subs[id := sub]); Boards(after) && Snapshots(after) && Guilds(after)
  {
    var after := db.(subs := db.subs[id := sub]);
    forall e | e in db.guildFinals && e in db.locked ensures GuildsOk(after, e, db.guildFinals[e], db.locked[e]) {
      assert GuildsOk(db, e, db.guildFinals[e], db.locked[e]);
    }
  }

  lemma ResubBooks(db: Db, id: Id, sub: Submission)
    requires Shape(db) && Books(db) && Resub(db, id, sub)
    ensures Books(db.(subs := db.subs[id := sub]))
  {
  }

  lemma ResubLocal(db: Db, id: Id, sub: Submission, tx: Tx)
    requires Local(db, tx) && Resub(db, id, sub)
    ensures Local(db.(subs := db.subs[id := sub]), tx)
  {
    var after := db.(subs := db.subs[id := sub]);
    assert forall r :: RankedIn(after.subs, tx, r) ==> RankedIn(db.subs, tx, r);
  }

  lemma ResubKeeps(s: State, id: Id, sub: Submission)
    requires Inv(s) && Resub(s.db, id, sub)
    ensures Inv(SetSub(s, id, sub))
  {
    ResubDbOk(s.db, id, sub);
    ResubLocals(s, id, sub);
    DbKeeps(s, SetSub(s, id, sub).db);
  }

  lemma ResubLocals(s: State, id: Id, sub: Submission)
    requires Resub(s.db, id, sub) && forall t | t in s.txs :: Local(s.db, s.txs[t])
    ensures forall t | t in s.txs :: Local(SetSub(s, id, sub).db, s.txs[t])
    ensures SubsKept(s.db.subs, SetSub(s, id, sub).db.subs)
  {
    forall t | t in s.txs ensures Local(SetSub(s, id, sub).db, s.txs[t]) {
      ResubLocal(s.db, id, sub, s.txs[t]);
    }
  }

  lemma BeginScoreKeeps(s: State, t: Id, id: Id)
    requires Inv(s) && t !in s.txs && id in s.db.subs && s.db.subs[id].phase == Cleared
    ensures Inv(SetTx(SetSub(s, id, s.db.subs[id].(phase := Handled)), t, Score(id, s.now, Begun, false, map[])))
  {
    var sub := s.db.subs[id].(phase := Handled);
    UnhandledIsFree(s, id);
    ResubKeeps(s, id, sub);
    FreshScoreKeeps(SetSub(s, id, sub), t, id);
  }

  lemma UnhandledIsFree(s: State, id: Id)
    requires Inv(s) && id in s.db.subs && s.db.subs[id].phase != Handled
    ensures !s.db.subs[id].status.Accepted? && s.db.subs[id].key.room in s.db.rooms
    ensures forall u | u in s.txs && s.txs[u].Score? :: s.txs[u].sub != id
  {
    forall u | u in s.txs && s.txs[u].Score? ensures s.txs[u].sub != id {
      assert TxOk(s.db, s.txs[u]);
    }
  }

  lemma FreshScoreKeeps(s: State, t: Id, id: Id)
    requires Inv(s) && t !in s.txs && id in s.db.subs && s.db.subs[id].phase == Handled
    requires !s.db.subs[id].status.Accepted?
    requires forall u | u in s.txs && s.txs[u].Score? :: s.txs[u].sub != id
    ensures Inv(SetTx(s, t, Score(id, s.now, Begun, false, map[])))
  {
    var tx := Score(id, s.now, Begun, false, map[]);
    FreshLocal(s.db, tx);
    forall u | u in s.txs ensures Pair(s.db.subs, tx, s.txs[u]) && Pair(s.db.subs, s.txs[u], tx) {
      FreshPair(s.db.subs, tx, s.txs[u]);
    }
    NewTxKeeps(s, t, tx);
  }

  lemma FreshLocal(db: Db, tx: Tx)
    requires tx.Score? && tx.spc == Begun && !tx.credited && tx.writes == map[]
    requires tx.sub in db.subs && db.subs[tx.sub].phase == Handled && !db.subs[tx.sub].status.Accepted?
    ensures Local(db, tx)
  {
  }

  lemma FreshPair(subs: map<Id, Submission>, tx: Tx, u: Tx)
    requires tx.Score? && tx.spc == Begun && tx.writes == map[] && (u.Score? ==> u.sub != tx.sub)
    ensures Pair(subs, tx, u) && Pair(subs, u, tx)
  {
  }

  lemma NewTxKeeps(s: State, t: Id, tx: Tx)
    requires Inv(s) && t !in s.txs && Local(s.db, tx)
    requires forall u | u in s.txs :: Pair(s.db.subs, tx, s.txs[u]) && Pair(s.db.subs, s.txs[u], tx)
    ensures Inv(SetTx(s, t, tx))
  {
  }

  // ---- events and rooms: approval, activation ----

  /** Events keep their end dates and what status they had unless pending; new rooms are empty and theirs only. */
  ghost predicate Schedules(db: Db, after: Db) {
    && after == db.(events := after.events, rooms := after.rooms, joined := after.joined, entrants := after.entrants,
                    offers := after.offers)
    && (forall e | e in db.events ::
          e in after.events && after.events[e].startDate == db.events[e].startDate
          && after.events[e].endDate == db.events[e].endDate
          && (after.events[e].status == db.events[e].status
              || (db.events[e].status == Pending && after.events[e].status == Active)))
    && (forall e | e in after.events && e !in db.events :: after.events[e].status == Pending)
    && (forall r | r in db.rooms :: r in after.rooms && after.rooms[r] == db.rooms[r])
    && (forall p | p in after.entrants && p.key.room in db.rooms :: p in db.entrants)
    && (forall r | r in after.rooms && r !in db.rooms :: after.rooms[r] in db.events
                                                         && db.events[after.rooms[r]].status == Pending)
  }

  lemma ScheduleGuilds(db: Db, after: Db, e: Id, gs: seq<GuildFinal>, locked: set<Key>)
    requires Shape(db) && Schedules(db, after) && GuildsOk(db, e, gs, locked)
    ensures GuildsOk(after, e, gs, locked)
  {
    assert EventRows(after.players, after.rooms, e) == EventRows(db.players, db.rooms, e);
  }

  lemma ScheduleShape(db: Db, after: Db)
    requires Shape(db) && Books(db) && Boards(db) && Schedules(db, after)
    ensures Shape(after) && Books(after) && Boards(after)
  {
    forall r | r in after.rooms ensures WellRanked(after.players, r) {
      if r !in db.rooms {
        assert Board(after.players, r, []);
      }
    }
    assert forall n | 0 <= n < |db.ledger| :: AwardOk(db, db.ledger[n]) ==> AwardOk(after, db.ledger[n]);
  }

  lemma ScheduleSnapshots(db: Db, after: Db)
    requires Shape(db) && Snapshots(db) && Guilds(db) && Schedules(db, after)
    ensures Snapshots(after) && Guilds(after)
  {
    forall e | e in db.finals ensures SnapshotOk(after, e, db.finals[e]) {
      assert SnapshotOk(db, e, db.finals[e]);
    }
    forall e | e in db.guildFinals && e in db.locked ensures GuildsOk(after, e, db.guildFinals[e], db.locked[e]) {
      ScheduleGuilds(db, after, e, db.guildFinals[e], db.locked[e]);
    }
  }

  lemma ScheduleDbOk(db: Db, after: Db)
    requires DbOk(db) && Schedules(db, after)
    ensures DbOk(after)
  {
    ScheduleShape(db, after);
    ScheduleSnapshots(db, after);
  }

  lemma ScheduleLocal(db: Db, after: Db, tx: Tx)
    requires DbOk(db) && Schedules(db, after) && Local(db, tx)
    ensures Local(after, tx)
  {
    ScheduleTxOk(db, after, tx);
    if tx.Complete? && tx.guilds.Some? {
      ScheduleGuilds(db, after, tx.event, tx.guilds.value, tx.writes.Keys);
    }
    if tx.Complete? && (tx.cpc == Captured || tx.cpc == Tallied) {
      assert SnapshotOk(db, tx.event, tx.finals);
    }
  }

  lemma ScheduleTxOk(db: Db, after: Db, tx: Tx)
    requires Shape(db) && Schedules(db, after)
    requires TxOk(db, tx) && VersionsOk(db, tx) && MarkedOk(db, tx) && PlacedOk(db, tx)
    ensures TxOk(after, tx) && VersionsOk(after, tx) && MarkedOk(after, tx) && PlacedOk(after, tx)
  {
  }

  lemma ScheduleKeeps(s: State, after: Db)
    requires Inv(s) && Schedules(s.db, after)
    ensures Inv(s.(db := after))
  {
    ScheduleDbOk(s.db, after);
    forall t | t in s.txs ensures Local(after, s.txs[t]) {
      ScheduleLocal(s.db, after, s.txs[t]);
    }
    DbKeeps(s, after);
  }
}
