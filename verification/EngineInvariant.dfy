/** What every reachable state of the engine satisfies: a property of the committed tables, a property of each open
    transaction against the tables, and a property of each pair of open transactions. */
module EngineInvariant {
  import opened Tables
  import opened Ranking
  import opened Sums
  import opened Engine

  // ---- the committed tables ----

  ghost predicate Shape(db: Db) {
    && (forall r | r in db.rooms :: db.rooms[r] in db.events)
    && (forall k | k in db.players :: k.room in db.rooms)
    && (forall i | i in db.subs :: db.subs[i].key.room in db.rooms)
    && (forall i | i in db.subs && db.subs[i].status.Accepted? :: db.subs[i].phase == Handled)
  }

  /** Per player, problem and room at most one submission is accepted. */
  ghost predicate AcceptedOnce(subs: map<Id, Submission>) {
    forall i, j | i in subs && j in subs && i != j && subs[i].status.Accepted? && subs[j].status.Accepted? ::
      !SameProblem(subs[i], subs[j])
  }

  ghost predicate OnTime(db: Db, k: Key, at: int) {
    k.room in db.rooms && db.rooms[k.room] in db.events && at <= db.events[db.rooms[k.room]].endDate
  }

  ghost predicate AwardOk(db: Db, a: Award) {
    && a.sub in db.subs && db.subs[a.sub].status == Accepted(true)
    && db.subs[a.sub].key == a.key && db.subs[a.sub].points == a.points
    && a.key in db.players
    && OnTime(db, a.key, a.startedAt)
  }

  ghost predicate InLedger(ledger: seq<Award>, id: Id) {
    exists n :: 0 <= n < |ledger| && ledger[n].sub == id
  }

  /** Scores are the recorded points: each row's score is what the ledger holds for it, and the ledger holds each
      credited acceptance exactly once. */
  ghost predicate Books(db: Db) {
    && (forall k | k in db.players :: db.players[k].score == Total(db.ledger, k))
    && (forall k | k !in db.players :: Total(db.ledger, k) == 0)
    && (forall n | 0 <= n < |db.ledger| :: AwardOk(db, db.ledger[n]))
    && (forall m, n | 0 <= m < n < |db.ledger| :: db.ledger[m].sub != db.ledger[n].sub)
    && (forall i | i in db.subs && db.subs[i].status == Accepted(true) :: InLedger(db.ledger, i))
  }

  /** `order` is the room's board: the rows with a place, best first, places 1, 2, ... in that order. The rows
      without a place have score zero. */
  ghost predicate Board(players: map<Key, Player>, r: Id, order: seq<Key>) {
    && (forall i | 0 <= i < |order| ::
          order[i] in players && order[i].room == r && players[order[i]].place == Some(i + 1))
    && (forall k | k in players && k.room == r && k !in order :: players[k].place == None && players[k].score == 0)
    && (forall i, j | 0 <= i < j < |order| :: players[order[i]].score >= players[order[j]].score)
  }

  ghost predicate WellRanked(players: map<Key, Player>, r: Id) {
    exists order :: Board(players, r, order)
  }

  ghost predicate Boards(db: Db) {
    forall r | r in db.rooms :: WellRanked(db.players, r)
  }

  /** The entries of a player snapshot are distinct rows of the event, numbered 1, 2, ... in ROW_NUMBER order. */
  ghost predicate SnapshotOk(db: Db, e: Id, finals: seq<Final>) {
    && (forall i, j | 0 <= i < j < |finals| :: finals[i].key != finals[j].key)
    && (forall i | 0 <= i < |finals| ::
          && finals[i].key in db.players && finals[i].key.room in db.rooms && db.rooms[finals[i].key.room] == e
          && finals[i].rank == i + 1 && finals[i].sortBy.score == finals[i].score)
    && (forall i, j | 0 <= i < j < |finals| :: Before(finals[i].sortBy, finals[j].sortBy))
  }

  ghost predicate Listed(finals: seq<Final>, k: Key) {
    exists i :: 0 <= i < |finals| && finals[i].key == k
  }

  /** A room is sealed by a set of locked rows when one of its rows is among them. */
  ghost predicate Sealed(locked: set<Key>, r: Id) {
    exists k :: k in locked && k.room == r
  }

  /** In sealed rooms the snapshot is exact: each entry shows the stored score, and a row that is not in the
      snapshot has score zero. Every locked row is in the snapshot. */
  ghost predicate Exact(players: map<Key, Player>, finals: seq<Final>, locked: set<Key>) {
    && (forall k | k in locked :: Listed(finals, k))
    && (forall i | 0 <= i < |finals| && Sealed(locked, finals[i].key.room) ::
          finals[i].key in players && players[finals[i].key].score == finals[i].score)
    && (forall k | k in players && Sealed(locked, k.room) && !Listed(finals, k) :: players[k].score == 0)
  }

  /** An event is completed exactly when it has a player snapshot. */
  ghost predicate Snapshots(db: Db) {
    && db.locked.Keys == db.finals.Keys
    && db.guildFinals.Keys <= db.finals.Keys <= db.events.Keys
    && (forall e | e in db.events :: db.events[e].status == Completed <==> e in db.finals)
    && (forall e | e in db.finals ::
          SnapshotOk(db, e, db.finals[e]) && Exact(db.players, db.finals[e], db.locked[e]))
  }

  ghost predicate AllSealed(rooms: map<Id, Id>, e: Id, locked: set<Key>) {
    forall r | r in rooms && rooms[r] == e :: Sealed(locked, r)
  }

  ghost predicate GuildListed(gs: seq<GuildFinal>, g: Id) {
    exists i :: 0 <= i < |gs| && gs[i].guild == g
  }

  /** Each guild's total is the sum of the stored scores of its players in the event; guilds left out have none. */
  ghost predicate TotalsExact(players: map<Key, Player>, rooms: map<Id, Id>, e: Id, gs: seq<GuildFinal>) {
    var rows := EventRows(players, rooms, e);
    && (forall i | 0 <= i < |gs| :: gs[i].total == ScoreSum(players, OfGuild(players, rows, gs[i].guild)))
    && (forall k | k in rows && !GuildListed(gs, players[k].guild) :: players[k].score == 0)
  }

  ghost predicate GuildOrder(gs: seq<GuildFinal>) {
    && (forall i, j | 0 <= i < j < |gs| :: gs[i].guild != gs[j].guild)
    && (forall i | 0 <= i < |gs| :: gs[i].rank == i + 1 && gs[i].sortBy.score == gs[i].total)
    && (forall i, j | 0 <= i < j < |gs| :: Before(gs[i].sortBy, gs[j].sortBy))
  }

  ghost predicate GuildsOk(db: Db, e: Id, gs: seq<GuildFinal>, locked: set<Key>) {
    GuildOrder(gs) && (AllSealed(db.rooms, e, locked) ==> TotalsExact(db.players, db.rooms, e, gs))
  }

  ghost predicate Guilds(db: Db) {
    forall e | e in db.guildFinals && e in db.locked :: GuildsOk(db, e, db.guildFinals[e], db.locked[e])
  }

  ghost predicate DbOk(db: Db) {
    Shape(db) && AcceptedOnce(db.subs) && Books(db) && Boards(db) && Snapshots(db) && Guilds(db)
  }

  // ---- one transaction ----

  ghost predicate TxOk(db: Db, tx: Tx) {
    && tx.writes.Keys <= db.players.Keys
    && match tx
       case Score(id, at, pc, credited, writes) =>
         && id in db.subs && db.subs[id].phase == Handled && !db.subs[id].status.Accepted?
         && (forall k | k in writes :: k.room == db.subs[id].key.room)
         && (credited ==> db.subs[id].key in writes)
         && (pc == Begun || pc == Checked ==> writes == map[] && !credited)
         && (pc == Added ==> forall k | k in writes :: k == db.subs[id].key && credited)
       case Rerank(r, placed, writes) =>
         && r in db.rooms
         && (!placed ==> writes == map[])
         && (forall k | k in writes :: k.room == r)
       case Complete(e, pc, writes, finals, guilds) =>
         && e in db.events
         && (pc != Opened ==> db.events[e].status == Active)
         && (pc == Opened || pc == Swapped ==> writes == map[])
         && (forall k | k in writes :: k.room in db.rooms && db.rooms[k.room] == e)
         && (guilds.Some? ==> pc == Tallied)
  }

  ghost function Credit(db: Db, tx: Tx, k: Key): int {
    if tx.Score? && tx.credited && tx.sub in db.subs && db.subs[tx.sub].key == k then db.subs[tx.sub].points else 0
  }

  /** An uncommitted version differs from the committed row by the points being added, if any; a completion's
      versions also keep the place. */
  ghost predicate VersionsOk(db: Db, tx: Tx) {
    forall k | k in tx.writes && k in db.players ::
      && tx.writes[k].guild == db.players[k].guild
      && tx.writes[k].joinedAt == db.players[k].joinedAt
      && tx.writes[k].score == db.players[k].score + Credit(db, tx, k)
      && (tx.Complete? ==> tx.writes[k].place == db.players[k].place)
  }

  /** Once past the trigger and the unique index: in time, no accepted duplicate, and no sealed room of a
      completed event if points are at stake. */
  ghost predicate MarkedOk(db: Db, tx: Tx) {
    tx.Score? && tx.spc == Marked && tx.sub in db.subs ==>
      var sub := db.subs[tx.sub];
      && OnTime(db, sub.key, tx.startedAt)
      && (forall j | j in db.subs && db.subs[j].status.Accepted? :: !SameProblem(db.subs[j], sub))
      && (tx.credited && sub.key.room in db.rooms && db.rooms[sub.key.room] in db.locked ==>
            !Sealed(db.locked[db.rooms[sub.key.room]], sub.key.room))
  }

  /** The transaction's ranking statement has run on room `r`. */
  ghost predicate RankedIn(subs: map<Id, Submission>, tx: Tx, r: Id) {
    match tx
    case Score(id, at, pc, credited, writes) =>
      id in subs && subs[id].key.room == r && (pc == Placed || pc == Marked)
    case Rerank(r', placed, writes) => r' == r && placed
    case Complete(_, _, _, _, _) => false
  }

  ghost predicate PlacedOk(db: Db, tx: Tx) {
    forall r | RankedIn(db.subs, tx, r) :: WellRanked(View(db.players, tx.writes), r)
  }

  ghost predicate CapturedOk(db: Db, tx: Tx) {
    tx.Complete? && (tx.cpc == Captured || tx.cpc == Tallied) ==>
      SnapshotOk(db, tx.event, tx.finals) && Exact(db.players, tx.finals, tx.writes.Keys)
  }

  ghost predicate TalliedOk(db: Db, tx: Tx) {
    tx.Complete? && tx.guilds.Some? ==> GuildsOk(db, tx.event, tx.guilds.value, tx.writes.Keys)
  }

  ghost predicate Local(db: Db, tx: Tx) {
    && TxOk(db, tx) && VersionsOk(db, tx) && MarkedOk(db, tx)
    && PlacedOk(db, tx) && CapturedOk(db, tx) && TalliedOk(db, tx)
  }

  // ---- two transactions ----

  ghost predicate HoldsRowIn(tx: Tx, r: Id) {
    exists k :: k in tx.writes && k.room == r
  }

  ghost predicate MarkedSub(subs: map<Id, Submission>, tx: Tx) {
    tx.Score? && tx.spc == Marked && tx.sub in subs
  }

  ghost predicate Pair(subs: map<Id, Submission>, a: Tx, b: Tx) {
    // no row is locked twice
    && a.writes.Keys !! b.writes.Keys
    // a transaction that ranked a room while it had rows keeps other rankings and completions out of the room
    && (forall r | RankedIn(subs, a, r) && (RankedIn(subs, b, r) || b.Complete?) ::
          a.writes == map[] || !HoldsRowIn(b, r))
    // at most one completion of an event is past its compare-and-swap
    && (a.Complete? && b.Complete? && a.event == b.event ==> a.cpc == Opened || b.cpc == Opened)
    // no submission is scored twice, no two transactions have accepted the same problem
    && (a.Score? && b.Score? ==> a.sub != b.sub)
    && (MarkedSub(subs, a) && MarkedSub(subs, b) ==> !SameProblem(subs[a.sub], subs[b.sub]))
  }

  // ---- the invariant ----

  ghost predicate Inv(s: State) {
    && DbOk(s.db)
    && (forall t | t in s.txs :: Local(s.db, s.txs[t]))
    && (forall t, u | t in s.txs && u in s.txs && t != u :: Pair(s.db.subs, s.txs[t], s.txs[u]))
  }

  lemma InitInv(s: State)
    requires Init(s)
    ensures Inv(s)
  {
  }
}
