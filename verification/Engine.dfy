/** The live code-battle engine as a state machine: service instances run scoring, re-ranking and completion
    transactions against one database at READ COMMITTED.

    A transaction keeps its uncommitted row versions in `writes`. Every statement that locks a player row also
    writes it, so a transaction holds the lock of a row exactly when the row is in its `writes`. A statement is
    one step, taken when the locks it needs are free; it reads the committed rows overlaid with its own. */
module Engine {
  import opened Tables
  import opened Ranking
  import opened Sums

  /** COALESCE target of the ranking statements, 9999-12-31: never-accepted players sort last. All times are in
      microseconds since 1970. */
  const FAR_FUTURE: int := 253_402_214_400_000_000

  /** A `leaderboard_entries` row. The table keeps the user, the rank and the score; the model also keeps the
      player row it was read from and the key it was ordered by. */
  datatype Final = Final(key: Key, rank: nat, score: int, sortBy: RankKey)

  /** A `guild_leaderboard_entries` row, with its sort key. */
  datatype GuildFinal = GuildFinal(guild: Id, rank: nat, total: int, sortBy: RankKey)

  datatype Db = Db(
    events: map<Id, Event>,
    rooms: map<Id, Id>,                         // room -> event
    joined: map<Id, map<Id, int>>,              // event -> guild -> joined_at
    entrants: set<Pass>,                        // the guild is assigned to the room, the user selected for it
    offers: map<Id, map<Id, int>>,              // event -> problem -> score
    players: map<Key, Player>,
    subs: map<Id, Submission>,
    finals: map<Id, seq<Final>>,
    guildFinals: map<Id, seq<GuildFinal>>,
    ledger: seq<Award>,                         // history: every award of points to a row
    locked: map<Id, set<Key>>)                  // history: the rows a completed event's completion locked

  datatype ScorePc = Begun | Checked | Added | Placed | Marked
  datatype CompletePc = Opened | Swapped | Locked | Captured | Tallied

  datatype Tx =
    | Score(sub: Id, startedAt: int, spc: ScorePc, credited: bool, writes: map<Key, Player>)
    | Rerank(room: Id, placed: bool, writes: map<Key, Player>)
    | Complete(event: Id, cpc: CompletePc, writes: map<Key, Player>, finals: seq<Final>,
               guilds: Option<seq<GuildFinal>>)

  /** `passes` are the joins that were let through and whose row is not inserted yet. */
  datatype State = State(db: Db, txs: map<Id, Tx>, passes: set<Pass>, now: int)

  // ---- reading ----

  /** The committed rows as a transaction with these uncommitted versions sees them. */
  function View(players: map<Key, Player>, writes: map<Key, Player>): map<Key, Player> {
    players + writes
  }

  ghost function RoomRows(players: map<Key, Player>, r: Id): set<Key> {
    set k | k in players && k.room == r
  }

  ghost function EventRows(players: map<Key, Player>, rooms: map<Id, Id>, e: Id): set<Key> {
    set k | k in players && k.room in rooms && rooms[k.room] == e
  }

  /** COALESCE(MAX(submitted_at), far future) over the accepted submissions of these rows. */
  ghost function LastAccepted(subs: map<Id, Submission>, rows: set<Key>): int {
    var accepted := set i | i in subs && subs[i].key in rows && subs[i].status.Accepted? :: subs[i];
    if accepted == {} then FAR_FUTURE else Latest(accepted)
  }

  ghost function RowKeys(view: map<Key, Player>, subs: map<Id, Submission>, rows: set<Key>): (m: map<Key, RankKey>)
    requires rows <= view.Keys
    ensures m.Keys == rows
  {
    map k | k in rows :: RankKey(view[k].score, LastAccepted(subs, {k}), view[k].joinedAt)
  }

  ghost function GuildKeys(db: Db, view: map<Key, Player>, e: Id): (m: map<Id, RankKey>) {
    var rows := EventRows(view, db.rooms, e);
    map g | g in (set k | k in rows :: view[k].guild) ::
      RankKey(ScoreSum(view, OfGuild(view, rows, g)), LastAccepted(db.subs, OfGuild(view, rows, g)),
              GuildJoined(db, e, g))
  }

  /** joined_at of the LEFT JOINed participant; a missing one sorts last. */
  function GuildJoined(db: Db, e: Id, g: Id): int {
    if e in db.joined && g in db.joined[e] then db.joined[e][g] else FAR_FUTURE
  }

  // ---- writing ----

  /** UPDATE ... SET place = new_place over the numbered rows. */
  ghost function WithPlaces(view: map<Key, Player>, order: seq<Key>): (m: map<Key, Player>)
    requires forall i | 0 <= i < |order| :: order[i] in view
    ensures forall k :: k in m <==> k in order
  {
    map k | k in order :: view[k].(place := Some(IndexOf(order, k) + 1))
  }

  function StateOnComplete(st: PlayerState): PlayerState {
    if st == Present then Finished else if st == Disconnected then Left else st
  }

  ghost function Snapshot(view: map<Key, Player>, keys: map<Key, RankKey>, order: seq<Key>): seq<Final>
    requires forall i | 0 <= i < |order| :: order[i] in view && order[i] in keys
  {
    seq(|order|, i requires 0 <= i < |order| => Final(order[i], i + 1, view[order[i]].score, keys[order[i]]))
  }

  ghost function GuildSnapshot(keys: map<Id, RankKey>, order: seq<Id>): seq<GuildFinal>
    requires forall i | 0 <= i < |order| :: order[i] in keys
  {
    seq(|order|, i requires 0 <= i < |order| => GuildFinal(order[i], i + 1, keys[order[i]].score, keys[order[i]]))
  }

  // ---- locks ----

  /** No transaction other than `t` holds the lock of one of these rows. */
  ghost predicate Free(txs: map<Id, Tx>, t: Id, rows: set<Key>) {
    forall u | u in txs && u != t :: txs[u].writes.Keys !! rows
  }

  ghost predicate SameProblem(a: Submission, b: Submission) {
    a.key == b.key && a.problem == b.problem
  }

  /** The partial unique index lets `id` become accepted: no accepted row has its key, and no other transaction
      has one uncommitted (this one would wait for it). */
  ghost predicate IndexAllows(s: State, t: Id, id: Id)
    requires id in s.db.subs
  {
    && (forall j | j in s.db.subs && s.db.subs[j].status.Accepted? :: !SameProblem(s.db.subs[j], s.db.subs[id]))
    && (forall u | u in s.txs && u != t && s.txs[u].Score? && s.txs[u].spc == Marked && s.txs[u].sub in s.db.subs ::
          !SameProblem(s.db.subs[s.txs[u].sub], s.db.subs[id]))
  }

  /** The accept-time trigger: the room's event, as committed, is active and NOW(), the start of the
      transaction, is not after its end date. */
  ghost predicate TriggerAllows(db: Db, id: Id, startedAt: int)
    requires id in db.subs
  {
    var r := db.subs[id].key.room;
    && r in db.rooms && db.rooms[r] in db.events
    && db.events[db.rooms[r]].status == Active
    && startedAt <= db.events[db.rooms[r]].endDate
  }

  // ---- steps ----

  /** A participant at activation: when it joined, the room it is assigned to, the members selected for it. */
  datatype Guild = Guild(joinedAt: int, room: Id, members: set<Id>)

  function NewRooms(guilds: map<Id, Guild>): set<Id> {
    set g | g in guilds :: guilds[g].room
  }

  function RoomsOf(e: Id, guilds: map<Id, Guild>): map<Id, Id> {
    map r | r in NewRooms(guilds) :: e
  }

  function JoinedAt(guilds: map<Id, Guild>): map<Id, int> {
    map g | g in guilds :: guilds[g].joinedAt
  }

  function NewEntrants(guilds: map<Id, Guild>): set<Pass> {
    set g, u | g in guilds && u in guilds[g].members :: Pass(g, Key(guilds[g].room, u))
  }

  /** The event of the room is on. */
  predicate InTime(db: Db, r: Id, at: int) {
    && r in db.rooms && db.rooms[r] in db.events
    && db.events[db.rooms[r]].startDate <= at <= db.events[db.rooms[r]].endDate
  }

  datatype Step =
    | Tick(to: int)
    | Approve(e: Id, startDate: int, endDate: int)
    | Activate(e: Id, guilds: map<Id, Guild>, problems: map<Id, int>)
    | CheckJoin(p: Pass)                        // the guards of the join request, then the message
    | Join(p: Pass)                             // the room's goroutine inserts the row
    | DropPass(p: Pass)
    | SetState(k: Key, st: PlayerState)
    | Submit(id: Id, e: Id, k: Key, problem: Id)    // the guards of the submit request, then the message
    | Record(id: Id)                            // the room's goroutine inserts the submission
    | Clear(id: Id)
    | Dismiss(id: Id, wrong: bool)
    | BeginScore(t: Id, id: Id)
    | BeginRerank(t: Id, r: Id)
    | BeginComplete(t: Id, e: Id)
    | Check(t: Id)
    | Add(t: Id)
    | Place(t: Id, order: seq<Key>)
    | Mark(t: Id)
    | Swap(t: Id)
    | Lock(t: Id)
    | Capture(t: Id, order: seq<Key>)
    | Tally(t: Id, guildOrder: seq<Id>)
    | SkipTally(t: Id)
    | CommitScore(t: Id)
    | CommitRerank(t: Id)
    | CommitComplete(t: Id)
    | Abort(t: Id)

  /** The room whose rows a scoring or re-ranking transaction works on. */
  function RoomOf(db: Db, tx: Tx): Id
    requires !tx.Complete? && (tx.Score? ==> tx.sub in db.subs)
  {
    if tx.Score? then db.subs[tx.sub].key.room else tx.room
  }

  ghost predicate ScoreAt(s: State, t: Id, pc: ScorePc) {
    t in s.txs && s.txs[t].Score? && s.txs[t].spc == pc && s.txs[t].sub in s.db.subs
  }

  ghost predicate CompleteAt(s: State, t: Id, pc: CompletePc) {
    t in s.txs && s.txs[t].Complete? && s.txs[t].cpc == pc && s.txs[t].event in s.db.events
  }

  /** The ranking statement may run: after the points in a scoring transaction, first in a re-ranking one. */
  ghost predicate PlaceReady(s: State, t: Id) {
    ScoreAt(s, t, Added) || (t in s.txs && s.txs[t].Rerank? && !s.txs[t].placed)
  }

  ghost predicate CanPlace(s: State, t: Id, order: seq<Key>) {
    && PlaceReady(s, t)
    && var view := View(s.db.players, s.txs[t].writes);
    && var rows := RoomRows(view, RoomOf(s.db, s.txs[t]));
    && Free(s.txs, t, rows)
    && Numbers(order, RowKeys(view, s.db.subs, rows))
  }

  ghost predicate CanAdd(s: State, t: Id) {
    && ScoreAt(s, t, Checked)
    && var sub := s.db.subs[s.txs[t].sub];
    && (sub.key in s.db.players ==>
          Free(s.txs, t, {sub.key}) && InInt32(s.db.players[sub.key].score + sub.points))
  }

  ghost predicate CanCapture(s: State, t: Id, order: seq<Key>) {
    && CompleteAt(s, t, Locked)
    && var view := View(s.db.players, s.txs[t].writes);
    && Numbers(order, RowKeys(view, s.db.subs, EventRows(view, s.db.rooms, s.txs[t].event)))
  }

  ghost predicate CanTally(s: State, t: Id, order: seq<Id>) {
    && CompleteAt(s, t, Captured)
    && Numbers(order, GuildKeys(s.db, View(s.db.players, s.txs[t].writes), s.txs[t].event))
  }

  ghost predicate Can(s: State, step: Step) {
    match step
    case Tick(to) => s.now <= to
    case Approve(e, startDate, endDate) => e !in s.db.events && startDate <= endDate
    case Activate(e, guilds, problems) =>
      && e in s.db.events && s.db.events[e].status == Pending
      && NewRooms(guilds) !! s.db.rooms.Keys
      && (guilds == map[] ==> problems == map[])
    case CheckJoin(p) => p in s.db.entrants && InTime(s.db, p.key.room, s.now)
    case Join(p) => p in s.passes && p.key.room in s.db.rooms && p.key !in s.db.players
    case DropPass(p) => p in s.passes
    case SetState(k, st) => k in s.db.players && forall u | u in s.txs :: k !in s.txs[u].writes
    case Submit(id, e, k, problem) =>
      && id !in s.db.subs && k.room in s.db.rooms
      && e in s.db.events && s.db.events[e].status == Active && s.now <= s.db.events[e].endDate
      && e in s.db.offers && problem in s.db.offers[e]
    case Record(id) => id in s.db.subs && s.db.subs[id].phase == Sent
    case Clear(id) =>
      && id in s.db.subs && s.db.subs[id].phase == Queued && s.db.subs[id].key.room in s.db.rooms
      && var e := s.db.rooms[s.db.subs[id].key.room]; e in s.db.events && s.db.events[e].status == Active
    case Dismiss(id, wrong) => id in s.db.subs && s.db.subs[id].phase == Queued
    case BeginScore(t, id) => t !in s.txs && id in s.db.subs && s.db.subs[id].phase == Cleared
    case BeginRerank(t, r) => t !in s.txs && r in s.db.rooms
    case BeginComplete(t, e) => t !in s.txs && e in s.db.events
    case Check(t) =>
      && ScoreAt(s, t, Begun)
      && forall j | j in s.db.subs && s.db.subs[j].status.Accepted? ::
           !SameProblem(s.db.subs[j], s.db.subs[s.txs[t].sub])
    case Add(t) => CanAdd(s, t)
    case Place(t, order) => CanPlace(s, t, order)
    case Mark(t) =>
      && ScoreAt(s, t, Placed)
      && TriggerAllows(s.db, s.txs[t].sub, s.txs[t].startedAt)
      && IndexAllows(s, t, s.txs[t].sub)
    case Swap(t) =>
      && CompleteAt(s, t, Opened)
      && s.db.events[s.txs[t].event].status == Active
      && forall u | u in s.txs && u != t && s.txs[u].Complete? && s.txs[u].event == s.txs[t].event ::
           s.txs[u].cpc == Opened
    case Lock(t) => CompleteAt(s, t, Swapped) && Free(s.txs, t, EventRows(s.db.players, s.db.rooms, s.txs[t].event))
    case Capture(t, order) => CanCapture(s, t, order)
    case Tally(t, order) => CanTally(s, t, order)
    case SkipTally(t) => CompleteAt(s, t, Captured)
    case CommitScore(t) => ScoreAt(s, t, Marked)
    case CommitRerank(t) => t in s.txs && s.txs[t].Rerank? && s.txs[t].placed
    case CommitComplete(t) => CompleteAt(s, t, Tallied)
    case Abort(t) => t in s.txs
  }

  ghost function SetTx(s: State, t: Id, tx: Tx): State {
    s.(txs := s.txs[t := tx])
  }

  ghost function SetSub(s: State, id: Id, sub: Submission): State {
    s.(db := s.db.(subs := s.db.subs[id := sub]))
  }

  ghost function DoAdd(s: State, t: Id): State
    requires CanAdd(s, t)
  {
    var tx := s.txs[t];
    var sub := s.db.subs[tx.sub];
    if sub.key in s.db.players then
      var row := s.db.players[sub.key];
      SetTx(s, t, tx.(spc := Added, credited := true,
                      writes := tx.writes[sub.key := row.(score := row.score + sub.points)]))
    else
      SetTx(s, t, tx.(spc := Added))
  }

  ghost function DoPlace(s: State, t: Id, order: seq<Key>): State
    requires CanPlace(s, t, order)
  {
    var tx := s.txs[t];
    var w := tx.writes + WithPlaces(View(s.db.players, tx.writes), order);
    SetTx(s, t, if tx.Score? then tx.(spc := Placed, writes := w) else tx.(placed := true, writes := w))
  }

  ghost function LockedVersions(db: Db, e: Id): map<Key, Player> {
    map k | k in EventRows(db.players, db.rooms, e) :: db.players[k].(state := StateOnComplete(db.players[k].state))
  }

  ghost function DoCapture(s: State, t: Id, order: seq<Key>): State
    requires CanCapture(s, t, order)
  {
    var view := View(s.db.players, s.txs[t].writes);
    var keys := RowKeys(view, s.db.subs, EventRows(view, s.db.rooms, s.txs[t].event));
    SetTx(s, t, s.txs[t].(cpc := Captured, finals := Snapshot(view, keys, order)))
  }

  ghost function DoTally(s: State, t: Id, order: seq<Id>): State
    requires CanTally(s, t, order)
  {
    var keys := GuildKeys(s.db, View(s.db.players, s.txs[t].writes), s.txs[t].event);
    SetTx(s, t, s.txs[t].(cpc := Tallied, guilds := Some(GuildSnapshot(keys, order))))
  }

  /** COMMIT of a scoring transaction: its row versions, the acceptance, and the ledger entry if points moved. */
  ghost function ScoreCommitted(db: Db, tx: Tx): Db
    requires tx.Score? && tx.sub in db.subs
  {
    var sub := db.subs[tx.sub];
    db.(players := View(db.players, tx.writes),
        subs := db.subs[tx.sub := sub.(status := Accepted(tx.credited))],
        ledger := if tx.credited then db.ledger + [Award(tx.sub, sub.key, sub.points, tx.startedAt)] else db.ledger)
  }

  /** COMMIT of a completion, apart from its row versions: the status and both snapshots. */
  ghost function EventFinished(db: Db, tx: Tx): Db
    requires tx.Complete? && tx.event in db.events
  {
    db.(events := db.events[tx.event := db.events[tx.event].(status := Completed)],
        finals := db.finals[tx.event := tx.finals],
        guildFinals := if tx.guilds.Some? then db.guildFinals[tx.event := tx.guilds.value] else db.guildFinals,
        locked := db.locked[tx.event := tx.writes.Keys])
  }

  ghost function RowsCommitted(db: Db, tx: Tx): Db {
    db.(players := View(db.players, tx.writes))
  }

  /** COMMIT of an activation. */
  function Activated(db: Db, e: Id, guilds: map<Id, Guild>, problems: map<Id, int>): Db
    requires e in db.events
  {
    db.(events := db.events[e := db.events[e].(status := Active)],
        rooms := db.rooms + RoomsOf(e, guilds),
        joined := db.joined[e := JoinedAt(guilds)],
        entrants := db.entrants + NewEntrants(guilds),
        offers := db.offers[e := problems])
  }

  ghost function Do(s: State, step: Step): State
    requires Can(s, step)
  {
    match step
    case Tick(to) => s.(now := to)
    case Approve(e, startDate, endDate) =>
      s.(db := s.db.(events := s.db.events[e := Event(Pending, startDate, endDate)]))
    case Activate(e, guilds, problems) => s.(db := Activated(s.db, e, guilds, problems))
    case CheckJoin(p) => s.(passes := s.passes + {p})
    case Join(p) =>
      s.(passes := s.passes - {p},
         db := s.db.(players := s.db.players[p.key := Player(p.guild, 0, None, s.now, Present)]))
    case DropPass(p) => s.(passes := s.passes - {p})
    case SetState(k, st) => s.(db := s.db.(players := s.db.players[k := s.db.players[k].(state := st)]))
    case Submit(id, e, k, problem) =>
      SetSub(s, id, Submission(k, problem, s.db.offers[e][problem], s.now, Waiting, Sent))
    case Record(id) => SetSub(s, id, s.db.subs[id].(submittedAt := s.now, phase := Queued))
    case Clear(id) => SetSub(s, id, s.db.subs[id].(phase := Cleared))
    case Dismiss(id, wrong) =>
      SetSub(s, id, s.db.subs[id].(status := if wrong then WrongAnswer else Waiting, phase := Handled))
    case BeginScore(t, id) =>
      SetTx(SetSub(s, id, s.db.subs[id].(phase := Handled)), t, Score(id, s.now, Begun, false, map[]))
    case BeginRerank(t, r) => SetTx(s, t, Rerank(r, false, map[]))
    case BeginComplete(t, e) => SetTx(s, t, Complete(e, Opened, map[], [], None))
    case Check(t) => SetTx(s, t, s.txs[t].(spc := Checked))
    case Add(t) => DoAdd(s, t)
    case Place(t, order) => DoPlace(s, t, order)
    case Mark(t) => SetTx(s, t, s.txs[t].(spc := Marked))
    case Swap(t) => SetTx(s, t, s.txs[t].(cpc := Swapped))
    case Lock(t) => SetTx(s, t, s.txs[t].(cpc := Locked, writes := LockedVersions(s.db, s.txs[t].event)))
    case Capture(t, order) => DoCapture(s, t, order)
    case Tally(t, order) => DoTally(s, t, order)
    case SkipTally(t) => SetTx(s, t, s.txs[t].(cpc := Tallied))
    case CommitScore(t) => s.(db := ScoreCommitted(s.db, s.txs[t]), txs := s.txs - {t})
    case CommitRerank(t) => s.(db := RowsCommitted(s.db, s.txs[t]), txs := s.txs - {t})
    case CommitComplete(t) =>
      s.(db := EventFinished(RowsCommitted(s.db, s.txs[t]), s.txs[t]), txs := s.txs - {t})
    case Abort(t) => s.(txs := s.txs - {t})
  }

  ghost predicate Init(s: State) {
    && s.db == Db(map[], map[], map[], {}, map[], map[], map[], map[], map[], [], map[])
    && s.txs == map[] && s.passes == {}
  }

  /** A run: the states before, between and after these steps. */
  ghost predicate IsRun(states: seq<State>, steps: seq<Step>) {
    && |states| == |steps| + 1
    && Init(states[0])
    && forall i {:trigger steps[i]} | 0 <= i < |steps| ::
         Can(states[i], steps[i]) && states[i + 1] == Do(states[i], steps[i])
  }
}
