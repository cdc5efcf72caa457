/** What the engine promises, over every run: points once, frozen results, exact boards, one snapshot per completed
    event, and conservation between the player rows, both snapshots and the points ever awarded. */
module EngineTheorems {
  import opened Tables
  import opened Ranking
  import opened Sums
  import opened Engine
  import opened EngineInvariant
  import opened EngineTxSteps
  import opened EngineRuns
  import opened EngineAdmission

  // ---- points are awarded exactly once ----

  ghost function SubPoints(subs: map<Id, Submission>, ids: set<Id>): int
    requires ids <= subs.Keys
  {
    if ids == {} then 0
    else var i :| i in ids; subs[i].points + SubPoints(subs, ids - {i})
  }

  lemma {:induction false} SubPointsRemove(subs: map<Id, Submission>, ids: set<Id>, i: Id)
    requires ids <= subs.Keys && i in ids
    ensures SubPoints(subs, ids) == subs[i].points + SubPoints(subs, ids - {i})
    decreases |ids|
  {
    var j :| j in ids && SubPoints(subs, ids) == subs[j].points + SubPoints(subs, ids - {j});
    if j != i {
      SubPointsRemove(subs, ids - {j}, i);
      SubPointsRemove(subs, ids - {i}, j);
      assert ids - {j} - {i} == ids - {i} - {j};
    }
  }

  /** The accepted submissions of a row whose points reached it. */
  ghost function CreditedSubs(subs: map<Id, Submission>, k: Key): set<Id> {
    set i | i in subs && subs[i].key == k && subs[i].status == Accepted(true)
  }

  ghost function LedgerSubs(ledger: seq<Award>, k: Key): set<Id> {
    set n | 0 <= n < |ledger| && ledger[n].key == k :: ledger[n].sub
  }

  lemma {:induction false} LedgerPoints(subs: map<Id, Submission>, ledger: seq<Award>, k: Key)
    requires forall n | 0 <= n < |ledger| :: ledger[n].sub in subs && subs[ledger[n].sub].points == ledger[n].points
    requires forall m, n | 0 <= m < n < |ledger| :: ledger[m].sub != ledger[n].sub
    ensures LedgerSubs(ledger, k) <= subs.Keys
    ensures Total(ledger, k) == SubPoints(subs, LedgerSubs(ledger, k))
  {
    if ledger != [] {
      var rest, a := ledger[..|ledger| - 1], ledger[|ledger| - 1];
      LedgerPoints(subs, rest, k);
      if a.key == k {
        assert LedgerSubs(ledger, k) == LedgerSubs(rest, k) + {a.sub};
        assert a.sub !in LedgerSubs(rest, k);
        SubPointsRemove(subs, LedgerSubs(ledger, k), a.sub);
        assert LedgerSubs(ledger, k) - {a.sub} == LedgerSubs(rest, k);
      } else {
        assert LedgerSubs(ledger, k) == LedgerSubs(rest, k);
      }
    }
  }

  /** Each score is the sum of the points of the row's credited acceptances, and each of those has its ledger entry. */
  lemma BooksBalance(db: Db)
    requires Books(db) && AcceptedOnce(db.subs)
    ensures forall k | k in db.players :: db.players[k].score == SubPoints(db.subs, CreditedSubs(db.subs, k))
    ensures forall i, j | i in db.subs && j in db.subs && i != j && db.subs[i].status.Accepted?
                          && SameProblem(db.subs[i], db.subs[j]) :: !db.subs[j].status.Accepted?
    ensures forall i | i in db.subs && db.subs[i].status == Accepted(true) ::
              exists a :: a in db.ledger && a.sub == i && a.points == db.subs[i].points
                          && OnTime(db, db.subs[i].key, a.startedAt)
  {
    forall k | k in db.players ensures db.players[k].score == SubPoints(db.subs, CreditedSubs(db.subs, k)) {
      LedgerPoints(db.subs, db.ledger, k);
      CreditedAreLedger(db, k);
    }
    forall i | i in db.subs && db.subs[i].status == Accepted(true)
      ensures exists a :: a in db.ledger && a.sub == i && a.points == db.subs[i].points
                          && OnTime(db, db.subs[i].key, a.startedAt)
    {
      var m :| 0 <= m < |db.ledger| && db.ledger[m].sub == i;
      assert AwardOk(db, db.ledger[m]) && db.ledger[m] in db.ledger;
    }
  }

  lemma CreditedAreLedger(db: Db, k: Key)
    requires Books(db)
    ensures CreditedSubs(db.subs, k) == LedgerSubs(db.ledger, k)
  {
    forall i | i in CreditedSubs(db.subs, k) ensures i in LedgerSubs(db.ledger, k) {
      var m :| 0 <= m < |db.ledger| && db.ledger[m].sub == i;
      assert AwardOk(db, db.ledger[m]);
    }
    forall i | i in LedgerSubs(db.ledger, k) ensures i in CreditedSubs(db.subs, k) {
      var m :| 0 <= m < |db.ledger| && db.ledger[m].key == k && db.ledger[m].sub == i;
      assert AwardOk(db, db.ledger[m]);
    }
  }

  /** An acceptance is never undone, whatever runs afterwards. */
  lemma AcceptanceIsFinal(states: seq<State>, steps: seq<Step>, i: nat, j: nat, id: Id)
    requires IsRun(states, steps) && i <= j < |states|
    requires id in states[i].db.subs && states[i].db.subs[id].status.Accepted?
    ensures id in states[j].db.subs && states[j].db.subs[id] == states[i].db.subs[id]
  {
    RunLater(states, steps, i, j);
  }

  // ---- the result is frozen ----

  /** Once an event is completed, in every room that had a player when the completion took its locks: no score
      changes again, players who join later stay at zero, and a snapshot entry shows the stored score. */
  lemma SealedRoomsFrozen(states: seq<State>, steps: seq<Step>, i: nat, j: nat, e: Id, k: Key)
    requires IsRun(states, steps) && i <= j < |states|
    requires e in states[i].db.events && states[i].db.events[e].status == Completed
    requires k in states[j].db.players && e in states[i].db.locked && Sealed(states[i].db.locked[e], k.room)
    ensures var before, after := states[i].db, states[j].db;
            && after.players[k].score == (if k in before.players then before.players[k].score else 0)
            && e in before.finals && e in after.finals && after.finals[e] == before.finals[e]
            && (forall f | f in after.finals[e] && f.key == k :: f.score == after.players[k].score)
            && (!Listed(after.finals[e], k) ==> after.players[k].score == 0)
  {
    RunInv(states, steps, i);
    RunInv(states, steps, j);
    RunLater(states, steps, i, j);
    SnapshotsAt(states[i]);
    SnapshotsAt(states[j]);
    ExactEntries(states[j].db.players, states[j].db.finals[e], states[j].db.locked[e], k);
  }

  lemma SnapshotsAt(s: State)
    requires Inv(s)
    ensures Snapshots(s.db)
  {
  }

  lemma ExactEntries(players: map<Key, Player>, finals: seq<Final>, locked: set<Key>, k: Key)
    requires Exact(players, finals, locked) && k in players && Sealed(locked, k.room)
    ensures forall f | f in finals && f.key == k :: f.score == players[k].score
    ensures !Listed(finals, k) ==> players[k].score == 0
  {
  }

  /** Transaction `t` is a completion of `e` that holds the locks of the rows in `writes`. */
  ghost predicate Holds(s: State, t: Id, e: Id, writes: map<Key, Player>) {
    && t in s.txs && s.txs[t].Complete? && s.txs[t].cpc != Opened && s.txs[t].cpc != Swapped
    && s.txs[t].event == e && s.txs[t].writes == writes
  }

  /** A completion that has its row locks keeps them until it ends. */
  lemma HeldStep(s: State, step: Step, t: Id, e: Id, writes: map<Key, Player>)
    requires Can(s, step) && Holds(s, t, e, writes) && t in Do(s, step).txs
    ensures Holds(Do(s, step), t, e, writes)
  {
    if IsOutside(step) {
      OutsideHeld(s, step);
    } else if IsCompletion(step) {
      CompletionHeld(s, step, t, e, writes);
    } else {
      InsideHeld(s, step, t);
    }
  }

  lemma OutsideHeld(s: State, step: Step)
    requires Can(s, step) && IsOutside(step)
    ensures Do(s, step).txs == s.txs
  {
  }

  lemma CompletionHeld(s: State, step: Step, t: Id, e: Id, writes: map<Key, Player>)
    requires Can(s, step) && IsCompletion(step) && Holds(s, t, e, writes)
    ensures Holds(Do(s, step), t, e, writes)
  {
  }

  lemma InsideHeld(s: State, step: Step, t: Id)
    requires Can(s, step) && !IsOutside(step) && !IsCompletion(step) && t in s.txs && s.txs[t].Complete?
    ensures t in Do(s, step).txs ==> Do(s, step).txs[t] == s.txs[t]
  {
  }

  lemma LockStep(s: State, t: Id)
    requires Can(s, Lock(t))
    ensures Holds(Do(s, Lock(t)), t, s.txs[t].event, LockedVersions(s.db, s.txs[t].event))
  {
  }

  lemma RunStep(states: seq<State>, steps: seq<Step>, n: nat)
    requires IsRun(states, steps) && n < |steps|
    ensures Can(states[n], steps[n]) && states[n + 1] == Do(states[n], steps[n])
  {
  }

  lemma LockRun(states: seq<State>, steps: seq<Step>, i: nat, t: Id)
    requires IsRun(states, steps) && i < |steps| && steps[i] == Lock(t)
    ensures t in states[i].txs && states[i].txs[t].Complete?
    ensures Holds(states[i + 1], t, states[i].txs[t].event, LockedVersions(states[i].db, states[i].txs[t].event))
  {
    RunStep(states, steps, i);
    LockStep(states[i], t);
  }

  lemma {:induction false} HeldRun(states: seq<State>, steps: seq<Step>, i: nat, m: nat, t: Id, e: Id,
                                   writes: map<Key, Player>)
    requires IsRun(states, steps) && i <= m < |states| && Holds(states[i], t, e, writes)
    requires forall x | i <= x <= m :: t in states[x].txs
    ensures Holds(states[m], t, e, writes)
  {
    if i < m {
      HeldRun(states, steps, i, m - 1, t, e, writes);
      HeldNext(states, steps, m - 1, t, e, writes);
    }
  }

  lemma HeldNext(states: seq<State>, steps: seq<Step>, n: nat, t: Id, e: Id, writes: map<Key, Player>)
    requires IsRun(states, steps) && n < |steps| && Holds(states[n], t, e, writes) && t in states[n + 1].txs
    ensures Holds(states[n + 1], t, e, writes)
  {
    RunStep(states, steps, n);
    HeldStep(states[n], steps[n], t, e, writes);
  }

  /** From lock to forever: every player row of the event that exists when a completion takes its row locks (step i)
      has, once that completion commits (step m), that very score in the snapshot and in its row, at any time j. */
  lemma LockedRowsFrozen(states: seq<State>, steps: seq<Step>, i: nat, m: nat, j: nat, t: Id, k: Key)
    requires IsRun(states, steps) && i < m < j < |states|
    requires steps[i] == Lock(t) && steps[m] == CommitComplete(t)
    requires forall x | i < x <= m :: t in states[x].txs
    requires t in states[i].txs && states[i].txs[t].Complete?
    requires k in EventRows(states[i].db.players, states[i].db.rooms, states[i].txs[t].event)
    ensures var e, score := states[i].txs[t].event, states[i].db.players[k].score;
            && e in states[j].db.events && states[j].db.events[e].status == Completed
            && k in states[j].db.players && states[j].db.players[k].score == score
            && e in states[j].db.finals
            && exists f :: f in states[j].db.finals[e] && f.key == k && f.score == score
  {
    var e := states[i].txs[t].event;
    var writes := LockedVersions(states[i].db, e);
    LockRun(states, steps, i, t);
    HeldRun(states, steps, i + 1, m, t, e, writes);
    CommitRun(states, steps, m, t, e, writes);
    assert k in writes && writes[k].score == states[i].db.players[k].score;
    LockedEntry(states, steps, m + 1, j, e, k);
  }

  /** When the completion commits, everybody who was present (or already finished) at lock time has finished, everybody
      else has left, and nothing else about their rows has changed. */
  lemma PlayersSettled(states: seq<State>, steps: seq<Step>, i: nat, m: nat, t: Id, k: Key)
    requires IsRun(states, steps) && i < m < |steps|
    requires steps[i] == Lock(t) && steps[m] == CommitComplete(t)
    requires forall x | i < x <= m :: t in states[x].txs
    requires t in states[i].txs && states[i].txs[t].Complete?
    requires k in EventRows(states[i].db.players, states[i].db.rooms, states[i].txs[t].event)
    ensures k in states[m + 1].db.players
    ensures var before, after := states[i].db.players[k], states[m + 1].db.players[k];
            && after.state == (if before.state == Present || before.state == Finished then Finished else Left)
            && after == before.(state := after.state)
  {
    var e := states[i].txs[t].event;
    var writes := LockedVersions(states[i].db, e);
    LockRun(states, steps, i, t);
    HeldRun(states, steps, i + 1, m, t, e, writes);
    RunStep(states, steps, m);
    CommitStep(states[m], t);
  }

  lemma CommitRun(states: seq<State>, steps: seq<Step>, m: nat, t: Id, e: Id, writes: map<Key, Player>)
    requires IsRun(states, steps) && m < |steps| && steps[m] == CommitComplete(t) && Holds(states[m], t, e, writes)
    ensures var db := states[m + 1].db;
            && e in db.events && db.events[e].status == Completed && e in db.locked && db.locked[e] == writes.Keys
            && forall k | k in writes :: k in db.players && db.players[k].score == writes[k].score
  {
    RunStep(states, steps, m);
    CommitStep(states[m], t);
  }

  lemma CommitStep(s: State, t: Id)
    requires Can(s, CommitComplete(t))
    ensures var db, tx := Do(s, CommitComplete(t)).db, s.txs[t];
            && tx.event in db.events && db.events[tx.event].status == Completed
            && tx.event in db.locked && db.locked[tx.event] == tx.writes.Keys
            && forall k | k in tx.writes :: k in db.players && db.players[k] == tx.writes[k]
  {
  }

  lemma LockedEntry(states: seq<State>, steps: seq<Step>, i: nat, j: nat, e: Id, k: Key)
    requires IsRun(states, steps) && i <= j < |states|
    requires e in states[i].db.events && states[i].db.events[e].status == Completed
    requires e in states[i].db.locked && k in states[i].db.locked[e] && k in states[i].db.players
    ensures var score := states[i].db.players[k].score;
            && e in states[j].db.events && states[j].db.events[e].status == Completed
            && k in states[j].db.players && states[j].db.players[k].score == score
            && e in states[j].db.finals
            && exists f :: f in states[j].db.finals[e] && f.key == k && f.score == score
  {
    RunInv(states, steps, i);
    RunInv(states, steps, j);
    RunLater(states, steps, i, j);
    SnapshotsAt(states[i]);
    SnapshotsAt(states[j]);
    LockedIsListed(states[j].db, e, k);
    assert Sealed(states[i].db.locked[e], k.room);
  }

  lemma LockedIsListed(db: Db, e: Id, k: Key)
    requires Snapshots(db) && e in db.finals && k in db.locked[e] && k in db.players
    ensures exists f :: f in db.finals[e] && f.key == k && f.score == db.players[k].score
  {
    assert Sealed(db.locked[e], k.room);
    assert Listed(db.finals[e], k);
    var x :| 0 <= x < |db.finals[e]| && db.finals[e][x].key == k;
    assert db.finals[e][x] in db.finals[e];
  }

  // ---- live leaderboards ----

  /** The places of a room are exactly 1..size, no two rows share one, a higher score has a smaller place, and only
      a row with score zero can be without one. */
  ghost predicate ExactBoard(players: map<Key, Player>, r: Id, size: nat) {
    && (forall k | k in players && k.room == r && players[k].place.Some? :: 1 <= players[k].place.value <= size)
    && (forall p | 1 <= p <= size :: PlaceTaken(players, r, p))
    && (forall k, l | k in players && l in players && k.room == l.room == r && k != l
                      && players[k].place.Some? && players[l].place.Some? ::
          && players[k].place != players[l].place
          && (players[k].score > players[l].score ==> players[k].place.value < players[l].place.value))
    && (forall k | k in players && k.room == r && players[k].place.None? :: players[k].score == 0)
  }

  ghost predicate PlaceTaken(players: map<Key, Player>, r: Id, p: nat) {
    exists k :: k in players && k.room == r && players[k].place == Some(p)
  }

  lemma BoardIsExact(players: map<Key, Player>, r: Id, order: seq<Key>)
    requires Board(players, r, order)
    ensures ExactBoard(players, r, |order|)
  {
    forall p | 1 <= p <= |order| ensures PlaceTaken(players, r, p) {
      assert players[order[p - 1]].place == Some(p);
    }
  }

  /** In every reachable state, through joins, re-rankings, aborts and concurrent scoring, the committed places of
      every room form an exact board. */
  lemma LiveLeaderboard(states: seq<State>, steps: seq<Step>, n: nat, r: Id)
    requires IsRun(states, steps) && n < |states| && r in states[n].db.rooms
    ensures exists size: nat :: ExactBoard(states[n].db.players, r, size)
  {
    RunInv(states, steps, n);
    BoardsAt(states[n]);
    var order :| Board(states[n].db.players, r, order);
    BoardIsExact(states[n].db.players, r, order);
  }

  lemma BoardsAt(s: State)
    requires Inv(s)
    ensures Boards(s.db)
  {
  }

  /** A ranking statement that has its locks always has a numbering to write, and so do both captures. */
  lemma RankingNeverStuck(s: State, t: Id) returns (order: seq<Key>)
    requires PlaceReady(s, t)
    requires Free(s.txs, t, RoomRows(View(s.db.players, s.txs[t].writes), RoomOf(s.db, s.txs[t])))
    ensures CanPlace(s, t, order)
  {
    var view := View(s.db.players, s.txs[t].writes);
    order := NumberingExists(RowKeys(view, s.db.subs, RoomRows(view, RoomOf(s.db, s.txs[t]))));
  }

  lemma CapturesNeverStuck(s: State, t: Id) returns (order: seq<Key>, guilds: seq<Id>)
    ensures CompleteAt(s, t, Locked) ==> CanCapture(s, t, order)
    ensures CompleteAt(s, t, Captured) ==> CanTally(s, t, guilds)
  {
    order, guilds := [], [];
    if t in s.txs && s.txs[t].Complete? {
      var view := View(s.db.players, s.txs[t].writes);
      order := NumberingExists(RowKeys(view, s.db.subs, EventRows(view, s.db.rooms, s.txs[t].event)));
      guilds := NumberingExists(GuildKeys(s.db, view, s.txs[t].event));
    }
  }

  // ---- completed exactly when snapshotted ----

  /** Once written, the snapshots of an event never change, and the event stays completed. */
  lemma SnapshotWrittenOnce(states: seq<State>, steps: seq<Step>, i: nat, j: nat, e: Id)
    requires IsRun(states, steps) && i <= j < |states| && e in states[i].db.finals
    ensures e in states[j].db.events && states[j].db.events[e].status == Completed
    ensures e in states[j].db.finals && states[j].db.finals[e] == states[i].db.finals[e]
    ensures e in states[i].db.guildFinals <==> e in states[j].db.guildFinals
    ensures e in states[i].db.guildFinals ==> states[j].db.guildFinals[e] == states[i].db.guildFinals[e]
  {
    RunLater(states, steps, i, j);
    RunInv(states, steps, j);
    SnapshotsAt(states[j]);
  }

  ghost predicate PlaysIn(db: Db, e: Id, k: Key) {
    k in db.players && k.room in db.rooms && db.rooms[k.room] == e
  }

  /** `finals` has exactly one entry per player row of the event in `db`, with its score, numbered 1, 2, ... : scores do
      not increase; among equal scores the last acceptance does not get earlier, where players without an acceptance
      count as accepted in the far future; and with that equal too, the join time does not get earlier. */
  ghost predicate RanksPlayers(finals: seq<Final>, db: Db, e: Id) {
    && (forall k | PlaysIn(db, e, k) :: Listed(finals, k))
    && (forall i, j | 0 <= i < j < |finals| :: finals[i].key != finals[j].key)
    && (forall i | 0 <= i < |finals| ::
          && PlaysIn(db, e, finals[i].key) && finals[i].rank == i + 1
          && finals[i].score == db.players[finals[i].key].score)
    && (forall i, j | 0 <= i < j < |finals| ::
          var k, l := finals[i].key, finals[j].key;
          var last, next := LastAccepted(db.subs, {k}), LastAccepted(db.subs, {l});
          && finals[i].score >= finals[j].score
          && (finals[i].score == finals[j].score ==> last <= next)
          && (finals[i].score == finals[j].score && last == next ==> db.players[k].joinedAt <= db.players[l].joinedAt))
  }

  /** The capture takes every player row of the event exactly once, with the committed score, in that order. */
  lemma CaptureIsComplete(states: seq<State>, steps: seq<Step>, n: nat, t: Id, order: seq<Key>)
    requires IsRun(states, steps) && n < |steps| && steps[n] == Capture(t, order)
    ensures CanCapture(states[n], t, order) && states[n + 1] == DoCapture(states[n], t, order)
    ensures RanksPlayers(states[n + 1].txs[t].finals, states[n].db, states[n + 1].txs[t].event)
  {
    RunInv(states, steps, n);
    CaptureAt(states[n], t, order);
  }

  lemma CaptureAt(s: State, t: Id, order: seq<Key>)
    requires Inv(s) && CanCapture(s, t, order)
    ensures RanksPlayers(DoCapture(s, t, order).txs[t].finals, s.db, DoCapture(s, t, order).txs[t].event)
  {
    CompletionView(s, t);
    CaptureEntries(s, t, order);
    CaptureCovers(s, t, order);
    EntriesRank(s.db, s.txs[t], DoCapture(s, t, order).txs[t].finals);
  }

  lemma EntriesRank(db: Db, tx: Tx, finals: seq<Final>)
    requires tx.Complete?
    requires var view := View(db.players, tx.writes); var rows := EventRows(view, db.rooms, tx.event);
             && view.Keys == db.players.Keys
             && (forall k | k in view ::
                   view[k].score == db.players[k].score && view[k].joinedAt == db.players[k].joinedAt)
             && (forall k | k in rows :: Listed(finals, k))
             && (forall i | 0 <= i < |finals| ::
                   && finals[i].key in rows && finals[i].rank == i + 1 && finals[i].score == view[finals[i].key].score
                   && finals[i].sortBy
                      == RankKey(view[finals[i].key].score, LastAccepted(db.subs, {finals[i].key}),
                                 view[finals[i].key].joinedAt))
             && (forall i, j | 0 <= i < j < |finals| ::
                   finals[i].key != finals[j].key && Before(finals[i].sortBy, finals[j].sortBy))
    ensures RanksPlayers(finals, db, tx.event)
  {
    forall k | PlaysIn(db, tx.event, k) ensures Listed(finals, k) {
      assert k in EventRows(View(db.players, tx.writes), db.rooms, tx.event);
    }
  }

  lemma CaptureEntries(s: State, t: Id, order: seq<Key>)
    requires CanCapture(s, t, order)
    ensures var tx, view := DoCapture(s, t, order).txs[t], View(s.db.players, s.txs[t].writes);
            var rows := EventRows(view, s.db.rooms, tx.event);
            && tx.event == s.txs[t].event && |tx.finals| == |order|
            && forall i | 0 <= i < |order| ::
                 && order[i] in rows && tx.finals[i].key == order[i] && tx.finals[i].rank == i + 1
                 && tx.finals[i].score == view[order[i]].score
                 && tx.finals[i].sortBy
                    == RankKey(view[order[i]].score, LastAccepted(s.db.subs, {order[i]}), view[order[i]].joinedAt)
  {
    var view := View(s.db.players, s.txs[t].writes);
    var keys := RowKeys(view, s.db.subs, EventRows(view, s.db.rooms, s.txs[t].event));
    assert forall i | 0 <= i < |order| :: order[i] in keys;
  }

  lemma CaptureCovers(s: State, t: Id, order: seq<Key>)
    requires CanCapture(s, t, order)
    ensures var tx, view := DoCapture(s, t, order).txs[t], View(s.db.players, s.txs[t].writes);
            var rows := EventRows(view, s.db.rooms, tx.event);
            && |tx.finals| == |rows|
            && (forall k | k in rows :: Listed(tx.finals, k))
            && (forall i, j | 0 <= i < j < |tx.finals| ::
                  tx.finals[i].key != tx.finals[j].key && Before(tx.finals[i].sortBy, tx.finals[j].sortBy))
  {
    var view := View(s.db.players, s.txs[t].writes);
    var rows := EventRows(view, s.db.rooms, s.txs[t].event);
    var keys := RowKeys(view, s.db.subs, rows);
    NumberingCount(order, keys);
    var finals := DoCapture(s, t, order).txs[t].finals;
    assert forall i | 0 <= i < |order| :: order[i] in keys;
    forall k | k in rows ensures Listed(finals, k) {
      assert k in keys;
      var i :| 0 <= i < |order| && order[i] == k;
      assert finals[i].key == k;
    }
  }

  ghost function PlayersOf(db: Db, e: Id, g: Id): set<Key> {
    set k | k in db.players && PlaysIn(db, e, k) && db.players[k].guild == g
  }

  /** `gs` has exactly one entry per guild with player rows of the event in `db`, numbered 1, 2, ... : its total is the
      sum of their scores; totals do not increase; among equal totals the guilds' last acceptance does not get earlier;
      and with that equal too, the time the guild joined the event does not get earlier. */
  ghost predicate RanksGuilds(gs: seq<GuildFinal>, db: Db, e: Id) {
    && e in db.joined
    && (forall k | PlaysIn(db, e, k) :: GuildListed(gs, db.players[k].guild))
    && (forall i, j | 0 <= i < j < |gs| :: gs[i].guild != gs[j].guild)
    && (forall i | 0 <= i < |gs| ::
          && PlayersOf(db, e, gs[i].guild) != {} && gs[i].guild in db.joined[e]
          && gs[i].rank == i + 1 && gs[i].total == ScoreSum(db.players, PlayersOf(db, e, gs[i].guild)))
    && (forall i, j | 0 <= i < j < |gs| ::
          var g, h := gs[i].guild, gs[j].guild;
          var last, next := LastAccepted(db.subs, PlayersOf(db, e, g)), LastAccepted(db.subs, PlayersOf(db, e, h));
          && gs[i].total >= gs[j].total
          && (gs[i].total == gs[j].total ==> last <= next)
          && (gs[i].total == gs[j].total && last == next ==> db.joined[e][g] <= db.joined[e][h]))
  }

  lemma TallyIsComplete(states: seq<State>, steps: seq<Step>, n: nat, t: Id, order: seq<Id>)
    requires IsRun(states, steps) && n < |steps| && steps[n] == Tally(t, order)
    ensures CanTally(states[n], t, order) && states[n + 1] == DoTally(states[n], t, order)
    ensures RanksGuilds(states[n + 1].txs[t].guilds.value, states[n].db, states[n + 1].txs[t].event)
  {
    RunInv(states, steps, n);
    RowsAdmitted(states, steps, n);
    TallyAt(states[n], t, order);
  }

  lemma TallyAt(s: State, t: Id, order: seq<Id>)
    requires Inv(s) && Admitted(s) && CanTally(s, t, order)
    ensures RanksGuilds(DoTally(s, t, order).txs[t].guilds.value, s.db, DoTally(s, t, order).txs[t].event)
  {
    var view := View(s.db.players, s.txs[t].writes);
    var gs := DoTally(s, t, order).txs[t].guilds.value;
    CompletionView(s, t);
    GuildEntries(GuildKeys(s.db, view, s.txs[t].event), order);
    GuildKeySums(s.db, view, s.txs[t].event);
    TallyEntries(s.db, view, s.txs[t].event, gs);
    TotalsRank(s.db, s.txs[t].event, gs);
  }

  lemma TotalsRank(db: Db, e: Id, gs: seq<GuildFinal>)
    requires GuildOrder(gs) && RowsOfParticipants(db) && e in db.joined
    requires var rows := EventRows(db.players, db.rooms, e);
             && (forall k | k in rows :: GuildListed(gs, db.players[k].guild))
             && forall i | 0 <= i < |gs| ::
                  var mine := OfGuild(db.players, rows, gs[i].guild);
                  && mine != {} && gs[i].total == ScoreSum(db.players, mine)
                  && gs[i].sortBy == RankKey(gs[i].total, LastAccepted(db.subs, mine), GuildJoined(db, e, gs[i].guild))
    ensures RanksGuilds(gs, db, e)
  {
    var rows := EventRows(db.players, db.rooms, e);
    forall i | 0 <= i < |gs|
      ensures PlayersOf(db, e, gs[i].guild) == OfGuild(db.players, rows, gs[i].guild)
      ensures gs[i].guild in db.joined[e]
    {
      assert PlayersOf(db, e, gs[i].guild) == OfGuild(db.players, rows, gs[i].guild);
      var k :| k in PlayersOf(db, e, gs[i].guild);
    }
    forall k | PlaysIn(db, e, k) ensures GuildListed(gs, db.players[k].guild) {
      assert k in rows;
    }
  }

  lemma TallyEntries(db: Db, view: map<Key, Player>, e: Id, gs: seq<GuildFinal>)
    requires view.Keys == db.players.Keys
    requires forall k | k in view :: view[k].score == db.players[k].score && view[k].guild == db.players[k].guild
    requires var rows := EventRows(view, db.rooms, e);
             forall i | 0 <= i < |gs| ::
               var mine := OfGuild(view, rows, gs[i].guild);
               && mine != {} && gs[i].total == gs[i].sortBy.score
               && gs[i].sortBy
                  == RankKey(ScoreSum(view, mine), LastAccepted(db.subs, mine), GuildJoined(db, e, gs[i].guild))
    ensures var rows := EventRows(db.players, db.rooms, e);
            forall i | 0 <= i < |gs| ::
              var mine := OfGuild(db.players, rows, gs[i].guild);
              && mine != {} && gs[i].total == ScoreSum(db.players, mine)
              && gs[i].sortBy == RankKey(gs[i].total, LastAccepted(db.subs, mine), GuildJoined(db, e, gs[i].guild))
  {
    var rows := EventRows(view, db.rooms, e);
    assert EventRows(db.players, db.rooms, e) == rows;
    forall i | 0 <= i < |gs|
      ensures OfGuild(db.players, rows, gs[i].guild) == OfGuild(view, rows, gs[i].guild)
      ensures ScoreSum(db.players, OfGuild(view, rows, gs[i].guild)) == ScoreSum(view, OfGuild(view, rows, gs[i].guild))
    {
      var mine := OfGuild(view, rows, gs[i].guild);
      ScoreSumSame(view, mine, db.players, mine);
    }
  }

  lemma CompletionView(s: State, t: Id)
    requires Inv(s) && t in s.txs && s.txs[t].Complete?
    ensures var view := View(s.db.players, s.txs[t].writes);
            && view.Keys == s.db.players.Keys
            && forall k | k in view ::
                 && view[k].score == s.db.players[k].score && view[k].joinedAt == s.db.players[k].joinedAt
                 && view[k].guild == s.db.players[k].guild
  {
    assert TxOk(s.db, s.txs[t]) && VersionsOk(s.db, s.txs[t]);
  }

  // ---- conservation ----

  ghost function FinalsSum(finals: seq<Final>): int {
    if finals == [] then 0 else FinalsSum(finals[..|finals| - 1]) + finals[|finals| - 1].score
  }

  ghost function TotalsSum(gs: seq<GuildFinal>): int {
    if gs == [] then 0 else TotalsSum(gs[..|gs| - 1]) + gs[|gs| - 1].total
  }

  ghost function FinalKeys(finals: seq<Final>): set<Key> {
    set i | 0 <= i < |finals| :: finals[i].key
  }

  lemma {:induction false} FinalsSumIsScoreSum(players: map<Key, Player>, finals: seq<Final>)
    requires forall i | 0 <= i < |finals| :: finals[i].key in players && players[finals[i].key].score == finals[i].score
    requires forall i, j | 0 <= i < j < |finals| :: finals[i].key != finals[j].key
    ensures FinalsSum(finals) == ScoreSum(players, FinalKeys(finals))
  {
    if finals != [] {
      var rest, f := finals[..|finals| - 1], finals[|finals| - 1];
      FinalsSumIsScoreSum(players, rest);
      assert FinalKeys(finals) == FinalKeys(rest) + {f.key};
      assert f.key !in FinalKeys(rest);
      ScoreSumRemove(players, FinalKeys(finals), f.key);
      assert FinalKeys(finals) - {f.key} == FinalKeys(rest);
    } else {
      assert FinalKeys(finals) == {};
    }
  }

  lemma {:induction false} TotalsSumIsGuildSums(players: map<Key, Player>, rows: set<Key>, gs: seq<GuildFinal>)
    requires rows <= players.Keys
    requires forall i | 0 <= i < |gs| :: gs[i].total == ScoreSum(players, OfGuild(players, rows, gs[i].guild))
    ensures TotalsSum(gs) == GuildSums(players, rows, GuildsOf(gs))
  {
    if gs != [] {
      var rest := gs[..|gs| - 1];
      TotalsSumIsGuildSums(players, rows, rest);
      assert GuildsOf(gs)[..|gs| - 1] == GuildsOf(rest);
    }
  }

  ghost function GuildsOf(gs: seq<GuildFinal>): (r: seq<Id>)
    ensures |r| == |gs| && forall i | 0 <= i < |gs| :: r[i] == gs[i].guild
  {
    seq(|gs|, i requires 0 <= i < |gs| => gs[i].guild)
  }

  /** Dropping rows of score zero does not change a sum. */
  lemma ZeroRows(players: map<Key, Player>, some: set<Key>, rows: set<Key>)
    requires some <= rows <= players.Keys && forall k | k in rows - some :: players[k].score == 0
    ensures ScoreSum(players, some) == ScoreSum(players, rows)
  {
    ScoreSumSame(players, some, players, rows);
  }

  /** If every room of a completed event had a player when its completion took the locks, then at any later time
      each guild's total is the sum of its players' scores, and the guild totals, the player snapshot, the stored
      scores and all points ever awarded in the event add up to the same number. */
  lemma SealedRoomsConserve(states: seq<State>, steps: seq<Step>, n: nat, e: Id)
    requires IsRun(states, steps) && n < |states|
    requires e in states[n].db.finals && e in states[n].db.locked
    requires AllSealed(states[n].db.rooms, e, states[n].db.locked[e])
    ensures var db := states[n].db; var rows := EventRows(db.players, db.rooms, e);
            && FinalsSum(db.finals[e]) == ScoreSum(db.players, rows) == Awarded(db.ledger, rows)
            && (e in db.guildFinals ==>
                  && TotalsSum(db.guildFinals[e]) == ScoreSum(db.players, rows)
                  && forall i | 0 <= i < |db.guildFinals[e]| :: db.guildFinals[e][i].total
                       == ScoreSum(db.players, OfGuild(db.players, rows, db.guildFinals[e][i].guild)))
  {
    RunInv(states, steps, n);
    var db := states[n].db;
    var rows := EventRows(db.players, db.rooms, e);
    assert Books(db);
    ScoreSumIsAwarded(db.players, rows, db.ledger);
    PlayersConserved(db, e);
    if e in db.guildFinals {
      assert GuildsOk(db, e, db.guildFinals[e], db.locked[e]);
      GuildsConserved(db, e, db.guildFinals[e]);
    }
  }

  lemma PlayersConserved(db: Db, e: Id)
    requires Snapshots(db) && e in db.finals && AllSealed(db.rooms, e, db.locked[e])
    ensures FinalsSum(db.finals[e]) == ScoreSum(db.players, EventRows(db.players, db.rooms, e))
  {
    var rows, finals := EventRows(db.players, db.rooms, e), db.finals[e];
    FinalsSumIsScoreSum(db.players, finals);
    forall k | k in rows - FinalKeys(finals) ensures db.players[k].score == 0 {
      assert !Listed(finals, k);
    }
    ZeroRows(db.players, FinalKeys(finals), rows);
  }

  lemma GuildsConserved(db: Db, e: Id, gs: seq<GuildFinal>)
    requires GuildOrder(gs) && TotalsExact(db.players, db.rooms, e, gs)
    ensures TotalsSum(gs) == ScoreSum(db.players, EventRows(db.players, db.rooms, e))
  {
    var rows, guilds := EventRows(db.players, db.rooms, e), GuildsOf(gs);
    TotalsSumIsGuildSums(db.players, rows, gs);
    GuildsPartition(db.players, rows, guilds);
    var listed := set k | k in rows && db.players[k].guild in guilds;
    forall k | k in rows && GuildListed(gs, db.players[k].guild) ensures k in listed {
      var i :| 0 <= i < |gs| && gs[i].guild == db.players[k].guild;
      assert guilds[i] == db.players[k].guild;
    }
    ZeroRows(db.players, listed, rows);
  }
}
