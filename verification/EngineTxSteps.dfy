/** Steps that only move one transaction forward keep the invariant. */
module EngineTxSteps {
  import opened Tables
  import opened Ranking
  import opened Sums
  import opened Engine
  import opened EngineInvariant

  /** A step that replaces transaction `t` has to show the new version right by itself and against each other one. */
  lemma SetTxKeeps(s: State, t: Id, tx: Tx)
    requires Inv(s) && Local(s.db, tx)
    requires forall u | u in s.txs && u != t :: Pair(s.db.subs, tx, s.txs[u]) && Pair(s.db.subs, s.txs[u], tx)
    ensures Inv(SetTx(s, t, tx))
  {
  }

  /** Moving on without new row versions, rankings, marks or swaps changes nothing for the others. */
  ghost predicate SameForOthers(subs: map<Id, Submission>, old_: Tx, tx: Tx) {
    && old_.writes == tx.writes
    && (tx.Score? ==> old_.Score? && old_.sub == tx.sub && (tx.spc == Marked ==> old_.spc == Marked))
    && (tx.Complete? ==> old_.Complete? && old_.event == tx.event && (old_.cpc == Opened ==> tx.cpc == Opened))
    && (forall r | RankedIn(subs, tx, r) :: RankedIn(subs, old_, r))
  }

  lemma SameForOthersPair(subs: map<Id, Submission>, old_: Tx, tx: Tx, u: Tx)
    requires SameForOthers(subs, old_, tx)
    requires Pair(subs, old_, u) && Pair(subs, u, old_)
    ensures Pair(subs, tx, u) && Pair(subs, u, tx)
  {
    assert forall r :: HoldsRowIn(tx, r) <==> HoldsRowIn(old_, r);
  }

  lemma AdvanceKeeps(s: State, t: Id, tx: Tx)
    requires Inv(s) && t in s.txs && Local(s.db, tx) && SameForOthers(s.db.subs, s.txs[t], tx)
    ensures Inv(SetTx(s, t, tx))
  {
    forall u | u in s.txs && u != t ensures Pair(s.db.subs, tx, s.txs[u]) && Pair(s.db.subs, s.txs[u], tx) {
      SameForOthersPair(s.db.subs, s.txs[t], tx, s.txs[u]);
    }
    SetTxKeeps(s, t, tx);
  }

  lemma FreshKeeps(s: State, t: Id, tx: Tx)
    requires Inv(s) && Local(s.db, tx) && tx.writes == map[]
    requires tx == Rerank(if tx.Rerank? then tx.room else 0, false, map[]) || (tx.Complete? && tx.cpc == Opened)
    ensures Inv(SetTx(s, t, tx))
  {
    SetTxKeeps(s, t, tx);
  }

  lemma AddKeeps(s: State, t: Id)
    requires Inv(s) && CanAdd(s, t)
    ensures Inv(DoAdd(s, t))
  {
    var from, tx := s.txs[t], DoAdd(s, t).txs[t];
    AddIsAdds(s, t);
    AddLocal(s.db, from, tx);
    forall u | u in s.txs && u != t ensures Pair(s.db.subs, tx, s.txs[u]) && Pair(s.db.subs, s.txs[u], tx) {
      AddPair(s.db, from, tx, s.txs[u]);
    }
    SetTxKeeps(s, t, tx);
  }

  lemma AddIsAdds(s: State, t: Id)
    requires CanAdd(s, t)
    ensures var tx := DoAdd(s, t).txs[t]; Adds(s.db, s.txs[t], tx) && DoAdd(s, t) == SetTx(s, t, tx)
    ensures var k := s.db.subs[s.txs[t].sub].key;
            forall u | u in s.txs && u != t && k in s.db.players :: k !in s.txs[u].writes
  {
    var k := s.db.subs[s.txs[t].sub].key;
    forall u | u in s.txs && u != t && k in s.db.players ensures k !in s.txs[u].writes {
      assert s.txs[u].writes.Keys !! {k};
    }
  }

  /** `tx` is `from` after adding its points. */
  ghost predicate Adds(db: Db, from: Tx, tx: Tx) {
    && from.Score? && from.sub in db.subs && from.spc == Checked
    && var k := db.subs[from.sub].key;
    if k in db.players then
      tx == from.(spc := Added, credited := true,
                  writes := from.writes[k := db.players[k].(score := db.players[k].score + db.subs[from.sub].points)])
    else tx == from.(spc := Added)
  }

  lemma AddLocal(db: Db, from: Tx, tx: Tx)
    requires Local(db, from) && Adds(db, from, tx)
    ensures Local(db, tx)
  {
  }

  lemma AddPair(db: Db, from: Tx, tx: Tx, u: Tx)
    requires TxOk(db, from) && Adds(db, from, tx)
    requires Pair(db.subs, from, u) && Pair(db.subs, u, from)
    requires db.subs[from.sub].key in db.players ==> db.subs[from.sub].key !in u.writes
    ensures Pair(db.subs, tx, u) && Pair(db.subs, u, tx)
  {
  }

  lemma MarkKeeps(s: State, t: Id)
    requires Inv(s) && Can(s, Mark(t))
    ensures Inv(SetTx(s, t, s.txs[t].(spc := Marked)))
  {
    var tx := s.txs[t].(spc := Marked);
    MarkLocal(s.db, s.txs[t], tx);
    forall u | u in s.txs && u != t ensures Pair(s.db.subs, tx, s.txs[u]) && Pair(s.db.subs, s.txs[u], tx) {
      MarkPair(s.db.subs, s.txs[t], tx, s.txs[u]);
    }
    SetTxKeeps(s, t, tx);
  }

  lemma MarkPair(subs: map<Id, Submission>, from: Tx, tx: Tx, u: Tx)
    requires Pair(subs, from, u) && Pair(subs, u, from)
    requires from.Score? && from.spc == Placed && tx == from.(spc := Marked) && from.sub in subs
    requires MarkedSub(subs, u) ==> !SameProblem(subs[u.sub], subs[from.sub])
    ensures Pair(subs, tx, u) && Pair(subs, u, tx)
  {
  }

  lemma MarkLocal(db: Db, from: Tx, tx: Tx)
    requires Snapshots(db) && Local(db, from) && from.Score? && from.spc == Placed && tx == from.(spc := Marked)
    requires from.sub in db.subs && TriggerAllows(db, from.sub, from.startedAt)
    requires forall j | j in db.subs && db.subs[j].status.Accepted? :: !SameProblem(db.subs[j], db.subs[from.sub])
    ensures Local(db, tx)
  {
    assert db.rooms[db.subs[from.sub].key.room] !in db.locked;
  }

  lemma SwapKeeps(s: State, t: Id)
    requires Inv(s) && Can(s, Swap(t))
    ensures Inv(Do(s, Swap(t)))
  {
    var tx := s.txs[t].(cpc := Swapped);
    assert Local(s.db, s.txs[t]);
    forall u | u in s.txs && u != t ensures Pair(s.db.subs, tx, s.txs[u]) && Pair(s.db.subs, s.txs[u], tx) {
      assert Pair(s.db.subs, s.txs[t], s.txs[u]) && Pair(s.db.subs, s.txs[u], s.txs[t]);
    }
    SetTxKeeps(s, t, tx);
  }

  lemma LockKeeps(s: State, t: Id)
    requires Inv(s) && Can(s, Lock(t))
    ensures Inv(Do(s, Lock(t)))
  {
    var tx := s.txs[t].(cpc := Locked, writes := LockedVersions(s.db, s.txs[t].event));
    assert Local(s.db, s.txs[t]);
    LockLocal(s.db, s.txs[t], tx);
    forall u | u in s.txs && u != t ensures Pair(s.db.subs, tx, s.txs[u]) && Pair(s.db.subs, s.txs[u], tx) {
      LockBeside(s, t, u);
    }
    SetTxKeeps(s, t, tx);
  }

  lemma LockLocal(db: Db, from: Tx, tx: Tx)
    requires Local(db, from) && from.Complete? && from.cpc == Swapped
    requires tx == from.(cpc := Locked, writes := LockedVersions(db, from.event))
    ensures Local(db, tx)
  {
  }

  lemma LockBeside(s: State, t: Id, u: Id)
    requires Inv(s) && CompleteAt(s, t, Swapped) && u in s.txs && u != t
    requires Free(s.txs, t, EventRows(s.db.players, s.db.rooms, s.txs[t].event))
    ensures var tx := s.txs[t].(cpc := Locked, writes := LockedVersions(s.db, s.txs[t].event));
            Pair(s.db.subs, tx, s.txs[u]) && Pair(s.db.subs, s.txs[u], tx)
  {
    var e := s.txs[t].event;
    var tx := s.txs[t].(cpc := Locked, writes := LockedVersions(s.db, e));
    assert tx.writes.Keys == EventRows(s.db.players, s.db.rooms, e);
    assert Pair(s.db.subs, s.txs[t], s.txs[u]) && TxOk(s.db, s.txs[u]);
    LockPair(s.db, e, tx, s.txs[u]);
  }

  lemma LockPair(db: Db, e: Id, tx: Tx, u: Tx)
    requires TxOk(db, u) && tx.Complete? && tx.event == e && tx.writes.Keys == EventRows(db.players, db.rooms, e)
    requires u.writes.Keys !! tx.writes.Keys
    requires u.Complete? && u.event == e ==> u.cpc == Opened
    ensures Pair(db.subs, tx, u) && Pair(db.subs, u, tx)
  {
    forall r | RankedIn(db.subs, u, r) ensures u.writes == map[] || !HoldsRowIn(tx, r) {
      if u.writes != map[] && HoldsRowIn(tx, r) {
        assert false;
      }
    }
  }

  lemma PlaceKeeps(s: State, t: Id, order: seq<Key>)
    requires Inv(s) && CanPlace(s, t, order)
    ensures Inv(DoPlace(s, t, order))
  {
    var from := s.txs[t];
    var tx := DoPlace(s, t, order).txs[t];
    assert Local(s.db, from);
    var r := RoomOf(s.db, from);
    PlaceLocal(s.db, from, tx, r, order);
    forall u | u in s.txs && u != t ensures Pair(s.db.subs, tx, s.txs[u]) && Pair(s.db.subs, s.txs[u], tx) {
      assert Pair(s.db.subs, from, s.txs[u]) && Pair(s.db.subs, s.txs[u], from);
      assert Local(s.db, s.txs[u]);
      assert s.txs[u].writes.Keys !! RoomRows(View(s.db.players, from.writes), r);
      PlacePair(s.db, from, tx, r, order, s.txs[u]);
    }
    SetTxKeeps(s, t, tx);
  }

  /** `tx` is `from` after the ranking statement wrote places for `order`, all rows of room `r`. */
  ghost predicate Places(db: Db, from: Tx, tx: Tx, r: Id, order: seq<Key>) {
    && !from.Complete? && (from.Score? ==> from.sub in db.subs && from.spc == Added) && (from.Rerank? ==> !from.placed)
    && r == RoomOf(db, from)
    && var view := View(db.players, from.writes);
    && Numbers(order, RowKeys(view, db.subs, RoomRows(view, r)))
    && tx.writes == from.writes + WithPlaces(view, order)
    && tx == if from.Score? then from.(spc := Placed, writes := tx.writes)
             else from.(placed := true, writes := tx.writes)
  }

  lemma PlaceLocal(db: Db, from: Tx, tx: Tx, r: Id, order: seq<Key>)
    requires Local(db, from) && Places(db, from, tx, r, order)
    ensures Local(db, tx)
  {
    PlacedTxOk(db, from, tx, r, order);
    PlacedVersionsOk(db, from, tx, r, order);
    PlacedBoard(db, from, tx, r, order);
  }

  lemma PlacedTxOk(db: Db, from: Tx, tx: Tx, r: Id, order: seq<Key>)
    requires TxOk(db, from) && Places(db, from, tx, r, order)
    ensures TxOk(db, tx)
  {
    var view := View(db.players, from.writes);
    forall k | k in tx.writes ensures k in db.players && k.room == r {
      if k in order {
        assert k in RowKeys(view, db.subs, RoomRows(view, r));
      }
    }
  }

  lemma PlacedVersionsOk(db: Db, from: Tx, tx: Tx, r: Id, order: seq<Key>)
    requires TxOk(db, from) && VersionsOk(db, from) && Places(db, from, tx, r, order)
    ensures VersionsOk(db, tx)
  {
  }

  lemma NumberedKeys(order: seq<Key>, keys: map<Key, RankKey>)
    requires Numbers(order, keys)
    ensures Lists(order, keys.Keys)
    ensures forall i, j | 0 <= i < j < |order| ::
              order[i] in keys && order[j] in keys && keys[order[i]].score >= keys[order[j]].score
  {
  }

  lemma NumberedRows(view: map<Key, Player>, subs: map<Id, Submission>, rows: set<Key>, order: seq<Key>)
    requires rows <= view.Keys && Numbers(order, RowKeys(view, subs, rows))
    ensures Lists(order, rows)
    ensures forall i, j | 0 <= i < j < |order| ::
              order[i] in view && order[j] in view && view[order[i]].score >= view[order[j]].score
  {
    NumberedKeys(order, RowKeys(view, subs, rows));
  }

  /** Writing the places of a numbering makes it the room's board. */
  lemma PlacesMakeBoard(view: map<Key, Player>, r: Id, order: seq<Key>)
    requires Lists(order, RoomRows(view, r))
    requires forall i, j | 0 <= i < j < |order| ::
               order[i] in view && order[j] in view && view[order[i]].score >= view[order[j]].score
    ensures Board(view + WithPlaces(view, order), r, order)
  {
    var after := view + WithPlaces(view, order);
    forall i | 0 <= i < |order|
      ensures order[i] in after && order[i] in view && order[i].room == r && after[order[i]].place == Some(i + 1)
      ensures after[order[i]].score == view[order[i]].score
    {
      assert order[i] in WithPlaces(view, order);
      assert IndexOf(order, order[i]) == i;
    }
  }

  lemma PlacedBoard(db: Db, from: Tx, tx: Tx, r: Id, order: seq<Key>)
    requires Places(db, from, tx, r, order)
    ensures Board(View(db.players, tx.writes), r, order)
  {
    var view := View(db.players, from.writes);
    NumberedRows(view, db.subs, RoomRows(view, r), order);
    PlacesMakeBoard(view, r, order);
    OverlayTwice(db.players, from.writes, WithPlaces(view, order));
  }

  lemma OverlayTwice(players: map<Key, Player>, w: map<Key, Player>, more: map<Key, Player>)
    ensures View(players, w) + more == View(players, w + more)
  {
  }

  lemma PlacePair(db: Db, from: Tx, tx: Tx, r: Id, order: seq<Key>, u: Tx)
    requires TxOk(db, from) && TxOk(db, u) && Places(db, from, tx, r, order)
    requires Pair(db.subs, from, u) && Pair(db.subs, u, from)
    requires u.writes.Keys !! RoomRows(View(db.players, from.writes), r)
    ensures Pair(db.subs, tx, u) && Pair(db.subs, u, tx)
  {
    var view := View(db.players, from.writes);
    forall k | k in tx.writes ensures k in from.writes || k in RoomRows(view, r) {
      if k in order {
        assert k in RowKeys(view, db.subs, RoomRows(view, r));
      }
    }
    // u holds no row of the room, so if it ranked the room it has no rows at all
    assert !HoldsRowIn(u, r) by {
      if HoldsRowIn(u, r) {
        assert false;
      }
    }
    forall r' | RankedIn(db.subs, u, r') && RankedIn(db.subs, tx, r') ensures u.writes == map[] {
      if u.writes != map[] {
        assert false;
      }
    }
  }

  lemma CaptureKeeps(s: State, t: Id, order: seq<Key>)
    requires Inv(s) && CanCapture(s, t, order)
    ensures Inv(DoCapture(s, t, order))
  {
    var tx := DoCapture(s, t, order).txs[t];
    CaptureOk(s, t, order);
    CaptureLocal(s.db, s.txs[t], tx);
    AdvanceKeeps(s, t, tx);
  }

  lemma CaptureLocal(db: Db, from: Tx, tx: Tx)
    requires Local(db, from) && from.Complete? && from.cpc == Locked && tx.Complete?
    requires tx == from.(cpc := Captured, finals := tx.finals)
    requires SnapshotOk(db, tx.event, tx.finals) && Exact(db.players, tx.finals, tx.writes.Keys)
    ensures Local(db, tx) && SameForOthers(db.subs, from, tx)
  {
  }

  lemma SnapshotEntries(view: map<Key, Player>, subs: map<Id, Submission>, rows: set<Key>, order: seq<Key>)
    requires rows <= view.Keys && Numbers(order, RowKeys(view, subs, rows))
    ensures var keys := RowKeys(view, subs, rows);
            && (forall i | 0 <= i < |order| :: order[i] in keys)
            && var finals := Snapshot(view, keys, order);
            && |finals| == |order|
            && (forall i | 0 <= i < |order| ::
                  && finals[i].key == order[i] && order[i] in rows && finals[i].rank == i + 1
                  && finals[i].score == view[order[i]].score == finals[i].sortBy.score)
            && (forall i, j | 0 <= i < j < |finals| ::
                  finals[i].key != finals[j].key && Before(finals[i].sortBy, finals[j].sortBy))
            && (forall k | k in rows :: Listed(finals, k))
  {
    var keys := RowKeys(view, subs, rows);
    NumberedRows(view, subs, rows, order);
    assert forall i | 0 <= i < |order| :: order[i] in keys;
    var finals := Snapshot(view, keys, order);
    forall k | k in rows ensures Listed(finals, k) {
      var i :| 0 <= i < |order| && order[i] == k;
      assert finals[i].key == k;
    }
  }

  lemma CaptureOk(s: State, t: Id, order: seq<Key>)
    requires Shape(s.db) && t in s.txs && Local(s.db, s.txs[t]) && CanCapture(s, t, order)
    ensures var tx := DoCapture(s, t, order).txs[t];
            SnapshotOk(s.db, tx.event, tx.finals) && Exact(s.db.players, tx.finals, tx.writes.Keys)
  {
    var from := s.txs[t];
    var view := View(s.db.players, from.writes);
    SnapshotEntries(view, s.db.subs, EventRows(view, s.db.rooms, from.event), order);
    EntriesOk(s.db, from, EventRows(view, s.db.rooms, from.event), DoCapture(s, t, order).txs[t].finals);
  }

  lemma EntriesOk(db: Db, from: Tx, rows: set<Key>, finals: seq<Final>)
    requires TxOk(db, from) && VersionsOk(db, from) && from.Complete?
    requires rows == EventRows(View(db.players, from.writes), db.rooms, from.event)
    requires forall i | 0 <= i < |finals| ::
               && finals[i].key in rows && finals[i].rank == i + 1
               && finals[i].score == View(db.players, from.writes)[finals[i].key].score == finals[i].sortBy.score
    requires forall i, j | 0 <= i < j < |finals| ::
               finals[i].key != finals[j].key && Before(finals[i].sortBy, finals[j].sortBy)
    requires forall k | k in rows :: Listed(finals, k)
    requires forall k | k in db.players :: k.room in db.rooms
    ensures SnapshotOk(db, from.event, finals) && Exact(db.players, finals, from.writes.Keys)
  {
    assert forall k | k in db.players && Sealed(from.writes.Keys, k.room) :: k in rows;
  }

  lemma TallyKeeps(s: State, t: Id, order: seq<Id>)
    requires Inv(s) && CanTally(s, t, order)
    ensures Inv(DoTally(s, t, order))
  {
    var tx := DoTally(s, t, order).txs[t];
    TallyOk(s, t, order);
    TallyLocal(s.db, s.txs[t], tx);
    AdvanceKeeps(s, t, tx);
  }

  lemma TallyLocal(db: Db, from: Tx, tx: Tx)
    requires Local(db, from) && from.Complete? && from.cpc == Captured && tx.Complete? && tx.guilds.Some?
    requires tx == from.(cpc := Tallied, guilds := tx.guilds)
    requires GuildsOk(db, tx.event, tx.guilds.value, tx.writes.Keys)
    ensures Local(db, tx) && SameForOthers(db.subs, from, tx)
  {
  }

  lemma GuildEntries(keys: map<Id, RankKey>, order: seq<Id>)
    requires Numbers(order, keys)
    ensures forall i | 0 <= i < |order| :: order[i] in keys
    ensures var gs := GuildSnapshot(keys, order);
            && GuildOrder(gs) && |gs| == |order|
            && (forall i | 0 <= i < |gs| ::
                  gs[i].guild in keys && gs[i].sortBy == keys[gs[i].guild] && gs[i].total == keys[gs[i].guild].score)
            && (forall g | g in keys :: GuildListed(gs, g))
  {
    assert forall i | 0 <= i < |order| :: order[i] in keys;
    var gs := GuildSnapshot(keys, order);
    forall g | g in keys ensures GuildListed(gs, g) {
      var i :| 0 <= i < |order| && order[i] == g;
      assert gs[i].guild == g;
    }
  }

  lemma GuildKeySums(db: Db, view: map<Key, Player>, e: Id)
    ensures var keys, rows := GuildKeys(db, view, e), EventRows(view, db.rooms, e);
            && (forall k | k in rows :: view[k].guild in keys)
            && (forall g | g in keys ::
                  && OfGuild(view, rows, g) != {}
                  && keys[g] == RankKey(ScoreSum(view, OfGuild(view, rows, g)),
                                        LastAccepted(db.subs, OfGuild(view, rows, g)), GuildJoined(db, e, g)))
  {
    var keys, rows := GuildKeys(db, view, e), EventRows(view, db.rooms, e);
    forall g | g in keys ensures OfGuild(view, rows, g) != {} {
      var k :| k in rows && view[k].guild == g;
      assert k in OfGuild(view, rows, g);
    }
  }

  lemma TallyOk(s: State, t: Id, order: seq<Id>)
    requires t in s.txs && Local(s.db, s.txs[t]) && CanTally(s, t, order)
    ensures var tx := DoTally(s, t, order).txs[t];
            && GuildsOk(s.db, tx.event, tx.guilds.value, tx.writes.Keys)
            && TotalsExact(s.db.players, s.db.rooms, tx.event, tx.guilds.value)
  {
    var from := s.txs[t];
    var view := View(s.db.players, from.writes);
    var keys := GuildKeys(s.db, view, from.event);
    GuildEntries(keys, order);
    GuildKeySums(s.db, view, from.event);
    TotalsOk(s.db, from, keys, DoTally(s, t, order).txs[t].guilds.value);
  }

  lemma TotalsOk(db: Db, from: Tx, keys: map<Id, RankKey>, gs: seq<GuildFinal>)
    requires TxOk(db, from) && VersionsOk(db, from) && from.Complete?
    requires forall i | 0 <= i < |gs| :: gs[i].guild in keys && gs[i].total == keys[gs[i].guild].score
    requires forall g | g in keys :: GuildListed(gs, g)
    requires var view := View(db.players, from.writes); var rows := EventRows(view, db.rooms, from.event);
             && (forall k | k in rows :: view[k].guild in keys)
             && (forall g | g in keys :: keys[g].score == ScoreSum(view, OfGuild(view, rows, g)))
    ensures TotalsExact(db.players, db.rooms, from.event, gs)
  {
    var view := View(db.players, from.writes);
    var rows := EventRows(view, db.rooms, from.event);
    assert EventRows(db.players, db.rooms, from.event) == rows;
    assert forall k | k in rows :: view[k].score == db.players[k].score && view[k].guild == db.players[k].guild;
    forall i | 0 <= i < |gs| ensures gs[i].total == ScoreSum(db.players, OfGuild(db.players, rows, gs[i].guild)) {
      var mine := OfGuild(view, rows, gs[i].guild);
      assert mine == OfGuild(db.players, rows, gs[i].guild);
      ScoreSumSame(view, mine, db.players, mine);
    }
  }
}
