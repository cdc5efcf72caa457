/** Where committed facts come from: which step of the run credited an acceptance, and which step of the run wrote the
    entries of a permanent snapshot. */
module EngineHistory {
  import opened Tables
  import opened Ranking
  import opened Sums
  import opened Engine
  import opened EngineInvariant
  import opened EngineRuns
  import opened EngineTheorems

  // ---- which acceptances count ----

  /** The player of the submission has a row. */
  ghost predicate HasRow(s: State, id: Id) {
    id in s.db.subs && s.db.subs[id].key in s.db.players
  }

  /** Transaction `t` has run the points statement for submission `id`. */
  ghost predicate HasAdded(s: State, t: Id, id: Id, credited: bool) {
    && t in s.txs && s.txs[t].Score? && s.txs[t].sub == id && s.txs[t].credited == credited
    && (s.txs[t].spc == Added || s.txs[t].spc == Placed || s.txs[t].spc == Marked)
  }

  /** Step `a` of the run is the points statement of `t` for submission `id`, and `t` is open until state `m`. */
  ghost predicate AddedIn(states: seq<State>, steps: seq<Step>, a: nat, m: nat, t: Id, id: Id) {
    && |states| == |steps| + 1 && a < m < |states| && steps[a] == Add(t)
    && t in states[a].txs && states[a].txs[t].Score? && states[a].txs[t].sub == id
    && forall x | a < x <= m :: t in states[x].txs
  }

  lemma AddCredits(s: State, t: Id)
    requires Inv(s) && CanAdd(s, t)
    ensures HasAdded(DoAdd(s, t), t, s.txs[t].sub, HasRow(s, s.txs[t].sub))
  {
    assert TxOk(s.db, s.txs[t]);
  }

  lemma AddedStays(s: State, step: Step, t: Id, id: Id, credited: bool)
    requires Can(s, step) && HasAdded(s, t, id, credited) && t in Do(s, step).txs
    ensures HasAdded(Do(s, step), t, id, credited)
  {
  }

  lemma {:induction false} AddedRun(states: seq<State>, steps: seq<Step>, a: nat, m: nat, t: Id, id: Id)
    requires IsRun(states, steps) && AddedIn(states, steps, a, m, t, id)
    ensures HasAdded(states[m], t, id, HasRow(states[a], id))
    decreases m
  {
    if m == a + 1 {
      FirstAdded(states, steps, a, t);
    } else {
      AddedRun(states, steps, a, m - 1, t, id);
      AddedNext(states, steps, m - 1, t, id, HasRow(states[a], id));
    }
  }

  lemma FirstAdded(states: seq<State>, steps: seq<Step>, a: nat, t: Id)
    requires IsRun(states, steps) && a < |steps| && steps[a] == Add(t)
    ensures t in states[a].txs && states[a].txs[t].Score?
    ensures HasAdded(states[a + 1], t, states[a].txs[t].sub, HasRow(states[a], states[a].txs[t].sub))
  {
    RunInv(states, steps, a);
    RunStep(states, steps, a);
    AddCredits(states[a], t);
  }

  lemma AddedNext(states: seq<State>, steps: seq<Step>, n: nat, t: Id, id: Id, credited: bool)
    requires IsRun(states, steps) && n < |steps| && HasAdded(states[n], t, id, credited) && t in states[n + 1].txs
    ensures HasAdded(states[n + 1], t, id, credited)
  {
    RunStep(states, steps, n);
    AddedStays(states[n], steps[n], t, id, credited);
  }

  /** An acceptance is credited exactly when its player had a row when the points statement of its transaction ran. */
  lemma CreditedExactlyWhen(states: seq<State>, steps: seq<Step>, a: nat, m: nat, t: Id, id: Id)
    requires IsRun(states, steps) && AddedIn(states, steps, a, m, t, id) && m < |steps| && steps[m] == CommitScore(t)
    ensures id in states[m + 1].db.subs && states[m + 1].db.subs[id].status == Accepted(HasRow(states[a], id))
  {
    AddedRun(states, steps, a, m, t, id);
    RunStep(states, steps, m);
    CommitAccepts(states[m], t);
  }

  lemma CommitAccepts(s: State, t: Id)
    requires Can(s, CommitScore(t))
    ensures var db, tx := Do(s, CommitScore(t)).db, s.txs[t];
            tx.sub in db.subs && db.subs[tx.sub].status == Accepted(tx.credited)
  {
  }

  lemma AddedBefore(s: State, step: Step, t: Id, id: Id, credited: bool)
    requires Can(s, step) && HasAdded(Do(s, step), t, id, credited) && step != Add(t)
    ensures HasAdded(s, t, id, credited)
  {
  }

  /** Every transaction past its points statement has run it in this very run. */
  lemma {:induction false} FindAdd(states: seq<State>, steps: seq<Step>, m: nat, t: Id, id: Id, credited: bool)
    returns (a: nat)
    requires IsRun(states, steps) && m < |states| && HasAdded(states[m], t, id, credited)
    ensures AddedIn(states, steps, a, m, t, id)
  {
    RunStep(states, steps, m - 1);
    if steps[m - 1] == Add(t) {
      a := m - 1;
      AddIsOwn(states[a], t, id, credited);
    } else {
      AddedBefore(states[m - 1], steps[m - 1], t, id, credited);
      a := FindAdd(states, steps, m - 1, t, id, credited);
    }
  }

  lemma AddIsOwn(s: State, t: Id, id: Id, credited: bool)
    requires CanAdd(s, t) && HasAdded(DoAdd(s, t), t, id, credited)
    ensures s.txs[t].Score? && s.txs[t].sub == id
  {
  }

  ghost predicate IsAccepted(s: State, id: Id) {
    id in s.db.subs && s.db.subs[id].status.Accepted?
  }

  lemma AcceptedBy(s: State, step: Step, id: Id)
    requires Can(s, step) && IsAccepted(Do(s, step), id) && !IsAccepted(s, id)
    ensures step.CommitScore? && HasAdded(s, step.t, id, s.txs[step.t].credited)
  {
  }

  /** Every acceptance was made by a scoring transaction of this run. */
  lemma {:induction false} FindAcceptance(states: seq<State>, steps: seq<Step>, n: nat, id: Id)
    returns (a: nat, m: nat, t: Id)
    requires IsRun(states, steps) && n < |states| && IsAccepted(states[n], id)
    ensures m < n && m < |steps| && AddedIn(states, steps, a, m, t, id) && steps[m] == CommitScore(t)
  {
    RunStep(states, steps, n - 1);
    if IsAccepted(states[n - 1], id) {
      a, m, t := FindAcceptance(states, steps, n - 1, id);
    } else {
      AcceptedBy(states[n - 1], steps[n - 1], id);
      m, t := n - 1, steps[n - 1].t;
      a := FindAdd(states, steps, m, t, id, states[m].txs[t].credited);
    }
  }

  /** Submission `id` was accepted by a transaction whose points statement found a row of its player. */
  ghost predicate Counts(states: seq<State>, steps: seq<Step>, n: nat, id: Id) {
    exists a: nat, m: nat, t ::
      m < n && m < |steps| && AddedIn(states, steps, a, m, t, id) && steps[m] == CommitScore(t) && HasRow(states[a], id)
  }

  /** Whatever happens after the commit. */
  lemma CreditLasts(states: seq<State>, steps: seq<Step>, a: nat, m: nat, n: nat, t: Id, id: Id)
    requires IsRun(states, steps) && AddedIn(states, steps, a, m, t, id) && m < |steps| && steps[m] == CommitScore(t)
    requires m < n < |states|
    ensures id in states[n].db.subs && states[n].db.subs[id].status == Accepted(HasRow(states[a], id))
  {
    CreditedExactlyWhen(states, steps, a, m, t, id);
    AcceptanceIsFinal(states, steps, m + 1, n, id);
  }

  lemma CountingIsCredited(states: seq<State>, steps: seq<Step>, n: nat, id: Id)
    requires IsRun(states, steps) && n < |states| && Counts(states, steps, n, id)
    ensures id in states[n].db.subs && states[n].db.subs[id].status == Accepted(true)
  {
    var a: nat, m: nat, t :| m < n && m < |steps| && AddedIn(states, steps, a, m, t, id) && steps[m] == CommitScore(t)
                             && HasRow(states[a], id);
    CreditLasts(states, steps, a, m, n, t, id);
  }

  lemma CreditedCounts(states: seq<State>, steps: seq<Step>, n: nat, id: Id)
    requires IsRun(states, steps) && n < |states| && IsAccepted(states[n], id)
    requires states[n].db.subs[id].status == Accepted(true)
    ensures Counts(states, steps, n, id)
  {
    var a, m, t := FindAcceptance(states, steps, n, id);
    CreditLasts(states, steps, a, m, n, t, id);
  }

  /** In every reachable state an acceptance is credited if and only if it counts. */
  lemma CreditedIffCounts(states: seq<State>, steps: seq<Step>, n: nat, id: Id)
    requires IsRun(states, steps) && n < |states| && IsAccepted(states[n], id)
    ensures states[n].db.subs[id].status == Accepted(true) <==> Counts(states, steps, n, id)
  {
    if Counts(states, steps, n, id) {
      CountingIsCredited(states, steps, n, id);
    } else if states[n].db.subs[id].status == Accepted(true) {
      CreditedCounts(states, steps, n, id);
    }
  }

  /** The acceptances of this player in this room whose points statement found the row. */
  ghost function Counting(states: seq<State>, steps: seq<Step>, n: nat, k: Key): set<Id>
    requires n < |states|
  {
    set i | i in states[n].db.subs && states[n].db.subs[i].key == k && IsAccepted(states[n], i)
            && Counts(states, steps, n, i)
  }

  /** In every reachable state a player's score is the sum of the points of exactly those acceptances of that player in
      that room whose points statement found the row; no player has two acceptances of a problem in a room; and
      points only come from transactions that began by the end of the event. */
  lemma PointsAwardedOnce(states: seq<State>, steps: seq<Step>, n: nat)
    requires IsRun(states, steps) && n < |states|
    ensures var db := states[n].db;
            && (forall k | k in db.players :: db.players[k].score == SubPoints(db.subs, Counting(states, steps, n, k)))
            && (forall i, j | i in db.subs && j in db.subs && i != j
                              && IsAccepted(states[n], i) && IsAccepted(states[n], j) ::
                  db.subs[i].key != db.subs[j].key || db.subs[i].problem != db.subs[j].problem)
            && (forall i | IsAccepted(states[n], i) && Counts(states, steps, n, i) ::
                  && db.subs[i].key.room in db.rooms && db.rooms[db.subs[i].key.room] in db.events
                  && exists a :: a in db.ledger && a.sub == i && a.points == db.subs[i].points
                                 && a.startedAt <= db.events[db.rooms[db.subs[i].key.room]].endDate)
  {
    RunInv(states, steps, n);
    var db := states[n].db;
    BooksBalance(db);
    forall i | IsAccepted(states[n], i)
      ensures db.subs[i].status == Accepted(true) <==> Counts(states, steps, n, i)
    {
      CreditedIffCounts(states, steps, n, i);
    }
    forall k ensures Counting(states, steps, n, k) == CreditedSubs(db.subs, k) {}
  }

  lemma {:induction false} HandledStays(states: seq<State>, steps: seq<Step>, i: nat, j: nat, id: Id)
    requires IsRun(states, steps) && i <= j < |states|
    requires id in states[i].db.subs && states[i].db.subs[id].phase == Handled
    ensures id in states[j].db.subs && states[j].db.subs[id].phase == Handled
    decreases j
  {
    if i < j {
      HandledStays(states, steps, i, j - 1, id);
      RunStep(states, steps, j - 1);
      SubStays(states[j - 1], steps[j - 1], id);
    }
  }

  lemma ScorerHandled(s: State, t: Id, id: Id)
    requires Inv(s) && t in s.txs && s.txs[t].Score? && s.txs[t].sub == id
    ensures id in s.db.subs && s.db.subs[id].phase == Handled
  {
    assert TxOk(s.db, s.txs[t]);
  }

  /** A player who has a row before a submission is taken up gets its points if it is accepted: rows never go away. */
  lemma PlayersGetTheirPoints(states: seq<State>, steps: seq<Step>, i: nat, n: nat, id: Id)
    requires IsRun(states, steps) && i <= n < |states|
    requires HasRow(states[i], id) && states[i].db.subs[id].phase != Handled
    requires IsAccepted(states[n], id)
    ensures states[n].db.subs[id].status == Accepted(true)
    ensures states[n].db.subs[id].key == states[i].db.subs[id].key
  {
    var a, m, t := FindAcceptance(states, steps, n, id);
    RunInv(states, steps, a);
    ScorerHandled(states[a], t, id);
    if a < i {
      HandledStays(states, steps, a, i, id);
    }
    RowStays(states, steps, i, a, id);
    RowStays(states, steps, i, n, id);
    CreditedIffCounts(states, steps, n, id);
  }

  lemma {:induction false} RowStays(states: seq<State>, steps: seq<Step>, i: nat, j: nat, id: Id)
    requires IsRun(states, steps) && i <= j < |states| && HasRow(states[i], id)
    ensures HasRow(states[j], id) && states[j].db.subs[id].key == states[i].db.subs[id].key
    decreases j
  {
    if i < j {
      RowStays(states, steps, i, j - 1, id);
      NextLater(states, steps, j - 1);
      RunStep(states, steps, j - 1);
      SubStays(states[j - 1], steps[j - 1], id);
    }
  }

  /** A submission keeps its player, problem and points and, once taken up, stays so. */
  ghost predicate SubKept(s: State, s': State, id: Id)
    requires id in s.db.subs
  {
    && id in s'.db.subs && s'.db.subs[id].key == s.db.subs[id].key
    && s'.db.subs[id].problem == s.db.subs[id].problem && s'.db.subs[id].points == s.db.subs[id].points
    && (s.db.subs[id].phase == Handled ==> s'.db.subs[id].phase == Handled)
  }

  lemma SubStays(s: State, step: Step, id: Id)
    requires Can(s, step) && id in s.db.subs
    ensures SubKept(s, Do(s, step), id)
  {
    if IsSub(step) {
      SubStepKeepsSub(s, step, id);
    } else if IsEnd(step) {
      EndKeepsSub(s, step, id);
    } else {
      OtherKeepsSub(s, step);
    }
  }

  lemma SubStepKeepsSub(s: State, step: Step, id: Id)
    requires Can(s, step) && id in s.db.subs && IsSub(step)
    ensures SubKept(s, Do(s, step), id)
  {
  }

  lemma EndKeepsSub(s: State, step: Step, id: Id)
    requires Can(s, step) && id in s.db.subs && IsEnd(step)
    ensures SubKept(s, Do(s, step), id)
  {
  }

  lemma OtherKeepsSub(s: State, step: Step)
    requires Can(s, step) && !IsSub(step) && !IsEnd(step)
    ensures Do(s, step).db.subs == s.db.subs
  {
  }

  // ---- what a ranking statement leaves behind ----

  ghost predicate PlacedTx(tx: Tx) {
    (tx.Score? && (tx.spc == Placed || tx.spc == Marked)) || (tx.Rerank? && tx.placed)
  }

  /** Transaction `t` has ranked its room and holds these versions. */
  ghost predicate HasPlaced(s: State, t: Id, writes: map<Key, Player>) {
    t in s.txs && PlacedTx(s.txs[t]) && s.txs[t].writes == writes
  }

  lemma PlacedStays(s: State, step: Step, t: Id, writes: map<Key, Player>)
    requires Can(s, step) && HasPlaced(s, t, writes) && t in Do(s, step).txs
    ensures HasPlaced(Do(s, step), t, writes)
  {
    if IsOutside(step) {
      OutsideHeld(s, step);
    } else if IsEnd(step) {
      EndKeepsOpen(s, step, t);
    } else {
      InsideKeepsPlaced(s, step, t, writes);
    }
  }

  lemma EndKeepsOpen(s: State, step: Step, t: Id)
    requires Can(s, step) && IsEnd(step) && t in Do(s, step).txs
    ensures t in s.txs && Do(s, step).txs[t] == s.txs[t]
  {
  }

  lemma InsideKeepsPlaced(s: State, step: Step, t: Id, writes: map<Key, Player>)
    requires Can(s, step) && !IsOutside(step) && !IsEnd(step) && HasPlaced(s, t, writes)
    ensures HasPlaced(Do(s, step), t, writes)
  {
  }

  lemma {:induction false} PlacedRun(states: seq<State>, steps: seq<Step>, a: nat, m: nat, t: Id,
                                     writes: map<Key, Player>)
    requires IsRun(states, steps) && a < m && OpenBetween(states, t, a, m) && HasPlaced(states[a + 1], t, writes)
    ensures HasPlaced(states[m], t, writes)
    decreases m
  {
    if a + 1 < m {
      PlacedRun(states, steps, a, m - 1, t, writes);
      RunStep(states, steps, m - 1);
      PlacedStays(states[m - 1], steps[m - 1], t, writes);
    }
  }

  lemma CommitShows(s: State, step: Step, t: Id, writes: map<Key, Player>)
    requires Can(s, step) && (step == CommitScore(t) || step == CommitRerank(t)) && HasPlaced(s, t, writes)
    ensures forall k | k in writes :: k in Do(s, step).db.players && Do(s, step).db.players[k] == writes[k]
  {
  }

  /** The room a ranking transaction works on. */
  ghost function RoomRanked(s: State, t: Id): Id
    requires PlaceReady(s, t)
  {
    if s.txs[t].Rerank? then s.txs[t].room else s.db.subs[s.txs[t].sub].key.room
  }

  /** In `after` every row that room `r` had in `db` has a place: places 1, 2, ... up to their number, in the order of
      `order`; scores do not increase along it, among equal scores the last acceptance known in `db` does not get
      earlier, and with that equal too, the join time does not get earlier. */
  ghost predicate Ranked(order: seq<Key>, db: Db, after: map<Key, Player>, r: Id) {
    && Distinct(order)
    && (forall k :: k in order <==> k in db.players && k.room == r)
    && (forall i | 0 <= i < |order| :: order[i] in after && after[order[i]].place == Some(i + 1))
    && (forall i, j | 0 <= i < j < |order| && order[i] in after && order[j] in after ::
          var first, second := after[order[i]], after[order[j]];
          var last, next := LastAccepted(db.subs, {order[i]}), LastAccepted(db.subs, {order[j]});
          && first.score >= second.score
          && (first.score == second.score ==> last <= next)
          && (first.score == second.score && last == next ==> first.joinedAt <= second.joinedAt))
  }

  lemma PlaceRanks(s: State, t: Id, order: seq<Key>)
    requires Inv(s) && CanPlace(s, t, order)
    ensures HasPlaced(DoPlace(s, t, order), t, DoPlace(s, t, order).txs[t].writes)
    ensures Ranked(order, s.db, DoPlace(s, t, order).txs[t].writes, RoomRanked(s, t))
  {
    OwnRows(s, t);
    PlacedOwn(s, t, order);
  }

  lemma PlacedOwn(s: State, t: Id, order: seq<Key>)
    requires CanPlace(s, t, order) && s.txs[t].writes.Keys <= s.db.players.Keys
    ensures HasPlaced(DoPlace(s, t, order), t, DoPlace(s, t, order).txs[t].writes)
    ensures Ranked(order, s.db, DoPlace(s, t, order).txs[t].writes, RoomRanked(s, t))
  {
    var view := View(s.db.players, s.txs[t].writes);
    assert view.Keys == s.db.players.Keys;
    PlacesRank(s.db, view, RoomRanked(s, t), order);
    RankedOverlay(order, s.db, WithPlaces(view, order), s.txs[t].writes, RoomRanked(s, t));
  }

  lemma RankedOverlay(order: seq<Key>, db: Db, places: map<Key, Player>, below: map<Key, Player>, r: Id)
    requires Ranked(order, db, places, r)
    ensures Ranked(order, db, below + places, r)
  {
  }

  lemma OwnRows(s: State, t: Id)
    requires Inv(s) && t in s.txs
    ensures s.txs[t].writes.Keys <= s.db.players.Keys
  {
    assert TxOk(s.db, s.txs[t]);
  }

  lemma PlacesRank(db: Db, view: map<Key, Player>, r: Id, order: seq<Key>)
    requires view.Keys == db.players.Keys && Numbers(order, RowKeys(view, db.subs, RoomRows(view, r)))
    ensures forall i | 0 <= i < |order| :: order[i] in view
    ensures Ranked(order, db, WithPlaces(view, order), r)
  {
    var keys := RowKeys(view, db.subs, RoomRows(view, r));
    assert forall i | 0 <= i < |order| :: order[i] in keys;
    forall i | 0 <= i < |order| ensures WithPlaces(view, order)[order[i]].place == Some(i + 1) {
      assert IndexOf(order, order[i]) == i;
    }
    forall k ensures k in order <==> k in db.players && k.room == r {
      assert k in order ==> k in keys;
    }
  }

  /** From ranking statement to commit, for a re-ranking after a join and for a scoring transaction alike: after the
      commit every row that the room had when the statement ran has a place, and the places are exactly 1 up to the
      number of those rows, in the order of the three-part key of that moment. */
  lemma RankingIsWritten(states: seq<State>, steps: seq<Step>, a: nat, m: nat, t: Id, order: seq<Key>)
    requires IsRun(states, steps) && a < m < |steps| && OpenBetween(states, t, a, m) && steps[a] == Place(t, order)
    requires steps[m] == CommitScore(t) || steps[m] == CommitRerank(t)
    ensures PlaceReady(states[a], t)
    ensures Ranked(order, states[a].db, states[m + 1].db.players, RoomRanked(states[a], t))
    ensures |order| == |set k | k in states[a].db.players && k.room == RoomRanked(states[a], t)|
  {
    RanksNext(states, steps, a, t, order);
    var writes, r := states[a + 1].txs[t].writes, RoomRanked(states[a], t);
    PlacedRun(states, steps, a, m, t, writes);
    RunStep(states, steps, m);
    CommitShows(states[m], steps[m], t, writes);
    RankedShown(order, states[a].db, writes, states[m + 1].db.players, r);
  }

  lemma RanksNext(states: seq<State>, steps: seq<Step>, a: nat, t: Id, order: seq<Key>)
    requires IsRun(states, steps) && a < |steps| && steps[a] == Place(t, order)
    ensures PlaceReady(states[a], t) && t in states[a + 1].txs
    ensures HasPlaced(states[a + 1], t, states[a + 1].txs[t].writes)
    ensures Ranked(order, states[a].db, states[a + 1].txs[t].writes, RoomRanked(states[a], t))
  {
    RunInv(states, steps, a);
    RunStep(states, steps, a);
    PlaceRanks(states[a], t, order);
  }

  lemma RankedShown(order: seq<Key>, db: Db, writes: map<Key, Player>, after: map<Key, Player>, r: Id)
    requires Ranked(order, db, writes, r) && forall k | k in writes :: k in after && after[k] == writes[k]
    ensures Ranked(order, db, after, r) && |order| == |set k | k in db.players && k.room == r|
  {
    DistinctCount(order);
    assert Elements(order) == set k | k in db.players && k.room == r;
  }

  // ---- where the permanent snapshots come from ----

  /** Completion `t` of `e` has captured these entries. */
  ghost predicate HasCaptured(s: State, t: Id, e: Id, finals: seq<Final>) {
    && t in s.txs && s.txs[t].Complete? && s.txs[t].event == e && s.txs[t].finals == finals
    && (s.txs[t].cpc == Captured || s.txs[t].cpc == Tallied)
  }

  /** Completion `t` of `e` has tallied these entries. */
  ghost predicate HasTallied(s: State, t: Id, e: Id, gs: seq<GuildFinal>) {
    t in s.txs && s.txs[t].Complete? && s.txs[t].event == e && s.txs[t].cpc == Tallied && s.txs[t].guilds == Some(gs)
  }

  lemma CapturedStays(s: State, step: Step, t: Id, e: Id, finals: seq<Final>)
    requires Can(s, step) && HasCaptured(s, t, e, finals) && t in Do(s, step).txs
    ensures HasCaptured(Do(s, step), t, e, finals)
  {
  }

  lemma TalliedStays(s: State, step: Step, t: Id, e: Id, gs: seq<GuildFinal>)
    requires Can(s, step) && HasTallied(s, t, e, gs) && t in Do(s, step).txs
    ensures HasTallied(Do(s, step), t, e, gs)
  {
  }

  ghost predicate OpenBetween(states: seq<State>, t: Id, a: nat, m: nat) {
    m < |states| && forall x | a < x <= m :: t in states[x].txs
  }

  lemma {:induction false} CapturedRun(states: seq<State>, steps: seq<Step>, a: nat, m: nat, t: Id, e: Id,
                                       finals: seq<Final>)
    requires IsRun(states, steps) && a < m && OpenBetween(states, t, a, m) && HasCaptured(states[a + 1], t, e, finals)
    ensures HasCaptured(states[m], t, e, finals)
    decreases m
  {
    if a + 1 < m {
      CapturedRun(states, steps, a, m - 1, t, e, finals);
      RunStep(states, steps, m - 1);
      CapturedStays(states[m - 1], steps[m - 1], t, e, finals);
    }
  }

  lemma {:induction false} TalliedRun(states: seq<State>, steps: seq<Step>, a: nat, m: nat, t: Id, e: Id,
                                      gs: seq<GuildFinal>)
    requires IsRun(states, steps) && a < m && OpenBetween(states, t, a, m) && HasTallied(states[a + 1], t, e, gs)
    ensures HasTallied(states[m], t, e, gs)
    decreases m
  {
    if a + 1 < m {
      TalliedRun(states, steps, a, m - 1, t, e, gs);
      RunStep(states, steps, m - 1);
      TalliedStays(states[m - 1], steps[m - 1], t, e, gs);
    }
  }

  lemma CommitFiles(s: State, t: Id, e: Id, finals: seq<Final>)
    requires Can(s, CommitComplete(t)) && HasCaptured(s, t, e, finals)
    ensures var db := Do(s, CommitComplete(t)).db; e in db.finals && db.finals[e] == finals
  {
  }

  lemma CommitFilesGuilds(s: State, t: Id, e: Id, gs: seq<GuildFinal>)
    requires Can(s, CommitComplete(t)) && HasTallied(s, t, e, gs)
    ensures var db := Do(s, CommitComplete(t)).db; e in db.finals && e in db.guildFinals && db.guildFinals[e] == gs
  {
  }

  /** From capture to forever: once a completion commits (step m), the permanent player snapshot has at any later time
      exactly one entry per row that its capture (step a) saw, with the score of that moment, in the order of the
      three-part key of that moment. */
  lemma SnapshotIsCapture(states: seq<State>, steps: seq<Step>, a: nat, m: nat, j: nat, t: Id, order: seq<Key>)
    requires IsRun(states, steps) && a < m < |steps| && m < j < |states| && OpenBetween(states, t, a, m)
    requires steps[a] == Capture(t, order) && steps[m] == CommitComplete(t)
    ensures t in states[a].txs && states[a].txs[t].Complete?
    ensures var e := states[a].txs[t].event;
            e in states[j].db.finals && RanksPlayers(states[j].db.finals[e], states[a].db, e)
  {
    CaptureIsComplete(states, steps, a, t, order);
    var e, finals := states[a].txs[t].event, states[a + 1].txs[t].finals;
    CaptureFiles(states[a], t, order);
    CapturedRun(states, steps, a, m, t, e, finals);
    FiledRun(states, steps, m, j, t, e, finals);
  }

  lemma FiledRun(states: seq<State>, steps: seq<Step>, m: nat, j: nat, t: Id, e: Id, finals: seq<Final>)
    requires IsRun(states, steps) && m < |steps| && m < j < |states|
    requires steps[m] == CommitComplete(t) && HasCaptured(states[m], t, e, finals)
    ensures e in states[j].db.finals && states[j].db.finals[e] == finals
  {
    RunStep(states, steps, m);
    CommitFiles(states[m], t, e, finals);
    SnapshotWrittenOnce(states, steps, m + 1, j, e);
  }

  lemma CaptureFiles(s: State, t: Id, order: seq<Key>)
    requires CanCapture(s, t, order)
    ensures HasCaptured(DoCapture(s, t, order), t, s.txs[t].event, DoCapture(s, t, order).txs[t].finals)
  {
  }

  /** The same for the permanent guild snapshot and its tally. */
  lemma GuildSnapshotIsTally(states: seq<State>, steps: seq<Step>, a: nat, m: nat, j: nat, t: Id, order: seq<Id>)
    requires IsRun(states, steps) && a < m < |steps| && m < j < |states| && OpenBetween(states, t, a, m)
    requires steps[a] == Tally(t, order) && steps[m] == CommitComplete(t)
    ensures t in states[a].txs && states[a].txs[t].Complete?
    ensures var e := states[a].txs[t].event;
            e in states[j].db.guildFinals && RanksGuilds(states[j].db.guildFinals[e], states[a].db, e)
  {
    TallyIsComplete(states, steps, a, t, order);
    var e, gs := states[a].txs[t].event, states[a + 1].txs[t].guilds.value;
    TallyFiles(states[a], t, order);
    TalliedRun(states, steps, a, m, t, e, gs);
    GuildsFiledRun(states, steps, m, j, t, e, gs);
  }

  lemma GuildsFiledRun(states: seq<State>, steps: seq<Step>, m: nat, j: nat, t: Id, e: Id, gs: seq<GuildFinal>)
    requires IsRun(states, steps) && m < |steps| && m < j < |states|
    requires steps[m] == CommitComplete(t) && HasTallied(states[m], t, e, gs)
    ensures e in states[j].db.guildFinals && states[j].db.guildFinals[e] == gs
  {
    RunStep(states, steps, m);
    CommitFilesGuilds(states[m], t, e, gs);
    SnapshotWrittenOnce(states, steps, m + 1, j, e);
  }

  lemma TallyFiles(s: State, t: Id, order: seq<Id>)
    requires CanTally(s, t, order)
    ensures HasTallied(DoTally(s, t, order), t, s.txs[t].event, DoTally(s, t, order).txs[t].guilds.value)
  {
  }

  // ---- every permanent snapshot has such a capture ----

  lemma CapturedBefore(s: State, step: Step, t: Id, e: Id, finals: seq<Final>)
    requires Can(s, step) && HasCaptured(Do(s, step), t, e, finals) && !(step.Capture? && step.t == t)
    ensures HasCaptured(s, t, e, finals)
  {
  }

  lemma TalliedBefore(s: State, step: Step, t: Id, e: Id, gs: seq<GuildFinal>)
    requires Can(s, step) && HasTallied(Do(s, step), t, e, gs) && !(step.Tally? && step.t == t)
    requires t in s.txs && s.txs[t].Complete? && s.txs[t].guilds.Some? ==> s.txs[t].cpc == Tallied
    ensures HasTallied(s, t, e, gs)
  {
  }

  lemma {:induction false} FindCapture(states: seq<State>, steps: seq<Step>, m: nat, t: Id, e: Id, finals: seq<Final>)
    returns (a: nat, order: seq<Key>)
    requires IsRun(states, steps) && m < |states| && HasCaptured(states[m], t, e, finals)
    ensures a < m && a < |steps| && steps[a] == Capture(t, order) && OpenBetween(states, t, a, m)
    ensures t in states[a].txs && states[a].txs[t].Complete? && states[a].txs[t].event == e
  {
    RunStep(states, steps, m - 1);
    if steps[m - 1].Capture? && steps[m - 1].t == t {
      a, order := m - 1, steps[m - 1].order;
    } else {
      CapturedBefore(states[m - 1], steps[m - 1], t, e, finals);
      a, order := FindCapture(states, steps, m - 1, t, e, finals);
    }
  }

  lemma {:induction false} FindTally(states: seq<State>, steps: seq<Step>, m: nat, t: Id, e: Id, gs: seq<GuildFinal>)
    returns (a: nat, order: seq<Id>)
    requires IsRun(states, steps) && m < |states| && HasTallied(states[m], t, e, gs)
    ensures a < m && a < |steps| && steps[a] == Tally(t, order) && OpenBetween(states, t, a, m)
    ensures t in states[a].txs && states[a].txs[t].Complete? && states[a].txs[t].event == e
  {
    RunStep(states, steps, m - 1);
    if steps[m - 1].Tally? && steps[m - 1].t == t {
      a, order := m - 1, steps[m - 1].guildOrder;
      TallyIsOwn(states[a], t, order, e, gs);
    } else {
      NotTalliedYet(states, steps, m - 1, t, e, gs);
      a, order := FindTally(states, steps, m - 1, t, e, gs);
    }
  }

  lemma TallyIsOwn(s: State, t: Id, order: seq<Id>, e: Id, gs: seq<GuildFinal>)
    requires CanTally(s, t, order) && HasTallied(DoTally(s, t, order), t, e, gs)
    ensures s.txs[t].Complete? && s.txs[t].event == e
  {
  }

  lemma NotTalliedYet(states: seq<State>, steps: seq<Step>, n: nat, t: Id, e: Id, gs: seq<GuildFinal>)
    requires IsRun(states, steps) && n < |steps| && HasTallied(states[n + 1], t, e, gs)
    requires !(steps[n].Tally? && steps[n].t == t)
    ensures HasTallied(states[n], t, e, gs)
  {
    RunInv(states, steps, n);
    TalliesOnly(states[n], t);
    RunStep(states, steps, n);
    TalliedBefore(states[n], steps[n], t, e, gs);
  }

  lemma TalliesOnly(s: State, t: Id)
    requires Inv(s)
    ensures t in s.txs && s.txs[t].Complete? && s.txs[t].guilds.Some? ==> s.txs[t].cpc == Tallied
  {
    assert t in s.txs ==> TxOk(s.db, s.txs[t]);
  }

  ghost predicate SameFiles(a: Db, b: Db) {
    a.finals == b.finals && a.guildFinals == b.guildFinals
  }

  lemma OutsideFilesNothing(s: State, step: Step)
    requires Can(s, step) && (IsOutside(step) || IsBegin(step))
    ensures SameFiles(s.db, Do(s, step).db)
  {
  }

  lemma EndFilesNothing(s: State, step: Step)
    requires Can(s, step) && IsEnd(step) && !step.CommitComplete?
    ensures SameFiles(s.db, Do(s, step).db)
  {
  }

  lemma InsideFilesNothing(s: State, step: Step)
    requires Can(s, step) && !IsOutside(step) && !IsBegin(step) && !IsEnd(step)
    ensures SameFiles(s.db, Do(s, step).db)
  {
  }

  lemma OnlyCompletionsFile(s: State, step: Step)
    requires Can(s, step) && !step.CommitComplete?
    ensures SameFiles(s.db, Do(s, step).db)
  {
    if IsOutside(step) || IsBegin(step) {
      OutsideFilesNothing(s, step);
    } else if IsEnd(step) {
      EndFilesNothing(s, step);
    } else {
      InsideFilesNothing(s, step);
    }
  }

  lemma FiledBy(s: State, step: Step, e: Id)
    requires Can(s, step) && e in Do(s, step).db.finals && e !in s.db.finals
    ensures step.CommitComplete? && HasCaptured(s, step.t, e, Do(s, step).db.finals[e])
  {
    if !step.CommitComplete? {
      OnlyCompletionsFile(s, step);
    }
  }

  lemma GuildsFiledBy(s: State, step: Step, e: Id)
    requires Can(s, step) && e in Do(s, step).db.guildFinals && e !in s.db.guildFinals
    ensures step.CommitComplete? && HasTallied(s, step.t, e, Do(s, step).db.guildFinals[e])
  {
    if !step.CommitComplete? {
      OnlyCompletionsFile(s, step);
    }
  }

  lemma {:induction false} FindFiling(states: seq<State>, steps: seq<Step>, n: nat, e: Id) returns (m: nat, t: Id)
    requires IsRun(states, steps) && n < |states| && e in states[n].db.finals
    ensures m < n && m < |steps| && steps[m] == CommitComplete(t)
    ensures HasCaptured(states[m], t, e, states[n].db.finals[e])
  {
    RunStep(states, steps, n - 1);
    if e in states[n - 1].db.finals {
      m, t := FindFiling(states, steps, n - 1, e);
      SnapshotWrittenOnce(states, steps, n - 1, n, e);
    } else {
      FiledBy(states[n - 1], steps[n - 1], e);
      m, t := n - 1, steps[n - 1].t;
    }
  }

  lemma {:induction false} FindGuildFiling(states: seq<State>, steps: seq<Step>, n: nat, e: Id) returns (m: nat, t: Id)
    requires IsRun(states, steps) && n < |states| && e in states[n].db.guildFinals
    ensures m < n && m < |steps| && steps[m] == CommitComplete(t)
    ensures HasTallied(states[m], t, e, states[n].db.guildFinals[e])
  {
    RunStep(states, steps, n - 1);
    if e in states[n - 1].db.guildFinals {
      m, t := FindGuildFiling(states, steps, n - 1, e);
      RunInv(states, steps, n - 1);
      SnapshotsAt(states[n - 1]);
      SnapshotWrittenOnce(states, steps, n - 1, n, e);
    } else {
      GuildsFiledBy(states[n - 1], steps[n - 1], e);
      m, t := n - 1, steps[n - 1].t;
    }
  }

  /** In every reachable state an event is completed exactly when its player snapshot exists; and that snapshot is the
      complete ranking, at the capture of the completion that committed it, of the event's player rows. */
  lemma CompletedIffSnapshot(states: seq<State>, steps: seq<Step>, n: nat, e: Id)
    requires IsRun(states, steps) && n < |states|
    ensures e in states[n].db.finals <==> e in states[n].db.events && states[n].db.events[e].status == Completed
    ensures e in states[n].db.finals ==>
              exists a: nat, t, order :: a < n && a < |steps| && steps[a] == Capture(t, order)
                                    && t in states[a].txs && states[a].txs[t].Complete? && states[a].txs[t].event == e
                                    && RanksPlayers(states[n].db.finals[e], states[a].db, e)
  {
    RunInv(states, steps, n);
    SnapshotsAt(states[n]);
    if e in states[n].db.finals {
      var m, t := FindFiling(states, steps, n, e);
      var a, order := FindCapture(states, steps, m, t, e, states[n].db.finals[e]);
      SnapshotIsCapture(states, steps, a, m, n, t, order);
    }
  }

  /** Every guild snapshot is the complete ranking, at the tally of the completion that committed it, of the guilds with
      player rows in the event; and it comes with a player snapshot. */
  lemma GuildRanks(states: seq<State>, steps: seq<Step>, n: nat, e: Id)
    requires IsRun(states, steps) && n < |states| && e in states[n].db.guildFinals
    ensures e in states[n].db.finals
    ensures exists a: nat, t, order :: a < n && a < |steps| && steps[a] == Tally(t, order)
                                  && t in states[a].txs && states[a].txs[t].Complete? && states[a].txs[t].event == e
                                  && RanksGuilds(states[n].db.guildFinals[e], states[a].db, e)
  {
    RunInv(states, steps, n);
    SnapshotsAt(states[n]);
    var m, t := FindGuildFiling(states, steps, n, e);
    var a, order := FindTally(states, steps, m, t, e, states[n].db.guildFinals[e]);
    GuildSnapshotIsTally(states, steps, a, m, n, t, order);
  }

  /** The second part of the sort key: the submission time of the latest accepted submission of these rows; without one,
      later than any date. */
  lemma LastAcceptedIsLatest(subs: map<Id, Submission>, rows: set<Key>)
    ensures forall i | i in subs && subs[i].key in rows && subs[i].status.Accepted? ::
              subs[i].submittedAt <= LastAccepted(subs, rows)
    ensures (exists i :: i in subs && subs[i].key in rows && subs[i].status.Accepted?
                         && subs[i].submittedAt == LastAccepted(subs, rows))
            || ((forall i | i in subs && subs[i].key in rows :: !subs[i].status.Accepted?)
                && LastAccepted(subs, rows) == FAR_FUTURE)
  {
    var accepted := set i | i in subs && subs[i].key in rows && subs[i].status.Accepted? :: subs[i];
    assert forall j | j in subs && subs[j].key in rows && subs[j].status.Accepted? :: subs[j] in accepted;
    if accepted != {} {
      var x :| x in accepted && x.submittedAt == Latest(accepted);
      var i :| i in subs && subs[i].key in rows && subs[i].status.Accepted? && subs[i] == x;
    }
  }
}
