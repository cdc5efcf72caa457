/** The reward loops that run after a completion, for players and (alike) for guilds. */
module Rewards {
  import opened Tables
  import opened Ranking
  import opened Engine
  import opened EngineTheorems
  import opened EngineRace
  import opened EngineCalm
  import opened EngineSettled

  datatype Reward = Top1 | Top2 | Top3 | Participant

  /** One call of the grant service. Whether the call succeeds makes no difference to the calls that follow. */
  datatype Grant = Grant(who: Id, reward: Reward)

  /** AchievementCodeBattle[rank]. */
  function TopReward(rank: nat): Reward
    requires 1 <= rank <= 3
  {
    if rank == 1 then Top1 else if rank == 2 then Top2 else Top3
  }

  /** How many grant calls name `who`. */
  ghost function Calls(grants: seq<Grant>, who: Id): nat {
    if grants == [] then 0
    else Calls(grants[..|grants| - 1], who) + (if grants[|grants| - 1].who == who then 1 else 0)
  }

  lemma CallsAppend(grants: seq<Grant>, g: Grant, who: Id)
    ensures Calls(grants + [g], who) == Calls(grants, who) + (if g.who == who then 1 else 0)
  {
    assert (grants + [g])[..|grants|] == grants;
  }

  /** After the first `i` rows of the first loop, and after `n` rows of the second when the first did `m`. */
  ghost predicate CallsFirst(grants: seq<Grant>, ids: seq<Id>, i: nat)
    requires i <= |ids|
  {
    forall who :: Calls(grants, who) == multiset(ids[..i])[who]
  }

  ghost predicate CallsRest(grants: seq<Grant>, ids: seq<Id>, m: nat, n: nat)
    requires m <= |ids| && n <= |ids|
  {
    forall who :: Calls(grants, who) == if who in ids[..m] then multiset(ids[..m])[who] else multiset(ids[..n])[who]
  }

  lemma CallFirst(grants: seq<Grant>, ids: seq<Id>, i: nat, g: Grant)
    requires i < |ids| && CallsFirst(grants, ids, i) && g.who == ids[i]
    ensures CallsFirst(grants + [g], ids, i + 1)
  {
    assert ids[..i + 1] == ids[..i] + [ids[i]];
    forall who { CallsAppend(grants, g, who); }
  }

  lemma CallRest(grants: seq<Grant>, ids: seq<Id>, m: nat, n: nat, g: Grant)
    requires m <= |ids| && n < |ids| && CallsRest(grants, ids, m, n) && g.who == ids[n]
    ensures CallsRest(if ids[n] in ids[..m] then grants else grants + [g], ids, m, n + 1)
  {
    assert ids[..n + 1] == ids[..n] + [ids[n]];
    forall who { CallsAppend(grants, g, who); }
  }

  lemma NoRestYet(grants: seq<Grant>, ids: seq<Id>, m: nat)
    requires m <= |ids| && CallsFirst(grants, ids, m)
    ensures CallsRest(grants, ids, m, 0)
  {
  }

  lemma AllCalled(grants: seq<Grant>, ids: seq<Id>, m: nat)
    requires m == (if |ids| < 3 then |ids| else 3) && CallsRest(grants, ids, m, |ids|)
    ensures forall who :: Calls(grants, who)
              == if |ids| > 3 && who in ids[..3] then multiset(ids[..3])[who] else multiset(ids)[who]
    ensures Distinct(ids) ==> forall who :: Calls(grants, who) == if who in ids then 1 else 0
  {
    assert ids[..|ids|] == ids;
    if Distinct(ids) {
      forall who ensures Calls(grants, who) == if who in ids then 1 else 0 {
        DistinctGetOne(ids, who);
      }
    }
  }

  /** The first `i` calls are for the first `i` rows. */
  ghost predicate TopCalls(grants: seq<Grant>, ids: seq<Id>, i: nat)
    requires i <= |ids| && i <= 3
  {
    i <= |grants| && forall j | 0 <= j < i :: grants[j] == Grant(ids[j], TopReward(j + 1))
  }

  /** The others are for rows that name none of the first `m`. */
  ghost predicate OtherCalls(grants: seq<Grant>, ids: seq<Id>, m: nat)
    requires m <= |ids|
  {
    && (m == |ids| ==> |grants| == m)
    && forall j | m <= j < |grants| ::
         grants[j].reward == Participant && grants[j].who in ids && grants[j].who !in ids[..m]
  }

  lemma CallsInOrder(grants: seq<Grant>, ids: seq<Id>, m: nat)
    requires m == (if |ids| < 3 then |ids| else 3) && TopCalls(grants, ids, m) && OtherCalls(grants, ids, m)
    ensures |ids| >= 1 ==> |grants| >= 1 && grants[0] == Grant(ids[0], Top1)
    ensures |ids| >= 2 ==> |grants| >= 2 && grants[1] == Grant(ids[1], Top2)
    ensures |ids| >= 3 ==> |grants| >= 3 && grants[2] == Grant(ids[2], Top3)
    ensures |ids| <= 3 ==> |grants| == |ids|
    ensures forall i | 3 <= i < |grants| ::
              grants[i].reward == Participant && grants[i].who in ids && grants[i].who !in ids[..3]
  {
  }

  lemma CallOther(grants: seq<Grant>, ids: seq<Id>, m: nat, n: nat)
    requires m <= |ids| && m <= 3 && n < |ids| && TopCalls(grants, ids, m) && OtherCalls(grants, ids, m)
    ensures ids[n] in Elements(ids[..m]) <==> ids[n] in ids[..m]
    ensures ids[n] !in ids[..m] ==>
              var more := grants + [Grant(ids[n], Participant)]; TopCalls(more, ids, m) && OtherCalls(more, ids, m)
  {
    assert m == |ids| ==> ids[..m] == ids;
  }

  /** The second loop: everybody who is not among the first three. */
  method GrantOthers(ids: seq<Id>, top: set<Id>, grants0: seq<Grant>, ghost m: nat) returns (grants: seq<Grant>)
    requires m <= |ids| && m <= 3 && |grants0| == m && TopCalls(grants0, ids, m) && CallsFirst(grants0, ids, m)
    requires top == Elements(ids[..m])
    ensures TopCalls(grants, ids, m) && OtherCalls(grants, ids, m) && CallsRest(grants, ids, m, |ids|)
  {
    grants := grants0;
    NoRestYet(grants, ids, m);
    for n := 0 to |ids|
      invariant TopCalls(grants, ids, m) && OtherCalls(grants, ids, m)
      invariant CallsRest(grants, ids, m, n)
    {
      var g := Grant(ids[n], Participant);
      CallRest(grants, ids, m, n, g);
      CallOther(grants, ids, m, n);
      if ids[n] !in top {
        grants := grants + [g];
      }
    }
  }

  /** The loops of grantUserRewards and grantGuildRewards over the rows in the order the query returned them. */
  method GrantRewards(ids: seq<Id>) returns (grants: seq<Grant>)
    // the first three rows, in order
    ensures |ids| >= 1 ==> |grants| >= 1 && grants[0] == Grant(ids[0], Top1)
    ensures |ids| >= 2 ==> |grants| >= 2 && grants[1] == Grant(ids[1], Top2)
    ensures |ids| >= 3 ==> |grants| >= 3 && grants[2] == Grant(ids[2], Top3)
    // then a call for every other row (a user may have a row in two rooms), unless it names one of those three
    ensures |ids| <= 3 ==> |grants| == |ids|
    ensures forall i | 3 <= i < |grants| ::
              grants[i].reward == Participant && grants[i].who in ids && grants[i].who !in ids[..3]
    ensures forall who :: Calls(grants, who)
              == if |ids| > 3 && who in ids[..3] then multiset(ids[..3])[who] else multiset(ids)[who]
    ensures Distinct(ids) ==> forall who :: Calls(grants, who) == if who in ids then 1 else 0
  {
    grants := [];
    var top: set<Id> := {};
    ghost var m := if |ids| < 3 then |ids| else 3;
    var i := 0;
    while i < |ids| && i < 3
      invariant 0 <= i <= m && |grants| == i
      invariant TopCalls(grants, ids, i)
      invariant top == Elements(ids[..i])
      invariant CallsFirst(grants, ids, i)
    {
      var g := Grant(ids[i], TopReward(i + 1));
      CallFirst(grants, ids, i, g);
      assert ids[..i + 1] == ids[..i] + [ids[i]];
      top := top + {ids[i]};
      grants := grants + [g];
      i := i + 1;
    }
    grants := GrantOthers(ids, top, grants, m);
    CallsInOrder(grants, ids, m);
    AllCalled(grants, ids, m);
  }

  lemma {:induction false} DistinctOccursOnce(ids: seq<Id>, who: Id)
    requires Distinct(ids)
    ensures multiset(ids)[who] == if who in ids then 1 else 0
  {
    if ids != [] {
      DistinctOccursOnce(ids[..|ids| - 1], who);
      assert ids == ids[..|ids| - 1] + [ids[|ids| - 1]];
    }
  }

  /** With distinct ids every participant is due exactly one call and nobody else any. */
  lemma DistinctGetOne(ids: seq<Id>, who: Id)
    requires Distinct(ids)
    ensures (if |ids| > 3 && who in ids[..3] then multiset(ids[..3])[who] else multiset(ids)[who])
         == if who in ids then 1 else 0
  {
    DistinctOccursOnce(ids, who);
    if |ids| > 3 {
      DistinctOccursOnce(ids[..3], who);
    }
  }

  // ---- the order the loops rely on ----

  /** The keys GetAllPlayersByEvent sorts by: score and join time, but not the last acceptance. */
  ghost function QueryKeys(players: map<Key, Player>, rows: set<Key>): map<Key, RankKey>
    requires rows <= players.Keys
  {
    map k | k in rows :: RankKey(players[k].score, 0, players[k].joinedAt)
  }

  /** Each entry shows the stored score of its row. */
  ghost predicate ShowScores(finals: seq<Final>, players: map<Key, Player>) {
    forall i | 0 <= i < |finals| ::
      finals[i].key in players && finals[i].sortBy.score == finals[i].score == players[finals[i].key].score
  }

  /** Although the query's sort key is not the snapshot's, the score at reward position i is the score at snapshot
      rank i when the snapshot lists the queried rows with their scores. */
  lemma RewardScoresMatchSnapshot(finals: seq<Final>, players: map<Key, Player>, rows: set<Key>, result: seq<Key>)
    requires forall i, j | 0 <= i < j < |finals| ::
               finals[i].key != finals[j].key && Before(finals[i].sortBy, finals[j].sortBy)
    requires FinalKeys(finals) == rows <= players.Keys && ShowScores(finals, players)
    requires Numbers(result, QueryKeys(players, rows))
    ensures |result| == |finals|
    ensures forall i | 0 <= i < |result| :: result[i] in players && players[result[i]].score == finals[i].score
  {
    var order, keys := SnapshotNumbers(finals);
    KeysAgree(finals, players, rows, order, keys);
    ScoresAgree(order, keys, result, QueryKeys(players, rows));
    forall i | 0 <= i < |result| ensures result[i] in players && players[result[i]].score == finals[i].score {
      assert keys[order[i]] == finals[i].sortBy;
    }
  }

  lemma KeysAgree(finals: seq<Final>, players: map<Key, Player>, rows: set<Key>, order: seq<Key>,
                  keys: map<Key, RankKey>)
    requires FinalKeys(finals) == rows <= players.Keys && keys.Keys == rows && |order| == |finals|
    requires ShowScores(finals, players)
    requires forall i | 0 <= i < |finals| :: order[i] == finals[i].key && keys[order[i]] == finals[i].sortBy
    ensures forall k | k in rows :: keys[k].score == QueryKeys(players, rows)[k].score
  {
    forall k | k in rows ensures keys[k].score == players[k].score {
      var i :| 0 <= i < |finals| && finals[i].key == k;
      assert keys[order[i]] == finals[i].sortBy;
    }
  }

  lemma ScoresAgree(o1: seq<Key>, keys1: map<Key, RankKey>, o2: seq<Key>, keys2: map<Key, RankKey>)
    requires Numbers(o1, keys1) && Numbers(o2, keys2) && keys1.Keys == keys2.Keys
    requires forall k | k in keys1.Keys :: keys1[k].score == keys2[k].score
    ensures |o1| == |o2|
    ensures forall i | 0 <= i < |o1| :: o1[i] in keys1 && o2[i] in keys2 && keys1[o1[i]].score == keys2[o2[i]].score
  {
    SameScoreAtEachPosition(o1, keys1, o2, keys2);
  }

  /** A snapshot is the row numbering of its rows by their sort keys. */
  lemma SnapshotNumbers(finals: seq<Final>) returns (order: seq<Key>, keys: map<Key, RankKey>)
    requires forall i, j | 0 <= i < j < |finals| ::
               finals[i].key != finals[j].key && Before(finals[i].sortBy, finals[j].sortBy)
    ensures keys.Keys == FinalKeys(finals) && Numbers(order, keys) && |order| == |finals|
    ensures forall i | 0 <= i < |finals| :: order[i] == finals[i].key && keys[order[i]] == finals[i].sortBy
  {
    order := seq(|finals|, i requires 0 <= i < |finals| => finals[i].key);
    assert Distinct(order);
    keys := map k | k in order :: finals[IndexOf(order, k)].sortBy;
    forall i | 0 <= i < |finals| ensures order[i] in keys && keys[order[i]] == finals[i].sortBy {
      assert order[i] in order;
      assert IndexOf(order, order[i]) == i;
    }
    forall k | k in order ensures k in FinalKeys(finals) {
      var i := IndexOf(order, k);
      assert finals[i].key == k;
    }
    forall k | k in FinalKeys(finals) ensures k in order {
      var i :| 0 <= i < |finals| && finals[i].key == k;
      assert order[i] == k;
    }
  }

  /** In a run: if no room of the event was exposed when the completion took its row locks and no row was inserted
      since the capture, then whenever the reward goroutine reads the players, position i has the score of snapshot
      rank i. */
  lemma RewardOrderInRun(s: State, t: Id, s': State, result: seq<Key>)
    requires Reached(s) && Can(s, Lock(t)) && Leads(Do(s, Lock(t)), s') && IsCompleted(s', s.txs[t].event)
    requires forall r | r in s.db.rooms && s.db.rooms[r] == s.txs[t].event :: !Exposed(s, s.txs[t].event, r)
    requires var e := s.txs[t].event;
             e in s'.db.finals && EventRows(s'.db.players, s'.db.rooms, e) == FinalKeys(s'.db.finals[e])
    requires Numbers(result, QueryKeys(s'.db.players, EventRows(s'.db.players, s'.db.rooms, s.txs[t].event)))
    ensures var db, e := s'.db, s.txs[t].event;
            && |result| == |db.finals[e]|
            && forall i | 0 <= i < |result| ::
                 result[i] in db.players && db.players[result[i]].score == db.finals[e][i].score
  {
    var e := s.txs[t].event;
    UnexposedSettles(s, t, s');
    StepLeads(s, Lock(t));
    ReachedOn(s, Do(s, Lock(t)));
    ReachedOn(Do(s, Lock(t)), s');
    RewardOrderWhenSettled(s', e, result);
  }

  /** The same for any reachable state in which the event's result stands. */
  lemma RewardOrderWhenSettled(s: State, e: Id, result: seq<Key>)
    requires Reached(s) && e in s.db.finals && FinalsExact(s.db.players, s.db.rooms, e, s.db.finals[e])
    requires EventRows(s.db.players, s.db.rooms, e) == FinalKeys(s.db.finals[e])
    requires Numbers(result, QueryKeys(s.db.players, EventRows(s.db.players, s.db.rooms, e)))
    ensures |result| == |s.db.finals[e]|
    ensures forall i | 0 <= i < |result| ::
              result[i] in s.db.players && s.db.players[result[i]].score == s.db.finals[e][i].score
  {
    ReachedSnapshot(s, e);
    RewardScoresMatchSnapshot(s.db.finals[e], s.db.players, EventRows(s.db.players, s.db.rooms, e), result);
  }

  lemma ReachedSnapshot(s: State, e: Id)
    requires Reached(s) && e in s.db.finals && FinalsExact(s.db.players, s.db.rooms, e, s.db.finals[e])
    ensures ShowScores(s.db.finals[e], s.db.players)
    ensures forall i, j | 0 <= i < j < |s.db.finals[e]| ::
              s.db.finals[e][i].key != s.db.finals[e][j].key
              && Before(s.db.finals[e][i].sortBy, s.db.finals[e][j].sortBy)
  {
    ReachedInv(s);
    SnapshotsAt(s);
  }

  /** GetGuildLeaderboardByEvent sorts the guild snapshot by rank: whatever order the table holds the entries in,
      position i of the result is rank i + 1. */
  lemma GuildRewardsFollowRank(gs: seq<GuildFinal>, listed: seq<GuildFinal>)
    requires forall i | 0 <= i < |gs| :: gs[i].rank == i + 1
    requires multiset(listed) == multiset(gs)
    requires forall i, j | 0 <= i < j < |listed| :: listed[i].rank <= listed[j].rank
    ensures listed == gs
  {
    SameLength(gs, listed);
    forall i | 0 <= i < |listed| ensures listed[i] == gs[i] {
      RankAtPosition(gs, listed, i);
    }
  }

  lemma SameLength<T>(a: seq<T>, b: seq<T>)
    requires multiset(a) == multiset(b)
    ensures |a| == |b|
  {
    assert |multiset(a)| == |a| && |multiset(b)| == |b|;
  }

  lemma {:induction false} RankAtPosition(gs: seq<GuildFinal>, listed: seq<GuildFinal>, i: nat)
    requires forall i | 0 <= i < |gs| :: gs[i].rank == i + 1
    requires multiset(listed) == multiset(gs) && |listed| == |gs|
    requires forall i, j | 0 <= i < j < |listed| :: listed[i].rank <= listed[j].rank
    requires i < |gs|
    ensures listed[i] == gs[i]
  {
    assert gs[i] in multiset(listed);
    var p :| 0 <= p < |listed| && listed[p] == gs[i];
    forall j | 0 <= j < i ensures listed[j] == gs[j] {
      RankAtPosition(gs, listed, j);
    }
    // the entry at position i is no earlier entry of gs, and gs[i] comes no earlier, so it is gs[i]
    assert listed[i] in multiset(gs);
    var q :| 0 <= q < |gs| && gs[q] == listed[i];
    ListedOnce(gs, listed, i, q);
  }

  lemma ListedOnce(gs: seq<GuildFinal>, listed: seq<GuildFinal>, i: nat, q: nat)
    requires forall i | 0 <= i < |gs| :: gs[i].rank == i + 1
    requires multiset(listed) == multiset(gs) && i < |listed| && q < |gs| && gs[q] == listed[i]
    requires forall j | 0 <= j < i :: j < |gs| && listed[j] == gs[j]
    ensures q >= i
  {
    if q < i {
      assert listed[q] == gs[q] == listed[i];
      Twice(listed, q, i);
      Once(gs, q);
    }
  }

  lemma Twice<T>(s: seq<T>, i: nat, j: nat)
    requires i < j < |s| && s[i] == s[j]
    ensures multiset(s)[s[i]] >= 2
  {
    assert s == s[..j] + s[j..];
    assert s[i] in multiset(s[..j]) by { assert s[..j][i] == s[i]; }
    assert s[j] in multiset(s[j..]) by { assert s[j..][0] == s[j]; }
  }

  lemma Once(gs: seq<GuildFinal>, q: nat)
    requires forall i | 0 <= i < |gs| :: gs[i].rank == i + 1
    requires q < |gs|
    ensures multiset(gs)[gs[q]] == 1
  {
    assert gs == gs[..q] + [gs[q]] + gs[q + 1..];
    assert gs[q] !in gs[..q] && gs[q] !in gs[q + 1..];
  }
}
