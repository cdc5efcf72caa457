/** Sums of scores over sets of player rows, and of the points recorded in the award ledger. */
module Sums {
  import opened Tables

  /** One transaction's points reaching one player row; `startedAt` is that transaction's NOW(). */
  datatype Award = Award(sub: Id, key: Key, points: int, startedAt: int)

  ghost function ScoreSum(players: map<Key, Player>, rows: set<Key>): int
    requires rows <= players.Keys
  {
    if rows == {} then 0
    else var k :| k in rows; players[k].score + ScoreSum(players, rows - {k})
  }

  /** MAX(submitted_at). */
  ghost function Latest(subs: set<Submission>): (m: int)
    requires subs != {}
    ensures exists x :: x in subs && x.submittedAt == m
    ensures forall x | x in subs :: x.submittedAt <= m
    decreases |subs|
  {
    var x :| x in subs;
    if subs == {x} then x.submittedAt
    else
      var m := Latest(subs - {x});
      assert forall y | y in subs :: y == x || y in subs - {x};
      if m < x.submittedAt then x.submittedAt else m
  }

  /** The points the ledger records for one row. */
  ghost function Total(ledger: seq<Award>, k: Key): int {
    if ledger == [] then 0
    else Total(ledger[..|ledger| - 1], k) + (if ledger[|ledger| - 1].key == k then ledger[|ledger| - 1].points else 0)
  }

  /** The points the ledger records for a set of rows. */
  ghost function Awarded(ledger: seq<Award>, rows: set<Key>): int {
    if ledger == [] then 0
    else Awarded(ledger[..|ledger| - 1], rows)
         + (if ledger[|ledger| - 1].key in rows then ledger[|ledger| - 1].points else 0)
  }

  lemma {:induction false} TotalAppend(ledger: seq<Award>, a: Award, k: Key)
    ensures Total(ledger + [a], k) == Total(ledger, k) + (if a.key == k then a.points else 0)
  {
    assert (ledger + [a])[..|ledger|] == ledger;
  }

  lemma {:induction false} ScoreSumRemove(players: map<Key, Player>, rows: set<Key>, k: Key)
    requires rows <= players.Keys && k in rows
    ensures ScoreSum(players, rows) == players[k].score + ScoreSum(players, rows - {k})
    decreases |rows|
  {
    var j :| j in rows && ScoreSum(players, rows) == players[j].score + ScoreSum(players, rows - {j});
    if j != k {
      ScoreSumRemove(players, rows - {j}, k);
      ScoreSumRemove(players, rows - {k}, j);
      assert rows - {j} - {k} == rows - {k} - {j};
    }
  }

  lemma {:induction false} ScoreSumUnion(players: map<Key, Player>, a: set<Key>, b: set<Key>)
    requires a <= players.Keys && b <= players.Keys && a !! b
    ensures ScoreSum(players, a + b) == ScoreSum(players, a) + ScoreSum(players, b)
    decreases |a|
  {
    if a == {} {
      assert a + b == b;
    } else {
      var k :| k in a;
      ScoreSumRemove(players, a + b, k);
      ScoreSumRemove(players, a, k);
      assert a + b - {k} == (a - {k}) + b;
      ScoreSumUnion(players, a - {k}, b);
    }
  }

  /** Rows that are added to a set with score zero do not change its sum, nor does anything but a score. */
  lemma {:induction false} ScoreSumSame(p: map<Key, Player>, rows: set<Key>, q: map<Key, Player>, more: set<Key>)
    requires rows <= more && rows <= p.Keys && more <= q.Keys
    requires forall k | k in more :: q[k].score == if k in rows then p[k].score else 0
    ensures ScoreSum(p, rows) == ScoreSum(q, more)
    decreases |more|
  {
    if more != {} {
      var k :| k in more;
      ScoreSumRemove(q, more, k);
      if k in rows {
        ScoreSumRemove(p, rows, k);
        ScoreSumSame(p, rows - {k}, q, more - {k});
      } else {
        ScoreSumSame(p, rows, q, more - {k});
      }
    }
  }

  lemma {:induction false} AwardedRemove(ledger: seq<Award>, rows: set<Key>, k: Key)
    requires k in rows
    ensures Awarded(ledger, rows) == Total(ledger, k) + Awarded(ledger, rows - {k})
  {
    if ledger != [] {
      AwardedRemove(ledger[..|ledger| - 1], rows, k);
    }
  }

  lemma {:induction false} AwardedNothing(ledger: seq<Award>)
    ensures Awarded(ledger, {}) == 0
  {
    if ledger != [] {
      AwardedNothing(ledger[..|ledger| - 1]);
    }
  }

  /** If each row's score is what the ledger records for it, so is the sum of any set of rows. */
  lemma {:induction false} ScoreSumIsAwarded(players: map<Key, Player>, rows: set<Key>, ledger: seq<Award>)
    requires rows <= players.Keys
    requires forall k | k in rows :: players[k].score == Total(ledger, k)
    ensures ScoreSum(players, rows) == Awarded(ledger, rows)
    decreases |rows|
  {
    if rows == {} {
      AwardedNothing(ledger);
    } else {
      var k :| k in rows;
      ScoreSumRemove(players, rows, k);
      AwardedRemove(ledger, rows, k);
      ScoreSumIsAwarded(players, rows - {k}, ledger);
    }
  }

  ghost function OfGuild(players: map<Key, Player>, rows: set<Key>, g: Id): set<Key>
    requires rows <= players.Keys
  {
    set k | k in rows && players[k].guild == g
  }

  ghost function GuildSums(players: map<Key, Player>, rows: set<Key>, guilds: seq<Id>): int
    requires rows <= players.Keys
  {
    if guilds == [] then 0
    else GuildSums(players, rows, guilds[..|guilds| - 1])
         + ScoreSum(players, OfGuild(players, rows, guilds[|guilds| - 1]))
  }

  /** Summing per guild and then over the guilds is summing over the rows. */
  lemma {:induction false} GuildsPartition(players: map<Key, Player>, rows: set<Key>, guilds: seq<Id>)
    requires rows <= players.Keys && Distinct(guilds)
    ensures GuildSums(players, rows, guilds)
         == ScoreSum(players, set k | k in rows && players[k].guild in guilds)
  {
    if guilds == [] {
      assert (set k | k in rows && players[k].guild in guilds) == {};
    } else {
      var n := |guilds| - 1;
      GuildsPartition(players, rows, guilds[..n]);
      var first := set k | k in rows && players[k].guild in guilds[..n];
      ScoreSumUnion(players, first, OfGuild(players, rows, guilds[n]));
      assert (set k | k in rows && players[k].guild in guilds) == first + OfGuild(players, rows, guilds[n]);
    }
  }
}
