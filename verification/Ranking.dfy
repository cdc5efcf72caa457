/** ROW_NUMBER() OVER (ORDER BY score DESC, last accepted ASC, joined ASC), as a relation: ties are left open. */
module Ranking {
  import opened Tables

  datatype RankKey = RankKey(score: int, last: int, joined: int)

  /** `a` may be numbered before `b`. */
  predicate Before(a: RankKey, b: RankKey) {
    || a.score > b.score
    || (a.score == b.score && a.last < b.last)
    || (a.score == b.score && a.last == b.last && a.joined <= b.joined)
  }

  /** `order` enumerates the set `rows`, each element once. */
  ghost predicate Lists<T(!new)>(order: seq<T>, rows: set<T>) {
    && Distinct(order)
    && (forall i | 0 <= i < |order| :: order[i] in rows)
    && (forall x | x in rows :: x in order)
  }

  /** `order` is a row numbering of the rows whose sort keys are `keys`. */
  ghost predicate Numbers<T(!new)>(order: seq<T>, keys: map<T, RankKey>) {
    && Lists(order, keys.Keys)
    && (forall i, j | 0 <= i < j < |order| :: Before(keys[order[i]], keys[order[j]]))
  }

  function IndexOf<T(==)>(order: seq<T>, x: T): (i: nat)
    requires x in order
    ensures i < |order| && order[i] == x
  {
    if order[0] == x then 0 else 1 + IndexOf(order[1..], x)
  }

  ghost function Insert<T(!new)>(order: seq<T>, x: T, keys: map<T, RankKey>): (r: seq<T>)
    requires x in keys && forall i | 0 <= i < |order| :: order[i] in keys
  {
    if order == [] then [x]
    else if Before(keys[x], keys[order[0]]) then [x] + order
    else [order[0]] + Insert(order[1..], x, keys)
  }

  lemma {:induction false} InsertKeepsNumbering<T(!new)>(order: seq<T>, x: T, keys: map<T, RankKey>)
    requires x in keys && forall i | 0 <= i < |order| :: order[i] in keys
    requires x !in order && Distinct(order)
    requires forall i, j | 0 <= i < j < |order| :: Before(keys[order[i]], keys[order[j]])
    ensures var r := Insert(order, x, keys);
            && Distinct(r)
            && (forall y :: y in r <==> y == x || y in order)
            && (forall i | 0 <= i < |r| :: r[i] in keys)
            && (forall i, j | 0 <= i < j < |r| :: Before(keys[r[i]], keys[r[j]]))
  {
    if order != [] && !Before(keys[x], keys[order[0]]) {
      var rest := order[1..];
      InsertKeepsNumbering(rest, x, keys);
      var r := Insert(rest, x, keys);
      forall y ensures y in [order[0]] + r <==> y == x || y in order {
        assert order == [order[0]] + rest;
      }
      assert forall i | 0 <= i < |r| :: r[i] in r;
    }
  }

  /** Every finite table has a row numbering, so a ranking statement never gets stuck. */
  lemma {:induction false} NumberingExists<T(!new)>(keys: map<T, RankKey>) returns (order: seq<T>)
    ensures Numbers(order, keys)
    decreases |keys.Keys|
  {
    if keys.Keys == {} {
      order := [];
    } else {
      var x :| x in keys.Keys;
      var others := map y | y in keys.Keys - {x} :: keys[y];
      assert others.Keys == keys.Keys - {x};
      var tail := NumberingExists(others);
      assert forall i | 0 <= i < |tail| :: tail[i] in others.Keys;
      InsertKeepsNumbering(tail, x, keys);
      order := Insert(tail, x, keys);
      assert forall i | 0 <= i < |order| :: order[i] in order;
    }
  }

  ghost function Elements<T(!new)>(order: seq<T>): set<T> {
    set x | x in order
  }

  lemma {:induction false} DistinctCount<T(!new)>(order: seq<T>)
    requires Distinct(order)
    ensures |Elements(order)| == |order|
  {
    if order == [] {
      assert Elements(order) == {};
    } else {
      var n := |order| - 1;
      DistinctCount(order[..n]);
      assert Elements(order) == Elements(order[..n]) + {order[n]};
    }
  }

  lemma {:induction false} SubsetCount<T>(a: set<T>, b: set<T>)
    requires a <= b
    ensures |a| <= |b|
  {
    assert b == a + (b - a);
  }

  /** Two numberings of the same rows by keys that agree on the score alone (whatever they do on ties) put the
      same score at each position. */
  lemma {:induction false} SameScoreAtEachPosition<T(!new)>(
      o1: seq<T>, keys1: map<T, RankKey>, o2: seq<T>, keys2: map<T, RankKey>)
    requires Numbers(o1, keys1) && Numbers(o2, keys2)
    requires keys1.Keys == keys2.Keys
    requires forall x | x in keys1 :: keys1[x].score == keys2[x].score
    ensures |o1| == |o2|
    ensures forall i | 0 <= i < |o1| :: keys1[o1[i]].score == keys2[o2[i]].score
  {
    NumberingCount(o1, keys1);
    NumberingCount(o2, keys2);
    forall i | 0 <= i < |o1| ensures keys1[o1[i]].score == keys2[o2[i]].score {
      NotAbove(o1, keys1, o2, keys2, i);
      NotAbove(o2, keys2, o1, keys1, i);
    }
  }

  lemma NumberingCount<T(!new)>(o: seq<T>, keys: map<T, RankKey>)
    requires Numbers(o, keys)
    ensures |o| == |keys.Keys|
  {
    DistinctCount(o);
    assert Elements(o) == keys.Keys;
  }

  lemma NotAbove<T(!new)>(o1: seq<T>, keys1: map<T, RankKey>, o2: seq<T>, keys2: map<T, RankKey>, i: nat)
    requires Numbers(o1, keys1) && Numbers(o2, keys2)
    requires keys1.Keys == keys2.Keys
    requires forall x | x in keys1 :: keys1[x].score == keys2[x].score
    requires i < |o1| == |o2|
    ensures keys1[o1[i]].score <= keys2[o2[i]].score
  {
    if keys1[o1[i]].score > keys2[o2[i]].score {
      // the first i+1 rows of o1 all score above position i of o2, so they all sit in its first i positions
      var a := Elements(o1[..i + 1]);
      var b := Elements(o2[..i]);
      forall x | x in a ensures x in b {
        var p :| 0 <= p < i + 1 && o1[p] == x;
        assert keys1[x].score >= keys1[o1[i]].score;
        var q :| 0 <= q < |o2| && o2[q] == x;
        if q >= i {
          assert false;
        }
        assert x == o2[..i][q];
      }
      DistinctCount(o1[..i + 1]);
      DistinctCount(o2[..i]);
      SubsetCount(a, b);
    }
  }
}
