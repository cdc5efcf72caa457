/** Choosing an event's code problems: one random query per difficulty entry, with a growing exclusion list. */
module Problems {
  import opened Tables

  datatype Problem = Problem(difficulty: int, tags: set<Id>)

  datatype Distribution = Distribution(difficulty: int, count: int, score: int)

  datatype Assignment = Assignment(problem: Id, score: int)

  /** What the query may return: the difficulty fits, some tag fits (any, when no topics are given), not excluded. */
  predicate Eligible(bank: map<Id, Problem>, difficulty: int, topics: set<Id>, excluded: set<Id>, p: Id) {
    && p in bank && bank[p].difficulty == difficulty && p !in excluded
    && bank[p].tags != {} && (topics == {} || bank[p].tags * topics != {})
  }

  function EligibleSet(bank: map<Id, Problem>, difficulty: int, topics: set<Id>, excluded: set<Id>): (r: set<Id>)
    ensures forall p :: p in r <==> Eligible(bank, difficulty, topics, excluded, p)
  {
    set p | p in bank && Eligible(bank, difficulty, topics, excluded, p)
  }

  /** ORDER BY RANDOM() LIMIT n: any n of the eligible problems in any order, or all of them if there are fewer;
      None for the negative limit that the database refuses. */
  method RandomProblems(bank: map<Id, Problem>, difficulty: int, topics: set<Id>, excluded: set<Id>, limit: int)
    returns (r: Option<seq<Id>>)
    ensures r.None? <==> limit < 0
    ensures r.Some? ==>
              && Distinct(r.value)
              && (forall p | p in r.value ::
                    && p in bank && bank[p].difficulty == difficulty && p !in excluded
                    && bank[p].tags != {} && (topics == {} || exists t :: t in topics && t in bank[p].tags))
      // and no more are left out than the limit asks for
      ensures r.Some? ==>
              && |r.value| <= limit
              && (|r.value| < limit ==>
                    forall p | p in bank && bank[p].difficulty == difficulty && p !in excluded && bank[p].tags != {}
                               && (topics == {} || exists t :: t in topics && t in bank[p].tags) ::
                      p in r.value)
      ensures r.Some? ==> Drew(bank, topics, Distribution(difficulty, limit, 0), excluded, r.value)
  {
    if limit < 0 {
      return None;
    }
    var left := EligibleSet(bank, difficulty, topics, excluded);
    ghost var all := left;
    var ids: seq<Id> := [];
    while |ids| < limit && left != {}
      invariant left <= all && |ids| + |left| == |all| && |ids| <= limit
      invariant Distinct(ids) && forall p :: p in all <==> p in ids || p in left
      invariant forall p | p in ids :: p !in left
      decreases |left|
    {
      var p :| p in left;
      left := left - {p};
      ids := ids + [p];
    }
    r := Some(ids);
    forall p | p in bank ensures bank[p].tags * topics != {} <==> exists t :: t in topics && t in bank[p].tags {
      Meet(bank[p].tags, topics);
    }
  }

  lemma Meet(a: set<Id>, b: set<Id>)
    ensures a * b != {} <==> exists t :: t in b && t in a
  {
    assert forall t :: t in a * b <==> t in b && t in a;
  }

  ghost function Ids(chosen: seq<Assignment>): set<Id> {
    set i | 0 <= i < |chosen| :: chosen[i].problem
  }

  // ---- what the loops leave behind ----

  /** Entry `d` assigns those of the problems it drew whose insert goes through; `insertFails(d, j)` says whether the
      insert of its j-th problem fails. */
  function Kept(problems: seq<Id>, d: nat, score: int, insertFails: (nat, nat) -> bool): seq<Assignment> {
    if problems == [] then [] else
      var n := |problems| - 1;
      Kept(problems[..n], d, score, insertFails)
      + if insertFails(d, n) then [] else [Assignment(problems[n], score)]
  }

  function AllKept(drawn: seq<seq<Id>>, dists: seq<Distribution>, insertFails: (nat, nat) -> bool): seq<Assignment>
    requires |drawn| <= |dists|
  {
    if drawn == [] then [] else
      var n := |drawn| - 1;
      AllKept(drawn[..n], dists, insertFails) + Kept(drawn[n], n, dists[n].score, insertFails)
  }

  /** The problems assigned before entry `d`. */
  ghost function Taken(drawn: seq<seq<Id>>, dists: seq<Distribution>, insertFails: (nat, nat) -> bool, d: nat): set<Id>
    requires d <= |drawn| <= |dists|
  {
    Ids(AllKept(drawn[..d], dists, insertFails))
  }

  /** What is left in the bank for an entry. */
  ghost function Supply(bank: map<Id, Problem>, topics: set<Id>, dist: Distribution, taken: set<Id>): nat {
    |EligibleSet(bank, dist.difficulty, topics, taken)|
  }

  /** An entry draws different problems that fit it and were not taken before, as many as it asks for or are left. */
  ghost predicate Drew(bank: map<Id, Problem>, topics: set<Id>, dist: Distribution, taken: set<Id>, problems: seq<Id>) {
    && Distinct(problems)
    && (forall i | 0 <= i < |problems| :: Eligible(bank, dist.difficulty, topics, taken, problems[i]))
    && |problems| == Min(dist.count, Supply(bank, topics, dist, taken))
  }

  /** Each entry drew from what the entries before it left. */
  ghost predicate DrewAll(bank: map<Id, Problem>, topics: set<Id>, dists: seq<Distribution>,
                          insertFails: (nat, nat) -> bool, drawn: seq<seq<Id>>)
  {
    |drawn| <= |dists|
    && (drawn != [] ==>
          var n := |drawn| - 1;
          && DrewAll(bank, topics, dists, insertFails, drawn[..n])
          && Drew(bank, topics, dists[n], Ids(AllKept(drawn[..n], dists, insertFails)), drawn[n]))
  }

  /** `chosen` is what all entries together assign when they draw `drawn`. */
  ghost predicate Selection(bank: map<Id, Problem>, topics: set<Id>, dists: seq<Distribution>,
                            insertFails: (nat, nat) -> bool, drawn: seq<seq<Id>>, chosen: seq<Assignment>)
  {
    && |drawn| == |dists| && DrewAll(bank, topics, dists, insertFails, drawn)
    && chosen == AllKept(drawn, dists, insertFails)
  }

  /** Inserts the problems that entry `d` drew; a failed insert is skipped and its problem stays available. */
  method InsertProblems(chosen0: seq<Assignment>, excluded0: set<Id>, d: nat, score: int, problems: seq<Id>,
                        insertFails: (nat, nat) -> bool)
    returns (chosen: seq<Assignment>, excluded: set<Id>)
    requires excluded0 == Ids(chosen0)
    ensures chosen == chosen0 + Kept(problems, d, score, insertFails)
    ensures excluded == Ids(chosen)
  {
    chosen, excluded := chosen0, excluded0;
    for j := 0 to |problems|
      invariant chosen == chosen0 + Kept(problems[..j], d, score, insertFails)
      invariant excluded == Ids(chosen)
    {
      assert problems[..j + 1][..j] == problems[..j];
      if !insertFails(d, j) {
        IdsAppend(chosen, [Assignment(problems[j], score)]);
        chosen := chosen + [Assignment(problems[j], score)];
        excluded := excluded + {problems[j]};
      }
    }
    assert problems[..|problems|] == problems;
  }

  lemma IdsAppend(a: seq<Assignment>, b: seq<Assignment>)
    ensures Ids(a + b) == Ids(a) + Ids(b)
    ensures forall x :: Ids([x]) == {x.problem}
  {
    forall x ensures Ids([x]) == {x.problem} {
      assert [x][0].problem in Ids([x]);
    }
    forall p | p in Ids(a) ensures p in Ids(a + b) {
      var i :| 0 <= i < |a| && a[i].problem == p;
      assert (a + b)[i].problem == p;
    }
    forall p | p in Ids(b) ensures p in Ids(a + b) {
      var i :| 0 <= i < |b| && b[i].problem == p;
      assert (a + b)[|a| + i].problem == p;
    }
  }

  lemma DrawNext(bank: map<Id, Problem>, topics: set<Id>, dists: seq<Distribution>, insertFails: (nat, nat) -> bool,
                 drawn: seq<seq<Id>>, problems: seq<Id>)
    requires DrewAll(bank, topics, dists, insertFails, drawn) && |drawn| < |dists|
    requires Drew(bank, topics, dists[|drawn|], Ids(AllKept(drawn, dists, insertFails)), problems)
    ensures DrewAll(bank, topics, dists, insertFails, drawn + [problems])
    ensures AllKept(drawn + [problems], dists, insertFails)
         == AllKept(drawn, dists, insertFails) + Kept(problems, |drawn|, dists[|drawn|].score, insertFails)
  {
    assert (drawn + [problems])[..|drawn|] == drawn;
  }

  /** Statements number `from` up to `to` all succeed. */
  ghost predicate NoneFails(fails: nat -> bool, from: nat, to: nat) {
    forall n: nat | from <= n < to :: !fails(n)
  }

  /** What the loop has done when the entries before `drawn`'s length have had their turn. */
  ghost predicate Progress(bank: map<Id, Problem>, topics: set<Id>, dists: seq<Distribution>,
                           insertFails: (nat, nat) -> bool, drawn: seq<seq<Id>>, chosen: seq<Assignment>)
  {
    DrewAll(bank, topics, dists, insertFails, drawn) && chosen == AllKept(drawn, dists, insertFails)
  }

  /** One round of the loop: query and inserts of entry `d`. */
  method AssignEntry(bank: map<Id, Problem>, topics: set<Id>, dists: seq<Distribution>, insertFails: (nat, nat) -> bool,
                     d: nat, chosen0: seq<Assignment>, excluded0: set<Id>, ghost drawn0: seq<seq<Id>>)
    returns (ok: bool, chosen: seq<Assignment>, excluded: set<Id>, ghost drawn: seq<seq<Id>>)
    requires |drawn0| == d < |dists| && Progress(bank, topics, dists, insertFails, drawn0, chosen0)
    requires excluded0 == Ids(chosen0)
    ensures ok <==> 0 <= dists[d].count
    ensures ok ==> |drawn| == d + 1 && drawn[..d] == drawn0 && Progress(bank, topics, dists, insertFails, drawn, chosen)
    ensures excluded == Ids(chosen)
  {
    chosen, excluded, drawn := chosen0, excluded0, drawn0;
    var found := RandomProblems(bank, dists[d].difficulty, topics, excluded, dists[d].count);
    if found.None? {
      return false, chosen, excluded, drawn;
    }
    DrawNext(bank, topics, dists, insertFails, drawn, found.value);
    drawn := drawn + [found.value];
    chosen, excluded := InsertProblems(chosen, excluded, d, dists[d].score, found.value, insertFails);
    ok := true;
  }

  /** The loop over the distribution entries; the query of entry `d` is statement number `first` + d. */
  method AssignProblems(bank: map<Id, Problem>, topics: set<Id>, dists: seq<Distribution>, fails: nat -> bool,
                        first: nat, insertFails: (nat, nat) -> bool)
    returns (ok: bool, chosen: seq<Assignment>, excluded: set<Id>, ghost drawn: seq<seq<Id>>)
    ensures ok <==> NoneFails(fails, first, first + |dists|) && forall d | 0 <= d < |dists| :: 0 <= dists[d].count
    ensures ok ==> Selection(bank, topics, dists, insertFails, drawn, chosen)
    ensures excluded == Ids(chosen)
  {
    chosen, excluded, drawn := [], {}, [];
    for d := 0 to |dists|
      invariant NoneFails(fails, first, first + d) && forall e | 0 <= e < d :: 0 <= dists[e].count
      invariant |drawn| == d && Progress(bank, topics, dists, insertFails, drawn, chosen) && excluded == Ids(chosen)
    {
      ok := !fails(first + d);
      if ok {
        ok, chosen, excluded, drawn :=
          AssignEntry(bank, topics, dists, insertFails, d, chosen, excluded, drawn);
      }
      if !ok {
        return false, chosen, excluded, drawn;
      }
    }
    ok := true;
  }

  // ---- what that means ----

  lemma {:induction false} KeptComesFrom(problems: seq<Id>, d: nat, score: int, insertFails: (nat, nat) -> bool)
    ensures |Kept(problems, d, score, insertFails)| <= |problems|
    ensures forall i | 0 <= i < |Kept(problems, d, score, insertFails)| ::
              Kept(problems, d, score, insertFails)[i].problem in problems
              && Kept(problems, d, score, insertFails)[i].score == score
    ensures |Kept(problems, d, score, insertFails)| == |problems|
            <==> forall j | 0 <= j < |problems| :: !insertFails(d, j)
  {
    if problems != [] {
      var n := |problems| - 1;
      KeptComesFrom(problems[..n], d, score, insertFails);
      assert problems == problems[..n] + [problems[n]];
    }
  }

  ghost predicate NoneTwice(chosen: seq<Assignment>) {
    forall i, j | 0 <= i < j < |chosen| :: chosen[i].problem != chosen[j].problem
  }

  lemma {:induction false} KeptNoneTwice(problems: seq<Id>, d: nat, score: int, insertFails: (nat, nat) -> bool)
    requires Distinct(problems)
    ensures NoneTwice(Kept(problems, d, score, insertFails))
  {
    if problems != [] {
      var n := |problems| - 1;
      KeptNoneTwice(problems[..n], d, score, insertFails);
      KeptComesFrom(problems[..n], d, score, insertFails);
    }
  }

  lemma {:induction false} AllKeptNoneTwice(bank: map<Id, Problem>, topics: set<Id>, dists: seq<Distribution>,
                                            insertFails: (nat, nat) -> bool, drawn: seq<seq<Id>>)
    requires DrewAll(bank, topics, dists, insertFails, drawn)
    ensures NoneTwice(AllKept(drawn, dists, insertFails))
  {
    if drawn != [] {
      var n := |drawn| - 1;
      AllKeptNoneTwice(bank, topics, dists, insertFails, drawn[..n]);
      KeptNoneTwice(drawn[n], n, dists[n].score, insertFails);
      KeptComesFrom(drawn[n], n, dists[n].score, insertFails);
      var before := AllKept(drawn[..n], dists, insertFails);
      assert forall i | 0 <= i < |before| :: before[i].problem in Ids(before);
    }
  }

  /** No problem is assigned twice, also when a difficulty is repeated. */
  lemma NoProblemTwice(bank: map<Id, Problem>, topics: set<Id>, dists: seq<Distribution>,
                       insertFails: (nat, nat) -> bool, drawn: seq<seq<Id>>, chosen: seq<Assignment>)
    requires Selection(bank, topics, dists, insertFails, drawn, chosen)
    ensures NoneTwice(chosen)
  {
    AllKeptNoneTwice(bank, topics, dists, insertFails, drawn);
  }

  /** Each assigned problem was drawn by an entry whose difficulty, score and tags it carries. */
  lemma {:induction false} AssignedAsAsked(bank: map<Id, Problem>, topics: set<Id>, dists: seq<Distribution>,
                                           insertFails: (nat, nat) -> bool, drawn: seq<seq<Id>>, i: nat)
    requires DrewAll(bank, topics, dists, insertFails, drawn) && i < |AllKept(drawn, dists, insertFails)|
    ensures var a := AllKept(drawn, dists, insertFails)[i];
            exists d :: 0 <= d < |drawn| && a.problem in drawn[d] && a.score == dists[d].score
                        && a.problem in bank && bank[a.problem].difficulty == dists[d].difficulty
                        && bank[a.problem].tags != {}
                        && (topics == {} || exists t :: t in topics && t in bank[a.problem].tags)
  {
    var n := |drawn| - 1;
    var before := AllKept(drawn[..n], dists, insertFails);
    if i < |before| {
      AssignedAsAsked(bank, topics, dists, insertFails, drawn[..n], i);
      assert forall d | 0 <= d < n :: drawn[..n][d] == drawn[d];
    } else {
      KeptComesFrom(drawn[n], n, dists[n].score, insertFails);
      assert AllKept(drawn, dists, insertFails)[i] == Kept(drawn[n], n, dists[n].score, insertFails)[i - |before|];
    }
  }

  /** Entry d assigns exactly those of the problems it drew whose insert goes through. */
  lemma {:induction false} KeptExactly(problems: seq<Id>, d: nat, score: int, insertFails: (nat, nat) -> bool,
                                       a: Assignment)
    ensures a in Kept(problems, d, score, insertFails)
            <==> a.score == score && exists j :: 0 <= j < |problems| && problems[j] == a.problem && !insertFails(d, j)
  {
    if problems != [] {
      var n := |problems| - 1;
      KeptExactly(problems[..n], d, score, insertFails, a);
      assert forall j | 0 <= j < n :: problems[..n][j] == problems[j];
    }
  }

  /** A problem is assigned for a score exactly when some entry with that score drew it and its insert went
      through. */
  lemma {:induction false} AssignedExactlyWhen(drawn: seq<seq<Id>>, dists: seq<Distribution>,
                                               insertFails: (nat, nat) -> bool, a: Assignment)
    requires |drawn| <= |dists|
    ensures a in AllKept(drawn, dists, insertFails)
            <==> exists d, j :: 0 <= d < |drawn| && 0 <= j < |drawn[d]| && drawn[d][j] == a.problem
                                && !insertFails(d, j) && a.score == dists[d].score
  {
    if drawn != [] {
      var n := |drawn| - 1;
      var before := AllKept(drawn[..n], dists, insertFails);
      var last := Kept(drawn[n], n, dists[n].score, insertFails);
      AssignedExactlyWhen(drawn[..n], dists, insertFails, a);
      KeptExactly(drawn[n], n, dists[n].score, insertFails, a);
      assert a in before + last <==> a in before || a in last;
      assert forall d | 0 <= d < n :: drawn[..n][d] == drawn[d];
    }
  }

  lemma {:induction false} DrewAt(bank: map<Id, Problem>, topics: set<Id>, dists: seq<Distribution>,
                                  insertFails: (nat, nat) -> bool, drawn: seq<seq<Id>>, d: nat)
    requires DrewAll(bank, topics, dists, insertFails, drawn) && d < |drawn|
    ensures Drew(bank, topics, dists[d], Taken(drawn, dists, insertFails, d), drawn[d])
  {
    var n := |drawn| - 1;
    if d < n {
      DrewAt(bank, topics, dists, insertFails, drawn[..n], d);
      assert drawn[..n][..d] == drawn[..d];
    }
  }

  /** No entry assigns more than it asked for; it assigns as many as it asked for, or as the bank had left, if and
      only if none of its inserts failed. */
  lemma EntryFilled(bank: map<Id, Problem>, topics: set<Id>, dists: seq<Distribution>,
                    insertFails: (nat, nat) -> bool, drawn: seq<seq<Id>>, d: nat)
    requires DrewAll(bank, topics, dists, insertFails, drawn) && d < |drawn|
    ensures var kept := |Kept(drawn[d], d, dists[d].score, insertFails)|;
            var full := Min(dists[d].count, Supply(bank, topics, dists[d], Taken(drawn, dists, insertFails, d)));
            && kept <= full <= dists[d].count
            && (kept == full <==> forall j | 0 <= j < |drawn[d]| :: !insertFails(d, j))
  {
    KeptComesFrom(drawn[d], d, dists[d].score, insertFails);
    DrewAt(bank, topics, dists, insertFails, drawn, d);
  }

  /** The sum over the entries of what each asked for or the bank had left at its turn. */
  ghost function Wanted(bank: map<Id, Problem>, topics: set<Id>, dists: seq<Distribution>,
                        insertFails: (nat, nat) -> bool, drawn: seq<seq<Id>>): int
    requires |drawn| <= |dists|
  {
    if drawn == [] then 0 else
      var n := |drawn| - 1;
      Wanted(bank, topics, dists, insertFails, drawn[..n])
      + Min(dists[n].count, Supply(bank, topics, dists[n], Ids(AllKept(drawn[..n], dists, insertFails))))
  }

  ghost predicate NoInsertFails(drawn: seq<seq<Id>>, insertFails: (nat, nat) -> bool) {
    forall d, j | 0 <= d < |drawn| && 0 <= j < |drawn[d]| :: !insertFails(d, j)
  }

  /** The event gets at most the sum of what its entries asked for or the bank had left at their turns, and exactly
      that many problems if and only if no insert failed. */
  lemma {:induction false} TotalAssigned(bank: map<Id, Problem>, topics: set<Id>, dists: seq<Distribution>,
                                         insertFails: (nat, nat) -> bool, drawn: seq<seq<Id>>)
    requires DrewAll(bank, topics, dists, insertFails, drawn)
    ensures |AllKept(drawn, dists, insertFails)| <= Wanted(bank, topics, dists, insertFails, drawn)
    ensures |AllKept(drawn, dists, insertFails)| == Wanted(bank, topics, dists, insertFails, drawn)
            <==> NoInsertFails(drawn, insertFails)
  {
    if drawn != [] {
      var n := |drawn| - 1;
      TotalAssigned(bank, topics, dists, insertFails, drawn[..n]);
      KeptComesFrom(drawn[n], n, dists[n].score, insertFails);
      FailsSplit(drawn, insertFails);
    }
  }

  lemma FailsSplit(drawn: seq<seq<Id>>, insertFails: (nat, nat) -> bool)
    requires drawn != []
    ensures var n := |drawn| - 1;
            NoInsertFails(drawn, insertFails)
            <==> NoInsertFails(drawn[..n], insertFails) && forall j | 0 <= j < |drawn[n]| :: !insertFails(n, j)
  {
    var n := |drawn| - 1;
    assert forall d | 0 <= d < n :: drawn[..n][d] == drawn[d];
  }
}
