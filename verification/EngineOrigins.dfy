/** Where rows come from: each submission from a submit request, each player row from a join request, and the rooms,
    participants, entrants and problem scores of an event from its one activation. */
module EngineOrigins {
  import opened Tables
  import opened Engine
  import opened EngineInvariant
  import opened EngineDbSteps
  import opened EngineRuns
  import opened EngineTheorems
  import opened EngineAdmission
  import opened EngineHistory

  // ---- submissions ----

  /** This is what the submit request asked for, with the score its event offers for this very problem. */
  ghost predicate IsSubmitted(s: State, step: Step, id: Id, sub: Submission) {
    && step.Submit? && step.id == id && sub.key == step.k && sub.problem == step.problem
    && step.e in s.db.events && s.db.events[step.e].status == Active && s.now <= s.db.events[step.e].endDate
    && step.e in s.db.offers && step.problem in s.db.offers[step.e]
    && sub.points == s.db.offers[step.e][step.problem]
  }

  lemma NewSub(s: State, step: Step, id: Id)
    requires Can(s, step) && id !in s.db.subs && id in Do(s, step).db.subs
    ensures IsSubmitted(s, step, id, Do(s, step).db.subs[id])
  {
    if IsEnd(step) {
      EndAddsNoSub(s, step);
    } else if !IsSub(step) {
      OtherKeepsSub(s, step);
    }
  }

  lemma EndAddsNoSub(s: State, step: Step)
    requires Can(s, step) && IsEnd(step)
    ensures Do(s, step).db.subs.Keys == s.db.subs.Keys
  {
  }

  /** In every reachable state each submission goes back to a submit request for its player, room and problem, and is
      worth the points that the request's event offers for that problem. */
  lemma {:induction false} SubmissionOrigin(states: seq<State>, steps: seq<Step>, n: nat, id: Id) returns (i: nat)
    requires IsRun(states, steps) && n < |states| && id in states[n].db.subs
    ensures i < n && i < |steps| && IsSubmitted(states[i], steps[i], id, states[n].db.subs[id])
  {
    RunStep(states, steps, n - 1);
    if id in states[n - 1].db.subs {
      SubStays(states[n - 1], steps[n - 1], id);
      i := SubmissionOrigin(states, steps, n - 1, id);
    } else {
      NewSub(states[n - 1], steps[n - 1], id);
      i := n - 1;
    }
  }

  /** A submission never changes its player, room, problem or points. */
  lemma {:induction false} SubmissionStays(states: seq<State>, steps: seq<Step>, i: nat, j: nat, id: Id)
    requires IsRun(states, steps) && i <= j < |states| && id in states[i].db.subs
    ensures id in states[j].db.subs
    ensures var a, b := states[i].db.subs[id], states[j].db.subs[id];
            b.key == a.key && b.problem == a.problem && b.points == a.points
    decreases j
  {
    if i < j {
      SubmissionStays(states, steps, i, j - 1, id);
      RunStep(states, steps, j - 1);
      SubStays(states[j - 1], steps[j - 1], id);
    }
  }

  /** The submission is a row of its table. */
  ghost predicate IsStored(s: State, id: Id) {
    id in s.db.subs && s.db.subs[id].phase != Sent
  }

  lemma StoredStep(s: State, step: Step, id: Id)
    requires Can(s, step) && IsStored(Do(s, step), id)
    ensures if IsStored(s, id) then Do(s, step).db.subs[id].submittedAt == s.db.subs[id].submittedAt
            else step == Record(id) && Do(s, step).db.subs[id].submittedAt == s.now
  {
    if IsSub(step) {
      SubStepStores(s, step, id);
    } else if IsEnd(step) {
      EndStores(s, step, id);
    } else {
      OtherKeepsSub(s, step);
    }
  }

  lemma SubStepStores(s: State, step: Step, id: Id)
    requires Can(s, step) && IsSub(step) && IsStored(Do(s, step), id)
    ensures if IsStored(s, id) then Do(s, step).db.subs[id].submittedAt == s.db.subs[id].submittedAt
            else step == Record(id) && Do(s, step).db.subs[id].submittedAt == s.now
  {
  }

  lemma EndStores(s: State, step: Step, id: Id)
    requires Can(s, step) && IsEnd(step) && IsStored(Do(s, step), id)
    ensures IsStored(s, id) && Do(s, step).db.subs[id].submittedAt == s.db.subs[id].submittedAt
  {
  }

  /** The submission time that counts in rankings is the time at which the row was stored. */
  lemma {:induction false} SubmittedWhenStored(states: seq<State>, steps: seq<Step>, n: nat, id: Id) returns (i: nat)
    requires IsRun(states, steps) && n < |states| && IsStored(states[n], id)
    ensures i < n && i < |steps| && steps[i] == Record(id) && states[n].db.subs[id].submittedAt == states[i].now
  {
    RunStep(states, steps, n - 1);
    StoredStep(states[n - 1], steps[n - 1], id);
    if IsStored(states[n - 1], id) {
      i := SubmittedWhenStored(states, steps, n - 1, id);
    } else {
      i := n - 1;
    }
  }

  // ---- submissions that were judged wrong, or late ----

  /** The submission is done with this status, and no transaction works on it. */
  ghost predicate IsDone(s: State, id: Id, status: SubmissionStatus) {
    && id in s.db.subs && s.db.subs[id].phase == Handled && s.db.subs[id].status == status
    && forall u | u in s.txs && s.txs[u].Score? :: s.txs[u].sub != id
  }

  lemma DismissDone(s: State, id: Id, wrong: bool)
    requires Inv(s) && Can(s, Dismiss(id, wrong))
    ensures IsDone(Do(s, Dismiss(id, wrong)), id, if wrong then WrongAnswer else Waiting)
  {
    UnhandledIsFree(s, id);
  }

  lemma SubStepDone(s: State, step: Step, id: Id, status: SubmissionStatus)
    requires Can(s, step) && IsSub(step) && IsDone(s, id, status)
    ensures IsDone(Do(s, step), id, status)
  {
  }

  lemma EndStepDone(s: State, step: Step, id: Id, status: SubmissionStatus)
    requires Can(s, step) && IsEnd(step) && IsDone(s, id, status)
    ensures IsDone(Do(s, step), id, status)
  {
  }

  lemma OtherStepDone(s: State, step: Step, id: Id, status: SubmissionStatus)
    requires Can(s, step) && !IsSub(step) && !IsEnd(step) && IsDone(s, id, status)
    ensures IsDone(Do(s, step), id, status)
  {
    OtherKeepsSub(s, step);
    if IsOutside(step) {
      OutsideKeepsTxs(s, step);
    } else {
      InsideDone(s, step, id, status);
    }
  }

  lemma InsideDone(s: State, step: Step, id: Id, status: SubmissionStatus)
    requires Can(s, step) && !IsSub(step) && !IsEnd(step) && !IsOutside(step) && IsDone(s, id, status)
    ensures forall u | u in Do(s, step).txs && Do(s, step).txs[u].Score? :: Do(s, step).txs[u].sub != id
  {
  }

  lemma {:induction false} DoneRun(states: seq<State>, steps: seq<Step>, i: nat, j: nat, id: Id,
                                   status: SubmissionStatus)
    requires IsRun(states, steps) && i <= j < |states| && IsDone(states[i], id, status)
    ensures IsDone(states[j], id, status)
    decreases j
  {
    if i < j {
      DoneRun(states, steps, i, j - 1, id, status);
      RunStep(states, steps, j - 1);
      if IsSub(steps[j - 1]) {
        SubStepDone(states[j - 1], steps[j - 1], id, status);
      } else if IsEnd(steps[j - 1]) {
        EndStepDone(states[j - 1], steps[j - 1], id, status);
      } else {
        OtherStepDone(states[j - 1], steps[j - 1], id, status);
      }
    }
  }

  /** A wrong answer is recorded as one and anything else that does not reach the scoring transaction as pending, for
      ever: neither is accepted later. */
  lemma DismissedStays(states: seq<State>, steps: seq<Step>, i: nat, j: nat, id: Id, wrong: bool)
    requires IsRun(states, steps) && i < j < |states| && steps[i] == Dismiss(id, wrong)
    ensures id in states[j].db.subs && states[j].db.subs[id].status == if wrong then WrongAnswer else Waiting
  {
    DismissedNext(states, steps, i, id, wrong);
    DoneRun(states, steps, i + 1, j, id, if wrong then WrongAnswer else Waiting);
  }

  lemma DismissedNext(states: seq<State>, steps: seq<Step>, i: nat, id: Id, wrong: bool)
    requires IsRun(states, steps) && i < |steps| && steps[i] == Dismiss(id, wrong)
    ensures IsDone(states[i + 1], id, if wrong then WrongAnswer else Waiting)
  {
    RunInv(states, steps, i);
    RunStep(states, steps, i);
    DismissDone(states[i], id, wrong);
  }

  // ---- what an acceptance has behind it ----

  /** The submission passed the status check, is being scored or was accepted. */
  ghost predicate IsPast(s: State, id: Id) {
    || (id in s.db.subs && (s.db.subs[id].phase == Cleared || s.db.subs[id].status.Accepted?))
    || exists u :: u in s.txs && s.txs[u].Score? && s.txs[u].sub == id
  }

  lemma SubStepPast(s: State, step: Step, id: Id)
    requires Can(s, step) && IsSub(step) && IsPast(Do(s, step), id)
    ensures IsPast(s, id) || step == Clear(id)
  {
    if step.BeginScore? {
      BeginPast(s, step.t, step.id, id);
    } else {
      RequestPast(s, step, id);
    }
  }

  lemma BeginPast(s: State, t: Id, i: Id, id: Id)
    requires Can(s, BeginScore(t, i)) && IsPast(Do(s, BeginScore(t, i)), id)
    ensures IsPast(s, id)
  {
    var s' := Do(s, BeginScore(t, i));
    if i != id {
      assert id in s'.db.subs ==> s'.db.subs[id] == s.db.subs[id];
      assert forall u | u in s'.txs && s'.txs[u].Score? && s'.txs[u].sub == id :: u in s.txs && s.txs[u] == s'.txs[u];
    }
  }

  lemma RequestPast(s: State, step: Step, id: Id)
    requires Can(s, step) && IsSub(step) && !step.BeginScore? && IsPast(Do(s, step), id)
    ensures IsPast(s, id) || step == Clear(id)
  {
  }

  lemma EndStepPast(s: State, step: Step, id: Id)
    requires Can(s, step) && IsEnd(step) && IsPast(Do(s, step), id)
    ensures IsPast(s, id)
  {
    if step.CommitScore? {
      ScoreStepPast(s, step.t, id);
    } else {
      EndLeavesSubs(s, step);
      SamePast(s, Do(s, step), id);
    }
  }

  lemma SamePast(s: State, s': State, id: Id)
    requires s'.db.subs == s.db.subs && (forall u | u in s'.txs :: u in s.txs && s'.txs[u] == s.txs[u])
    requires IsPast(s', id)
    ensures IsPast(s, id)
  {
  }

  lemma EndLeavesSubs(s: State, step: Step)
    requires Can(s, step) && IsEnd(step) && !step.CommitScore?
    ensures Do(s, step).db.subs == s.db.subs && Do(s, step).txs == s.txs - {step.t}
  {
  }

  lemma ScoreStepPast(s: State, t: Id, id: Id)
    requires Can(s, CommitScore(t)) && IsPast(Do(s, CommitScore(t)), id)
    ensures IsPast(s, id)
  {
    if s.txs[t].sub == id {
      assert t in s.txs && s.txs[t].Score? && s.txs[t].sub == id;
    } else {
      assert id in s.db.subs ==> s.db.subs[id] == Do(s, CommitScore(t)).db.subs[id];
    }
  }

  lemma OtherStepPast(s: State, step: Step, id: Id)
    requires Can(s, step) && !IsSub(step) && !IsEnd(step) && IsPast(Do(s, step), id)
    ensures IsPast(s, id)
  {
    OtherKeepsSub(s, step);
  }

  /** The status check of step `i` let this stored submission pass while the event of its room was active. */
  ghost predicate ClearedAt(states: seq<State>, steps: seq<Step>, i: nat, id: Id) {
    && i < |steps| && i < |states| && steps[i] == Clear(id) && IsStored(states[i], id)
    && var db := states[i].db;
    && db.subs[id].key.room in db.rooms && db.rooms[db.subs[id].key.room] in db.events
    && db.events[db.rooms[db.subs[id].key.room]].status == Active
  }

  lemma {:induction false} FindClear(states: seq<State>, steps: seq<Step>, n: nat, id: Id) returns (i: nat)
    requires IsRun(states, steps) && n < |states| && IsPast(states[n], id)
    ensures i < n && ClearedAt(states, steps, i, id)
  {
    RunStep(states, steps, n - 1);
    if IsPast(states[n - 1], id) {
      i := FindClear(states, steps, n - 1, id);
    } else {
      PastBy(states[n - 1], steps[n - 1], id);
      i := n - 1;
    }
  }

  lemma PastBy(s: State, step: Step, id: Id)
    requires Can(s, step) && !IsPast(s, id) && IsPast(Do(s, step), id)
    ensures step == Clear(id)
  {
    if IsSub(step) {
      SubStepPast(s, step, id);
    } else if IsEnd(step) {
      EndStepPast(s, step, id);
    } else {
      OtherStepPast(s, step, id);
    }
  }

  /** In every reachable state an accepted submission came the whole way: a submit request, its row, the status check
      with the event active, all in that order. */
  lemma AcceptedCameThrough(states: seq<State>, steps: seq<Step>, n: nat, id: Id) returns (i: nat, j: nat, k: nat)
    requires IsRun(states, steps) && n < |states| && IsAccepted(states[n], id)
    ensures i < j < k < n && k < |steps| && k < |states|
    ensures steps[i].Submit? && steps[i].id == id && steps[j] == Record(id)
    ensures ClearedAt(states, steps, k, id)
  {
    k := FindClear(states, steps, n, id);
    j := SubmittedWhenStored(states, steps, k, id);
    RunStep(states, steps, j);
    i := SubmissionOrigin(states, steps, j, id);
  }

  /** The transaction scores this submission with this starting time. */
  ghost predicate Scores(s: State, t: Id, id: Id, at: int) {
    t in s.txs && s.txs[t].Score? && s.txs[t].sub == id && s.txs[t].startedAt == at
  }

  ghost predicate HasMarked(s: State, t: Id) {
    t in s.txs && s.txs[t].Score? && s.txs[t].spc == Marked
  }

  lemma ScoresStep(s: State, step: Step, t: Id, id: Id, at: int)
    requires Can(s, step) && Scores(Do(s, step), t, id, at)
    ensures Scores(s, t, id, at) || (step == BeginScore(t, id) && at == s.now)
  {
    if IsOutside(step) {
      OutsideKeepsTxs(s, step);
    } else if IsEnd(step) {
      EndKeepsTxs(s, step);
    }
  }

  lemma MarkedStep(s: State, step: Step, t: Id)
    requires Can(s, step) && HasMarked(Do(s, step), t)
    ensures HasMarked(s, t) || step == Mark(t)
  {
    if IsOutside(step) {
      OutsideKeepsTxs(s, step);
    } else if IsEnd(step) {
      EndKeepsTxs(s, step);
    }
  }

  lemma OutsideKeepsTxs(s: State, step: Step)
    requires Can(s, step) && IsOutside(step)
    ensures Do(s, step).txs == s.txs
  {
  }

  lemma EndKeepsTxs(s: State, step: Step)
    requires Can(s, step) && IsEnd(step)
    ensures Do(s, step).txs == s.txs - {step.t}
  {
  }

  lemma {:induction false} FindBegin(states: seq<State>, steps: seq<Step>, n: nat, t: Id, id: Id, at: int)
    returns (i: nat)
    requires IsRun(states, steps) && n < |states| && Scores(states[n], t, id, at)
    ensures i < n && i < |steps| && steps[i] == BeginScore(t, id) && states[i].now == at
    ensures forall x | i < x <= n :: Scores(states[x], t, id, at)
  {
    RunStep(states, steps, n - 1);
    ScoresStep(states[n - 1], steps[n - 1], t, id, at);
    if Scores(states[n - 1], t, id, at) {
      i := FindBegin(states, steps, n - 1, t, id, at);
    } else {
      i := n - 1;
    }
  }

  lemma {:induction false} FindMark(states: seq<State>, steps: seq<Step>, n: nat, t: Id) returns (i: nat)
    requires IsRun(states, steps) && n < |states| && HasMarked(states[n], t)
    ensures i < n && i < |steps| && steps[i] == Mark(t) && forall x | i < x <= n :: HasMarked(states[x], t)
  {
    RunStep(states, steps, n - 1);
    MarkedStep(states[n - 1], steps[n - 1], t);
    if HasMarked(states[n - 1], t) {
      i := FindMark(states, steps, n - 1, t);
    } else {
      i := n - 1;
    }
  }

  /** The event of the room of this submission. */
  ghost predicate HasEvent(db: Db, id: Id) {
    id in db.subs && db.subs[id].key.room in db.rooms && db.rooms[db.subs[id].key.room] in db.events
  }

  /** In every reachable state an accepted submission was accepted by one transaction that began, as the clock of the
      run shows, by the end date, and found the event active when it marked the submission. */
  lemma AcceptedInTime(states: seq<State>, steps: seq<Step>, n: nat, id: Id)
    returns (i: nat, j: nat, m: nat, t: Id)
    requires IsRun(states, steps) && n < |states| && IsAccepted(states[n], id)
    ensures i < j < m < n && m < |steps|
    ensures steps[i] == BeginScore(t, id) && steps[j] == Mark(t) && steps[m] == CommitScore(t)
    ensures forall x | i < x <= m :: x < |states| && t in states[x].txs
    ensures HasEvent(states[j].db, id)
    ensures var event := states[j].db.events[states[j].db.rooms[states[j].db.subs[id].key.room]];
            event.status == Active && states[i].now <= event.endDate
  {
    m, t := FindCommit(states, steps, n, id);
    var at := states[m].txs[t].startedAt;
    i := FindBegin(states, steps, m, t, id, at);
    j := FindMark(states, steps, m, t);
    RunStep(states, steps, i);
    RunStep(states, steps, j);
    assert i < j by {
      assert t !in states[i].txs;
    }
    assert Scores(states[j], t, id, at);
  }

  lemma {:induction false} FindCommit(states: seq<State>, steps: seq<Step>, n: nat, id: Id) returns (m: nat, t: Id)
    requires IsRun(states, steps) && n < |states| && IsAccepted(states[n], id)
    ensures m < n && m < |steps| && steps[m] == CommitScore(t)
    ensures HasMarked(states[m], t) && states[m].txs[t].sub == id
  {
    RunStep(states, steps, n - 1);
    if IsAccepted(states[n - 1], id) {
      m, t := FindCommit(states, steps, n - 1, id);
    } else {
      AcceptedBy(states[n - 1], steps[n - 1], id);
      m, t := n - 1, steps[n - 1].t;
    }
  }

  // ---- events ----

  lemma EventStep(s: State, step: Step, e: Id)
    requires Can(s, step) && e in Do(s, step).db.events
    ensures if e in s.db.events
            then && Do(s, step).db.events[e].startDate == s.db.events[e].startDate
                 && Do(s, step).db.events[e].endDate == s.db.events[e].endDate
            else && step.Approve? && step.e == e
                 && Do(s, step).db.events[e] == Event(Pending, step.startDate, step.endDate)
  {
    if IsEnd(step) {
      EndKeepsDates(s, step, e);
    } else if !IsOutside(step) {
      InsideKeepsEvents(s, step);
    }
  }

  lemma EndKeepsDates(s: State, step: Step, e: Id)
    requires Can(s, step) && IsEnd(step) && e in Do(s, step).db.events
    ensures e in s.db.events && Do(s, step).db.events[e].startDate == s.db.events[e].startDate
    ensures Do(s, step).db.events[e].endDate == s.db.events[e].endDate
  {
  }

  /** An event always has the dates it was approved with. */
  lemma {:induction false} EventOrigin(states: seq<State>, steps: seq<Step>, n: nat, e: Id) returns (i: nat)
    requires IsRun(states, steps) && n < |states| && e in states[n].db.events
    ensures i < n && i < |steps| && steps[i].Approve? && steps[i].e == e
    ensures states[n].db.events[e].startDate == steps[i].startDate
    ensures states[n].db.events[e].endDate == steps[i].endDate
  {
    RunStep(states, steps, n - 1);
    EventStep(states[n - 1], steps[n - 1], e);
    if e in states[n - 1].db.events {
      i := EventOrigin(states, steps, n - 1, e);
    } else {
      i := n - 1;
    }
  }

  // ---- player rows ----

  lemma PassStep(s: State, step: Step, p: Pass)
    requires Can(s, step) && p in Do(s, step).passes && p !in s.passes
    ensures step == CheckJoin(p) && p in s.db.entrants
    ensures var r := p.key.room;
            && r in s.db.rooms && s.db.rooms[r] in s.db.events
            && s.db.events[s.db.rooms[r]].startDate <= s.now <= s.db.events[s.db.rooms[r]].endDate
  {
  }

  /** Join request `i` let this user through, for this guild, while the event of the room was on. */
  ghost predicate LetIn(states: seq<State>, steps: seq<Step>, i: nat, p: Pass) {
    && i < |steps| && i < |states| && steps[i] == CheckJoin(p) && p in states[i].db.entrants
    && p.key.room in states[i].db.rooms && states[i].db.rooms[p.key.room] in states[i].db.events
    && var event := states[i].db.events[states[i].db.rooms[p.key.room]];
    event.startDate <= states[i].now <= event.endDate
  }

  lemma {:induction false} PassOrigin(states: seq<State>, steps: seq<Step>, n: nat, p: Pass) returns (i: nat)
    requires IsRun(states, steps) && n < |states| && p in states[n].passes
    ensures i < n && LetIn(states, steps, i, p)
  {
    RunStep(states, steps, n - 1);
    if p in states[n - 1].passes {
      i := PassOrigin(states, steps, n - 1, p);
    } else {
      PassStep(states[n - 1], steps[n - 1], p);
      i := n - 1;
    }
  }

  /** A row keeps the guild and the join time it was inserted with. */
  ghost predicate RowKept(s: State, s': State, k: Key)
    requires k in s.db.players
  {
    && k in s'.db.players && s'.db.players[k].guild == s.db.players[k].guild
    && s'.db.players[k].joinedAt == s.db.players[k].joinedAt
  }

  lemma EndKeepsRow(s: State, step: Step, k: Key)
    requires Can(s, step) && IsEnd(step) && k in s.db.players && VersionsOk(s.db, s.txs[step.t])
    ensures RowKept(s, Do(s, step), k)
  {
    if step.CommitScore? {
      ScoreKeepsRow(s, step.t, k);
    }
  }

  lemma ScoreKeepsRow(s: State, t: Id, k: Key)
    requires Can(s, CommitScore(t)) && k in s.db.players && VersionsOk(s.db, s.txs[t])
    ensures RowKept(s, Do(s, CommitScore(t)), k)
  {
  }

  lemma OutsideKeepsRow(s: State, step: Step, k: Key)
    requires Can(s, step) && IsOutside(step) && k in s.db.players
    ensures RowKept(s, Do(s, step), k)
  {
  }

  lemma InsideKeepsRows(s: State, step: Step)
    requires Can(s, step) && !IsOutside(step) && !IsEnd(step)
    ensures Do(s, step).db.players == s.db.players
  {
  }

  lemma RowStep(s: State, step: Step, k: Key)
    requires Can(s, step) && k in s.db.players && (IsEnd(step) ==> OwnVersions(s, step.t))
    ensures RowKept(s, Do(s, step), k)
  {
    if IsEnd(step) {
      EndKeepsRow(s, step, k);
    } else if IsOutside(step) {
      OutsideKeepsRow(s, step, k);
    } else {
      InsideKeepsRows(s, step);
    }
  }

  /** The uncommitted versions of `t` are of committed rows, with their guild and join time. */
  ghost predicate OwnVersions(s: State, t: Id) {
    t in s.txs && VersionsOk(s.db, s.txs[t]) && s.txs[t].writes.Keys <= s.db.players.Keys
  }

  lemma VersionsAre(s: State, step: Step)
    requires Inv(s) && Can(s, step)
    ensures IsEnd(step) ==> OwnVersions(s, step.t)
  {
    if IsEnd(step) {
      assert TxOk(s.db, s.txs[step.t]);
    }
  }

  /** Step `j` inserts the row of this join. */
  ghost predicate Inserts(states: seq<State>, steps: seq<Step>, j: nat, p: Pass) {
    j < |steps| && j + 1 < |states| && steps[j] == Join(p) && p in states[j].passes
  }

  lemma NewRow(s: State, step: Step, k: Key)
    requires Can(s, step) && k !in s.db.players && k in Do(s, step).db.players
    requires IsEnd(step) ==> OwnVersions(s, step.t)
    ensures step.Join? && step.p.key == k && step.p in s.passes
    ensures var row := Do(s, step).db.players[k];
            && row.guild == step.p.guild && row.score == 0 && row.place == None
            && row.joinedAt == s.now && row.state == Present
  {
    if IsEnd(step) {
      EndAddsNoRow(s, step);
    } else if !IsOutside(step) {
      InsideKeepsRows(s, step);
    }
  }

  lemma EndAddsNoRow(s: State, step: Step)
    requires Can(s, step) && IsEnd(step) && s.txs[step.t].writes.Keys <= s.db.players.Keys
    ensures Do(s, step).db.players.Keys == s.db.players.Keys
  {
  }

  lemma RunVersions(states: seq<State>, steps: seq<Step>, n: nat)
    requires IsRun(states, steps) && n < |steps|
    ensures IsEnd(steps[n]) ==> OwnVersions(states[n], steps[n].t)
  {
    RunInv(states, steps, n);
    RunStep(states, steps, n);
    VersionsAre(states[n], steps[n]);
  }

  lemma {:induction false} FindInsert(states: seq<State>, steps: seq<Step>, n: nat, k: Key) returns (j: nat, p: Pass)
    requires IsRun(states, steps) && n < |states| && k in states[n].db.players
    ensures j < n && Inserts(states, steps, j, p) && p.key == k
    ensures states[n].db.players[k].guild == p.guild && states[n].db.players[k].joinedAt == states[j].now
  {
    RunStep(states, steps, n - 1);
    RunVersions(states, steps, n - 1);
    if k in states[n - 1].db.players {
      RowStep(states[n - 1], steps[n - 1], k);
      j, p := FindInsert(states, steps, n - 1, k);
    } else {
      NewRow(states[n - 1], steps[n - 1], k);
      j, p := n - 1, steps[n - 1].p;
    }
  }

  /** In every reachable state each player row goes back to a join request of that user, let through for the row's guild
      while the event was on; and the join time that counts in rankings is the time at which the row was inserted. */
  lemma RowOrigin(states: seq<State>, steps: seq<Step>, n: nat, k: Key) returns (i: nat, j: nat, p: Pass)
    requires IsRun(states, steps) && n < |states| && k in states[n].db.players
    ensures i < j < n && LetIn(states, steps, i, p) && Inserts(states, steps, j, p) && p.key == k
    ensures states[n].db.players[k].guild == p.guild && states[n].db.players[k].joinedAt == states[j].now
  {
    j, p := FindInsert(states, steps, n, k);
    i := PassOrigin(states, steps, j, p);
  }

  // ---- what an activation leaves behind ----

  /** The event has the rooms assigned to these guilds and no other, these guilds take part with these join times, their
      selected members and nobody else may join, each in the guild's room, and these problems count. */
  ghost predicate ActivatedWith(db: Db, e: Id, guilds: map<Id, Guild>, problems: map<Id, int>) {
    && (forall r :: r in db.rooms && db.rooms[r] == e <==> exists g :: g in guilds && guilds[g].room == r)
    && e in db.joined && (forall g :: g in db.joined[e] <==> g in guilds)
    && (forall g | g in guilds && g in db.joined[e] :: db.joined[e][g] == guilds[g].joinedAt)
    && (forall p: Pass | p.key.room in db.rooms && db.rooms[p.key.room] == e ::
          p in db.entrants
          <==> p.guild in guilds && guilds[p.guild].room == p.key.room && p.key.user in guilds[p.guild].members)
    && e in db.offers && db.offers[e] == problems
  }

  lemma ActivateLeaves(s: State, e: Id, guilds: map<Id, Guild>, problems: map<Id, int>)
    requires Admitted(s) && Can(s, Activate(e, guilds, problems))
    ensures ActivatedWith(Activated(s.db, e, guilds, problems), e, guilds, problems)
    ensures HasBegun(Activated(s.db, e, guilds, problems), e)
  {
    var db := Activated(s.db, e, guilds, problems);
    forall r ensures r in db.rooms && db.rooms[r] == e <==> exists g :: g in guilds && guilds[g].room == r {
      assert r in NewRooms(guilds) <==> exists g :: g in guilds && guilds[g].room == r;
    }
    forall p: Pass | p.key.room in db.rooms && db.rooms[p.key.room] == e
      ensures p in db.entrants
        <==> p.guild in guilds && guilds[p.guild].room == p.key.room && p.key.user in guilds[p.guild].members
    {
      assert p in NewEntrants(guilds)
        <==> p.guild in guilds && guilds[p.guild].room == p.key.room && p.key.user in guilds[p.guild].members;
    }
  }

  /** Nothing else touches what an activation leaves. */
  ghost predicate SameEvent(a: Db, b: Db, e: Id) {
    && (forall r :: r in a.rooms && a.rooms[r] == e <==> r in b.rooms && b.rooms[r] == e)
    && (e in a.joined ==> e in b.joined && b.joined[e] == a.joined[e])
    && (e in a.offers ==> e in b.offers && b.offers[e] == a.offers[e])
    && (forall p: Pass | p.key.room in a.rooms && a.rooms[p.key.room] == e :: p in a.entrants <==> p in b.entrants)
  }

  lemma SameActivated(a: Db, b: Db, e: Id, guilds: map<Id, Guild>, problems: map<Id, int>)
    requires ActivatedWith(a, e, guilds, problems) && SameEvent(a, b, e)
    ensures ActivatedWith(b, e, guilds, problems)
  {
  }

  lemma OtherActivation(s: State, step: Step, e: Id)
    requires Can(s, step) && (step.Activate? || step.Approve?) && HasBegun(s.db, e)
    ensures SameEvent(s.db, Do(s, step).db, e)
  {
    if step.Activate? {
      assert step.e != e;
      assert forall p | p in NewEntrants(step.guilds) :: p.key.room in NewRooms(step.guilds);
    }
  }

  lemma NoActivation(s: State, step: Step, e: Id)
    requires Can(s, step) && !step.Activate? && !step.Approve?
    ensures SameEvent(s.db, Do(s, step).db, e)
  {
  }

  lemma ActivatedStep(s: State, step: Step, e: Id, guilds: map<Id, Guild>, problems: map<Id, int>)
    requires Can(s, step) && HasBegun(s.db, e) && ActivatedWith(s.db, e, guilds, problems)
    ensures ActivatedWith(Do(s, step).db, e, guilds, problems)
  {
    if step.Activate? || step.Approve? {
      OtherActivation(s, step, e);
    } else {
      NoActivation(s, step, e);
    }
    SameActivated(s.db, Do(s, step).db, e, guilds, problems);
  }

  lemma BegunStays(a: Db, b: Db, e: Id)
    requires Later(a, b) && HasBegun(a, e)
    ensures HasBegun(b, e)
  {
  }

  /** Whatever runs afterwards, an activation's rooms, participants, join times, entrants and problem scores stand. */
  lemma ActivationStands(states: seq<State>, steps: seq<Step>, i: nat, j: nat, e: Id,
                         guilds: map<Id, Guild>, problems: map<Id, int>)
    requires IsRun(states, steps) && i < j < |states| && steps[i] == Activate(e, guilds, problems)
    ensures HasBegun(states[j].db, e) && ActivatedWith(states[j].db, e, guilds, problems)
  {
    ghost var stands := (s: State) => HasBegun(s.db, e) && ActivatedWith(s.db, e, guilds, problems);
    ActivationFirst(states, steps, i, e, guilds, problems);
    forall n: nat | n < |steps| && stands(states[n]) ensures stands(states[n + 1]) {
      ActivationNext(states, steps, n, e, guilds, problems);
    }
    KeptOnward(states, stands, i + 1, j);
  }

  /** What every step keeps holds from then on. */
  lemma {:induction false} KeptOnward(states: seq<State>, p: State -> bool, i: nat, j: nat)
    requires i <= j < |states| && p(states[i])
    requires forall n: nat | n < |states| - 1 && p(states[n]) :: p(states[n + 1])
    ensures p(states[j])
  {
    if i < j {
      KeptOnward(states, p, i, j - 1);
    }
  }

  lemma ActivationFirst(states: seq<State>, steps: seq<Step>, i: nat, e: Id, guilds: map<Id, Guild>,
                        problems: map<Id, int>)
    requires IsRun(states, steps) && i < |steps| && steps[i] == Activate(e, guilds, problems)
    ensures HasBegun(states[i + 1].db, e) && ActivatedWith(states[i + 1].db, e, guilds, problems)
  {
    RunStep(states, steps, i);
    RowsAdmitted(states, steps, i);
    ActivateLeaves(states[i], e, guilds, problems);
  }

  lemma ActivationNext(states: seq<State>, steps: seq<Step>, n: nat, e: Id, guilds: map<Id, Guild>,
                       problems: map<Id, int>)
    requires IsRun(states, steps) && n < |steps|
    requires HasBegun(states[n].db, e) && ActivatedWith(states[n].db, e, guilds, problems)
    ensures HasBegun(states[n + 1].db, e) && ActivatedWith(states[n + 1].db, e, guilds, problems)
  {
    NextLater(states, steps, n);
    BegunStays(states[n].db, states[n + 1].db, e);
    RunStep(states, steps, n);
    ActivatedStep(states[n], steps[n], e, guilds, problems);
  }

  lemma BegunBy(s: State, step: Step, e: Id)
    requires Admitted(s) && Can(s, step) && !HasBegun(s.db, e) && HasBegun(Do(s, step).db, e)
    ensures step.Activate? && step.e == e
  {
    if IsEnd(step) {
      EndBeginsNothing(s, step, e);
    } else if !IsOutside(step) {
      InsideKeepsEvents(s, step);
    }
  }

  lemma EndBeginsNothing(s: State, step: Step, e: Id)
    requires HoldsRooms(s) && Can(s, step) && IsEnd(step) && !HasBegun(s.db, e)
    ensures !HasBegun(Do(s, step).db, e)
  {
  }

  lemma InsideKeepsEvents(s: State, step: Step)
    requires Can(s, step) && !IsOutside(step) && !IsEnd(step)
    ensures Do(s, step).db.events == s.db.events
  {
  }

  /** In every reachable state an event that is no longer pending has exactly what its activation gave it. */
  lemma {:induction false} ActivationOrigin(states: seq<State>, steps: seq<Step>, n: nat, e: Id)
    returns (i: nat, guilds: map<Id, Guild>, problems: map<Id, int>)
    requires IsRun(states, steps) && n < |states| && e in states[n].db.events
    requires states[n].db.events[e].status != Pending
    ensures i < n && i < |steps| && steps[i] == Activate(e, guilds, problems)
    ensures ActivatedWith(states[n].db, e, guilds, problems)
  {
    RunStep(states, steps, n - 1);
    if HasBegun(states[n - 1].db, e) {
      i, guilds, problems := ActivationOrigin(states, steps, n - 1, e);
    } else {
      RowsAdmitted(states, steps, n - 1);
      BegunBy(states[n - 1], steps[n - 1], e);
      i, guilds, problems := n - 1, steps[n - 1].guilds, steps[n - 1].problems;
    }
    ActivationStands(states, steps, i, n, e, guilds, problems);
  }

  // ---- the far future ----

  ghost predicate TimesPast(s: State) {
    forall i | i in s.db.subs :: s.db.subs[i].submittedAt <= s.now
  }

  lemma OutsideTimes(s: State, step: Step)
    requires TimesPast(s) && Can(s, step) && (IsOutside(step) || IsBegin(step))
    ensures TimesPast(Do(s, step))
  {
  }

  lemma EndTimes(s: State, step: Step)
    requires TimesPast(s) && Can(s, step) && IsEnd(step)
    ensures TimesPast(Do(s, step))
  {
  }

  lemma InsideTimes(s: State, step: Step)
    requires TimesPast(s) && Can(s, step) && !IsOutside(step) && !IsBegin(step) && !IsEnd(step)
    ensures TimesPast(Do(s, step))
  {
  }

  lemma {:induction false} TimesRun(states: seq<State>, steps: seq<Step>, n: nat)
    requires IsRun(states, steps) && n < |states|
    ensures TimesPast(states[n])
  {
    if n > 0 {
      TimesRun(states, steps, n - 1);
      RunStep(states, steps, n - 1);
      if IsOutside(steps[n - 1]) || IsBegin(steps[n - 1]) {
        OutsideTimes(states[n - 1], steps[n - 1]);
      } else if IsEnd(steps[n - 1]) {
        EndTimes(states[n - 1], steps[n - 1]);
      } else {
        InsideTimes(states[n - 1], steps[n - 1]);
      }
    }
  }

  /** Until the year 9999, whoever has an acceptance sorts before whoever has none at the same score. */
  lemma NeverAcceptedLast(states: seq<State>, steps: seq<Step>, n: nat, some: set<Key>, none: set<Key>)
    requires IsRun(states, steps) && n < |states| && states[n].now < 253_402_214_400_000_000
    requires exists i :: IsAccepted(states[n], i) && states[n].db.subs[i].key in some
    requires forall i | IsAccepted(states[n], i) :: states[n].db.subs[i].key !in none
    ensures LastAccepted(states[n].db.subs, some) < LastAccepted(states[n].db.subs, none)
  {
    TimesRun(states, steps, n);
    var subs := states[n].db.subs;
    LastAcceptedIsLatest(subs, some);
    LastAcceptedIsLatest(subs, none);
    var i :| IsAccepted(states[n], i) && subs[i].key in some;
    assert forall j | j in subs && subs[j].key in none :: !IsAccepted(states[n], j);
  }
}
