/** Scores stay within the 32-bit column, in committed rows and in every uncommitted version. */
module EngineScores {
  import opened Tables
  import opened Engine
  import opened EngineRuns

  ghost predicate AllFit(rows: map<Key, Player>) {
    forall k | k in rows :: InInt32(rows[k].score)
  }

  ghost predicate Fits(s: State) {
    AllFit(s.db.players) && forall t | t in s.txs :: AllFit(s.txs[t].writes)
  }

  lemma PlacedFit(view: map<Key, Player>, order: seq<Key>)
    requires AllFit(view) && forall i | 0 <= i < |order| :: order[i] in view
    ensures AllFit(WithPlaces(view, order))
  {
  }

  lemma PlaceFits(s: State, t: Id, order: seq<Key>)
    requires Fits(s) && CanPlace(s, t, order)
    ensures Fits(DoPlace(s, t, order))
  {
    var view := View(s.db.players, s.txs[t].writes);
    var keys := RowKeys(view, s.db.subs, RoomRows(view, RoomOf(s.db, s.txs[t])));
    forall i | 0 <= i < |order| ensures order[i] in view {
      assert order[i] in keys;
    }
    PlacedFit(view, order);
  }

  lemma CommitFits(s: State, t: Id)
    requires Fits(s) && t in s.txs
    ensures AllFit(View(s.db.players, s.txs[t].writes))
  {
  }

  lemma OutsideFits(s: State, step: Step)
    requires Fits(s) && Can(s, step) && IsOutside(step)
    ensures Fits(Do(s, step))
  {
  }

  lemma EndFits(s: State, step: Step)
    requires Fits(s) && Can(s, step) && IsEnd(step)
    ensures Fits(Do(s, step))
  {
    CommitFits(s, step.t);
  }

  lemma TxStepFits(s: State, step: Step)
    requires Fits(s) && Can(s, step) && !IsOutside(step) && !IsEnd(step)
    ensures Fits(Do(s, step))
  {
    if step.Place? {
      PlaceFits(s, step.t, step.order);
    }
  }

  lemma StepFits(s: State, step: Step)
    requires Fits(s) && Can(s, step)
    ensures Fits(Do(s, step))
  {
    if IsOutside(step) {
      OutsideFits(s, step);
    } else if IsEnd(step) {
      EndFits(s, step);
    } else {
      TxStepFits(s, step);
    }
  }

  /** In every reachable state every score fits the column: an addition that would not is refused. */
  lemma {:induction false} ScoresFit(states: seq<State>, steps: seq<Step>, n: nat)
    requires IsRun(states, steps) && n < |states|
    ensures Fits(states[n])
  {
    if n > 0 {
      ScoresFit(states, steps, n - 1);
      StepFits(states[n - 1], steps[n - 1]);
    }
  }
}
