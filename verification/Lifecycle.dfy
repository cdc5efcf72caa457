/** The life of events across service instances: cron activations, expiry timers (armed before the activation that
    needs them commits), restarts with timer recovery, periodic monitors, and the reward goroutines started after a
    completion. All instances and the database share one clock, in microseconds; the monitor's query, though, compares
    the end date with a UTC time of day that the database reads as one of its session's time zone. */
module Lifecycle {
  import opened Tables

  const MICROSECONDS := 1_000_000

  datatype Timer = Timer(inst: Id, event: Id, at: int)

  datatype Kind = Activation | Completion

  /** `Rewarding` is a completion that has committed and has not yet started its reward goroutines. */
  datatype Phase = Opened | Swapped | Rewarding

  datatype Tx = Tx(inst: Id, kind: Kind, event: Id, phase: Phase)

  datatype State = State(
    events: map<Id, Event>,
    timers: set<Timer>,
    due: set<(Id, Id)>,            // per instance: overdue events its current monitor pass has still to try
    txs: map<Id, Tx>,
    rewards: map<Id, nat>,         // history: how often reward granting was started per event
    zone: int,                     // the session's offset from UTC in seconds, positive to the east
    now: int)

  datatype Step =
    | Tick(to: int)
    | Approve(e: Id, startDate: int, endDate: int)
    | Cron(t: Id, i: Id, e: Id)            // StartPendingEventsHandler picked the event up
    | Swap(t: Id)                          // the compare-and-swap on the status, taking the row lock
    | Arm(t: Id)                           // ScheduleEventExpiry, before the activation commits
    | Commit(t: Id)
    | StartRewards(t: Id)
    | Abort(t: Id)
    | Fire(timer: Timer, t: Id)
    | Lose(timer: Timer)
    | Query(i: Id)                         // the monitor's GetExpiredActiveEvents
    | Next(i: Id, e: Id, t: Id)            // the monitor tries one of the events it found
    | Restart(i: Id)
    | Recover(i: Id, e: Id)                // recoverActiveEvents, for one event it read as active

  /** The time NOW() AT TIME ZONE 'utc' stands for when it is compared with an end date. */
  function Seen(s: State): int {
    s.now - s.zone * MICROSECONDS
  }

  ghost predicate TxAt(s: State, t: Id, phase: Phase) {
    t in s.txs && s.txs[t].phase == phase && s.txs[t].event in s.events
  }

  function From(kind: Kind): EventStatus {
    if kind == Activation then Pending else Active
  }

  function To(kind: Kind): EventStatus {
    if kind == Activation then Active else Completed
  }

  ghost predicate Can(s: State, step: Step) {
    match step
    case Tick(to) => s.now <= to
    case Approve(e, startDate, endDate) => e !in s.events
    case Cron(t, i, e) => t !in s.txs && e in s.events
    case Swap(t) =>
      && TxAt(s, t, Opened)
      && s.events[s.txs[t].event].status == From(s.txs[t].kind)
      && forall u | u in s.txs && u != t && s.txs[u].event == s.txs[t].event :: s.txs[u].phase != Swapped
    case Arm(t) => TxAt(s, t, Swapped) && s.txs[t].kind == Activation
    case Commit(t) => TxAt(s, t, Swapped)
    case StartRewards(t) => TxAt(s, t, Rewarding)
    case Abort(t) => t in s.txs
    case Fire(timer, t) => timer in s.timers && timer.at <= s.now && t !in s.txs
    case Lose(timer) => timer in s.timers
    case Query(i) => true
    case Next(i, e, t) => (i, e) in s.due && t !in s.txs
    case Restart(i) => true
    case Recover(i, e) => e in s.events && (s.events[e].status == Active || s.events[e].status == Completed)
  }

  /** ScheduleEventExpiry: nothing is armed for an end date that has passed. */
  ghost function Armed(s: State, i: Id, e: Id): set<Timer>
    requires e in s.events
  {
    if s.now < s.events[e].endDate then s.timers + {Timer(i, e, s.events[e].endDate)} else s.timers
  }

  ghost function Started(s: State, e: Id): nat {
    if e in s.rewards then s.rewards[e] else 0
  }

  ghost function Do(s: State, step: Step): State
    requires Can(s, step)
  {
    match step
    case Tick(to) => s.(now := to)
    case Approve(e, startDate, endDate) => s.(events := s.events[e := Event(Pending, startDate, endDate)])
    case Cron(t, i, e) => s.(txs := s.txs[t := Tx(i, Activation, e, Opened)])
    case Swap(t) => s.(txs := s.txs[t := s.txs[t].(phase := Swapped)])
    case Arm(t) => s.(timers := Armed(s, s.txs[t].inst, s.txs[t].event))
    case Commit(t) =>
      var tx := s.txs[t];
      s.(events := s.events[tx.event := s.events[tx.event].(status := To(tx.kind))],
         txs := if tx.kind == Completion then s.txs[t := tx.(phase := Rewarding)] else s.txs - {t})
    case StartRewards(t) =>
      s.(rewards := s.rewards[s.txs[t].event := Started(s, s.txs[t].event) + 1], txs := s.txs - {t})
    case Abort(t) => s.(txs := s.txs - {t})
    case Fire(timer, t) =>
      s.(timers := s.timers - {timer}, txs := s.txs[t := Tx(timer.inst, Completion, timer.event, Opened)])
    case Lose(timer) => s.(timers := s.timers - {timer})
    case Query(i) =>
      s.(due := s.due + (set e | e in s.events && s.events[e].status == Active && s.events[e].endDate < Seen(s) ::
                           (i, e)))
    case Next(i, e, t) => s.(due := s.due - {(i, e)}, txs := s.txs[t := Tx(i, Completion, e, Opened)])
    case Restart(i) =>
      s.(timers := (set x | x in s.timers && x.inst != i),
         due := (set p | p in s.due && p.0 != i),
         txs := (map t | t in s.txs && s.txs[t].inst != i :: s.txs[t]))
    case Recover(i, e) => s.(timers := Armed(s, i, e))
  }

  ghost predicate Init(s: State) {
    s.events == map[] && s.timers == {} && s.due == {} && s.txs == map[] && s.rewards == map[]
  }

  ghost predicate IsRun(states: seq<State>, steps: seq<Step>) {
    && |states| == |steps| + 1
    && Init(states[0])
    && forall i {:trigger steps[i]} | 0 <= i < |steps| ::
         Can(states[i], steps[i]) && states[i + 1] == Do(states[i], steps[i])
  }

  // ---- the invariant ----

  /** Every path to a completion starts at or after the end date. */
  ghost predicate Late(s: State, e: Id) {
    e in s.events && s.events[e].endDate <= s.now
  }

  ghost predicate Clocked(s: State) {
    && (forall x | x in s.timers :: x.event in s.events && x.at == s.events[x.event].endDate)
    && (forall p | p in s.due :: p.1 in s.events)
    && (s.zone >= 0 ==> AllLate(s))
  }

  ghost predicate AllLate(s: State) {
    && (forall p | p in s.due :: Late(s, p.1))
    && (forall t | t in s.txs && s.txs[t].kind == Completion :: Late(s, s.txs[t].event))
    && (forall e | e in s.events && s.events[e].status == Completed :: Late(s, e))
  }

  ghost predicate Exclusive(s: State) {
    && (forall t | t in s.txs :: s.txs[t].event in s.events)
    && (forall t | t in s.txs && s.txs[t].phase == Swapped :: s.events[s.txs[t].event].status == From(s.txs[t].kind))
    && (forall t | t in s.txs && s.txs[t].phase == Rewarding ::
          s.txs[t].kind == Completion && s.events[s.txs[t].event].status == Completed)
    && (forall t, u | t in s.txs && u in s.txs && t != u && s.txs[t].event == s.txs[u].event
                      && s.txs[t].phase != Opened :: s.txs[u].phase != s.txs[t].phase)
  }

  ghost predicate RewardedOnce(s: State) {
    && (forall e :: Started(s, e) <= 1)
    && (forall e :: Started(s, e) > 0 ==> e in s.events && s.events[e].status == Completed)
    && (forall t | t in s.txs && s.txs[t].phase == Rewarding :: Started(s, s.txs[t].event) == 0)
  }

  ghost predicate Inv(s: State) {
    Clocked(s) && Exclusive(s) && RewardedOnce(s)
  }

  /** End dates stay, and a status stays or takes the next edge. */
  ghost predicate Advances(s: State, s': State) {
    forall e | e in s.events ::
      && e in s'.events && s'.events[e].endDate == s.events[e].endDate
      && (s'.events[e].status == s.events[e].status
          || (s.events[e].status == Pending && s'.events[e].status == Active)
          || (s.events[e].status == Active && s'.events[e].status == Completed))
  }

  lemma StepClocked(s: State, step: Step)
    requires Clocked(s) && Can(s, step)
    ensures Clocked(Do(s, step))
  {
    if s.zone >= 0 {
      StepLate(s, step);
    }
  }

  lemma StepLate(s: State, step: Step)
    requires s.zone >= 0 && Clocked(s) && Can(s, step)
    ensures AllLate(Do(s, step))
  {
    var s' := Do(s, step);
    forall e | e in s'.events && s'.events[e].status == Completed ensures Late(s', e) {
      assert (step.Commit? && s.txs[step.t].event == e) || (e in s.events && s.events[e].status == Completed);
    }
  }

  lemma StepExclusive(s: State, step: Step)
    requires Clocked(s) && Exclusive(s) && Can(s, step)
    ensures Exclusive(Do(s, step))
  {
    if step.Commit? || step.Swap? {
      EdgeExclusive(s, step);
    } else {
      OtherExclusive(s, step);
    }
  }

  lemma EdgeExclusive(s: State, step: Step)
    requires Exclusive(s) && Can(s, step) && (step.Commit? || step.Swap?)
    ensures Exclusive(Do(s, step))
  {
  }

  lemma OtherExclusive(s: State, step: Step)
    requires Clocked(s) && Exclusive(s) && Can(s, step) && !step.Commit? && !step.Swap?
    ensures Exclusive(Do(s, step))
  {
  }

  lemma StepRewarded(s: State, step: Step)
    requires Exclusive(s) && RewardedOnce(s) && Can(s, step)
    ensures RewardedOnce(Do(s, step))
  {
    if step.StartRewards? {
      StartRewarded(s, step.t);
    } else if step.Commit? {
      CommitRewarded(s, step.t);
    } else {
      OtherRewarded(s, step);
    }
  }

  lemma StartRewarded(s: State, t: Id)
    requires Exclusive(s) && RewardedOnce(s) && TxAt(s, t, Rewarding)
    ensures RewardedOnce(Do(s, StartRewards(t)))
  {
    var s', e := Do(s, StartRewards(t)), s.txs[t].event;
    assert forall d: Id :: Started(s', d) == if d == e then 1 else Started(s, d);
  }

  lemma CommitRewarded(s: State, t: Id)
    requires Exclusive(s) && RewardedOnce(s) && TxAt(s, t, Swapped)
    ensures RewardedOnce(Do(s, Commit(t)))
  {
    assert forall d: Id :: Started(Do(s, Commit(t)), d) == Started(s, d);
  }

  lemma OtherRewarded(s: State, step: Step)
    requires RewardedOnce(s) && Can(s, step) && !step.StartRewards? && !step.Commit?
    ensures RewardedOnce(Do(s, step))
  {
    assert forall d: Id :: Started(Do(s, step), d) == Started(s, d);
  }

  lemma StepKeeps(s: State, step: Step)
    requires Inv(s) && Can(s, step)
    ensures Inv(Do(s, step))
  {
    StepClocked(s, step);
    StepExclusive(s, step);
    StepRewarded(s, step);
  }

  lemma StepAdvances(s: State, step: Step)
    requires Inv(s) && Can(s, step)
    ensures Advances(s, Do(s, step)) && s.now <= Do(s, step).now
  {
  }

  lemma {:induction false} RunInv(states: seq<State>, steps: seq<Step>, n: nat)
    requires IsRun(states, steps) && n < |states|
    ensures Inv(states[n])
  {
    if n > 0 {
      RunInv(states, steps, n - 1);
      StepKeeps(states[n - 1], steps[n - 1]);
    }
  }

  // ---- theorems ----

  /** Over every run the status of an event only moves forward along pending, active, completed. */
  lemma {:induction false} StatusNeverGoesBack(states: seq<State>, steps: seq<Step>, i: nat, j: nat, e: Id)
    requires IsRun(states, steps) && i <= j < |states| && e in states[i].events
    ensures e in states[j].events && states[j].events[e].endDate == states[i].events[e].endDate
    ensures StatusOrder(states[i].events[e].status) <= StatusOrder(states[j].events[e].status)
    ensures states[i].events[e].status != Cancelled ==> states[j].events[e].status != Cancelled
    decreases j - i
  {
    if i < j {
      StatusNeverGoesBack(states, steps, i, j - 1, e);
      RunInv(states, steps, j - 1);
      StepAdvances(states[j - 1], steps[j - 1]);
    }
  }

  ghost predicate Changes(states: seq<State>, n: nat, e: Id) {
    n + 1 < |states| && e in states[n].events && e in states[n + 1].events
    && states[n].events[e].status != states[n + 1].events[e].status
  }

  /** The event moves from `from` to `to` at step n. */
  ghost predicate Takes(states: seq<State>, n: nat, e: Id, from: EventStatus, to: EventStatus)
    requires Changes(states, n, e)
  {
    states[n].events[e].status == from && states[n + 1].events[e].status == to
  }

  /** Every change of an event's status is one of the two edges: the active state is never skipped. */
  lemma OnlyTwoEdges(states: seq<State>, steps: seq<Step>, n: nat, e: Id)
    requires IsRun(states, steps) && Changes(states, n, e)
    ensures Takes(states, n, e, Pending, Active) || Takes(states, n, e, Active, Completed)
  {
    RunInv(states, steps, n);
    StepAdvances(states[n], steps[n]);
  }

  /** Each edge is taken at most once, however many crons, timers, monitors and instances there are. */
  lemma EachEdgeOnce(states: seq<State>, steps: seq<Step>, m: nat, n: nat, e: Id)
    requires IsRun(states, steps) && Changes(states, m, e) && Changes(states, n, e) && m < n
    ensures Takes(states, m, e, Pending, Active) && Takes(states, n, e, Active, Completed)
  {
    RunInv(states, steps, m);
    RunInv(states, steps, n);
    StepAdvances(states[m], steps[m]);
    StepAdvances(states[n], steps[n]);
    StatusNeverGoesBack(states, steps, m + 1, n, e);
  }

  /** A completed event is past its end date, with no session west of UTC: no timer, recovery or monitor completes it
      early. */
  lemma NeverCompletedEarly(states: seq<State>, steps: seq<Step>, n: nat, e: Id)
    requires IsRun(states, steps) && n < |states| && states[0].zone >= 0
    requires e in states[n].events && states[n].events[e].status == Completed
    ensures states[n].events[e].endDate <= states[n].now
  {
    ZoneStays(states, steps, n);
    RunInv(states, steps, n);
  }

  lemma {:induction false} ZoneStays(states: seq<State>, steps: seq<Step>, n: nat)
    requires IsRun(states, steps) && n < |states|
    ensures states[n].zone == states[0].zone
  {
    if n > 0 {
      ZoneStays(states, steps, n - 1);
      assert Can(states[n - 1], steps[n - 1]) && states[n - 1 + 1] == Do(states[n - 1], steps[n - 1]);
    }
  }

  /** Somewhere along this run an event is completed before its end date. */
  ghost predicate Early(states: seq<State>, e: Id) {
    exists n :: 0 <= n < |states| && e in states[n].events && states[n].events[e].status == Completed
                && states[n].now < states[n].events[e].endDate
  }

  /** The states of a run in which the monitor finds an event that ends in a microsecond and completes it. */
  function Scene(zone: int, k: nat): State
    requires k <= 8
  {
    var monitor := Tx(0, Completion, 0, Opened);
    var pending, active, over := Event(Pending, 0, 1), Event(Active, 0, 1), Event(Completed, 0, 1);
    if k == 0 then State(map[], {}, {}, map[], map[], zone, 0)
    else if k == 1 then State(map[0 := pending], {}, {}, map[], map[], zone, 0)
    else if k == 2 then State(map[0 := pending], {}, {}, map[0 := Tx(0, Activation, 0, Opened)], map[], zone, 0)
    else if k == 3 then State(map[0 := pending], {}, {}, map[0 := Tx(0, Activation, 0, Swapped)], map[], zone, 0)
    else if k == 4 then State(map[0 := active], {}, {}, map[], map[], zone, 0)
    else if k == 5 then State(map[0 := active], {}, {(0, 0)}, map[], map[], zone, 0)
    else if k == 6 then State(map[0 := active], {}, {}, map[0 := monitor], map[], zone, 0)
    else if k == 7 then State(map[0 := active], {}, {}, map[0 := monitor.(phase := Swapped)], map[], zone, 0)
    else State(map[0 := over], {}, {}, map[0 := monitor.(phase := Rewarding)], map[], zone, 0)
  }

  function Move(k: nat): Step {
    if k == 0 then Approve(0, 0, 1) else if k == 1 then Cron(0, 0, 0) else if k == 2 then Swap(0)
    else if k == 3 then Commit(0) else if k == 4 then Query(0) else if k == 5 then Next(0, 0, 0)
    else if k == 6 then Swap(0) else Commit(0)
  }

  lemma FirstScenes(zone: int, k: nat)
    requires k < 4
    ensures Can(Scene(zone, k), Move(k)) && Do(Scene(zone, k), Move(k)) == Scene(zone, k + 1)
  {
    var s' := Do(Scene(zone, k), Move(k));
    assert s'.events == Scene(zone, k + 1).events && s'.txs == Scene(zone, k + 1).txs;
  }

  lemma MonitorScenes(zone: int, k: nat)
    requires zone < 0 && 4 <= k < 6
    ensures Can(Scene(zone, k), Move(k)) && Do(Scene(zone, k), Move(k)) == Scene(zone, k + 1)
  {
    var s, s' := Scene(zone, k), Do(Scene(zone, k), Move(k));
    assert 0 in s.events && s.events[0].endDate < Seen(s);
    assert s'.due == Scene(zone, k + 1).due && s'.txs == Scene(zone, k + 1).txs;
  }

  lemma LastScenes(zone: int, k: nat)
    requires 6 <= k < 8
    ensures Can(Scene(zone, k), Move(k)) && Do(Scene(zone, k), Move(k)) == Scene(zone, k + 1)
  {
    var s' := Do(Scene(zone, k), Move(k));
    assert s'.events == Scene(zone, k + 1).events && s'.txs == Scene(zone, k + 1).txs;
  }

  /** In a session west of UTC this is a run. */
  lemma MonitorTooEarly(zone: int) returns (states: seq<State>, steps: seq<Step>)
    requires zone < 0
    ensures IsRun(states, steps) && states[0].zone == zone && Early(states, 0)
  {
    states := seq(9, k requires 0 <= k < 9 => Scene(zone, k));
    steps := seq(8, k requires 0 <= k < 8 => Move(k));
    forall i {:trigger steps[i]} | 0 <= i < |steps|
      ensures Can(states[i], steps[i]) && states[i + 1] == Do(states[i], steps[i])
    {
      if i < 4 {
        FirstScenes(zone, i);
      } else if i < 6 {
        MonitorScenes(zone, i);
      } else {
        LastScenes(zone, i);
      }
    }
    assert states[8] == Scene(zone, 8);
  }

  /** No run completes an event early if and only if the session's time zone is not west of UTC. */
  lemma NeverEarlyExactlyWhen(zone: int)
    ensures (forall states: seq<State>, steps, e | IsRun(states, steps) && states[0].zone == zone :: !Early(states, e))
            <==> zone >= 0
  {
    if zone >= 0 {
      forall states: seq<State>, steps, e | IsRun(states, steps) && states[0].zone == zone ensures !Early(states, e) {
        forall n | 0 <= n < |states| && e in states[n].events && states[n].events[e].status == Completed
          ensures states[n].events[e].endDate <= states[n].now
        {
          NeverCompletedEarly(states, steps, n, e);
        }
      }
    } else {
      var states, steps := MonitorTooEarly(zone);
    }
  }

  /** An event always has the dates it was approved with. */
  lemma {:induction false} DatesAsApproved(states: seq<State>, steps: seq<Step>, n: nat, e: Id) returns (i: nat)
    requires IsRun(states, steps) && n < |states| && e in states[n].events
    ensures i < n <= |steps| && steps[i].Approve? && steps[i].e == e
    ensures states[n].events[e].startDate == steps[i].startDate && states[n].events[e].endDate == steps[i].endDate
  {
    RunInv(states, steps, n - 1);
    EventStep(states[n - 1], steps[n - 1], e);
    assert states[n - 1 + 1] == Do(states[n - 1], steps[n - 1]);
    if e in states[n - 1].events {
      i := DatesAsApproved(states, steps, n - 1, e);
    } else {
      i := n - 1;
    }
  }

  lemma EventStep(s: State, step: Step, e: Id)
    requires Exclusive(s) && Can(s, step) && e in Do(s, step).events
    ensures if e in s.events
            then && Do(s, step).events[e].startDate == s.events[e].startDate
                 && Do(s, step).events[e].endDate == s.events[e].endDate
            else step.Approve? && step.e == e && Do(s, step).events[e] == Event(Pending, step.startDate, step.endDate)
  {
  }

  // ---- timers ----

  /** This step arms that timer: an activation, or the recovery after a restart, before the end date. */
  ghost predicate Arms(s: State, step: Step, x: Timer) {
    && ((step.Arm? && step.t in s.txs && s.txs[step.t].inst == x.inst && s.txs[step.t].event == x.event)
        || step == Recover(x.inst, x.event))
    && x.event in s.events && s.now < s.events[x.event].endDate && x.at == s.events[x.event].endDate
  }

  /** The timer fires, or is lost, alone or with its instance. */
  ghost predicate Drops(step: Step, x: Timer) {
    (step.Fire? && step.timer == x) || step == Lose(x) || step == Restart(x.inst)
  }

  lemma TimerStep(s: State, step: Step, x: Timer)
    requires Can(s, step)
    ensures x in Do(s, step).timers <==> Arms(s, step, x) || (x in s.timers && !Drops(step, x))
  {
  }

  /** Step `i` armed the timer and no later step dropped it. */
  ghost predicate ArmedSince(states: seq<State>, steps: seq<Step>, i: nat, n: nat, x: Timer) {
    i < n <= |steps| && n <= |states| && Arms(states[i], steps[i], x) && forall j | i < j < n :: !Drops(steps[j], x)
  }

  /** A timer is there if and only if some activation or recovery armed it, before its event's end date and for that
      date, and it has neither fired nor been lost since. */
  lemma {:induction false} TimerExactlyWhen(states: seq<State>, steps: seq<Step>, n: nat, x: Timer)
    requires IsRun(states, steps) && n < |states|
    ensures x in states[n].timers <==> exists i :: ArmedSince(states, steps, i, n, x)
  {
    if n > 0 {
      var s, step := states[n - 1], steps[n - 1];
      assert Can(s, step) && states[n - 1 + 1] == Do(s, step);
      TimerStep(s, step, x);
      TimerExactlyWhen(states, steps, n - 1, x);
      if Arms(s, step, x) {
        assert ArmedSince(states, steps, n - 1, n, x);
      } else if x in states[n].timers {
        var i :| ArmedSince(states, steps, i, n - 1, x);
        assert ArmedSince(states, steps, i, n, x);
      } else if i :| ArmedSince(states, steps, i, n, x) {
        assert ArmedSince(states, steps, i, n - 1, x);
      }
    }
  }

  /** A timer armed for an event that becomes active and is still there at the end date can complete the event, unless
      a transaction that already holds its row can. */
  lemma TimerCanComplete(states: seq<State>, steps: seq<Step>, i: nat, n: nat, x: Timer, t: Id)
    returns (next: seq<Step>)
    requires IsRun(states, steps) && n < |states| && ArmedSince(states, steps, i, n, x)
    requires x.event in states[n].events && states[n].events[x.event].status == Active
    requires states[n].events[x.event].endDate <= states[n].now && t !in states[n].txs
    ensures CompletesWith(states[n], next, x.event)
    ensures next == [Fire(x, t), Swap(t), Commit(t)] || exists u :: u in states[n].txs && next == [Commit(u)]
  {
    var s := states[n];
    RunInv(states, steps, n);
    TimerExactlyWhen(states, steps, n, x);
    if u :| u in s.txs && s.txs[u].event == x.event && s.txs[u].phase == Swapped {
      next := [Commit(u)];
      assert CompletesWith(Do(s, Commit(u)), [], x.event);
    } else {
      next := [Fire(x, t), Swap(t), Commit(t)];
      var s1 := Do(s, Fire(x, t));
      var s2 := Do(s1, Swap(t));
      CompletesBy3(s, s1, s2, Fire(x, t), Swap(t), Commit(t), x.event);
    }
  }

  lemma CompletesBy3(s: State, s1: State, s2: State, a: Step, b: Step, c: Step, e: Id)
    requires Can(s, a) && s1 == Do(s, a) && Can(s1, b) && s2 == Do(s1, b) && Can(s2, c)
    requires var s3 := Do(s2, c); e in s3.events && s3.events[e].status == Completed
    ensures CompletesWith(s, [a, b, c], e)
  {
    assert CompletesWith(Do(s2, c), [], e);
    assert [c][1..] == [];
    assert CompletesWith(s2, [c], e);
    assert [b, c][1..] == [c];
    assert CompletesWith(s1, [b, c], e);
    assert [a, b, c][1..] == [b, c];
  }

  /** Reward granting starts at most once per event and only for a completed event. */
  lemma RewardsStartOnce(states: seq<State>, steps: seq<Step>, n: nat, e: Id)
    requires IsRun(states, steps) && n < |states|
    ensures Started(states[n], e) <= 1
    ensures Started(states[n], e) == 1 ==> e in states[n].events && states[n].events[e].status == Completed
  {
    RunInv(states, steps, n);
  }

  /** A timer armed for an activation that then failed, one that fires again, and every monitor try find the status in
      the way: in every run a completion commits only on an active event, and then completes that event alone. */
  lemma OnlyActiveIsCompleted(states: seq<State>, steps: seq<Step>, n: nat, t: Id)
    requires IsRun(states, steps) && n < |steps| && steps[n] == Commit(t)
    requires t in states[n].txs && states[n].txs[t].kind == Completion
    ensures var e := states[n].txs[t].event;
            && e in states[n].events && states[n].events[e].status == Active
            && states[n + 1].events == states[n].events[e := states[n].events[e].(status := Completed)]
  {
    RunInv(states, steps, n);
    CommitStep(states[n], t);
  }

  lemma CommitStep(s: State, t: Id)
    requires Exclusive(s) && Can(s, Commit(t)) && s.txs[t].kind == Completion
    ensures var e := s.txs[t].event;
            && e in s.events && s.events[e].status == Active
            && Do(s, Commit(t)).events == s.events[e := s.events[e].(status := Completed)]
  {
  }

  ghost predicate CompletesWith(s: State, steps: seq<Step>, e: Id)
    decreases |steps|
  {
    if steps == [] then e in s.events && s.events[e].status == Completed
    else Can(s, steps[0]) && CompletesWith(Do(s, steps[0]), steps[1..], e)
  }

  /** An active event that is overdue as the database sees it is never stuck, even if every timer was lost: a monitor
      pass of any instance can complete it, or a transaction that already holds its row can. */
  lemma OverdueCanComplete(s: State, e: Id, i: Id, t: Id) returns (steps: seq<Step>)
    requires Inv(s) && e in s.events && s.events[e].status == Active && s.events[e].endDate < Seen(s) && t !in s.txs
    ensures CompletesWith(s, steps, e)
  {
    if u :| u in s.txs && s.txs[u].event == e && s.txs[u].phase == Swapped {
      steps := [Commit(u)];
      assert CompletesWith(Do(s, Commit(u)), [], e);
    } else {
      steps := [Query(i), Next(i, e, t), Swap(t), Commit(t)];
      var s1 := Do(s, Query(i));
      assert (i, e) in s1.due;
      var s2 := Do(s1, Next(i, e, t));
      assert Can(s2, Swap(t));
      var s3 := Do(s2, Swap(t));
      assert Can(s3, Commit(t));
      CompletesBy4(s, s1, s2, s3, Query(i), Next(i, e, t), Swap(t), Commit(t), e);
    }
  }

  lemma CompletesBy4(s: State, s1: State, s2: State, s3: State, a: Step, b: Step, c: Step, d: Step, e: Id)
    requires Can(s, a) && s1 == Do(s, a) && Can(s1, b) && s2 == Do(s1, b) && Can(s2, c) && s3 == Do(s2, c) && Can(s3, d)
    requires var s4 := Do(s3, d); e in s4.events && s4.events[e].status == Completed
    ensures CompletesWith(s, [a, b, c, d], e)
  {
    CompletesBy3(s1, s2, s3, b, c, d, e);
    assert [a, b, c, d][1..] == [b, c, d];
  }
}
