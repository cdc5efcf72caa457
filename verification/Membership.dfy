/** Who may be in a room: registration, member selection, activation, and the join of a room in its two separate
    steps, the check in the request handler and the row insert in the room's goroutine. */
module Membership {
  import opened Tables

  datatype Entry = Entry(event: Id, guild: Id)
  datatype Member = Member(event: Id, guild: Id, user: Id)

  /** A `PlayerJoined` message on its way to the room's goroutine. */
  datatype Ticket = Ticket(event: Id, guild: Id, key: Key)

  datatype State = State(
    status: map<Id, EventStatus>,
    rooms: map<Id, Id>,                      // room -> event
    participants: map<Entry, Option<Id>>,    // room assigned to the guild, if any
    members: set<Member>,
    passes: set<Ticket>,
    players: map<Key, Id>)                   // row -> guild

  datatype Step =
    | Approve(e: Id, guild: Id)
    | Register(e: Id, guild: Id)
    | Select(e: Id, guild: Id, users: set<Id>)
    | Remove(e: Id, guild: Id, users: set<Id>)
    | Activate(e: Id, assignment: map<Id, Id>)     // guild -> new room
    | Complete(e: Id)
    | CheckJoin(e: Id, guild: Id, key: Key)
    | InsertPlayer(pass: Ticket)
    | DropPass(pass: Ticket)

  ghost predicate IsPending(s: State, e: Id) {
    e in s.status && s.status[e] == Pending
  }

  ghost predicate Can(s: State, step: Step) {
    match step
    case Approve(e, g) => e !in s.status
    case Register(e, g) => IsPending(s, e) && Entry(e, g) !in s.participants
    case Select(e, g, users) => IsPending(s, e) && Entry(e, g) in s.participants
    case Remove(e, g, users) => IsPending(s, e) && Entry(e, g) in s.participants
    case Activate(e, assignment) =>
      && IsPending(s, e)
      && (forall g | g in assignment :: assignment[g] !in s.rooms)
      && (forall g :: g in assignment <==> Entry(e, g) in s.participants)
    case Complete(e) => e in s.status && s.status[e] == Active
    case CheckJoin(e, g, k) =>
      && e in s.status
      && Entry(e, g) in s.participants && s.participants[Entry(e, g)] == Some(k.room)
      && Member(e, g, k.user) in s.members
    case InsertPlayer(p) => p in s.passes && p.key !in s.players
    case DropPass(p) => p in s.passes
  }

  ghost function MembersOf(e: Id, g: Id, users: set<Id>): set<Member> {
    set u | u in users :: Member(e, g, u)
  }

  ghost function Assigned(s: State, e: Id, assignment: map<Id, Id>): map<Entry, Option<Id>> {
    map x | x in s.participants ::
      if x.event == e && x.guild in assignment then Some(assignment[x.guild]) else s.participants[x]
  }

  ghost function Do(s: State, step: Step): State
    requires Can(s, step)
  {
    match step
    case Approve(e, g) => s.(status := s.status[e := Pending], participants := s.participants[Entry(e, g) := None])
    case Register(e, g) => s.(participants := s.participants[Entry(e, g) := None])
    case Select(e, g, users) => s.(members := s.members + MembersOf(e, g, users))
    case Remove(e, g, users) => s.(members := s.members - MembersOf(e, g, users))
    case Activate(e, assignment) =>
      s.(status := s.status[e := Active],
         rooms := s.rooms + (map r | r in assignment.Values :: e),
         participants := Assigned(s, e, assignment))
    case Complete(e) => s.(status := s.status[e := Completed])
    case CheckJoin(e, g, k) => s.(passes := s.passes + {Ticket(e, g, k)})
    case InsertPlayer(p) => s.(passes := s.passes - {p}, players := s.players[p.key := p.guild])
    case DropPass(p) => s.(passes := s.passes - {p})
  }

  ghost predicate Init(s: State) {
    s == State(map[], map[], map[], {}, {}, map[])
  }

  ghost predicate IsRun(states: seq<State>, steps: seq<Step>) {
    && |states| == |steps| + 1
    && Init(states[0])
    && forall i {:trigger steps[i]} | 0 <= i < |steps| ::
         Can(states[i], steps[i]) && states[i + 1] == Do(states[i], steps[i])
  }

  /** The guild is assigned to that very room, the room is of that event, and the user was selected for the guild;
      the event has left `pending`, so none of this can be taken back. */
  ghost predicate Entitled(s: State, e: Id, g: Id, k: Key) {
    && k.room in s.rooms && s.rooms[k.room] == e
    && Entry(e, g) in s.participants && s.participants[Entry(e, g)] == Some(k.room)
    && Member(e, g, k.user) in s.members
    && e in s.status && s.status[e] != Pending
  }

  ghost predicate Inv(s: State) {
    && (forall x | x in s.participants && s.participants[x].Some? ::
          var r := s.participants[x].value;
          r in s.rooms && s.rooms[r] == x.event && x.event in s.status && s.status[x.event] != Pending)
    && (forall p | p in s.passes :: Entitled(s, p.event, p.guild, p.key))
    && (forall k | k in s.players :: k.room in s.rooms && Entitled(s, s.rooms[k.room], s.players[k], k))
  }

  /** Whatever entitles a player keeps doing so. */
  lemma EntitledStays(s: State, step: Step, e: Id, g: Id, k: Key)
    requires Inv(s) && Can(s, step) && Entitled(s, e, g, k)
    ensures Entitled(Do(s, step), e, g, k)
  {
  }

  lemma AssignmentsKeep(s: State, step: Step)
    requires Inv(s) && Can(s, step)
    ensures var s' := Do(s, step);
            forall x | x in s'.participants && s'.participants[x].Some? ::
              var r := s'.participants[x].value;
              r in s'.rooms && s'.rooms[r] == x.event && x.event in s'.status && s'.status[x.event] != Pending
  {
  }

  lemma StepKeeps(s: State, step: Step)
    requires Inv(s) && Can(s, step)
    ensures Inv(Do(s, step))
  {
    var s' := Do(s, step);
    AssignmentsKeep(s, step);
    forall p | p in s'.passes ensures Entitled(s', p.event, p.guild, p.key) {
      if p in s.passes {
        EntitledStays(s, step, p.event, p.guild, p.key);
      }
    }
    forall k | k in s'.players ensures k.room in s'.rooms && Entitled(s', s'.rooms[k.room], s'.players[k], k) {
      if k in s.players {
        EntitledStays(s, step, s.rooms[k.room], s.players[k], k);
      } else {
        EntitledStays(s, step, step.pass.event, step.pass.guild, k);
      }
    }
  }

  lemma {:induction false} RunInv(states: seq<State>, steps: seq<Step>, n: nat)
    requires IsRun(states, steps) && n < |states|
    ensures Inv(states[n])
  {
    if n > 0 {
      RunInv(states, steps, n - 1);
      StepKeeps(states[n - 1], steps[n - 1]);
    }
  }

  /** In every reachable state a player row names a guild assigned to that very room, a room of the same event, and a
      user selected for that guild in that event, although check and insert are separate steps. */
  lemma PlayersAreEntitled(states: seq<State>, steps: seq<Step>, n: nat, k: Key)
    requires IsRun(states, steps) && n < |states| && k in states[n].players
    ensures var s := states[n];
            && k.room in s.rooms
            && var e, g := s.rooms[k.room], s.players[k];
            && Entry(e, g) in s.participants && s.participants[Entry(e, g)] == Some(k.room)
            && Member(e, g, k.user) in s.members
  {
    RunInv(states, steps, n);
  }

  /** A guild's players in an event are all in one room. */
  lemma GuildSharesRoom(states: seq<State>, steps: seq<Step>, n: nat, k: Key, l: Key)
    requires IsRun(states, steps) && n < |states| && k in states[n].players && l in states[n].players
    requires states[n].players[k] == states[n].players[l]
    requires k.room in states[n].rooms && l.room in states[n].rooms
    requires states[n].rooms[k.room] == states[n].rooms[l.room]
    ensures k.room == l.room
  {
    PlayersAreEntitled(states, steps, n, k);
    PlayersAreEntitled(states, steps, n, l);
  }

  // ---- what selections, removals and assignments leave behind ----

  ghost predicate Selects(step: Step, m: Member) {
    step.Select? && step.e == m.event && step.guild == m.guild && m.user in step.users
  }

  ghost predicate Removes(step: Step, m: Member) {
    step.Remove? && step.e == m.event && step.guild == m.guild && m.user in step.users
  }

  lemma MemberStep(s: State, step: Step, m: Member)
    requires Can(s, step)
    ensures m in Do(s, step).members <==> Selects(step, m) || (m in s.members && !Removes(step, m))
  {
  }

  /** Step `i` selected the user and no later step removed it. */
  ghost predicate SelectedSince(steps: seq<Step>, i: nat, n: nat, m: Member) {
    i < n <= |steps| && Selects(steps[i], m) && forall j | i < j < n :: !Removes(steps[j], m)
  }

  /** A user is on a guild's member list for an event if and only if it was selected for it and not removed since. */
  lemma {:induction false} MemberExactlyWhen(states: seq<State>, steps: seq<Step>, n: nat, m: Member)
    requires IsRun(states, steps) && n < |states|
    ensures m in states[n].members <==> exists i :: SelectedSince(steps, i, n, m)
  {
    if n > 0 {
      var s, step := states[n - 1], steps[n - 1];
      assert Can(s, step) && states[n - 1 + 1] == Do(s, step);
      MemberStep(s, step, m);
      MemberExactlyWhen(states, steps, n - 1, m);
      if Selects(step, m) {
        assert SelectedSince(steps, n - 1, n, m);
      } else if m in states[n].members {
        var i :| SelectedSince(steps, i, n - 1, m);
        assert SelectedSince(steps, i, n, m);
      } else if i :| SelectedSince(steps, i, n, m) {
        assert SelectedSince(steps, i, n - 1, m);
      }
    }
  }

  /** The room an activation gave a guild. */
  ghost predicate Assigns(step: Step, e: Id, g: Id, r: Id) {
    step.Activate? && step.e == e && g in step.assignment && step.assignment[g] == r
  }

  lemma AssignmentStep(s: State, step: Step, e: Id, g: Id, r: Id)
    requires Inv(s) && Can(s, step)
    ensures IsIn(Do(s, step), e, g, r) <==> Assigns(step, e, g, r) || IsIn(s, e, g, r)
  {
  }

  ghost predicate IsIn(s: State, e: Id, g: Id, r: Id) {
    Entry(e, g) in s.participants && s.participants[Entry(e, g)] == Some(r)
  }

  /** A guild has a room in an event if and only if the event's activation assigned it that room; this never
      changes. */
  lemma AssignedExactlyWhen(states: seq<State>, steps: seq<Step>, n: nat, e: Id, g: Id, r: Id)
    requires IsRun(states, steps) && n < |states|
    ensures Entry(e, g) in states[n].participants && states[n].participants[Entry(e, g)] == Some(r)
            <==> exists i :: 0 <= i < n && steps[i].Activate? && steps[i].e == e
                             && g in steps[i].assignment && steps[i].assignment[g] == r
  {
    ghost var given := (s: State) => IsIn(s, e, g, r);
    ghost var gives := (step: Step) => Assigns(step, e, g, r);
    forall i: nat | i < |steps| ensures given(states[i + 1]) <==> gives(steps[i]) || given(states[i]) {
      AssignmentNext(states, steps, i, e, g, r);
    }
    SinceSome(states, steps, given, gives, n);
  }

  /** A guild takes part in an event if and only if the event was approved for it or it registered; this is never
      taken back. */
  lemma TakesPartExactlyWhen(states: seq<State>, steps: seq<Step>, n: nat, e: Id, g: Id)
    requires IsRun(states, steps) && n < |states|
    ensures Entry(e, g) in states[n].participants
            <==> exists i :: 0 <= i < n && (steps[i] == Approve(e, g) || steps[i] == Register(e, g))
  {
    ghost var enters := (step: Step) => step == Approve(e, g) || step == Register(e, g);
    ghost var isIn := (s: State) => Entry(e, g) in s.participants;
    forall i: nat | i < |steps| ensures isIn(states[i + 1]) <==> enters(steps[i]) || isIn(states[i]) {
      RunStep(states, steps, i);
      EntryStep(states[i], steps[i], e, g);
    }
    SinceSome(states, steps, isIn, enters, n);
  }

  lemma RunStep(states: seq<State>, steps: seq<Step>, n: nat)
    requires IsRun(states, steps) && n < |steps|
    ensures Can(states[n], steps[n]) && states[n + 1] == Do(states[n], steps[n])
  {
  }

  lemma EntryStep(s: State, step: Step, e: Id, g: Id)
    requires Can(s, step)
    ensures Entry(e, g) in Do(s, step).participants
            <==> step == Approve(e, g) || step == Register(e, g) || Entry(e, g) in s.participants
  {
  }

  /** A user plays for a guild in a room if and only if the room's goroutine carried out such a join; a row never
      changes its guild. */
  lemma PlaysExactlyWhen(states: seq<State>, steps: seq<Step>, n: nat, k: Key, g: Id)
    requires IsRun(states, steps) && n < |states|
    ensures k in states[n].players && states[n].players[k] == g
            <==> exists i :: 0 <= i < n && steps[i].InsertPlayer? && steps[i].pass.key == k && steps[i].pass.guild == g
  {
    ghost var inserts := (step: Step) => step.InsertPlayer? && step.pass.key == k && step.pass.guild == g;
    ghost var plays := (s: State) => k in s.players && s.players[k] == g;
    forall i: nat | i < |steps| ensures plays(states[i + 1]) <==> inserts(steps[i]) || plays(states[i]) {
      RunStep(states, steps, i);
    }
    SinceSome(states, steps, plays, inserts, n);
  }

  /** What some steps bring about and none takes back. */
  lemma {:induction false} SinceSome(states: seq<State>, steps: seq<Step>, p: State -> bool, q: Step -> bool, n: nat)
    requires |states| == |steps| + 1 && n < |states| && !p(states[0])
    requires forall i: nat | i < |steps| :: p(states[i + 1]) <==> q(steps[i]) || p(states[i])
    ensures p(states[n]) <==> exists i :: 0 <= i < n && q(steps[i])
  {
    if n > 0 {
      SinceSome(states, steps, p, q, n - 1);
      assert p(states[n - 1 + 1]) <==> q(steps[n - 1]) || p(states[n - 1]);
    }
  }

  lemma AssignmentNext(states: seq<State>, steps: seq<Step>, n: nat, e: Id, g: Id, r: Id)
    requires IsRun(states, steps) && n < |steps|
    ensures IsIn(states[n + 1], e, g, r) <==> Assigns(steps[n], e, g, r) || IsIn(states[n], e, g, r)
  {
    RunStep(states, steps, n);
    RunInv(states, steps, n);
    AssignmentStep(states[n], steps[n], e, g, r);
  }

  /** Nobody plays for a guild that removed it: for each player row there is a selection of that user for that guild
      in that event with no removal after it. */
  lemma PlayersStaySelected(states: seq<State>, steps: seq<Step>, n: nat, k: Key) returns (i: nat)
    requires IsRun(states, steps) && n < |states| && k in states[n].players
    ensures k.room in states[n].rooms && i < n <= |steps|
    ensures var e, g := states[n].rooms[k.room], states[n].players[k];
            && steps[i].Select? && steps[i].e == e && steps[i].guild == g && k.user in steps[i].users
            && forall j | i < j < n && steps[j].Remove? && steps[j].e == e && steps[j].guild == g ::
                 k.user !in steps[j].users
  {
    PlayersAreEntitled(states, steps, n, k);
    var m := Member(states[n].rooms[k.room], states[n].players[k], k.user);
    MemberExactlyWhen(states, steps, n, m);
    i :| SelectedSince(steps, i, n, m);
  }
}
