/** Activating an event: rooms by guild count, guilds to rooms in blocks, problems by difficulty, all in one
    transaction. */
module Activation {
  import opened Tables
  import P = Problems

  function RoomCount(guilds: nat): (rooms: nat)
    ensures 1 <= rooms
  {
    if guilds <= 3 then 1
    else if guilds <= 7 then 2
    else if guilds <= 10 then 3
    else (guilds + 3) / 4
  }

  function GuildsPerRoom(guilds: nat): nat {
    (guilds + RoomCount(guilds) - 1) / RoomCount(guilds)
  }

  /** One room for up to three guilds, two for up to seven, three for up to ten, and beyond that the least number of
      rooms that take four guilds each. */
  lemma RoomsByGuilds(n: nat, rooms: nat)
    ensures RoomCount(n) == 1 <==> n <= 3
    ensures RoomCount(n) == 2 <==> 4 <= n <= 7
    ensures RoomCount(n) == 3 <==> 8 <= n <= 12
    ensures n > 10 ==> (RoomCount(n) <= rooms <==> n <= 4 * rooms)
  {
  }

  // ---- the block layout ----

  lemma QuotientIs(a: nat, b: nat, q: nat)
    requires 0 < b && q * b <= a < q * b + b
    ensures a / b == q
  {
    var p := a / b;
    assert a == p * b + a % b;
    Monotone(p + 1, q, b);
    Monotone(q + 1, p, b);
  }

  lemma Monotone(x: int, y: int, b: nat)
    ensures x <= y ==> x * b <= y * b
  {
  }

  /** Above ten guilds every room takes four, except the last. */
  lemma FourPerRoom(n: nat)
    requires n > 10
    ensures GuildsPerRoom(n) == 4
  {
    var r := RoomCount(n);
    assert 4 * r <= n + 3 < 4 * r + 4;
    QuotientIs(n + r - 1, r, 4);
  }

  /** The number per room is the least with which the guilds fit. */
  lemma LeastPerRoom(n: nat, perRoom: nat)
    requires 1 <= n
    ensures GuildsPerRoom(n) <= perRoom <==> n <= RoomCount(n) * perRoom
  {
    var r, g := RoomCount(n), GuildsPerRoom(n);
    assert n <= g * r < n + r;
    Monotone(g, perRoom, r);
    Monotone(perRoom + 1, g, r);
  }

  /** All but the last room are full, the last is not empty, and no room takes more than four guilds. */
  lemma RoomsFill(n: nat)
    requires 1 <= n
    ensures 1 <= GuildsPerRoom(n) <= 4
    ensures (RoomCount(n) - 1) * GuildsPerRoom(n) < n <= RoomCount(n) * GuildsPerRoom(n)
  {
    if n > 10 {
      FourPerRoom(n);
    }
  }

  /** The guilds of room `r`: a block in join order. */
  function BlockStart(n: nat, r: nat): nat {
    r * GuildsPerRoom(n)
  }

  function BlockEnd(n: nat, r: nat): nat {
    if r + 1 < RoomCount(n) then (r + 1) * GuildsPerRoom(n) else n
  }

  lemma BlockSizes(n: nat, r: nat)
    requires 1 <= n && r < RoomCount(n)
    ensures var g, rooms := GuildsPerRoom(n), RoomCount(n);
            && BlockStart(n, 0) == 0 && BlockEnd(n, rooms - 1) == n
            && (r + 1 < rooms ==> BlockEnd(n, r) == BlockStart(n, r + 1) && BlockEnd(n, r) - BlockStart(n, r) == g)
            && 1 <= BlockEnd(n, r) - BlockStart(n, r) <= g
  {
    RoomsFill(n);
    var g, rooms := GuildsPerRoom(n), RoomCount(n);
    assert (r + 1) * g == r * g + g;
    assert rooms * g == (rooms - 1) * g + g;
  }

  lemma BlockOf(n: nat, i: nat, r: nat)
    requires 1 <= n && i < n && r < RoomCount(n)
    ensures var g := GuildsPerRoom(n);
            && 1 <= g <= 4
            && i / g < RoomCount(n)
            && (i / g == r <==> BlockStart(n, r) <= i < BlockEnd(n, r))
  {
    RoomsFill(n);
    BlockSizes(n, r);
    var g, rooms := GuildsPerRoom(n), RoomCount(n);
    var q := i / g;
    assert q * g <= i < q * g + g;
    Monotone(rooms, q, g);
    if r * g <= i < r * g + g {
      QuotientIs(i, g, r);
    }
  }

  /** For every number of guilds: the room index never wraps around, guild i goes to room r exactly when i lies in
      block r, the blocks are adjacent and cover all guilds, every block but the last holds ceil(n / rooms) guilds,
      and the last holds between one and that many. */
  lemma BlockLayout(n: nat, i: nat, r: nat)
    requires 1 <= n && i < n && r < RoomCount(n)
    ensures var g, rooms := GuildsPerRoom(n), RoomCount(n);
            && 1 <= g <= 4
            && (i / g) % rooms == i / g < rooms
            && (i / g == r <==> BlockStart(n, r) <= i < BlockEnd(n, r))
            && BlockStart(n, 0) == 0 && BlockEnd(n, rooms - 1) == n
            && (r + 1 < rooms ==> BlockEnd(n, r) == BlockStart(n, r + 1) && BlockEnd(n, r) - BlockStart(n, r) == g)
            && 1 <= BlockEnd(n, r) - BlockStart(n, r) <= g
  {
    BlockOf(n, i, r);
    BlockSizes(n, r);
    SmallRemainder(i / GuildsPerRoom(n), RoomCount(n));
  }

  lemma SmallRemainder(a: nat, b: nat)
    requires a < b
    ensures a % b == a
  {
  }

  // ---- the transaction ----

  /** What the event says about its problems: it has no original request, or the request has no specifics or none for
      a code battle, or they cannot be parsed, or they hold topics and distribution entries. */
  datatype Specifics = NoRequest | NoBattle | Unreadable | Battle(topics: set<Id>, dists: seq<P.Distribution>)

  datatype Outcome = Activated | NotPending | Failed

  function Recorded(e: Id, chosen: seq<P.Assignment>): map<(Id, Id), int> {
    if chosen == [] then map[]
    else Recorded(e, chosen[..|chosen| - 1])[(e, chosen[|chosen| - 1].problem) := chosen[|chosen| - 1].score]
  }

  /** Of a selection without repetition exactly the selected problems are recorded for the event, each with its
      score. */
  lemma {:induction false} RecordedExactly(e: Id, chosen: seq<P.Assignment>)
    requires P.NoneTwice(chosen)
    ensures forall x :: x in Recorded(e, chosen)
              <==> x.0 == e && exists i :: 0 <= i < |chosen| && chosen[i].problem == x.1
    ensures forall i | 0 <= i < |chosen| :: Recorded(e, chosen)[(e, chosen[i].problem)] == chosen[i].score
  {
    if chosen != [] {
      var n := |chosen| - 1;
      RecordedExactly(e, chosen[..n]);
      assert forall i | 0 <= i < n :: chosen[..n][i] == chosen[i];
    }
  }

  /** Guild i got the room whose block holds i; other assignments are as before. */
  ghost predicate AssignedInBlocks(e: Id, guilds: seq<Id>, created: seq<Id>,
                                   before: map<(Id, Id), Id>, after: map<(Id, Id), Id>) {
    && |created| == RoomCount(|guilds|)
    && (forall i | 0 <= i < |guilds| ::
          && (e, guilds[i]) in after
          && i / GuildsPerRoom(|guilds|) < |created|
          && after[(e, guilds[i])] == created[i / GuildsPerRoom(|guilds|)])
    && KeptElsewhere(e, guilds, before, after)
  }

  ghost predicate KeptElsewhere(e: Id, guilds: seq<Id>, before: map<(Id, Id), Id>, after: map<(Id, Id), Id>) {
    && (forall x | x in after :: x in before || (x.0 == e && x.1 in guilds))
    && (forall x | x in before :: x in after && (x.0 != e || x.1 !in guilds ==> after[x] == before[x]))
  }

  /** The statements of an activation, apart from the problem inserts, in order: the status update, the read of the
      participants, a room each, an assignment each, the read of the request, a query per entry, the commit. */
  function CommitAt(guilds: nat, specifics: Specifics): nat {
    if guilds == 0 then 2 else 2 + RoomCount(guilds) + guilds + Reads(specifics)
  }

  /** The read of the request, if there is one, and a query per entry. */
  function Reads(specifics: Specifics): nat {
    match specifics
    case NoRequest => 0
    case Battle(_, dists) => 1 + |dists|
    case _ => 1
  }

  /** Nothing in the request stops the activation. */
  ghost predicate SpecificsOk(specifics: Specifics) {
    match specifics
    case Unreadable => false
    case Battle(_, dists) => forall d | 0 <= d < |dists| :: 0 <= dists[d].count
    case _ => true
  }

  /** The problems of an activation are exactly what its entries select. */
  ghost predicate Chose(specifics: Specifics, bank: map<Id, P.Problem>, insertFails: (nat, nat) -> bool,
                        drawn: seq<seq<Id>>, chosen: seq<P.Assignment>) {
    match specifics
    case Battle(topics, dists) => P.Selection(bank, topics, dists, insertFails, drawn, chosen)
    case _ => chosen == []
  }

  ghost predicate AssignedUpTo(e: Id, guilds: seq<Id>, created: seq<Id>, perRoom: nat, after: map<(Id, Id), Id>, n: nat)
    requires perRoom > 0 && n <= |guilds|
  {
    forall j | 0 <= j < n ::
      (e, guilds[j]) in after && j / perRoom < |created| && after[(e, guilds[j])] == created[j / perRoom]
  }

  lemma AssignNext(e: Id, guilds: seq<Id>, created: seq<Id>, perRoom: nat, before: map<(Id, Id), Id>,
                   after: map<(Id, Id), Id>, i: nat)
    requires perRoom > 0 && i < |guilds| && Distinct(guilds) && i / perRoom < |created|
    requires AssignedUpTo(e, guilds, created, perRoom, after, i) && KeptElsewhere(e, guilds, before, after)
    ensures var next := after[(e, guilds[i]) := created[i / perRoom]];
            AssignedUpTo(e, guilds, created, perRoom, next, i + 1) && KeptElsewhere(e, guilds, before, next)
  {
  }

  /** The assignment loop; `ok` is false when a statement failed. */
  method AssignGuilds(e: Id, guilds: seq<Id>, created: seq<Id>, before: map<(Id, Id), Id>, fails: nat -> bool,
                      first: nat)
    returns (ok: bool, after: map<(Id, Id), Id>)
    requires Distinct(guilds) && guilds != [] && |created| == RoomCount(|guilds|)
    ensures ok ==> AssignedInBlocks(e, guilds, created, before, after)
    ensures ok <==> P.NoneFails(fails, first, first + |guilds|)
  {
    after := before;
    var perRoom := (|guilds| + |created| - 1) / |created|;
    RoomsFill(|guilds|);
    for i := 0 to |guilds|
      invariant P.NoneFails(fails, first, first + i)
      invariant AssignedUpTo(e, guilds, created, perRoom, after, i)
      invariant KeptElsewhere(e, guilds, before, after)
    {
      if fails(first + i) {
        return false, after;
      }
      BlockLayout(|guilds|, i, 0);
      var roomIndex := (i / perRoom) % |created|;
      AssignNext(e, guilds, created, perRoom, before, after, i);
      after := after[(e, guilds[i]) := created[roomIndex]];
    }
    ok := true;
  }

  /** The room loop. */
  method CreateRooms(numRooms: nat, newIds: seq<Id>, fails: nat -> bool, first: nat)
    returns (ok: bool, created: seq<Id>)
    requires numRooms <= |newIds|
    ensures ok ==> created == newIds[..numRooms]
    ensures ok <==> P.NoneFails(fails, first, first + numRooms)
  {
    created := [];
    for i := 0 to numRooms
      invariant created == newIds[..i]
      invariant P.NoneFails(fails, first, first + i)
    {
      if fails(first + i) {
        return false, created;
      }
      created := created + [newIds[i]];
    }
    ok := true;
  }

  class EventStore {
    var status: map<Id, EventStatus>
    var participants: map<Id, seq<Id>>     // guilds per event, in join order
    var rooms: map<Id, Id>                 // room -> event
    var roomOf: map<(Id, Id), Id>          // (event, guild) -> assigned room
    var problems: map<(Id, Id), int>       // (event, problem) -> score

    ghost predicate Valid()
      reads this
    {
      forall e | e in participants :: Distinct(participants[e])
    }

    /** The problems for an event with participants, as assignCodeProblemsToEvent leaves them; `first` is the number
        of its first statement. */
    static method ChooseProblems(specifics: Specifics, bank: map<Id, P.Problem>, fails: nat -> bool, first: nat,
                          insertFails: (nat, nat) -> bool)
      returns (ok: bool, chosen: seq<P.Assignment>, ghost drawn: seq<seq<Id>>)
      ensures ok <==> P.NoneFails(fails, first, first + Reads(specifics)) && SpecificsOk(specifics)
      ensures ok ==> Chose(specifics, bank, insertFails, drawn, chosen)
    {
      chosen, drawn := [], [];
      if specifics.NoRequest? {
        return true, chosen, drawn;
      }
      if fails(first) || specifics.Unreadable? {
        return false, [], drawn;
      }
      match specifics {
        case Battle(topics, dists) =>
          var excluded;
          ok, chosen, excluded, drawn :=
            P.AssignProblems(bank, topics, dists, fails, first + 1, insertFails);
        case _ =>
          ok := true;
      }
    }

    /** Everything an activation with participants prepares before it commits. */
    method Prepare(e: Id, guilds: seq<Id>, specifics: Specifics, bank: map<Id, P.Problem>, newIds: seq<Id>,
                   fails: nat -> bool, insertFails: (nat, nat) -> bool)
      returns (ok: bool, created: seq<Id>, newRoomOf: map<(Id, Id), Id>, chosen: seq<P.Assignment>,
               ghost drawn: seq<seq<Id>>)
      requires Distinct(guilds) && guilds != [] && RoomCount(|guilds|) <= |newIds|
      ensures ok <==> P.NoneFails(fails, 2, CommitAt(|guilds|, specifics)) && SpecificsOk(specifics)
      ensures ok ==> created == newIds[..RoomCount(|guilds|)] && AssignedInBlocks(e, guilds, created, roomOf, newRoomOf)
      ensures ok ==> Chose(specifics, bank, insertFails, drawn, chosen)
    {
      chosen, drawn, newRoomOf := [], [], roomOf;
      var numRooms := RoomCount(|guilds|);
      ok, created := CreateRooms(numRooms, newIds, fails, 2);
      if !ok {
        return;
      }
      ok, newRoomOf := AssignGuilds(e, guilds, created, roomOf, fails, 2 + numRooms);
      if !ok {
        return;
      }
      ok, chosen, drawn := ChooseProblems(specifics, bank, fails, 2 + numRooms + |guilds|, insertFails);
    }

    /** `fails(n)` says whether the n-th statement fails (the last one is the commit); `newIds` is the supply of
        generated room ids. Nothing is written to the tables before the commit. */
    method ProcessEventAssignment(e: Id, specifics: Specifics, bank: map<Id, P.Problem>, newIds: seq<Id>,
                                  fails: nat -> bool, insertFails: (nat, nat) -> bool)
      returns (outcome: Outcome, created: seq<Id>, chosen: seq<P.Assignment>, ghost drawn: seq<seq<Id>>)
      requires Valid() && e in participants
      requires Distinct(newIds) && forall r | r in newIds :: r !in rooms
      requires RoomCount(|participants[e]|) <= |newIds|
      modifies this`status, this`rooms, this`roomOf, this`problems
      ensures Valid()
      // a failed or late attempt leaves no trace
      ensures outcome != Activated ==>
                status == old(status) && rooms == old(rooms) && roomOf == old(roomOf) && problems == old(problems)
      ensures outcome == NotPending ==> e !in old(status) || old(status)[e] != Pending
      ensures outcome == Activated ==>
                e in old(status) && old(status)[e] == Pending && status == old(status)[e := Active]
      // and it fails only for a reason
      ensures outcome == Activated <==>
                && e in old(status) && old(status)[e] == Pending
                && P.NoneFails(fails, 0, CommitAt(|participants[e]|, specifics) + 1)
                && (participants[e] != [] ==> SpecificsOk(specifics))
      // the rooms
      ensures outcome == Activated && participants[e] == [] ==>
                created == [] && rooms == old(rooms) && roomOf == old(roomOf) && problems == old(problems)
      ensures outcome == Activated && participants[e] != [] ==>
                && |created| == RoomCount(|participants[e]|)
                && Distinct(created) && (forall r | r in created :: r !in old(rooms))
                && rooms == old(rooms) + (map r | r in created :: e)
      // the guilds
      ensures outcome == Activated && participants[e] != [] ==>
                AssignedInBlocks(e, participants[e], created, old(roomOf), roomOf)
      // the problems: exactly what the entries select
      ensures outcome == Activated && participants[e] != [] ==>
                && problems == old(problems) + Recorded(e, chosen)
                && Chose(specifics, bank, insertFails, drawn, chosen)
    {
      created, chosen, drawn := [], [], [];
      if fails(0) {
        return Failed, created, chosen, drawn;
      }
      if e !in status || status[e] != Pending {
        return NotPending, created, chosen, drawn;
      }
      if fails(1) {
        return Failed, created, chosen, drawn;
      }
      var guilds := participants[e];
      if guilds == [] {
        if fails(2) {
          return Failed, created, chosen, drawn;
        }
        status := status[e := Active];
        return Activated, created, chosen, drawn;
      }
      var ok, newRoomOf;
      ok, created, newRoomOf, chosen, drawn := Prepare(e, guilds, specifics, bank, newIds, fails, insertFails);
      if !ok {
        return Failed, created, chosen, drawn;
      }
      if fails(CommitAt(|guilds|, specifics)) {
        return Failed, created, chosen, drawn;
      }
      status, roomOf := status[e := Active], newRoomOf;
      rooms := rooms + (map r | r in created :: e);
      problems := problems + Recorded(e, chosen);
      outcome := Activated;
    }
  }
}
