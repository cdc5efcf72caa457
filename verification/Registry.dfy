/** The in-memory registry of room hubs with its event-to-rooms index. Each method body is what runs under one hold of
    the registry's lock; an expiry broadcast takes the lock once per room, so other calls may run in between. */
module Registry {
  import opened Tables

  /** Capacity of a room's event queue. */
  const QUEUE_CAPACITY := 10
  const MAX_CONNECTIONS := 100

  class RoomHub {
    const roomId: Id
    const eventId: Id
    var pending: seq<Id>          // the room's event queue, as message ids
    var listeners: set<Id>
    var lastActivity: int

    constructor (eventId: Id, roomId: Id, now: int)
      ensures this.roomId == roomId && this.eventId == eventId
      ensures pending == [] && listeners == {} && lastActivity == now
    {
      this.roomId, this.eventId := roomId, eventId;
      pending, listeners, lastActivity := [], {}, now;
    }

    /** A non-blocking send: dropped when the queue is full. */
    method Send(message: Id) returns (sent: bool)
      modifies this`pending
      ensures sent <==> |old(pending)| < 10
      ensures pending == if sent then old(pending) + [message] else old(pending)
    {
      sent := |pending| < QUEUE_CAPACITY;
      if sent {
        pending := pending + [message];
      }
    }

    /** Registering an SSE connection: one per user, at most MAX_CONNECTIONS per room. */
    method Connect(user: Id) returns (ok: bool)
      modifies this`listeners
      ensures ok <==> user !in old(listeners) && |old(listeners)| < 100
      ensures listeners == old(listeners) + (if ok then {user} else {})
      ensures |old(listeners)| <= 100 ==> |listeners| <= 100
    {
      ok := user !in listeners && |listeners| < MAX_CONNECTIONS;
      if ok {
        listeners := listeners + {user};
      }
    }

    predicate IsInactive(now: int, threshold: int)
      reads this
    {
      listeners == {} && now - lastActivity > threshold
    }
  }

  function Offered(queue: seq<Id>, message: Id): seq<Id> {
    if |queue| < QUEUE_CAPACITY then queue + [message] else queue
  }

  function OfferedTo(pending: map<Id, seq<Id>>, ids: seq<Id>, message: Id): map<Id, seq<Id>> {
    map r | r in pending :: if r in ids then Offered(pending[r], message) else pending[r]
  }

  function Reached(pending: map<Id, seq<Id>>, ids: seq<Id>): set<Id> {
    set r | r in pending && r in ids && |pending[r]| < QUEUE_CAPACITY
  }

  /** One round more of a broadcast over different rooms: what is offered, */
  lemma OfferNext(pending: map<Id, seq<Id>>, ids: seq<Id>, i: nat, message: Id)
    requires Distinct(ids) && i < |ids|
    ensures OfferedTo(OfferedTo(pending, ids[..i], message), [ids[i]], message)
         == OfferedTo(pending, ids[..i + 1], message)
    ensures ids[i] in pending ==> OfferedTo(pending, ids[..i], message)[ids[i]] == pending[ids[i]]
  {
    assert ids[..i + 1] == ids[..i] + [ids[i]] && ids[i] !in ids[..i];
  }

  /** and how many queues had room. */
  lemma ReachedNext(pending: map<Id, seq<Id>>, ids: seq<Id>, i: nat)
    requires Distinct(ids) && i < |ids|
    ensures var more := ids[i] in pending && |pending[ids[i]]| < QUEUE_CAPACITY;
            |Reached(pending, ids[..i + 1])| == |Reached(pending, ids[..i])| + if more then 1 else 0
  {
    var r := ids[i];
    assert ids[..i + 1] == ids[..i] + [r] && r !in ids[..i];
    if r in pending && |pending[r]| < QUEUE_CAPACITY {
      assert Reached(pending, ids[..i + 1]) == Reached(pending, ids[..i]) + {r};
    } else {
      assert Reached(pending, ids[..i + 1]) == Reached(pending, ids[..i]);
    }
  }

  // ---- The registry as a value ----

  datatype Index = Index(rooms: map<Id, RoomHub>, eventRooms: map<Id, seq<Id>>)

  function Listed(s: Index, e: Id): seq<Id> {
    if e in s.eventRooms then s.eventRooms[e] else []
  }

  /** Every live hub is stored under its own room and listed for its own event; no list repeats a room or holds a room
      of another event. `eventOf` is the event_id column of rooms, which is never updated. */
  ghost predicate Ok(s: Index, eventOf: Id -> Id) {
    && (forall r | r in s.rooms :: s.rooms[r].roomId == r && s.rooms[r].eventId == eventOf(r))
    && (forall r | r in s.rooms :: r in Listed(s, eventOf(r)))
    && (forall e :: Distinct(Listed(s, e)))
    && (forall e, r | r in Listed(s, e) :: eventOf(r) == e)
  }

  /** What the lock holders do: install a hub unless the room has one, or drop some rooms. */
  datatype Step = Install(r: Id, hub: RoomHub) | Remove(gone: set<Id>)

  ghost predicate Enabled(step: Step, eventOf: Id -> Id) {
    step.Install? ==> step.hub.roomId == step.r && step.hub.eventId == eventOf(step.r)
  }

  function Register(list: seq<Id>, r: Id): seq<Id> {
    if r in list then list else list + [r]
  }

  function Apply(s: Index, step: Step): Index {
    match step
    case Install(r, hub) =>
      if r in s.rooms then s
      else Index(s.rooms[r := hub], s.eventRooms[hub.eventId := Register(Listed(s, hub.eventId), r)])
    case Remove(gone) => s.(rooms := s.rooms - gone)
  }

  lemma ApplyKeepsOk(s: Index, step: Step, eventOf: Id -> Id)
    requires Ok(s, eventOf) && Enabled(step, eventOf)
    ensures Ok(Apply(s, step), eventOf)
  {
    var t := Apply(s, step);
    if step.Install? && step.r !in s.rooms {
      var e := step.hub.eventId;
      forall d ensures Listed(t, d) == if d == e then Register(Listed(s, e), step.r) else Listed(s, d) {}
      assert Distinct(Listed(s, e));
    } else {
      forall d ensures Listed(t, d) == Listed(s, d) {}
    }
  }

  /** `trace` is a run of the registry: any interleaving of lookups that install and of cleanups. */
  ghost predicate IsRun(trace: seq<Index>, steps: seq<Step>, eventOf: Id -> Id) {
    && |trace| == |steps| + 1
    && trace[0] == Index(map[], map[])
    && forall i {:trigger steps[i]} | 0 <= i < |steps| ::
         Enabled(steps[i], eventOf) && trace[i + 1] == Apply(trace[i], steps[i])
  }

  lemma {:induction false} RunKeepsOk(trace: seq<Index>, steps: seq<Step>, eventOf: Id -> Id, i: nat)
    requires IsRun(trace, steps, eventOf) && i < |trace|
    ensures Ok(trace[i], eventOf)
  {
    if i > 0 {
      RunKeepsOk(trace, steps, eventOf, i - 1);
      ApplyKeepsOk(trace[i - 1], steps[i - 1], eventOf);
    }
  }

  /** In every reachable state each live room is listed exactly once under its event and under no other event. */
  lemma LiveRoomListedOnce(trace: seq<Index>, steps: seq<Step>, eventOf: Id -> Id, i: nat, r: Id)
    requires IsRun(trace, steps, eventOf) && i < |trace| && r in trace[i].rooms
    ensures trace[i].rooms[r].roomId == r
    ensures var e := trace[i].rooms[r].eventId;
            && multiset(Listed(trace[i], e))[r] == 1
            && forall d | d != e :: r !in Listed(trace[i], d)
  {
    RunKeepsOk(trace, steps, eventOf, i);
    OccursOnce(Listed(trace[i], eventOf(r)), r);
  }

  lemma {:induction false} OccursOnce(ids: seq<Id>, r: Id)
    requires Distinct(ids)
    ensures multiset(ids)[r] == if r in ids then 1 else 0
  {
    if ids != [] {
      var n := |ids| - 1;
      assert ids == ids[..n] + [ids[n]];
      OccursOnce(ids[..n], r);
    }
  }

  /** A room keeps its hub until a cleanup drops it, however many lookups race to install one. */
  lemma {:induction false} OneHubPerRoom(trace: seq<Index>, steps: seq<Step>, eventOf: Id -> Id, i: nat, j: nat, r: Id)
    requires IsRun(trace, steps, eventOf) && i <= j < |trace| && r in trace[i].rooms
    requires forall k | i <= k < j && steps[k].Remove? :: r !in steps[k].gone
    ensures r in trace[j].rooms && trace[j].rooms[r] == trace[i].rooms[r]
  {
    if i < j {
      OneHubPerRoom(trace, steps, eventOf, i, j - 1, r);
      assert trace[j - 1 + 1] == Apply(trace[j - 1], steps[j - 1]);
    }
  }

  // ---- An expiry broadcast while other lock holders run ----

  /** The hubs a broadcast tries when it looks up ids[k] in state at[k] of the run. */
  function Tried(trace: seq<Index>, ids: seq<Id>, at: seq<nat>): seq<RoomHub>
    requires |at| == |ids| && forall k | 0 <= k < |at| :: at[k] < |trace|
  {
    if |ids| == 0 then [] else
      var n := |ids| - 1;
      Tried(trace, ids[..n], at[..n])
      + if ids[n] in trace[at[n]].rooms then [trace[at[n]].rooms[ids[n]]] else []
  }

  ghost predicate AllOk(trace: seq<Index>, eventOf: Id -> Id) {
    forall i | 0 <= i < |trace| :: Ok(trace[i], eventOf)
  }

  ghost predicate LiveFrom(trace: seq<Index>, first: nat, h: RoomHub) {
    forall i | first <= i < |trace| :: h.roomId in trace[i].rooms && trace[i].rooms[h.roomId] == h
  }

  lemma {:induction false} TriedCount(trace: seq<Index>, eventOf: Id -> Id, first: nat, ids: seq<Id>, at: seq<nat>,
                                      h: RoomHub)
    requires AllOk(trace, eventOf) && Distinct(ids)
    requires |at| == |ids| && forall k | 0 <= k < |at| :: first <= at[k] < |trace|
    ensures multiset(Tried(trace, ids, at))[h] <= if h.roomId in ids then 1 else 0
    ensures LiveFrom(trace, first, h) && h.roomId in ids ==> multiset(Tried(trace, ids, at))[h] == 1
  {
    if ids != [] {
      var n := |ids| - 1;
      assert ids == ids[..n] + [ids[n]];
      TriedCount(trace, eventOf, first, ids[..n], at[..n], h);
    }
  }

  /** A broadcast for event e reads the list in state `first` and then looks each room up later, in any later states.
      It tries no hub twice and no hub of another event, and it tries every hub of e that stays live exactly once. */
  lemma BroadcastTriesEachOnce(trace: seq<Index>, steps: seq<Step>, eventOf: Id -> Id, first: nat, e: Id, at: seq<nat>,
                               h: RoomHub)
    requires IsRun(trace, steps, eventOf) && first < |trace|
    requires |at| == |Listed(trace[first], e)| && forall k | 0 <= k < |at| :: first <= at[k] < |trace|
    ensures var tried := Tried(trace, Listed(trace[first], e), at);
            && multiset(tried)[h] <= 1
            && (h in tried ==> h.eventId == e)
            && (LiveFrom(trace, first, h) && h.eventId == e ==> multiset(tried)[h] == 1)
  {
    var ids := Listed(trace[first], e);
    forall i | 0 <= i < |trace| ensures Ok(trace[i], eventOf) {
      RunKeepsOk(trace, steps, eventOf, i);
    }
    assert Distinct(ids);
    TriedCount(trace, eventOf, first, ids, at, h);
    if h in Tried(trace, ids, at) {
      TriedLive(trace, eventOf, ids, at, h);
    }
    if LiveFrom(trace, first, h) {
      assert h.roomId in trace[first].rooms && trace[first].rooms[h.roomId] == h;
    }
  }

  lemma {:induction false} TriedLive(trace: seq<Index>, eventOf: Id -> Id, ids: seq<Id>, at: seq<nat>, h: RoomHub)
    requires AllOk(trace, eventOf)
    requires |at| == |ids| && forall k | 0 <= k < |at| :: at[k] < |trace|
    requires h in Tried(trace, ids, at)
    ensures h.roomId in ids && h.eventId == eventOf(h.roomId)
  {
    var n := |ids| - 1;
    if ids[n] in trace[at[n]].rooms && trace[at[n]].rooms[ids[n]] == h {
      assert Ok(trace[at[n]], eventOf);
    } else {
      TriedLive(trace, eventOf, ids[..n], at[..n], h);
    }
  }

  lemma BroadcastReaches(s: Index, eventOf: Id -> Id, e: Id, before: map<Id, seq<Id>>, message: Id)
    requires Ok(s, eventOf) && before.Keys == s.rooms.Keys
    ensures var ids := Listed(s, e);
            && (forall r | r in s.rooms ::
                  OfferedTo(before, ids, message)[r]
                  == if s.rooms[r].eventId == e && |before[r]| < 10 then before[r] + [message] else before[r])
            && Reached(before, ids) == set r | r in s.rooms && s.rooms[r].eventId == e && |before[r]| < 10
  {
    assert forall r | r in s.rooms :: r in Listed(s, e) <==> s.rooms[r].eventId == e;
  }

  // ---- The registry object ----

  class EventHub {
    var rooms: map<Id, RoomHub>          // Rooms
    var eventRooms: map<Id, seq<Id>>     // EventRooms
    ghost const eventOf: Id -> Id

    ghost function State(): Index
      reads this
    {
      Index(rooms, eventRooms)
    }

    ghost predicate Valid()
      reads this
    {
      Ok(State(), eventOf)
    }

    constructor (ghost eventOf: Id -> Id)
      ensures Valid() && State() == Index(map[], map[]) && this.eventOf == eventOf
    {
      rooms, eventRooms := map[], map[];
      this.eventOf := eventOf;
    }

    /** The fast path of GetOrCreateRoomHub, under the read lock. */
    method Lookup(r: Id) returns (hub: RoomHub?)
      requires Valid()
      ensures r in rooms <==> hub != null
      ensures hub != null ==> hub == rooms[r] && hub.roomId == r && hub.eventId == eventOf(r)
    {
      hub := if r in rooms then rooms[r] else null;
    }

    /** The slow path, under the write lock, after the database read returned the room's event. Between Lookup and
        this call anything may have happened, so presence is checked again: an existing hub wins. */
    method GetOrInstall(r: Id, e: Id, now: int) returns (hub: RoomHub)
      requires Valid() && e == eventOf(r)
      modifies this
      ensures Valid()
      ensures r in rooms && rooms[r] == hub && hub.roomId == r && hub.eventId == e
      ensures r in old(rooms) ==> hub == old(rooms)[r]
      ensures r !in old(rooms) ==> fresh(hub) && hub.pending == [] && hub.listeners == {} && hub.lastActivity == now
      // nothing else changes: the other hubs and lists stay, and this room is listed
      ensures State() == Apply(old(State()), Install(r, hub))
      ensures rooms == old(rooms)[r := hub]
      ensures r in old(rooms) ==> eventRooms == old(eventRooms)
      ensures forall d | d != e :: d in eventRooms <==> d in old(eventRooms)
      ensures forall d | d != e && d in eventRooms :: eventRooms[d] == old(eventRooms)[d]
      ensures e in eventRooms && r in eventRooms[e]
      ensures e in old(eventRooms) ==> old(eventRooms)[e] <= eventRooms[e]
    {
      if r in rooms {
        return rooms[r];
      }
      hub := new RoomHub(e, r, now);
      ApplyKeepsOk(State(), Install(r, hub), eventOf);
      rooms := rooms[r := hub];
      if e !in eventRooms {
        eventRooms := eventRooms[e := []];
      }
      var alreadyRegistered := Contains(eventRooms[e], r);
      if !alreadyRegistered {
        eventRooms := eventRooms[e := eventRooms[e] + [r]];
      }
      assert eventRooms == old(eventRooms)[e := Register(Listed(old(State()), e), r)];
    }

    static method Contains(list: seq<Id>, r: Id) returns (found: bool)
      ensures found <==> r in list
    {
      found := false;
      for i := 0 to |list|
        invariant found <==> r in list[..i]
      {
        if list[i] == r {
          found := true;
          break;
        }
      }
    }

    function InactiveRooms(now: int, threshold: int): set<Id>
      reads this, rooms.Values
    {
      set r | r in rooms && rooms[r].IsInactive(now, threshold)
    }

    /** cleanupInactiveRooms: the index keeps the ids of removed rooms. */
    method Cleanup(now: int, threshold: int)
      requires Valid()
      modifies this`rooms
      ensures Valid()
      ensures forall r :: r in rooms
                <==> r in old(rooms) && (old(rooms)[r].listeners != {} || now - old(rooms)[r].lastActivity <= threshold)
      ensures forall r | r in rooms :: rooms[r] == old(rooms)[r]
      ensures State() == Apply(old(State()), Remove(old(InactiveRooms(now, threshold))))
    {
      var roomsToRemove := InactiveRooms(now, threshold);
      ApplyKeepsOk(State(), Remove(roomsToRemove), eventOf);
      rooms := rooms - roomsToRemove;
    }

    /** One round of the broadcast: the room may have been removed, or its queue may be full. */
    method OfferTo(r: Id, message: Id) returns (sent: bool)
      requires KeyedByRoom()
      modifies if r in rooms then {rooms[r]} else {}
      ensures sent <==> r in rooms && |old(Pending())[r]| < QUEUE_CAPACITY
      ensures Pending() == OfferedTo(old(Pending()), [r], message)
    {
      sent := false;
      if r in rooms {
        sent := rooms[r].Send(message);
      }
    }

    ghost predicate KeyedByRoom()
      reads this
    {
      forall r | r in rooms :: rooms[r].roomId == r
    }

    ghost function Pending(): map<Id, seq<Id>>
      reads this, set r | r in rooms :: rooms[r]
    {
      map r | r in rooms :: rooms[r].pending
    }

    /** The rounds of a broadcast when nothing runs in between. */
    method OfferAll(roomIds: seq<Id>, message: Id) returns (notified: nat)
      requires KeyedByRoom() && Distinct(roomIds)
      modifies set r | r in rooms :: rooms[r]
      ensures Pending() == OfferedTo(old(Pending()), roomIds, message)
      ensures notified == |Reached(old(Pending()), roomIds)|
    {
      notified := 0;
      ghost var before := Pending();
      for i := 0 to |roomIds|
        invariant Pending() == OfferedTo(before, roomIds[..i], message)
        invariant notified == |Reached(before, roomIds[..i])|
      {
        OfferNext(before, roomIds, i, message);
        ReachedNext(before, roomIds, i);
        var ok := OfferTo(roomIds[i], message);
        if ok {
          notified := notified + 1;
        }
      }
      assert roomIds[..|roomIds|] == roomIds;
    }

    /** The expiry broadcast of handleEventMessage: every live hub of the event is offered the message once, no other
        hub at all, and the count is of the hubs whose queue had room. */
    method BroadcastExpired(e: Id, message: Id) returns (notified: nat)
      requires Valid()
      modifies set r | r in rooms :: rooms[r]
      ensures forall r | r in rooms :: rooms[r].pending ==
                if rooms[r].eventId == e && |old(rooms[r].pending)| < 10 then old(rooms[r].pending) + [message]
                else old(rooms[r].pending)
      ensures notified == |set r | r in rooms && rooms[r].eventId == e && |old(rooms[r].pending)| < 10|
    {
      var roomIds := if e in eventRooms then eventRooms[e] else [];
      assert Distinct(Listed(State(), e));
      ghost var before := Pending();
      BroadcastReaches(State(), eventOf, e, before, message);
      notified := OfferAll(roomIds, message);
      assert forall r | r in rooms :: rooms[r].pending == Pending()[r];
      assert Reached(before, roomIds) == set r | r in rooms && rooms[r].eventId == e && |old(rooms[r].pending)| < 10;
    }
  }
}
