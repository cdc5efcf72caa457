/** The rows of the tables that the live code-battle engine reads and writes. */
module Tables {

  /** UUIDs: only their equality matters. */
  type Id = nat

  datatype Option<+T> = None | Some(value: T)

  datatype EventStatus = Pending | Active | Completed | Cancelled

  function StatusOrder(st: EventStatus): nat {
    match st case Pending => 0 case Active => 1 case Completed => 2 case Cancelled => 3
  }

  datatype PlayerState = Present | Disconnected | Left | Finished

  datatype Event = Event(status: EventStatus, startDate: int, endDate: int)

  /** Primary key of `room_players`. */
  datatype Key = Key(room: Id, user: Id)

  datatype Player = Player(guild: Id, score: int, place: Option<nat>, joinedAt: int, state: PlayerState)

  /** A `PlayerJoined` message: this user may sit in this room for this guild. */
  datatype Pass = Pass(guild: Id, key: Key)

  /** `Accepted(true)` is an acceptance whose points reached a player row, `Accepted(false)` one whose
      player had no row when the points were added. The table itself stores one value for both. */
  datatype SubmissionStatus = Waiting | WrongAnswer | Accepted(credited: bool)

  /** Where a submission is: accepted by the request handler but not yet a row, judged and in the room queue, past the
      status check made outside the transaction, or handed to its only transaction (or dismissed). */
  datatype Phase = Sent | Queued | Cleared | Handled

  datatype Submission =
    Submission(key: Key, problem: Id, points: int, submittedAt: int, status: SubmissionStatus, phase: Phase)

  predicate InInt32(x: int) {
    -0x8000_0000 <= x < 0x8000_0000
  }

  function Min(a: int, b: int): int {
    if a <= b then a else b
  }

  ghost predicate Distinct<T(!new)>(order: seq<T>) {
    forall i, j | 0 <= i < j < |order| :: order[i] != order[j]
  }
}
