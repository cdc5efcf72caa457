# Live code battles: a verified model

The service runs timed code-battle events. Guilds register and select members; activation creates rooms, assigns
guilds and problems; players join a room, submit solutions, are judged, gain points and are ranked; when the event
ends it is completed once, its leaderboards are captured for good, and rewards are granted. Several instances of the
service do all of this against one PostgreSQL database at its default isolation level.

This project models that behaviour and proves what it keeps over every run. `dafny verify dfyconfig.toml` checks it.

- **Tables, Ranking, Sums**: the rows, `ROW_NUMBER()` over the three-part key as a relation (ties stay open), sums.
- **Engine**: scoring, re-ranking and completion transactions as small steps with row locks, uncommitted versions, the
  acceptance trigger, the partial unique index and an abort at any step; any number of them interleave with
  activations and with joins and submissions, each a guarded request and a later insert. **EngineInvariant** is its
  inductive invariant, **EngineTxSteps**, **EngineDbSteps** and **EngineCommits** show that each step keeps it,
  **EngineRuns** lifts that to runs and relates earlier to later states, **EngineTheorems**, **EngineScores** and
  **EngineAdmission** state what follows. **EngineHistory** traces acceptances, places and permanent snapshots back to
  the steps of the run that made them, **EngineOrigins** events, submissions, player rows and what an activation left.
  **EngineRace** constructs the interleaving in which a result is not frozen, **EngineCalm** and **EngineSettled** show
  exactly when that can happen.
- **Lifecycle**: status changes driven by crons, timers, restarts, recovery, monitors and failing transactions on any
  number of instances. **Monitor**: one monitor pass. **Rewards**: the reward loops and the order they rely on.
- **Activation, Problems**: room count, block distribution and problem selection, as one all-or-nothing operation.
- **Membership**: who may sit in a room, with the join check and the row insert as separate steps.
- **Registry**: the in-memory hubs with the event-to-rooms index, under any interleaving of lock holders.
- **Codec, Pagination**: execution-time and countdown texts, and pages by LIMIT and OFFSET.

In the engine a transaction holds the lock of a row exactly when the row is among its uncommitted versions, because
every statement that locks a player row also writes it. `ledger` (the points each committed scoring transaction
recorded) and `locked` (the rows a completion locked) are history: no step reads them.

Four findings deserve a reader's attention.

1. The result of an event is frozen for every row that exists when the completion takes its row locks
   (`LockedRowsFrozen`), but not for a row inserted afterwards into a room that was empty at that moment: its row is
   not locked, a scorer already in flight still sees the event as active, and its points can arrive after the snapshot
   was read. `SnapshotCanContradictRow` is such a run. `SettledExactlyWhen` gives the exact condition, which can be
   evaluated before the locks are taken. The result stands in every future if and only if no room of the event is
   exposed: has no player, while either the event is not over and somebody is entitled to join the room, or a join for
   it was let through but its row is not inserted yet and that very user's scorer, begun in time, is still to add its
   points. As each instance works off a room's messages one by one, the scorer and the late insert sit on two
   instances.
2. The monitor's query compares `end_date`, a time with zone, with `NOW() AT TIME ZONE 'utc'`, a time without
   (`internal/store/query.sql.go:2141`), which the database reads in the zone of its session. In a session west of UTC
   the monitor completes events early (`MonitorTooEarly`); `NeverEarlyExactlyWhen` is the exact condition.
3. The database trigger rejects acceptances by time as well as by status, with the start of the transaction as its
   clock (`migrations/001_add_event_expiry_constraints.sql:49`); the comment at `internal/hub/event_hub.go:1660-1663`
   says time is not checked. The model follows the trigger.
4. A page request whose offset does not fit in 32 bits is answered with rows of another page, or refused
   (`FarPageStartsAgain`); `RequestIsExact` is the exact condition.

## Model

| member | source | states |
|---|---|---|
| `EngineRuns.StepKeeps` | internal/hub/event_hub.go:1711-1809 | every statement, commit and abort of every transaction, and every step outside transactions, keeps the engine's invariant |
| `EngineRuns.RunLater` | internal/hub/event_hub.go:222-344 | between any two states of a run: events, rooms and rows stay, statuses only advance, acceptances and awards are never taken back, snapshots are not rewritten, sealed rooms keep their scores |
| `EngineHistory.PointsAwardedOnce` | internal/hub/event_hub.go:1723-1809 | in every reachable state a score is the sum of the points of exactly those acceptances of that player in that room whose points statement found the player's row, no problem is accepted twice for a player and room, and points come only from transactions begun by the end date |
| `EngineHistory.CreditedExactlyWhen` | internal/store/query.sql.go:40-44 | for a scoring transaction from its points statement to its commit: the acceptance is credited if and only if its player had a row when that statement ran |
| `EngineHistory.CreditedIffCounts` | internal/hub/event_hub.go:1759-1809 | in every reachable state every acceptance goes back to such a transaction of the run, and is credited exactly when its statement found the row |
| `EngineHistory.PlayersGetTheirPoints` | internal/hub/event_hub.go:1759-1809 | a player who has a row before a submission is taken up gets its points if it is accepted |
| `EngineOrigins.SubmissionOrigin` | internal/hub/event_hub.go:1511-1577 | in every reachable state each submission goes back to a submit request for its player, room and problem, made while the event named there was active and not over, and is worth the points that event offers for that very problem |
| `EngineOrigins.SubmissionStays` | internal/hub/event_hub.go:1511-1577 | from any state to any later one a submission keeps its player, room, problem and points |
| `EngineOrigins.SubmittedWhenStored` | internal/hub/event_hub.go:1521-1528 | the submission time that rankings use is the time at which the row was stored |
| `EngineOrigins.AcceptedCameThrough` | internal/hub/event_hub.go:1615-1655 | in every reachable state an accepted submission has behind it, in this order, its request, its stored row and a status check that found the event of its room active |
| `EngineOrigins.AcceptedInTime` | migrations/001_add_event_expiry_constraints.sql:24-57 | in every reachable state an accepted submission was marked and committed by one transaction that stayed open throughout, began by the end date of its room's event, and found that event active when it marked the submission |
| `EngineOrigins.DismissedStays` | internal/hub/event_hub.go:1631-1690 | a submission judged wrong is a wrong answer for ever, and one turned away for any other reason is pending for ever: neither is accepted later |
| `EngineTheorems.AcceptanceIsFinal` | internal/store/query.sql.go:199-207 | an accepted submission stays accepted and unchanged in every later state |
| `EngineTheorems.LockedRowsFrozen` | internal/hub/event_hub.go:275-343 | every row present when a completion takes its row locks has, once that completion commits and for ever after, that same score both in its row and in the snapshot |
| `EngineTheorems.PlayersSettled` | internal/store/query.sql.go:4360-4376 | when a completion commits, every row present at lock time is finished if its player was present (or finished already) and left otherwise, and nothing else about it has changed |
| `EngineSettled.FrozenResult` | internal/hub/event_hub.go:222-344 | if no room was exposed at lock time: once the event is completed, at any later time the snapshots are the same, no score has changed, later joiners have none, and every entry shows the stored score |
| `EngineTheorems.SealedRoomsFrozen` | internal/hub/event_hub.go:272-343 | the same for each single room that had a player at lock time, whatever rooms are exposed beside it |
| `EngineSettled.SettledExactlyWhen` | internal/hub/event_hub.go:248-343 | in every future the completed event's snapshots agree with the stored scores, the guild totals and all points ever awarded, if and only if no room is exposed when the row locks are taken |
| `EngineSettled.UnexposedSettles` | migrations/001_add_event_expiry_constraints.sql:24-57 | without an exposed room no interleaving of scorers, joins, aborts and repeated completions unsettles the result, whoever else has scorers in flight |
| `EngineSettled.ExposedDiverges` | internal/handlers/sse.go:74-163 | with an exposed room some future, in which only joins pass that the join request lets through, completes the event with a result that contradicts the rows |
| `EngineRace.EmptyRoomCanDiverge` | internal/store/query.sql.go:165-186 | from any state satisfying the invariant with locks taken, an empty room, a join let through and that user's scorer in flight, the run can go on to both permanent snapshots with a score that contradicts the row |
| `EngineRace.SnapshotCanContradictRow` | internal/hub/event_hub.go:222-344 | a complete run from the empty database, by a selected member of a participating guild, at whose end a completed event with both snapshots shows another score than the row |
| `EngineCalm.CalmStep` | internal/hub/event_hub.go:1615-1809 | one step of any kind keeps held rooms closed to scorers while a result exists, quiet rooms at zero, and users who can no longer join out |
| `EngineTheorems.LiveLeaderboard` | internal/store/query.sql.go:74-102 | in every reachable state the places of a room are exactly 1..k, none shared, a higher score has a smaller place, and a row without a place has score zero |
| `EngineHistory.RankingIsWritten` | internal/store/query.sql.go:74-102 | from ranking statement to commit, for a re-ranking and for a scoring transaction: after the commit every row the room had when the statement ran has a place, the places are exactly 1 up to their number, and along them scores do not increase, equal scores have the last acceptance of that moment not earlier, and where that is equal too the join time is not earlier |
| `EngineTxSteps.PlacesMakeBoard` | internal/store/query.sql.go:74-102 | writing the places of a row numbering over a room makes it that room's exact board |
| `EngineTheorems.RankingNeverStuck` | internal/hub/event_hub.go:1939-1985 | a ranking statement that has its locks always has a numbering to write |
| `EngineTheorems.CapturesNeverStuck` | internal/hub/event_hub.go:290-321 | both captures always have a numbering to write |
| `EngineHistory.CompletedIffSnapshot` | internal/hub/event_hub.go:248-302 | in every reachable state an event is completed if and only if its player snapshot exists, and that snapshot has exactly one entry per player row of the event as it stood at a capture of a completion of that event, with its score, numbered by explicit comparisons: scores do not increase, then last acceptances, then join times do not get earlier |
| `EngineHistory.SnapshotIsCapture` | internal/store/query.sql.go:165-186 | from capture to forever: the snapshot a completion commits has exactly one entry per row its capture saw, with that moment's score, numbered by the same comparisons of that moment's scores, last acceptances and join times |
| `EngineHistory.GuildSnapshotIsTally` | internal/store/query.sql.go:113-152 | the same for the committed guild snapshot and its tally: one entry per guild with player rows, with their sum, numbered by comparing totals, last acceptances and the times the guilds joined the event |
| `EngineHistory.LastAcceptedIsLatest` | internal/store/query.sql.go:113-186 | the second part of the order is the latest submission time among the rows' accepted submissions, and the year 9999 when there is none |
| `EngineOrigins.NeverAcceptedLast` | internal/store/query.sql.go:165-186 | in every reachable state before the year 9999 rows with an acceptance come, at the same score, strictly before rows without one |
| `EngineTheorems.SnapshotWrittenOnce` | internal/store/query.sql.go:4160-4164 | once an event has snapshots, they are the same in every later state, however many completions are attempted |
| `EngineTheorems.CaptureIsComplete` | internal/store/query.sql.go:165-186 | the capture has exactly one entry per player row of the event with its committed score and ranks 1..n: scores do not increase; at equal scores the last acceptance does not get earlier; with that equal too, the join time does not get earlier |
| `EngineSettled.Conservation` | internal/store/query.sql.go:113-152 | if no room was exposed at lock time, whenever the event is completed: guild totals are their players' sums, and guild totals, snapshot scores, stored scores and points ever awarded add up to the same number |
| `EngineTheorems.TallyIsComplete` | internal/store/query.sql.go:113-152 | the guild capture has exactly one entry per guild with player rows in the event, with the sum of their committed scores and ranks 1..n: totals do not increase; at equal totals the guilds' last acceptance does not get earlier; with that equal too, the guild's time of joining the event does not get earlier |
| `EngineHistory.GuildRanks` | internal/store/query.sql.go:113-152 | in every reachable state a guild snapshot is that complete ranking of the guilds with player rows, as they stood at a tally of a completion of that event |
| `EngineScores.ScoresFit` | internal/store/query.sql.go:40-44 | in every reachable state every score, committed or not, is in the range of its 32-bit column |
| `EngineAdmission.RowsAdmitted` | internal/handlers/sse.go:125-163 | in every reachable state of the engine each player row, and each join let through but not carried out, is for a guild assigned to that room and a user selected for it |
| `EngineOrigins.RowOrigin` | internal/handlers/sse.go:74-163 | in every reachable state each player row goes back to a join request of that user, let through for the row's guild while the event of the room was on, and to a later insert whose time is the row's join time for ever |
| `EngineOrigins.ActivationStands` | internal/handlers/event_assignment.go:127-252 | in every state after an activation the event has exactly the rooms assigned to its guilds, exactly these guilds with their join times, exactly their selected members as possible players, each in the guild's room, and exactly these problem scores |
| `EngineOrigins.ActivationOrigin` | internal/handlers/event_assignment.go:127-252 | in every reachable state an event that is no longer pending has exactly what one activation of the run gave it |
| `EngineOrigins.EventOrigin` | internal/handlers/events.go:880-968 | in every reachable state an event has the dates it was approved with |
| `Ranking.NumberingExists` | internal/store/query.sql.go:165-186 | every finite table has a row numbering by the three-part key |
| `Ranking.SameScoreAtEachPosition` | internal/store/query.sql.go:1247-1257 | two numberings of the same rows whose keys agree on the score alone put the same score at each position |
| `Sums.GuildsPartition` | internal/store/query.sql.go:113-152 | summing per guild and then over guilds is summing over the rows |
| `Lifecycle.StatusNeverGoesBack` | internal/store/query.sql.go:4131-4164 | over every run with any instances, restarts and lost timers the status only moves forward and the end date stays |
| `Lifecycle.OnlyTwoEdges` | internal/store/query.sql.go:4131-4164 | every change of an event's status is pending to active or active to completed |
| `Lifecycle.EachEdgeOnce` | internal/hub/event_hub.go:248-267 | of two changes of an event's status the first is pending to active and the second active to completed |
| `Lifecycle.NeverCompletedEarly` | internal/hub/event_hub.go:142-163 | with no session west of UTC a completed event is at or past its end date, whichever timer, recovery or monitor completed it |
| `Lifecycle.NeverEarlyExactlyWhen` | internal/store/query.sql.go:2138-2143 | no run completes an event before its end date if and only if the database session's time zone is not west of UTC |
| `Lifecycle.MonitorTooEarly` | internal/store/query.sql.go:2138-2143 | a run, for every zone west of UTC, in which the monitor completes an event before its end date |
| `Lifecycle.RewardsStartOnce` | internal/hub/event_hub.go:188-217 | reward granting starts at most once per event, and only for a completed event |
| `Lifecycle.OnlyActiveIsCompleted` | internal/handlers/event_assignment.go:227-245 | in every run a completion, whatever timer or monitor started it, commits only on an event that is active at that moment, and changes that event alone |
| `Lifecycle.OverdueCanComplete` | internal/hub/event_hub.go:816-897 | an active event that is overdue as the monitor's query sees it can be completed from every state of the invariant, even if all timers were lost |
| `Lifecycle.DatesAsApproved` | internal/handlers/events.go:880-968 | over every run an event has the dates it was approved with |
| `Lifecycle.TimerExactlyWhen` | internal/hub/event_hub.go:142-163 | in every reachable state an instance has a timer for an event if and only if an activation or recovery there armed it, before the event's end date and for that date, and it has neither fired nor been lost, alone or by a restart, since |
| `Lifecycle.TimerCanComplete` | internal/hub/event_hub.go:142-163 | a timer that was armed and not dropped since can, once the end date is reached, complete its active event by firing, unless the transaction that already holds the event's row can |
| `Monitor.EventTable.CompleteEvent` | internal/hub/event_hub.go:188-217 | the keys stay, every other event is as before, and this one goes from active to completed if and only if the call reports success, which it does exactly when the event is active and the transaction commits |
| `Monitor.EventTable.CheckAndComplete` | internal/hub/event_hub.go:844-955 | whatever fails, the three counters add up to the events found, and the successes are exactly those an answered verification read found completed; a pass without failures leaves none of them active; an event neither found nor completed elsewhere is as before; every change is from active to completed; and whatever committed, here or elsewhere, is no longer active |
| `Membership.PlayersAreEntitled` | internal/handlers/sse.go:125-196 | in every reachable state a player row names a guild assigned to that very room of the same event and a user selected for that guild |
| `Membership.MemberExactlyWhen` | internal/handlers/events.go:989-1325 | in every reachable state a user is on a guild's list for an event if and only if it was selected for it and not removed since |
| `Membership.PlayersStaySelected` | internal/handlers/events.go:1217-1325 | for each player row there is a selection of that user for the row's guild in that event with no removal after it |
| `Membership.AssignedExactlyWhen` | internal/handlers/event_assignment.go:191-219 | in every reachable state a guild has a room in an event if and only if the event's activation assigned it that room |
| `Membership.TakesPartExactlyWhen` | internal/handlers/events.go:616-742 | in every reachable state a guild takes part in an event if and only if the event was approved for it or it registered |
| `Membership.PlaysExactlyWhen` | internal/hub/event_hub.go:2009-2043 | in every reachable state a user plays for a guild in a room if and only if the room's goroutine carried out such a join |
| `Membership.EntitledStays` | internal/handlers/events.go:1266-1308 | what entitles a player cannot be taken away by any later registration, selection, removal, activation or completion |
| `Membership.GuildSharesRoom` | internal/handlers/event_assignment.go:191-219 | all players of a guild in an event are in one room |
| `Membership.StepKeeps` | internal/hub/event_hub.go:2009-2043 | each handler step and the late row insert keep the membership invariant |
| `Activation.BlockLayout` | internal/handlers/event_assignment.go:191-219 | for every number of guilds the room index never wraps, each room is a contiguous block in join order, all but the last hold ceil(n / rooms) and the last between one and that many |
| `Activation.RoomsFill` | internal/handlers/event_assignment.go:383-395 | no room takes more than four guilds, all but the last are full, the last is not empty |
| `Activation.RoomsByGuilds` | internal/handlers/event_assignment.go:383-395 | one room exactly for up to three guilds, two for four to seven, three for eight to twelve, and above ten the least number of rooms that hold four guilds each |
| `Activation.RecordedExactly` | internal/handlers/event_assignment.go:335-359 | of a selection without repetition exactly the selected problems are recorded for the event, each with its score |
| `Activation.LeastPerRoom` | internal/handlers/event_assignment.go:191-199 | the number per room is the least with which the guilds fit in the rooms |
| `Activation.AssignGuilds` | internal/handlers/event_assignment.go:200-219 | succeeds exactly when no statement fails, and then guild i has the room of its block and nothing else changed |
| `Activation.CreateRooms` | internal/handlers/event_assignment.go:169-189 | succeeds exactly when no insert fails, and then has created the rooms asked for, in order |
| `Activation.EventStore.ProcessEventAssignment` | internal/handlers/event_assignment.go:127-252 | all or nothing: it activates exactly when the event is pending, the request can be read and no statement fails, reads included; then rooms, block assignments and exactly the problems its entries select are added and nothing else; otherwise every table is as before |
| `Problems.AssignProblems` | internal/handlers/event_assignment.go:257-377 | succeeds exactly when no query fails and no count is negative; then each entry has drawn different fitting problems not taken before, as many as it asked for or the bank had left, and exactly those whose insert went through are assigned; the exclusion list is the assigned set |
| `Problems.InsertProblems` | internal/handlers/event_assignment.go:335-359 | appends exactly the drawn problems whose insert goes through, in order, with the entry's score, and keeps the exclusion list equal to the assigned set |
| `Problems.NoProblemTwice` | internal/handlers/event_assignment.go:293-372 | no problem is assigned twice, repeated difficulties included |
| `Problems.AssignedAsAsked` | internal/store/query.sql.go:2837-2855 | each assigned problem was drawn by an entry whose score it has, and is in the bank with that entry's difficulty, some tag, and one of the topics if there are any |
| `Problems.AssignedExactlyWhen` | internal/handlers/event_assignment.go:335-359 | a problem is assigned for a score if and only if some entry with that score drew it and its insert went through |
| `Problems.EntryFilled` | internal/handlers/event_assignment.go:293-372 | no entry assigns more than it asked for or the bank had left, and it assigns that many if and only if none of its own inserts failed |
| `Problems.TotalAssigned` | internal/handlers/event_assignment.go:293-377 | the event gets at most the sum of what its entries asked for or the bank had left at their turns, and exactly that many if and only if no insert failed |
| `Problems.RandomProblems` | internal/store/query.sql.go:2837-2855 | refuses exactly the negative limits; otherwise returns different problems of the bank, each of the difficulty, not excluded, tagged, and with one of the topics if there are any, at most as many as the limit, and leaves none out below it |
| `Rewards.GrantRewards` | internal/hub/event_hub.go:397-479 | the first row gets top 1, the second top 2, the third top 3; the calls from the fourth on are participant rewards for rows that name none of those three; the number of calls per id is exact, and one per id when ids are distinct |
| `Rewards.DistinctGetOne` | internal/hub/event_hub.go:446-479 | with distinct ids every participant gets exactly one grant call and nobody else any |
| `Rewards.RewardScoresMatchSnapshot` | internal/store/query.sql.go:1247-1257 | although the reward query sorts by another key, the score at reward position i is the score at snapshot rank i |
| `Rewards.RewardOrderInRun` | internal/hub/event_hub.go:357-397 | if no room was exposed at lock time and no row was inserted since the capture, then in every future the score at reward position i is the score at snapshot rank i |
| `Rewards.RewardOrderWhenSettled` | internal/hub/event_hub.go:357-397 | the same in every reachable state whose snapshot shows the stored scores |
| `Rewards.GuildRewardsFollowRank` | internal/hub/event_hub.go:522-601 | the guild query returns the guild snapshot in rank order: position i is rank i |
| `Registry.LiveRoomListedOnce` | internal/hub/event_hub.go:1064-1145 | in every reachable state a live room is listed exactly once, under its own event and no other |
| `Registry.OneHubPerRoom` | internal/hub/event_hub.go:1092-1099 | a room keeps its hub until a cleanup drops it, however many lookups race |
| `Registry.BroadcastTriesEachOnce` | internal/hub/event_hub.go:1294-1340 | under any interleaving a broadcast tries no hub twice, none of another event, and each hub of the event that stays live exactly once |
| `Registry.EventHub.Lookup` | internal/hub/event_hub.go:1064-1074 | finds a room's hub exactly when there is one |
| `Registry.EventHub.GetOrInstall` | internal/hub/event_hub.go:1089-1145 | an existing hub wins and then nothing changes; otherwise exactly one fresh hub with its index entry is added, and every other hub and list stays |
| `Registry.EventHub.Cleanup` | internal/hub/event_hub.go:1222-1246 | removes exactly the rooms without listeners whose last activity is longer ago than the threshold, keeps the other hubs, and leaves the index alone |
| `Registry.EventHub.BroadcastExpired` | internal/hub/event_hub.go:1294-1340 | run without interruption: every live hub of the event with fewer than ten waiting messages gets the message once, no other queue changes, and the count is of those hubs |
| `Registry.RoomHub.Send` | internal/hub/event_hub.go:1330-1337 | appends the message if fewer than ten are waiting, and drops it otherwise |
| `Registry.RoomHub.Connect` | internal/handlers/sse.go:224-252 | registers a user at most once and never more than a hundred listeners |
| `Codec.ExecutionTimeRoundTrip` | internal/hub/event_hub.go:1849-1871 | reading back a written execution time gives it again, for null and every 32-bit value |
| `Codec.ExecutionTimeMeaning` | internal/handlers/submission.go:287-302 | a text without the suffix yields v exactly when it is a decimal numeral for a 32-bit v, and with "ms" appended it yields v under the same condition, even if it ends in "ms" already |
| `Codec.ExecutionTimeNull` | internal/handlers/submission.go:287-302 | null exactly when the text is no numeral for a 32-bit value, with or without "ms" after it |
| `Codec.ParseIntMeaning` | internal/hub/event_hub.go:1855-1860 | the digit-by-digit reader with its early overflow check yields v exactly when the text is a numeral for v in range |
| `Codec.DurationRoundTrip` | internal/hub/event_hub.go:2284-2291 | the HH:MM:SS text reads back as the whole seconds it was made from, with minutes and seconds below 60 and any number of hours |
| `Codec.DurationInjective` | internal/hub/event_hub.go:2284-2291 | the text determines the whole seconds |
| `Pagination.ParsePaginationParams` | internal/handlers/handler.go:145-183 | size between 1 and 100, and index and offset as 32-bit values of the requested ones |
| `Pagination.RequestMeaning` | internal/handlers/handler.go:155-173 | what size and index a text asks for, in terms of the numeral it spells |
| `Pagination.MalformedRequest` | internal/handlers/handler.go:146-153 | a text that spells no 64-bit number gets the defaults |
| `Pagination.RequestIsExact` | internal/handlers/handler.go:175-182 | a request for page i returns page i of every list if and only if its offset fits in 32 bits |
| `Pagination.FarPageStartsAgain` | internal/handlers/handler.go:175-182 | a request beyond that bound that is answered with rows from the start of the list |
| `Pagination.TotalPagesIsLeast` | internal/handlers/handler.go:125-138 | the page count is the least that holds all rows |
| `Pagination.PagesPartition` | internal/handlers/handler.go:125-183 | pages 1..total_pages, one after the other, are the list, each row exactly once |
| `Pagination.LaterPagesEmpty` | internal/handlers/handler.go:175-182 | a page is empty exactly when its index exceeds the page count |

## Left out

- EngineSettled.FrozenResult: not for events with a room exposed at lock time, because it is false for them (`ExposedDiverges`); guild facts only where the guild snapshot exists, since the code means to go on without it. The same holds for `EngineSettled.Conservation`.
- EngineTheorems.SealedRoomsFrozen: speaks of one room at a time, so it says nothing about rooms without a player at lock time.
- EngineHistory.CompletedIffSnapshot: a snapshot without entries counts as existing; for an event whose capture sees no player row, `leaderboard_entries` has nothing to show it.
- EngineHistory.PointsAwardedOnce: an acceptance whose player has no row when the points are added is accepted without points, as in the code.
- EngineTheorems.LiveLeaderboard: claims nothing about ties between equal scores, because ranking runs before the submission is marked accepted; and it rests on the statement snapshots of the next line.
- Engine: the database is a value and each statement one step that reads the committed rows at the moment its locks are granted. In PostgreSQL a statement that waited for a lock rechecks the rows it found but does not see a row inserted while it waited. So a ranking statement can miss such a row, which touches `LiveLeaderboard`, and the completion's lock statement can leave it unlocked: "present at lock time" has to be read as present when that statement starts, in `LockedRowsFrozen`, `SealedRoomsFrozen` and `SettledExactlyWhen` alike.
- Engine: an error of the guild capture is modelled as the code intends, going on without a guild snapshot; a real PostgreSQL transaction would refuse the later commit, which is the modelled abort. No proof that a bad run exists uses this step.
- Engine: activation and approval are single steps there (their inside is in Activation and Lifecycle), scores are mathematical integers except for the 32-bit guard on adding points, and completion may start at any time (Lifecycle shows when it starts).
- Engine: rows are never deleted, as `DeleteRoomPlayer` is reached by no caller; a submission names its room and, separately, an event that is on and offers the problem, as the submit handler takes both from the request; the early duplicate check of that handler is left out, because it lets a submission pass when its query fails.
- Engine: the profile service decides which guild a joining user belongs to; every selected member may turn out to.
- Lifecycle.NeverCompletedEarly: all instances and the database share one clock, and no database session is west of UTC.
- Lifecycle: the delivery of reward calls and of the expiry message after a completion; both are started once and may be lost.
- EngineSettled.SettledExactlyWhen: whoever may join is fixed at activation. The handlers that select and remove members read the event's status before they write (`internal/handlers/events.go:1063-1127`), so a request that overlaps the activation can still change the list; in the engine as in Membership each such check and write is one step.
- Membership: each handler's check and write is one step; `max_guilds` and `max_players_per_guild` are not claimed, because the code counts without a lock and per request.
- Registry: closing of event channels and listeners, blocking sends, and the room goroutines; `EventHub.CreateRoom` has no caller and is not part of this model.
- Registry.EventHub.BroadcastExpired: states queues only for a broadcast that is not interrupted; interleaving is the subject of `Registry.BroadcastTriesEachOnce`.
- Monitor.EventTable.CheckAndComplete: the counter of already final events is always 0, because a completed event is counted as a success first; the model proves that instead of the log's wording.
- Codec: durations are whole seconds (the countdown is sent only while time remains); sub-second rounding of floating-point seconds is not modelled.
- Pagination.PagesPartition: the rows stay the same while a client walks the pages; total counts are not bounded by 64 bits.
- Activation: the comment in `internal/handlers/event_assignment.go` calls the distribution round-robin; the code and the model use blocks.
- Problems: a failed problem insert is skipped, as the code intends; in PostgreSQL it would also make the commit fail, which is the modelled failing commit.
- The judge, RabbitMQ, gRPC, SSE delivery, JSON, JWT, HTTP routing, logging, retry backoff and the HTML pages.
- Practice submissions, problem and tag administration: no shared-state property to prove.
