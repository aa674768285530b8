# Proofs about the station daemon

This project models what stationd decides to air and the small state machines
around it, and proves what they promise over every input and every run. Each
module stands for one or two source files; `dafny verify dfyconfig.toml` checks
all of them.

- `GridSearch.dfy`, `GridEngine.dfy`: one pull of the engine. `GridSearch` says
  which source wins without any queue; the queue of attempts is proved to make
  exactly that search. `GridEngine` adds the budgets, the held group, the
  effects and the imperative loop.
- `Preview.dfy`: the projection of a grid, minute by minute.
- `ListenerReconnect.dfy`: logical listeners across reconnections, in sub-second
  ticks.
- `Live.dfy`, `LiveOpening.dfy`: the live DJ: login, connection, measurements,
  takeover, air, cut, departure.
- `AirTime.dfy`: air time over the station's halts.
- `GridText.dfy`, `GridToml.dfy`, `GridDocument.dfy`: the grid grammar above the
  TOML text, both ways.
- `GridIndex.dfy`: the same rules in relational tables, both ways.
- `GridFiles.dfy`: the grid files, the active one and the applied grid.
- `LibraryPaths.dfy`, `LibraryReorganize.dfy`: moving media on disk and in the
  index, with a fault possible at each step.
- `IcecastRate.dfy` (with the audience), `ConnectionEvents.dfy`,
  `MediaFolders.dfy`: summaries kept step by step that must agree with a simple
  history.
- `Base.dfy`, `Resolver.dfy`, `Text.dfy`: shared types.

State that the source updates in place is a class here; its methods are tied to
a specification function or predicate, and the results are lemmas about that.
Where a query has no order, loops take rows in any order.

## Assumptions

- The resolver, the live windows and the selection are functions given to the
  engine (`World`, `produce`); `OccurrencesAirOnce` and `ConsumedNeverAirs` assume
  the resolver never offers an occurrence that is already consumed.
- The clock never goes back where a lemma says a run is in time order, and the
  harbor alternates connections and disconnections (`IsRun` in `Live`).
- Each callback, poll, pull or transaction is one step. A login decision is one
  step, although the ban check and the admission take the lock separately.
- A TOML document printed and decoded is itself (`ApplyExternal` only).

## What the proofs found

Each of these has the exact condition first, then an instance.

- A stop by the DJ overwrites the reason of an earlier cut, so "the first reason
  wins" holds exactly without one (`Live.FirstReasonHolds`,
  `Live.StopOverwritesAKick`, src/live.rs:776).
- Starts and ends alternate and the station knows who airs exactly when no
  connection comes while a DJ is on air (`Live.TellsTheAirExactly`); without
  manual takeover such a connection starts a live twice
  (`Live.TwoConnectionsBreakIt`). Over a DJ still preparing it is harmless
  (`Live.SecondConnections`).
- A duration ending in a character of several bytes makes the grammar panic
  (`GridToml.PanicsExactlyOnWideUnits`, `GridToml.WideUnitPanics`,
  src/grid_toml.rs:960-968).
- The grammar accepts durations of 2^63 seconds and more; the index refuses just
  those (`GridIndex.StorableExactly`, `GridIndex.WideDurationsAreRefused`).
- The walk over the halts trusts the newest halt begun: it is right exactly when,
  each time a halt ends with no newer one begun, every older one is over
  (`AirTime.WalkIsExactly`, `AirTime.RunAnswersRightExactly`). A clock set back
  inside a halt breaks that (`AirTime.ClockSetBackAnswersWrong`), set back before
  it does not (`AirTime.ClockSetBeforeAnswersRight`).
- An activation that fails after the index was replaced leaves another grid on
  air than the active file says, unless both say the same rules
  (`GridFiles.Grids.Activate`, `GridFiles.ActivationLost`); so does a save of the
  active file written and not applied (`GridFiles.Grids.AgreeAfterWrite`,
  `GridFiles.SaveLost`).
- `parse_wallclock` takes `+8:5` although its documentation says `HH:MM`; the
  model follows the code (`GridText.ClockTextExactly`, `GridText.LooseClock`).
- A mount listed twice in one read shows the rate of its first entry but restarts
  its window at the second (`IcecastRate.ShowsTheWindowKept`,
  `IcecastRate.ListedTwice`).

## Model

| member | source | states |
|---|---|---|
| `GridSearch.DrainIsTheSearch` | src/grid_engine.rs:1403-1481 | For every ranked list, budgets and answers, the queue makes exactly the tries of the declarative search, in order of budget then rank, up to the least one that ends the pull; it ends dry exactly when no try does. No try is skipped or repeated. |
| `GridSearch.FirstIsUnique` | src/grid_engine.rs:1403-1481 | The least ending (budget, rank) pair is unique, so a pull has one outcome. |
| `GridSearch.AtMostThreeTries` | src/grid_engine.rs:1411-1438 | Whatever the selection answers, a source is asked at most once a budget, at most three times in all. |
| `GridSearch.DrainFrom` | src/grid_engine.rs:1411-1438 | From any point of any budget tier, the rest of the queue is the rest of the search. |
| `GridSearch.TierRanks` | src/grid_engine.rs:1434-1438 | The ranks asked under a budget are, in increasing order, those that found nothing to fit every earlier budget. |
| `GridSearch.QueueMoves` | src/grid_engine.rs:1411-1438 | One turn of the queue moves the head to the back with the next budget exactly when it found nothing to fit. |
| `GridEngine.PullAirsTheFirst` | src/grid_engine.rs:1325-1513 | A pull airs the source of the least ending (budget, rank) try when it produced a media, with that media; an error there surfaces; the pool is empty, or the pull falls back, exactly when no try ends it. |
| `GridEngine.EffectsBelongToTheWinner` | src/grid_engine.rs:1440-1467 | Cooldowns, consumed clock occurrences and the log change at most once, only for the source that airs; a held turn consumes nothing; a pull that airs nothing consumes nothing. |
| `GridEngine.EmptiesFound` | src/grid_engine.rs:1469-1488 | The sources recorded as empty are exactly those asked before the end that answered with an empty pool. |
| `GridEngine.HoldAfterPull` | src/grid_engine.rs:1447-1467 | What holds the air after a pull: the winner's group if it just started a cycle, the held group until its cycle ends or it is found empty, nothing else. |
| `GridEngine.HeldGroupKeepsTheAir` | src/grid_engine.rs:1363-1390 | A held group with a turn ready airs before everything but the hard rendez-vous, and no playback state moves. |
| `GridEngine.OccurrencesAirOnce` | src/grid_engine.rs:1325-1513 | Over any run of pulls, overrides and wakes, a clock occurrence airs at most once, if the resolver never offers a consumed one. |
| `GridEngine.ConsumedNeverAirs` | src/grid_engine.rs:1289-1306 | An occurrence once consumed, and one slept through, never airs in any later run of pulls: a wake catches nothing up. |
| `GridEngine.HoldsComeFromTheLog` | src/grid_engine.rs:1615-1655 | In any run, a hold was started by a logged track of a punctual rule. |
| `GridEngine.LeastExpiryIsLeast` | src/grid_engine.rs:1657-1685 | The extension of a hard mark is bounded by the least expiry of the occurrences due at it. |
| `GridEngine.DeadlineIsSafe` | src/grid_engine.rs:1657-1685 | Walking the minutes after a mark stops just before the first minute at which a due occurrence has lapsed, or at the extension; no later deadline is safe. |
| `GridEngine.LateBudgetIsSafe` | src/grid_engine.rs:1657-1685 | A track under the late budget ends before every due expiry, within the ten-minute guard, and before any due occurrence lapses; the budget is as long as that allows. |
| `GridEngine.HardExpiryBudget` | src/grid_engine.rs:1657-1685 | The minute loop computes the late budget of the specification. |
| `GridEngine.FitBudgets` | src/grid_engine.rs:1388-1410 | The budgets of a pull: on time for the next hard mark when it is near, late only when longer than that, and unbounded last. |
| `GridEngine.Engine.ReconcileWake` | src/grid_engine.rs:1289-1306 | After a wake the missed occurrences are consumed and the held group released, once. |
| `GridEngine.Engine.CurrentHold` | src/grid_engine.rs:1571-1598 | A hold whose rule no longer names it is dropped, its group reset; any other stands. |
| `GridEngine.Engine.End` | src/grid_engine.rs:1599-1614 | Ending a hold clears it and restarts the group it named. |
| `GridEngine.Engine.Persist` | src/grid_engine.rs:2018-2033 | A clock occurrence is consumed and an `every` cooldown restarted for the decision that aired, no other state. |
| `GridEngine.Engine.StartHoldIfGroup` | src/grid_engine.rs:1615-1655 | Only a punctual rule whose group says it holds starts a hold. |
| `GridEngine.Engine.TrySources` | src/grid_engine.rs:1411-1438 | The loop over attempts with their own budgets follows the abstract queue: same tries, same empties, same end, and it terminates. |
| `GridEngine.Engine.FallThrough` | src/grid_engine.rs:1411-1513 | The pull settles on what the search decides, with its effects. |
| `GridEngine.Engine.NextMedia` | src/grid_engine.rs:1325-1513 | The imperative pull reaches exactly the state and reply of the specification, gate, wake and override included. |
| `Preview.ExpansionIsTheWalk` | src/grid_engine.rs:1195-1262 | Expanding a preview gives back the simulated trace: the last occurrence not after a minute carries that minute's decision. |
| `Preview.PreviewIsTheTrace` | src/grid_engine.rs:1195-1262 | At every minute of the walk some occurrence is in force, it carries that minute's decision, and no occurrence repeats the one before. |
| `Preview.PreviewIsUnique` | src/grid_engine.rs:1237-1262 | A walk has exactly one change-only form: two projections of it are equal. |
| `Preview.Record` | src/grid_engine.rs:1237-1262 | Recording a minute prolongs the last segment exactly when the decision did not change, so consecutive occurrences differ. |
| `Preview.Decide` | src/grid_engine.rs:1196-1212 | A minute is decided in the state left by all the minutes before it, and leaves the next one. |
| `Preview.WatchDj` | src/grid_engine.rs:1214-1234 | After a minute, a DJ's recorded spans tell its window minute by minute, other DJs untouched. |
| `Preview.WatchDjs` | src/grid_engine.rs:1214-1234 | All the enabled DJs are told up to the same minute. |
| `Preview.PreviewOf` | src/grid_engine.rs:1111-1271 | The projection over at most 31 days is given exactly when every minute decides on a playlist with a canonical name; it then expands to the simulated walk, and its live intervals are the windows. |
| `Preview.LiveIntervalsAreTheWindows` | src/grid_engine.rs:1214-1234 | A DJ's intervals are disjoint, in order, and hold a minute exactly when its window is open then. |
| `Preview.DjsAreSorted` | src/grid_engine.rs:1178-1188 | The DJs watched are those of enabled live rules, each once, in order. |
| `ListenerReconnect.PollKeepsIds` | src/listener_reconnect.rs:25-116 | After any complete poll at any instant, ids are given once and every session is new, seen again, or held within its lease. |
| `ListenerReconnect.ViewsHaveDistinctIds` | src/listener_reconnect.rs:89-116 | In every view of every run the logical ids are pairwise distinct. |
| `ListenerReconnect.IdsAreNeverReused` | src/listener_reconnect.rs:40-88 | An id given once stays at its endpoint through any polls; once gone it is never given again. |
| `ListenerReconnect.WasThere` | src/listener_reconnect.rs:40-88 | One poll back, an id that is not new was at the same endpoint, as the same session or one whose age carried over. |
| `ListenerReconnect.AgesNeverDecrease` | src/listener_reconnect.rs:50-116 | The age reported for an id never goes down, through complete, failed and late polls. |
| `ListenerReconnect.AgesKeepPace` | src/listener_reconnect.rs:50-116 | With instants on whole seconds it grows at least by the time elapsed. |
| `ListenerReconnect.AgesNearlyKeepPace` | src/listener_reconnect.rs:50-116 | At any instants it grows by the time elapsed, but for less than a second each time a complete poll showed its endpoint again. |
| `ListenerReconnect.SinceIsAPoll` | src/listener_reconnect.rs:50-116 | The instant an age counts from is that of a complete poll. |
| `ListenerReconnect.ClientsAreShown` | src/listener_reconnect.rs:40-96 | Every client of a complete poll is in the table under its raw id, not younger than reported by the server. |
| `ListenerReconnect.LoneListenerKeepsItsId` | src/listener_reconnect.rs:55-88 | A lone listener keeps its id exactly when its raw session goes on, or the poll is recent and it may have replaced it; otherwise it gets a fresh one. |
| `ListenerReconnect.LastSeenIsTrue` | src/listener_reconnect.rs:97-116 | The last-seen instant of a session is that of the last complete poll that showed its endpoint. |
| `ListenerReconnect.NoListenerOutlivesItsLease` | src/listener_reconnect.rs:97-116 | A listener in the view of a complete poll was really seen less than thirty seconds before: the last poll that saw it is that recent, however many polls came between. |
| `ListenerReconnect.ViewShows` | src/listener_reconnect.rs:89-116 | A view shows each session of its endpoints once, with its carried age. |
| `ListenerReconnect.Continuity.MatchGroup` | src/listener_reconnect.rs:50-88 | The nested loops match the clients of one endpoint as specified: same raw client first, then a single replacement, then fresh ids. |
| `ListenerReconnect.Continuity.Sample` | src/listener_reconnect.rs:25-116 | One poll takes the table to the specified one; a failed poll changes no session and gives no view. |
| `ListenerReconnect.Continuity.ValidFor` | src/listener_reconnect.rs:119-124 | A view is declared valid no longer than the limit or the earliest lease among the retained sessions. |
| `Live.TellsTheAirExactly` | src/live.rs:512-592 | In every run, whatever the clock and the harbor do: LiveStarted and LiveEnded alternate with matching DJs and the station knows a DJ exactly while its session airs, if and only if no connection came while a DJ was on air. |
| `Live.HarborNeverConnectsOverAir` | src/live.rs:512-592 | A harbor that disconnects one DJ before it connects the next never connects over the air. |
| `Live.EventsAlternate` | src/live.rs:512-592 | So in every run under such a harbor starts and ends alternate, and the station knows a DJ exactly while the session airs. |
| `Live.SecondConnections` | src/live.rs:512-560 | The same second connection is harmless over a DJ still preparing in manual mode and breaks the alternation over one on air. |
| `Live.TwoConnectionsBreakIt` | src/live.rs:512-560 | Such a run: two connections start a live twice. |
| `Live.ReadyMeansBacked` | src/live.rs:645-664 | The input is ready exactly when a streak of good measurements, without a gap over 3 s, covers the 3 s before and is fresh. |
| `Live.HealthIsTheSamples` | src/live.rs:645-664 | In every run the health record tells exactly the measurements of the current session. |
| `Live.AirsOnlyAfterATake` | src/live.rs:667-679 | In manual mode a DJ airs only after its own take in this very session, made while three seconds of good audio backed it. |
| `Live.OnlyCutsClose` | src/live.rs:613-641 | Nothing but a silence or a kick closes a slot or the urgent right, or cuts an opening; but for a request to open or close one, openings stay exactly as they were, so a stop or a plain departure closes nothing. |
| `Live.LoginIsOpen` | src/live.rs:411-509 | A login waits exactly when the DJ file accepts it, nobody is on or waits, and some way is open: a slot of its own not banned, an active opening not cut, or the urgent right held and not cooling. It then comes in by the first of these. |
| `Live.OpeningsStayInOrder` | src/live.rs:790-822 | At every moment of a run each DJ has at most one active opening. |
| `Live.BansAreTheLatestCuts` | src/live.rs:622-632 | The ban list is the last 64 slots newly cut, each once. |
| `Live.CutSlotStaysBanned` | src/live.rs:442-449 | A cut slot stays refused until 64 more slots were newly cut. |
| `Live.CutOpeningStaysCut` | src/live.rs:636-640 | A recorded cut of an opening holds for the rest of the run. |
| `Live.CutStartsTheCooldown` | src/live.rs:633-634 | The urgent cooldown of a DJ is not older than its last cut. |
| `Live.CutClosesTheWays` | src/live.rs:436-509 | After a cut a later login of that DJ gets in neither by the slot while remembered, nor by the opening once recorded, nor by the urgent right before the cooldown ends. |
| `Live.FirstReasonHolds` | src/live.rs:613-641 | Until the DJ is gone the reason of its end is that of the first cut, exactly when it did not stop by itself meanwhile (a stop overwrites it). |
| `Live.StopOverwritesAKick` | src/live.rs:773-780 | Such a run: a DJ kicked, then stopping by itself, ends as voluntarily disconnected. |
| `Live.LiveHub.Admit` | src/live.rs:487-509 | A login is admitted exactly when nobody is on and no other login waits within 30 s. |
| `Live.LiveHub.Decide` | src/live.rs:411-485 | Slot, then opening, then urgent right: the whole decision as one step of the specification. |
| `Live.LiveHub.Connected` | src/live.rs:512-560 | The harbor took the stream: the session, its health reset and, unless manual, its start. |
| `Live.LiveHub.DisconnectedBy` | src/live.rs:563-592 | The end of a session, with the reason noted, reported exactly when it aired. |
| `Live.LiveHub.End` | src/live.rs:613-641 | A cut closes the way the DJ came by and keeps the first reason; the loop drops the oldest bans beyond the cap. |
| `Live.LiveHub.Kick` | src/live.rs:604-608 | A kick is a cut with its own reason. |
| `Live.LiveHub.SilenceReported` | src/live.rs:595-601 | Silence cuts, but for a DJ still preparing in manual mode. |
| `Live.LiveHub.InputHealth` | src/live.rs:645-664 | One measurement takes the health record to the specified one. |
| `Live.LiveHub.Aired` | src/live.rs:667-679 | The transition starts the live once, only when the air was requested. |
| `Live.LiveHub.DjTake` | src/live.rs:761-770 | A take is granted exactly to the DJ on, with a valid way and a ready input. |
| `Live.LiveHub.DjStop` | src/live.rs:773-780 | A stop of the DJ on marks its end as voluntary. |
| `LiveOpening.AtMostOneActive` | src/live_opening.rs:35-46 | A table kept in order has at most one active opening a DJ, and it is the one `active` gives. |
| `LiveOpening.OpenKeepsOrder` | src/live_opening.rs:62-79 | Opening closes the active one first, so the order is kept. |
| `LiveOpening.CloseKeepsOrder` | src/live_opening.rs:82-93 | Closing keeps the order. |
| `LiveOpening.CutKeepsOrder` | src/live_opening.rs:95-100 | Marking a cut keeps the order. |
| `LiveOpening.OpeningTable.Open` | src/live_opening.rs:62-79 | The table with the active opening ended and the new one added. |
| `LiveOpening.OpeningTable.Close` | src/live_opening.rs:82-93 | The active opening, if any, ends now. |
| `LiveOpening.OpeningTable.MarkCut` | src/live_opening.rs:95-100 | One row is marked, no other changes. |
| `AirTime.CutoffFrom` | src/air_time.rs:61-77 | The loop gives the walk of the specification; on halts newest first, where each time one ends with no newer one begun every older one is over, that is exactly the latest instant from which the non-halted seconds reach the window, or the first instant an i64 holds. |
| `AirTime.WalkIsExactly` | src/air_time.rs:61-77 | Of halts newest first, in any order where starts are equal, overlapping or not, begun after the first instant an i64 holds: every answer at every instant for every window is right if and only if, each time a halt ends with no newer one begun, every older one is over. |
| `AirTime.DisjointTells` | src/air_time.rs:61-77 | Disjoint halts are such. |
| `AirTime.CutoffIsUnique` | src/air_time.rs:61-77 | There is one such instant. |
| `AirTime.CutoffsCompose` | src/air_time.rs:61-77 | Cutting by a, then from there by b, gives exactly the cutoff of a + b that is not after the first, and conversely. |
| `AirTime.FrozenWhileHalted` | src/air_time.rs:48-77 | While any halt stays open, a positive window's cutoff does not move. |
| `AirTime.AnswersRightExactly` | src/air_time.rs:27-77 | A table, in whatever order its rows were written, answers right at every instant for every window exactly when its rows, sorted by start, are such. |
| `AirTime.RunAnswersRightExactly` | src/air_time.rs:27-77 | So does the table any marks leave, whatever the clock does. |
| `AirTime.ForwardClockAnswersRight` | src/air_time.rs:27-77 | Under a clock that never goes back every table answers right. |
| `AirTime.OpensExactly` | src/air_time.rs:27-37 | Opening a halt keeps a table right exactly when no row begins later. |
| `AirTime.ClosesExactly` | src/air_time.rs:38-42 | Closing the newest halt keeps it right exactly when no older row ends later. |
| `AirTime.EveryTableIsOrdered` | src/air_time.rs:27-43 | Under a clock that never goes back, every reachable table has its halts in order and disjoint, at most one open, the last. |
| `AirTime.MarkKeepsOrder` | src/air_time.rs:27-43 | One mark keeps that order. |
| `AirTime.RunKeepsOrder` | src/air_time.rs:27-43 | So does any run of marks. |
| `AirTime.ClockSetBackAnswersWrong` | src/air_time.rs:27-77 | Such a run: with the clock set back inside a halt already written, ten seconds of air time at 150 are said to begin at 140, inside that halt. |
| `AirTime.ClockSetBeforeAnswersRight` | src/air_time.rs:27-77 | With the clock set back before that halt, the rows are out of order and every answer is right all the same. |
| `AirTime.AnswerIsTheWalk` | src/air_time.rs:48-57 | Sorting the rows and leaving out those begun later changes neither the walk nor the cutoff. |
| `AirTime.StepOverHalt` | src/air_time.rs:65-76 | Walking over one halt and the aired stretch after it keeps what is left of the window exact. |
| `AirTime.HaltTable.Mark` | src/air_time.rs:27-43 | Opening twice opens once; closing closes every open row. |
| `AirTime.HaltTable.Cutoff` | src/air_time.rs:48-58 | The query and the walk give the answer of the specification, which is the cutoff of the whole table on those that tell it. |
| `GridText.ClockRoundTrip` | src/grid_toml.rs:911-932 | A printed time of day is read back. |
| `GridText.ClockTextExactly` | src/grid_toml.rs:911-932 | A text read as a time of day is the printed one exactly when it is two digits, a colon and two digits. |
| `GridText.LooseClock` | src/grid_toml.rs:911-928 | Such a text that is not: `+8:5` reads as 08:05. |
| `GridText.DateRoundTrip` | src/grid_toml.rs:934-956 | A printed date is read back, by the grammar and by the index. |
| `GridText.ParsedDatesAreDates` | src/grid_toml.rs:934-952 | A date the grammar reads is in range, its year in four digits. |
| `GridText.DurationRoundTrip` | src/grid_toml.rs:960-996 | A printed duration is read back, in its largest exact unit, up to the last u64. |
| `GridText.DurationsArePositive` | src/grid_toml.rs:960-984 | A duration that is read is positive. |
| `GridText.WeekdayRoundTrip` | src/grid_toml.rs:998-1021 | A printed weekday is read back. |
| `GridText.TrimIsTrimmed` | src/grid_toml.rs:408 | Trimming twice is trimming once. |
| `GridText.DecimalIsRead` | src/grid_toml.rs:986-996 | Decimal digits are read back as their number, without a leading zero. |
| `GridToml.NoProblemMeansBuilt` | src/grid_toml.rs:629-641 | When no problem was found the kind was built: the final `expect` cannot fire. |
| `GridToml.AcceptsOnlyValid` | src/grid_toml.rs:407-642 | A document is accepted only into a valid rule. |
| `GridToml.RuleRoundTrip` | src/grid_toml.rs:756-996 | Printing any valid rule and parsing it back accepts and gives the same rule. |
| `GridToml.ReprintIsStable` | src/grid_toml.rs:739-751 | An accepted document reprints into one accepted into the same rule. |
| `GridToml.NothingIsIgnored` | src/grid_toml.rs:477-517 | An accepted document and the print of its rule have the same scheduling fields with the same numbers, times, durations and names, but for a mode left to its default: nothing given is ignored. |
| `GridToml.PanicsExactlyOnWideUnits` | src/grid_toml.rs:960-968 | The conversion panics exactly when a duration it reads ends in a character that is not one byte. |
| `GridToml.WideUnitPanics` | src/grid_toml.rs:960-968 | Such a document: a clock rule whose expiry is a five and an accented letter. |
| `GridToml.NoProblemAtAll` | src/grid_toml.rs:629-637 | A rule is free of problems exactly when each group of checks is. |
| `GridToml.WrittenKindReads` | src/grid_toml.rs:519-627 | The fields a kind is written in read back as that kind, without a problem. |
| `GridToml.NoStray` | src/grid_toml.rs:475-517 | No stray field is reported exactly when every field given belongs to the kind. |
| `GridToml.DaysAreDistinct` | src/grid_toml.rs:457-466 | The weekdays kept are pairwise distinct. |
| `GridToml.DaysRoundTrip` | src/grid_toml.rs:457-466 | Printed distinct weekdays are kept in order without a problem. |
| `GridToml.ReadsAnchor` | src/grid_toml.rs:756-838 | A printed anchor is read back as the one form given. |
| `GridToml.KindOfAccepted` | src/grid_toml.rs:519-642 | The kind of an accepted rule is well formed and the one its fields say. |
| `GridDocument.ToRule` | src/grid_toml.rs:407-642 | The step by step conversion, problems pushed as they are found, gives exactly the specified verdict and problems in order. |
| `GridDocument.ReadKind` | src/grid_toml.rs:519-627 | The fields of the kind, read one by one, give the kind or its problems in order, or the panic. |
| `GridDocument.ReadAnchor` | src/grid_toml.rs:756-838 | The loop over the anchors given reports each one after the first; alone, the one given is checked. |
| `GridDocument.ReadDays` | src/grid_toml.rs:457-466 | The loop over weekdays keeps and reports what the specification does. |
| `GridDocument.FindStray` | src/grid_toml.rs:475-517 | The loop over scheduling fields reports the stray ones in order. |
| `GridDocument.CheckSet` | src/grid_toml.rs:369-402 | One pass finds each repeated id at its own number and the second floor. |
| `GridDocument.SetIsClean` | src/grid_toml.rs:369-402 | No problem of the set is reported exactly when ids are distinct and at most one rule is a base rotation. |
| `GridDocument.ParseGrid` | src/grid_toml.rs:155-178 | The strict reader stops at the first fault, in the order version, rules, set. |
| `GridDocument.DiagnosePartial` | src/grid_toml.rs:276-342 | The diagnosing reader keeps the rules that are fine with their numbers and collects every problem. |
| `GridDocument.AcceptsExactly` | src/grid_toml.rs:155-178 | The strict reader accepts exactly version 1 documents whose rules are each accepted and together well formed, and returns them in order. |
| `GridDocument.ReadersAgree` | src/grid_toml.rs:264-342 | The strict reader accepts exactly when the diagnosing one finds nothing, on the same rules numbered in order. |
| `GridDocument.ReadIsValid` | src/grid_toml.rs:155-178 | What is read is valid, with distinct ids and at most one floor. |
| `GridDocument.GridRoundTrip` | src/grid_toml.rs:745-751 | A printed grid of valid rules is read back into its rules exactly when it is well formed. |
| `GridDocument.PrintedRules` | src/grid_toml.rs:745-751 | Whatever the set, what a printed grid reads into, if anything, is its rules. |
| `GridDocument.ReadPrintRead` | src/grid_toml.rs:739-751 | What was read once is a fixed point of printing and reading. |
| `GridIndex.InsertDays` | src/grid_index.rs:253-259 | Weekday rows are added exactly when no weekday repeats. |
| `GridIndex.InsertInTx` | src/grid_index.rs:225-328 | A rule is written exactly when no key of its rows is taken, no weekday repeats and its detail is within the checks; then its rows, and only they, are added. |
| `GridIndex.Index.ReplaceGrid` | src/grid_index.rs:203-222 | Replacing succeeds exactly for distinct ids and rows within the checks; the tables then hold these rules and nothing else, or are unchanged. |
| `GridIndex.GroupDays` | src/grid_index.rs:48-59 | Weekday rows in any order are grouped by rule, each day once, or a bad one is named. |
| `GridIndex.Index.ReadRule` | src/grid_index.rs:134-186 | A base row with its detail reads as one rule, or the fault named is in the tables. |
| `GridIndex.Index.LoadGrid` | src/grid_index.rs:39-189 | Loading gives each base row as one rule, in any order, or an error that the tables justify. |
| `GridIndex.LoadsMeansNotFaulty` | src/grid_index.rs:39-189 | Tables that load have no fault to report. |
| `GridIndex.DetailReadsBack` | src/grid_index.rs:143-178 | A detail row reads back into the kind it was written from, through the casts. |
| `GridIndex.StoredNeverFails` | src/grid_index.rs:39-189 | Stored rules never report a missing detail, a bad date or a bad weekday. |
| `GridIndex.LoadUndoesReplace` | src/grid_index.rs:203-222 | Loading after replacing gives the same rules by id, weekdays as sets, whatever was stored before and whatever the order of rows. |
| `GridIndex.StoredTwice` | src/grid_index.rs:203-222 | Tables that store some rules store others exactly when these are the same by id, weekdays as sets. |
| `GridIndex.StorableExactly` | src/grid_index.rs:262-324 | The index takes a valid rule exactly when its duration fits an i64. |
| `GridIndex.WideDurationsAreRefused` | src/grid_index.rs:291 | An expiry of 2^63 seconds is valid for the grammar and refused by the index. |
| `GridIndex.ExportReparses` | src/grid_toml.rs:745-751 | After an apply and a load, the export reads back into the loaded rules, which are the applied ones. |
| `GridIndex.WithRuleKeeps` | src/grid_index.rs:225-328 | Writing a rule leaves the rows of every other rule as they were. |
| `GridFiles.NormalNamesStay` | src/grid_files.rs:55-73 | A normalized name is a plain file name with its suffix, and normalizing it changes nothing. |
| `GridFiles.Grids.Judge` | src/grid_files.rs:188-199 | A text is fine exactly when the strict reader accepts it and the station knows its playlists and DJs; its rules are then those read. |
| `GridFiles.Grids.ApplyFile` | src/grid_files.rs:396-405 | A file is applied exactly when it is there, a grid, known to the station and within the index, and no call fails; the index then holds its rules. It holds them too when the engine fails afterwards; in every other case the air is untouched. |
| `GridFiles.Grids.Save` | src/grid_files.rs:297-326 | The file is written exactly when the caller gave its revision, the text is a grid the station knows and no call failed before; otherwise nothing changes. If the active file agreed with the air before, it does after exactly when nothing was written over it, or the text reached the index, or it says the same rules as before. |
| `GridFiles.Grids.AgreeAfterWrite` | src/grid_files.rs:297-326 | A file written over and the air disagree exactly when it is the active one, the air was not rebuilt, and it says other rules. |
| `GridFiles.Grids.Activate` | src/grid_files.rs:330-337 | A grid is activated exactly when its file is applied and remembered; then active file and air agree. If they agreed before, they do after a failure exactly when the index was not replaced, or the file says the same rules as the active one. |
| `GridFiles.ActivationLost` | src/grid_files.rs:330-337 | Such a failure: another grid is on air than the active file says, whether the engine failed after the index was replaced or only remembering failed. |
| `GridFiles.SaveLost` | src/grid_files.rs:310-317 | The same after a save written and not applied. |
| `GridFiles.Grids.Reload` | src/grid_files.rs:340-361 | After a reload or a start active file and air agree exactly when they did before or the file was good enough to replace the index; the problem noted is the first of a refused file, an unreadable one for a failure, none for a success or a missing file, and the one before when the active name could not be read. |
| `GridFiles.Grids.ApplyText` | src/grid_files.rs:379-392 | The text becomes the active file exactly when it is a grid the station knows and no call failed before; active file and air then agree exactly when it reached the index or says the same rules as before. |
| `GridFiles.Grids.Merge` | src/grid_files.rs:367-377 | Several files merge exactly when each is a grid on its own. |
| `GridFiles.Grids.ApplyExternal` | src/grid_files.rs:365-393 | Applied files are in the active file: it says their rules in order, known to the station, and the index holds them; refused, nothing changes. |
| `LibraryPaths.FindDestination` | src/library_reorganize.rs:26-58 | The loop over levels gives the destination of the specification, or fails at the first bad level. |
| `LibraryPaths.DestinationIsSafe` | src/library_reorganize.rs:26-58 | A destination is one safe folder a genre level, then the file name of the source: it cannot leave the library. |
| `LibraryPaths.DestinationIsStable` | src/library_reorganize.rs:26-58 | The destination of a destination is itself. |
| `LibraryPaths.LabelsRejoin` | src/library_reorganize.rs:36 | Cutting a genre at `---` loses nothing. |
| `LibraryPaths.FoldersAreSafe` | src/library_reorganize.rs:37-54 | A level becomes a name with no separator, control or reserved character, no trailing dot or space. |
| `LibraryPaths.JoinedNames` | src/library_reorganize.rs:55-57 | Joined names are the components of the path. |
| `LibraryReorganize.Library.HardLink` | src/library_reorganize.rs:249-252 | A link never replaces an existing name. |
| `LibraryReorganize.Library.MoveFile` | src/library_reorganize.rs:241-260 | The disk part moves the file exactly when inspected and no step fails; failing, it leaves the disk changed exactly when the link was made and neither the source nor the link could be removed. |
| `LibraryReorganize.Library.MoveOne` | src/library_reorganize.rs:197-280 | With a fault possible at each step: the move succeeds exactly without a fault, disk and index together; failing, it leaves the index as it was, and the disk changed exactly when after the link a step and its recovery failed; every state of the disk on the way is before, both names, or after. |
| `LibraryReorganize.MidwayIsReachable` | src/library_reorganize.rs:197-280 | In each of those states the file is reachable under one of its two names and no other path is altered. |
| `LibraryReorganize.MarkShared` | src/library_reorganize.rs:117-130 | Destinations are counted before anything moves. |
| `LibraryReorganize.CountShares` | src/library_reorganize.rs:126-129 | A count above one means another media has the same destination. |
| `LibraryReorganize.Library.TakeRow` | src/library_reorganize.rs:131-192 | One row: its status says what happened to disk and index; a dry run touches neither. |
| `LibraryReorganize.Library.Run` | src/library_reorganize.rs:103-195 | A run, in any order of rows: index paths stay distinct; no file is lost at any moment; if recovery works the set of files is conserved and every row follows its file; each status tells its row; a dry run changes nothing. |
| `LibraryReorganize.Library.RunOn` | src/library_reorganize.rs:131-195 | The same for the loop over rows whose destinations are already reserved. |
| `LibraryReorganize.SharedStayInPlace` | src/library_reorganize.rs:168-170 | Of two media with one destination, neither moves. |
| `LibraryReorganize.FollowersAgree` | src/library_reorganize.rs:103-195 | A row that agreed with the disk before a run agrees after it. |
| `LibraryReorganize.MovedMediaStay` | src/library_reorganize.rs:26-58 | A media at its destination has that destination. |
| `LibraryReorganize.MovedRowsAreHome` | src/library_reorganize.rs:103-195 | A moved row is at its destination and a later run leaves it there. |
| `LibraryReorganize.ConservedMoves` | src/library_reorganize.rs:241-260 | A move keeps the set of files. |
| `IcecastRate.Health.Record` | src/icecast.rs:329-359 | After any reads each mount's window is the window of its uninterrupted run, and each rate shown is that of the window ending at the mount's first entry. |
| `IcecastRate.ShowsTheWindowKept` | src/icecast.rs:329-359 | The rate shown is that of the window kept exactly when the mount is listed once, or when the run of its first entry does not go on or lasts less than half a minute. |
| `IcecastRate.RateIsShown` | src/icecast.rs:348-353 | A rate is shown exactly once the run of the first entry goes on and lasts half a minute. |
| `IcecastRate.SecondEntryStartsOver` | src/icecast.rs:331-354 | A second entry of a mount in one read leaves a run of one sample. |
| `IcecastRate.ListedTwice` | src/icecast.rs:331-354 | Such a read: ten bytes over forty seconds are shown, and the window kept shows none. |
| `IcecastRate.RunsAreProper` | src/icecast.rs:338-344 | In every run times strictly increase and bytes never decrease. |
| `IcecastRate.RunComesFromLastPolls` | src/icecast.rs:333-354 | The samples of a run are those of the last reads, one each, none skipped. |
| `IcecastRate.BeginIsLatest` | src/icecast.rs:345-347 | The window begins at the latest sample at least 60 s old, or at the start of the run when there is none. |
| `IcecastRate.WindowSlides` | src/icecast.rs:344-347 | Sliding the kept window gives the window of the whole run. |
| `IcecastRate.KeptExtends` | src/icecast.rs:338-354 | Continuing or restarting from the kept window and from the whole run agree. |
| `IcecastRate.RatesAreDefined` | src/icecast.rs:348-353 | A shown rate spans at least 30 s and its bytes difference is never negative: subtraction and division are defined. |
| `IcecastRate.Audience` | src/icecast.rs:193-204 | The audience is known exactly when every mount of ours is fed and counted by its first source; it is then the sum of their listeners, at most a u32; otherwise the first mount that is not known says why. |
| `IcecastRate.Slide` | src/icecast.rs:345-347 | The loop drops samples down to the window. |
| `ConnectionEvents.Tracker.Observe` | src/connection_events.rs:42-75 | The journal of all changes always replays into the tracker's clients; each poll announces exactly the ends and starts, ends before starts and each in the order of keys, each end with its start's time and the previous complete poll as last seen; a missing poll announces nothing. |
| `ConnectionEvents.ReplayedJournalsAlternate` | src/connection_events.rs:42-75 | In a journal that replays, each client's starts and ends alternate, beginning with a start, with matching start times, and it is live exactly after a start. |
| `ConnectionEvents.CollectEnds` | src/connection_events.rs:47-58 | Exactly the clients gone or younger than before are ended, in the order of keys, with what was remembered of them. |
| `ConnectionEvents.CollectStarts` | src/connection_events.rs:59-72 | Exactly the new or younger clients are started, in the order of keys, and what is remembered is rebuilt. |
| `ConnectionEvents.ByKey` | src/connection_events.rs:44-45 | Of two entries for one client the last counts. |
| `MediaFolders.CountFolders` | src/media_folders.rs:25-36 | A folder's count is the number of indexed paths below it, the root's the number of all. |
| `MediaFolders.CountPath` | src/media_folders.rs:28-35 | Walking up a path adds one to each of its ancestors and to nothing else. |
| `MediaFolders.Inventory` | src/media_folders.rs:25-43 | The inventory lists every ancestor and the root, in order, with its count. |
| `MediaFolders.InventoryIsUnique` | src/media_folders.rs:25-43 | There is one such inventory. |
| `MediaFolders.PathsBelow` | src/media_folders.rs:28-35 | A count is positive exactly when some path is below. |
| `MediaFolders.ListFolders` | src/media_folders.rs:14-50 | A page is the page of the inventory after the cursor. |
| `MediaFolders.CursorResumes` | src/media_folders.rs:38-46 | A cursor resumes right after the folder it names. |
| `MediaFolders.PagesListEverything` | src/media_folders.rs:37-49 | Following the cursors with any limits lists the inventory without gap or repeat: always a prefix, all of it when no cursor is left, which comes before there are more pages than folders. |
| `Text.LessIsTotal` | src/media_folders.rs:39-40 | The order of texts is total. |
| `Text.InsertSorts` | src/media_folders.rs:24-26 | Inserting keeps a list sorted, without repeats, and adds just that text. |

## Left out

- TOML, XML and SQL text, HTTP, gRPC, file permissions, symbolic links and lock files: models start from decoded documents, maps and sequences; a refused inspection stands for the links.
- Time zones: the engine's civil time is inside the resolver functions.
- Resolver, selection, shuffle bags, station control and its override queue: functions or inputs; an override that airs is given with the pull.
- Preview statistics of each pool, the decomposition of groups and a failure of the inspection itself: reports beside the timeline. Whether a playlist has a canonical name is given.
- Per-rule classification of a boundary that was missed (src/grid_engine.rs:1686-1722): the log keeps one entry for the overrun.
- Coverage reports, event ring, byte ranges, draw counters, password hashes, tickets, DJ file checks: small helpers.
- Diagnostics: codes, fields, numbers and ids are kept; messages, `rejected` and `expected` texts and the final sort in file order are not.
- Saturating and wrapping instants: only the i64 floor of a cutoff, the i64 casts of the index and the start estimate of a connection are modelled; other instants are unbounded.
- Logical ids: numbers; the text around them is not modelled, nor the overflow of the counter.
- Live level: an integer in decibels, so the logarithm is outside; refusal texts and the bounds of an opening's duration are not modelled.
- Halts of equal start: the query gives no order between them; a table is read with the last inserted first, as the index scan does, while the result about the walk holds for every order.
- Reorganization: of the eight tables renamed in the transaction, the media rows and their genre; index paths are taken as the scanner writes them, without repeated separators; a directory half made by a failed `create_dir_all` is not modelled.
- MediaFolders.ListFolders: the index does not change between two pages.
- Grid files: the listing, the reading for editing and the preview source are not modelled.
- GridFiles.Grids.Reload: one method for the reload and the load at start-up, which differ in what they return.
- GridFiles.Grids.Save: says nothing of the revision of the written text beyond the text itself, because the fingerprint is a given function.
