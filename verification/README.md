# Which collected instants can be trusted

The collector of this repository watches one Twitch channel. It polls the stream, listens to
EventSub for chat, raids and follows, and records beside the data what it could observe and
when: health rows, reconnection gaps, presence snapshots, raid-context rows. SQL views then turn
those rows into coverage. This project models the parts that decide which instants may be
trusted, and proves what they guarantee over whole runs.

## Layout

| file | what it holds |
|---|---|
| Common | clock readings in integer microseconds, sources, statuses |
| EventSub | readiness of one EventSub session: functions, lemmas, class `SessionReadiness` |
| EventSink | per-source health of raids, follows and chat: functions, lemmas, class `EventSink` |
| EventRouter | routing to the sinks and the `reconnection_gaps` rows: functions, lemmas, class `EventRouter` over `EventSink` objects |
| Recovery | the recovery protocol as a function of the probe's state and of everything the outside answers |
| RecoveryInvariants, RecoveryRuns | the invariant of the protocol, kept by every tick |
| RouterGuarantees | what router calls do to sinks that are down, to row times, and after a storage failure |
| RecoveryGuarantees | the same for every part of a tick |
| RecoveryTheorems | the guarantees over every run |
| Handover | how connection attempts and pending handovers can end, and the one unset retry time |
| RecoveryProgress | what one tick does, exactly, and when: losses, frames, dispatches, reconnects, worker results |
| ConnectionOutcomes | exactly when a handover or a cold reconnect succeeds, and every dispatch of a run |
| RevokedChat | a run in which a revoked chat source is reported healthy again |
| RecoveringProbe | class `RecoveringProbe`, refining Recovery |
| ClockGuard, LiveStatus | the two-clock guard and the observed-live cache, with their classes |
| Collector, PollingCollector | observed-live eligibility in the polling half, and class `PollingCollector` over a `ClockGuard` and a `LiveStatus` object |
| CollectorProgress | exactly which messages are stored and which poll opens eligibility |
| EnhancedWork, EnhancedRuns, EnhancedGuarantees, EnhancedProgress, EnhancedCollection | presence snapshots and raid context: functions, accounts kept by every operation, guarantees over runs, when each outcome occurs, class `EnhancedCollection` |
| Intervals, SourceIntervals | gaps-and-islands, and the health-log views |
| Windows, ViewerSegments, RestartGap | five-minute windows, viewer segments, the restart gap |
| EndToEnd | from sink calls to the seconds a view reports |

Code the source writes step by step is a class whose methods each equal a function of the old
state and of the outside's answers (`View() == F(old(View()), input)`); the properties are
lemmas about those functions. Clock readings, frames, worker and job results, stop requests and
the outcome of every write are inputs chosen by an adversary. A write commits, fails, or is
reported as failed although it committed. Fields called history in the comments record what
happened and are read by no operation.

## Main results

- Capture over any run: gap rows alternate, at most one is open, each is answered by a fresh newer
  session (`RecoveryTheorems.GapRowsAreSound`); a failed source never comes back
  (`FailedForever`, `NeverHealthyIff`); exactly the deliveries heard are dispatched, once and in
  order (`ConnectionOutcomes.RunDispatches`).
- Every turn of the protocol as an equivalence: when a session dies (`EventSub.TimeoutIff`,
  `RecoveryProgress.SilenceIsLost`), when a lost one is reconnected
  (`RecoveryProgress.ReconnectsIff`, `ConnectionOutcomes.ColdIff`), when a handover goes through
  (`ConnectionOutcomes.HandoverIff`).
- Polling: the live cache answers as the whole poll history does
  (`LiveStatus.FieldsAnswerHistory`); exactly the messages it admits are stored, over any run
  (`CollectorProgress.PumpStoresExactly`, `RunStoresExactly`), and every stored row rests on a
  committed stream (`Collector.EligibilityIsTrusted`); which polls open eligibility
  (`Collector.SaveOpensIff`, `CollectorProgress.LivePollOpens`).
- Enhanced work: every attempt is accounted for once (`EnhancedGuarantees.AccountsHold`,
  `ShutdownFinalisesAll`), a complete snapshot is exactly that
  (`EnhancedGuarantees.CompleteSnapshot`, `EnhancedProgress.StatusIff`).
- Analytics: reported healthy seconds count the instants a sink was healthy in memory
  (`EndToEnd.ReportedIsRemembered`) wherever the view is right (`SourceIntervals.ViewIsExactIff`),
  and windows lose and repeat nothing (`Windows.CoverageAddsUp`, `MessagesOfStream`,
  `EventsCountedOnce`, `ViewerSegments.SegmentsAddUp`).

## Findings

Five promises do not hold as stated. The model keeps what the code does, and gives the exact
condition under which each holds or a concrete instance in which it fails.

1. `analytics_source_intervals` partitions `lead()` by run and source but not by stream, while
   the join repeats each health row for every stream its run observed
   (sql/016_create_post_stream_analytics.sql:89-98). A collector that stays up across two
   broadcasts therefore loses the intervals of all but one of them: copies tie, and the earlier
   copies get an empty interval. `SourceIntervals.ViewIsExactIff`: a stream's view equals its
   health log for all logs and tie orders if and only if no run observing it observed another
   stream (or the stream is empty). The coverage theorems assume that guard.
2. When stop, or the duration, is noticed right after a directed handover closed the old socket,
   in a run that never scheduled a retry, the rest of the tick compares the clock with
   `retry_at`, which was never assigned (scripts/eventsub_recovery.py:239-245, 281-282). The
   AttributeError ends an orderly stop as a failure without stop rows.
   `Handover.RetryTimeUnsetIff` gives the exact condition, `Handover.StopMidHandoverHappens` a
   run that reaches it.
3. `restart_gap_seconds` never misses a hole but overstates one when a short run is nested in a
   long one: `RestartGap.ExactIff`, `RestartGap.NestedRunOverstates`.
4. A chat check can change later answers: its lazy expiry forgets a live stream. For one check,
   `LiveStatus.CheckUnobservableIff`: against any polls and questions at ticks from m on it is
   unobservable if and only if it drops nothing, that is, its tick is within 90 s after the last
   poll's, or m is at least 90 s after the last poll's. For whole histories,
   `LiveStatus.ChecksUnobservableIff`: if and only if no check since the live streak began fell
   outside the hold of the poll before it (this direction for polls observed at distinct times;
   the other needs nothing). In the collector a check is never behind the last poll
   (`Collector.PumpChecksAreUnobservable`); what remains is a check 90 s after the last poll
   followed by a poll that was observed earlier but recorded later, as in
   `LiveStatus.LateRecordedPollIsForgotten`.
5. A revocation that arrives in the same tick after a failed write is not dispatched, which
   leaves the chat sink's transport up; the coordinator's next polling states then write the
   revoked source healthy before it stops. `RecoveryTheorems.NeverHealthyIff`: the sink of a
   failed source never writes a healthy row again if and only if no write has failed so far, or
   the source is not chat, or its transport is down, or it holds a bad notification.
   `RevokedChat.RevokedAfterStorageFailure` is a run that reaches the other case.

The `least(...)` around healthy seconds binds in some window of a stream if and only if the
stream's offline time is before its start (`Windows.CapBindsIff`).

## Model

| member | source | states |
|---|---|---|
| EventSub.ReadyMeansFresh | scripts/eventsub.py:192-195 | right after a passed liveness check, a ready source is confirmed, not failed and heard within the keepalive interval |
| EventSub.LivenessStep | scripts/eventsub.py:218-226 | a liveness check never changes ids or failures, and a timeout changes nothing |
| EventSub.AcceptStep | scripts/eventsub.py:235-304 | a rejected frame leaves the session as the liveness check did; a failure is added only with a delivered revocation; an accepted frame leaves only fresh sources ready |
| EventSub.RevocationStep | scripts/eventsub.py:289-295 | exactly the revoked source joins the failures and is not ready |
| EventSub.SetupStep | scripts/eventsub.py:197-216 | an acknowledgement confirms only its own source and never one that failed; errors only add failures |
| EventSub.FailedStaysFailed | scripts/eventsub.py:192-216 | after any frames, checks and late acknowledgements a failed source is still failed and not ready |
| EventSub.TimeoutIff | scripts/eventsub.py:218-226 | a check reports the keepalive timeout exactly when, on either clock, the last liveness is more than the interval and 2 s ago; otherwise it is in grace exactly if it was, or if the interval has passed |
| EventSub.AcceptIff | scripts/eventsub.py:235-304 | a frame is taken exactly when the session is not dead and the frame fits it, with the exact outcome and session it leaves |
| EventSub.SetupIff | scripts/eventsub.py:197-216 | exactly which setup results are fatal, fail their source, confirm it, or are ignored |
| EventSub.SessionReadiness.constructor | scripts/eventsub.py:169-185 | a new session knows nothing |
| EventSub.SessionReadiness.IsReady | scripts/eventsub.py:187-190 | all sources confirmed, none failed, responsive and not in grace |
| EventSub.SessionReadiness.SourceIsReady | scripts/eventsub.py:192-195 | one source's readiness |
| EventSub.SessionReadiness.TakeSetupResult | scripts/eventsub.py:197-216 | updates ids and failures as the setup function, fatal codes included |
| EventSub.SessionReadiness.CheckLivenessAt | scripts/eventsub.py:218-226 | the timeout exactly past the interval and 2 s, and grace exactly past the interval (EventSub.TimeoutIff) |
| EventSub.SessionReadiness.NoteLiveness | scripts/eventsub.py:228-233 | liveness received ends grace |
| EventSub.SessionReadiness.AcceptAt | scripts/eventsub.py:235-304 | one frame: its outcome and the whole new session |
| EventSub.SessionReadiness.Classify | scripts/eventsub.py:253-302 | the frame cases after the liveness check |
| EventSink.ApplyAppends | scripts/event_sink.py:154-162 | a call appends at most one row, at its own time, different from the health in force |
| EventSink.ApplySettles | scripts/event_sink.py:82-162 | a call that succeeds leaves a running sink with transport up and nothing held at its resting row |
| EventSink.ApplyKeepsInv | scripts/event_sink.py:82-162 | the log never repeats itself and ends in the health in memory; a failed call changes the log only if its commit was uncertain |
| EventSink.PollingIsSilent | scripts/event_sink.py:277-304 | polling changes write nothing while transport is down, an error is held or the sink stopped |
| EventSink.NothingAfterStop | scripts/event_sink.py:142-148 | after stop no call ever appends a row |
| EventSink.NoHealthyWhileDown | scripts/event_sink.py:89-109 | with transport down no healthy row is written until transport_ready |
| EventSink.HeldErrorKeepsTransportRow | tests/test_event_sink.py:137-143 | same flags, different health: after a held bad notification the transport row stays |
| EventSink.LogIsFaithful | scripts/event_sink.py:154-162 | with nondecreasing times and successful writes, the as-of lookup in the log equals the health in memory at every instant |
| EventSink.RunKeepsInv | scripts/event_sink.py:82-162 | over a run adjacent rows differ and health is settled |
| EventSink.RowTimesOrdered | scripts/event_sink.py:154-162 | row times never decrease |
| EventSink.RestingMeaning | scripts/event_sink.py:232-238 | a raid or follow sink rests healthy; a chat sink rests healthy exactly when polled live, paused when offline, starting before any poll, in error when a poll failed or none came |
| EventSink.CallEffects | scripts/event_sink.py:82-162 | the flags and health each call leaves when its write commits |
| EventSink.UncommittedWrite | scripts/event_sink.py:154-162 | when the write does not commit, the call raises exactly if it had something to write; the flags are set, the health in memory stays, the row is there only if the commit was uncertain |
| EventSink.CallRefused | scripts/event_sink.py:82-148 | failed persistence is a storage error that changes nothing; after a stop begin and submit are misuse and the rest is ignored |
| EventSink.EventSink.constructor | scripts/event_sink.py:52-61 | a new sink has written nothing |
| EventSink.EventSink.SetHealthRow | scripts/event_sink.py:154-162 | change-only write, with every outcome of the write |
| EventSink.EventSink.ReconcileHealth | scripts/event_sink.py:277-285 | the resting row, when nothing owns the health |
| EventSink.EventSink.BeginRun | scripts/event_sink.py:82-87 | the starting row |
| EventSink.EventSink.MarkTransportReady | scripts/event_sink.py:89-99 | raises the flag and reconciles |
| EventSink.EventSink.MarkTransportError | scripts/event_sink.py:101-109 | lowers the flag and writes the error row, unknown reasons mapped |
| EventSink.EventSink.SubmitNotification | scripts/event_sink.py:111-140 | invalid, ineligible, failed and stored notifications |
| EventSink.EventSink.StopSource | scripts/event_sink.py:142-148 | one stop row |
| EventSink.EventSink.SetPollingState | scripts/event_sink.py:299-304 | stores the polling state and reconciles |
| EventRouter.GapsAlternate | scripts/eventsub_router.py:66-85 | in any log the router writes, opens and resolves alternate and each resolve answers the open before it |
| EventRouter.AtMostOneOpen | scripts/eventsub_router.py:66-85 | an open row is the last row |
| EventRouter.ObserveKeeps | scripts/eventsub_router.py:52-70 | observing keeps flags, rows and the alternation; a resolve needs a live, newer session |
| EventRouter.LostKeeps | scripts/eventsub_router.py:72-85 | a loss lowers every flag and leaves a gap open, a new one only if none was |
| EventRouter.DispatchKeeps | scripts/eventsub_router.py:87-107 | a delivery is recorded once, touches no gap, and a revocation lowers its flag |
| EventRouter.LossReachesEverySink | scripts/eventsub_router.py:72-85 | a loss reaches exactly the sinks whose flag was up, with its reason, opens a gap unless one is open, and latches exactly a needed write that did not commit |
| EventRouter.BeginAndStopReachEverySink | scripts/eventsub_router.py:48-50 | begin leaves every sink starting; stop leaves every sink stopped |
| EventRouter.PollingReachesChat | scripts/collect_stream.py:423-432 | a polling state reaches the chat sink alone |
| EventRouter.EventRouter.constructor | scripts/eventsub_router.py:30-41 | a new router over fresh sinks |
| EventRouter.EventRouter.Guard | scripts/eventsub_router.py:122-128 | one guarded call: the sink's new state, and the error latched |
| EventRouter.EventRouter.CallEach | scripts/eventsub_router.py:62-65 | the loop over sinks: all chosen ones are called even when some fail |
| EventRouter.EventRouter.Open | scripts/eventsub_router.py:48-50 | begin for every sink |
| EventRouter.EventRouter.ObserveSession | scripts/eventsub_router.py:52-70 | the whole new state after observe |
| EventRouter.EventRouter.ResolveOpenGap | scripts/eventsub_router.py:66-70 | the open id is forgotten before its write is tried |
| EventRouter.EventRouter.ReportLoss | scripts/eventsub_router.py:72-85 | the whole new state after transport_lost |
| EventRouter.EventRouter.OpenGapRow | scripts/eventsub_router.py:80-85 | an id is remembered only if the row committed |
| EventRouter.EventRouter.Route | scripts/eventsub_router.py:87-107 | the whole new state after dispatch |
| EventRouter.EventRouter.StopSinks | scripts/eventsub_router.py:109-114 | stop for every sink, once |
| RecoveryInvariants.NoticesKeep | scripts/eventsub_recovery.py:122-126 | taking worker notices keeps the invariant; at a stop only errors are taken |
| RecoveryInvariants.ScheduleRetryKeeps | scripts/eventsub_recovery.py:145-149 | the retry is set to the sampled tick plus the backoff |
| RecoveryInvariants.LoseKeeps | scripts/eventsub_recovery.py:151-174 | every loss ends with no socket, worker or job, nothing confirmed or flagged, a gap open unless storage failed, and a retry scheduled, or is fatal |
| RecoveryInvariants.StartWorkerKeeps | scripts/eventsub_recovery.py:135-143 | a worker is given no failed source; none is started once stop is seen |
| RecoveryInvariants.StartJobKeeps | scripts/eventsub_recovery.py:176-183 | a handover job validates no token, a cold one does; none once stop is seen |
| RecoveryInvariants.RequestHandoverKeeps | scripts/eventsub_recovery.py:185-195 | a reconnect request keeps the invariant in every case |
| RecoveryInvariants.DrainKeeps | scripts/eventsub_recovery.py:224-236 | a completed drain dispatched every delivery once and in order and added exactly the revoked failures; gaps untouched |
| RecoveryRuns.CloseOldKeeps | scripts/eventsub_recovery.py:218-248 | draining and closing the old socket keeps the invariant and touches no gap |
| RecoveryRuns.CompleteJobKeeps | scripts/eventsub_recovery.py:197-271 | a finished job of either kind keeps the invariant |
| RecoveryRuns.LiveKeeps | scripts/eventsub_recovery.py:286-322 | the live part of a tick keeps the invariant |
| RecoveryRuns.ReconnectingKeeps | scripts/eventsub_recovery.py:281-285 | the part without a socket keeps the invariant |
| RecoveryRuns.StepKeeps | scripts/eventsub_recovery.py:273-322 | every tick keeps the invariant under any inputs |
| RecoveryGuarantees.RelStep | scripts/eventsub_recovery.py:273-322 | in one tick failures stay, failed sources' sinks stay down without a healthy row or a new request, and gap times stay ordered while the clock does |
| RecoveryTheorems.StartInv | scripts/eventsub_recovery.py:324-328 | the invariant holds at the start of a run |
| RecoveryTheorems.GapKeeps | scripts/eventsub_recovery.py:102-111 | a coordinator clock gap keeps everything |
| RecoveryTheorems.PollingKeeps | scripts/collect_stream.py:423-432 | so does a polling state written to the chat sink |
| RecoveryTheorems.RunKeeps | scripts/eventsub_recovery.py:273-322 | the invariant and the guarantees hold after any run |
| RecoveryTheorems.WorkIsExclusive | scripts/eventsub_recovery.py:135-143 | a cold job never runs beside a worker or a socket; a handover job runs beside both and carries no authorization; no worker or job is started while one is held |
| RecoveryTheorems.GapRowsAreSound | scripts/eventsub_recovery.py:151-174 | over any run gap rows alternate, at most one is open, each resolve rests on a session made after the loss with a confirmed subscription and fresh liveness, and on a monotone clock no recovery precedes its detection |
| RecoveryTheorems.SettledHealth | scripts/eventsub_router.py:62-65 | in every reached state the router's flags equal the sinks', and while storage works each raised sink without a held error is at its resting row |
| RecoveryTheorems.LossIsRecorded | scripts/eventsub_recovery.py:157-174 | while the session is lost and storage works, a gap row is open, nothing is flagged ready and a retry or job is pending unless stopping |
| RecoveryTheorems.FailedForever | scripts/eventsub_recovery.py:138-139 | a failed or revoked source is never ready and never requested again, across losses, reconnects, handovers and drains; with storage working when it failed, the router never flags it and its sink writes no healthy row |
| RecoveryTheorems.NeverHealthyIff | scripts/eventsub_router.py:92-93 | in every reached state, exactly when the sink of a failed source can never write a healthy row again |
| RecoveryTheorems.NothingAfterStorageFailure | scripts/eventsub_router.py:60-61 | after the first failed write of a run no gap row and no row of raids or follows is ever written, and of chat only rows for polling states |
| RecoveryTheorems.SinkIsARun | scripts/event_sink.py:154-162 | while storage works and the clock goes forward, every sink the session reaches is the outcome of successful calls at ordered times |
| RevokedChat.RevokedAfterStorageFailure | scripts/eventsub_router.py:92-93 | a run reaches a state in which chat is revoked and its sink can still turn healthy |
| RecoveryProgress.SilenceIsLost | scripts/eventsub_recovery.py:286-287 | a live tick read more than the keepalive interval and 2 s after the last liveness ends with the session lost as a keepalive timeout, a gap open while storage works and a retry scheduled, or is fatal; it is not fatal if nothing else fails |
| RecoveryProgress.NoWelcomeIsLost | scripts/eventsub_recovery.py:290-291 | no welcome within 10 s of the connection is a loss |
| RecoveryProgress.SilentTick | scripts/eventsub_recovery.py:292-301 | the whole state after a live tick without a frame: seen by the router, the gap over once all sources are ready, the backoff reset after 60 s of connection |
| RecoveryProgress.SocketErrorTick | scripts/eventsub_recovery.py:317-318 | a socket error is a loss |
| RecoveryProgress.LateFrame | scripts/eventsub_recovery.py:302-303 | a clock out of order at the frame is fatal, and a session dead at the frame is lost |
| RecoveryProgress.DroppedFrame | scripts/eventsub_recovery.py:304-307 | a frame read when the run is ending changes nothing, and one before an overdue welcome does not save the connection |
| RecoveryProgress.BadFrame | scripts/eventsub_recovery.py:308-321 | a frame that does not fit is fatal |
| RecoveryProgress.GoodFrame | scripts/eventsub_recovery.py:308-316 | a fitting frame is taken: session, first setup worker, dispatch and then observation; only a session without usable sources is fatal |
| RecoveryProgress.NotificationIsDispatched | scripts/eventsub_recovery.py:308-316 | a notification that fits a live session is dispatched once and reaches the sink of its source, and no other, as submitted |
| RecoveryProgress.ReconnectRequested | scripts/eventsub_recovery.py:185-195 | a reconnect request is ignored if repeated, a loss if conflicting or before setup is complete, and otherwise starts a handover unless stop is seen |
| RecoveryProgress.ReconnectsIff | scripts/eventsub_recovery.py:281-285 | with the session lost, the cold reconnect starts in exactly the ticks read at or after the retry time that see no stop; otherwise nothing starts and the retry time stays |
| RecoveryProgress.PendingJob | scripts/eventsub_recovery.py:275-280 | an unfinished job waits; a handover is given up exactly at 25 s on either clock |
| RecoveryProgress.ClockGapLoses | scripts/eventsub_recovery.py:102-111 | a clock gap loses whatever is connected or under way, and otherwise only forgets the last reading |
| RecoveryProgress.TerminalResult | scripts/eventsub_recovery.py:122-126 | a terminal error of the setup worker ends the run with its code |
| RecoveryProgress.LossTakesResults | scripts/eventsub_recovery.py:151-174 | a loss takes the late errors of the worker and none of its successes; a job that failed for good makes it fatal |
| RecoveryProgress.ResultsOfTick | scripts/eventsub_recovery.py:122-126 | exactly which sources the results posted before a tick confirm, fail and leave pending |
| RecoveryProgress.LiveTickCalls | scripts/eventsub_recovery.py:299-316 | the socket part of a tick that goes on dispatches the delivery of its frame if the frame fits and the clock, stop, duration and welcome checks let it through, and nothing otherwise |
| ConnectionOutcomes.GreetIs | scripts/eventsub_recovery.py:210-217 | when the welcome of a finished job is good, the session it makes, and otherwise why it is refused |
| ConnectionOutcomes.DrainIs | scripts/eventsub_recovery.py:224-236 | exactly how many buffered frames the old session takes, the router told of their deliveries in order, and that the drain succeeds only if that is all of them, under 256, and the socket went quiet |
| ConnectionOutcomes.CloseIs | scripts/eventsub_recovery.py:218-248 | exactly when closing the old socket succeeds and when it ends the run |
| ConnectionOutcomes.HandoverIff | scripts/eventsub_recovery.py:197-271 | a handover goes through, or ends with the run, exactly under the stated conditions on clock, welcome, old session, buffered frames, deadlines and stop; otherwise the session is lost or the run fatal, and in every case exactly the drained deliveries were told to the router |
| ConnectionOutcomes.ColdIff | scripts/eventsub_recovery.py:197-271 | exactly when a finished cold job resumes, ends with the run, is postponed or is fatal |
| ConnectionOutcomes.TickCalls | scripts/eventsub_recovery.py:273-322 | every tick dispatches exactly the deliveries drained in it and then the one of its frame |
| ConnectionOutcomes.RunDispatches | scripts/eventsub_recovery.py:273-322 | over any run, fatal or not, the deliveries dispatched are exactly those heard, each once and in order |
| Handover.HandoverOutcomes | scripts/eventsub_recovery.py:197-271 | a finished handover job completes with the same ids and the failures after the drain, or becomes a gap through lose, or ends with the run, or is fatal; every drained delivery was dispatched at most once and in order, all of them on completion |
| Handover.DrainDispatches | scripts/eventsub_recovery.py:224-236 | however a drain ends, the deliveries of a prefix of the frames were dispatched, and a drain that succeeds had under 256 frames |
| Handover.PendingHandover | scripts/eventsub_recovery.py:273-322 | a tick that starts with a handover pending leaves the same job pending on the same session, or, its job done, completes it or ends the run, or loses it to a gap with a retry to come, or is fatal |
| Handover.ColdOutcomes | scripts/eventsub_recovery.py:197-271 | a finished cold job resumes with a worker for exactly the sources that have not failed, is postponed by the backoff, ends with the run, or is fatal |
| Handover.BackoffDoubles | scripts/eventsub_recovery.py:14-14 | waits double from one second and stay at thirty |
| Handover.EndsIff | scripts/eventsub_recovery.py:237-245 | after the old socket closed, the attempt ends early exactly on stop or duration |
| Handover.RetryTimeUnsetIff | scripts/eventsub_recovery.py:281-282 | the retry time is read unset exactly when a handover was cut short after closing the old socket in a run without any retry |
| Handover.StopMidHandoverHappens | scripts/eventsub_recovery.py:239-245 | a run reaches that state |
| RecoveringProbe.RecoveringProbe.constructor | scripts/eventsub_recovery.py:67-90 | the state before the first tick, which satisfies the invariant (RecoveryTheorems.StartInv) |
| RecoveringProbe.RecoveringProbe.TakeSample | scripts/eventsub_recovery.py:92-100 | new state and error equal Recovery.Sample: without a coordinator clock a step back or a 5 s divergence is fatal |
| RecoveringProbe.RecoveringProbe.TakeNotices | scripts/eventsub_recovery.py:122-126 | the loop equals Recovery.Notices: each posted result is applied once, in order, up to the first fatal one |
| RecoveringProbe.RecoveringProbe.FinishWorker | scripts/eventsub_recovery.py:128-133 | new state equals Recovery.StopWorker: late errors are applied, late successes discarded, the worker dropped |
| RecoveringProbe.RecoveringProbe.BeginWorker | scripts/eventsub_recovery.py:135-143 | new state equals Recovery.StartWorker: a worker for exactly the sources that have not failed, none once stop is seen |
| RecoveringProbe.RecoveringProbe.PlanRetry | scripts/eventsub_recovery.py:145-149 | new state equals Recovery.ScheduleRetry: the sampled tick plus the doubled wait |
| RecoveringProbe.RecoveringProbe.LoseTransport | scripts/eventsub_recovery.py:151-174 | new state and error equal Recovery.Lose, which ends as RecoveryInvariants.LoseKeeps says |
| RecoveringProbe.RecoveringProbe.FinishJobAndWorker | scripts/eventsub_recovery.py:165-174 | new state and error equal Recovery.WindDown: job, then worker, then the retry |
| RecoveringProbe.RecoveringProbe.BeginJob | scripts/eventsub_recovery.py:176-183 | new state equals Recovery.StartJob: one job, authorized exactly when cold |
| RecoveringProbe.RecoveringProbe.AskHandover | scripts/eventsub_recovery.py:185-195 | new state and error equal Recovery.RequestHandover: a duplicate request changes nothing, a conflicting or early one loses the transport |
| RecoveringProbe.RecoveringProbe.DrainFrame | scripts/eventsub_recovery.py:230-234 | one drained frame: the session and router after it, and whether it ends the drain |
| RecoveringProbe.RecoveringProbe.DrainOldSocket | scripts/eventsub_recovery.py:224-236 | the bounded loop equals Recovery.Drain, so every delivery is dispatched once and in order (RecoveryInvariants.DrainKeeps) |
| RecoveringProbe.RecoveringProbe.CloseOldSocket | scripts/eventsub_recovery.py:218-248 | outcome and state equal Recovery.CloseOld |
| RecoveringProbe.RecoveringProbe.GreetNewSocket | scripts/eventsub_recovery.py:210-217 | the new session, or why it is refused; the probe is unchanged |
| RecoveringProbe.RecoveringProbe.Connect | scripts/eventsub_recovery.py:208-259 | outcome and state equal Recovery.TryConnect, for both kinds of job |
| RecoveringProbe.RecoveringProbe.FinishJob | scripts/eventsub_recovery.py:197-271 | new state and error equal Recovery.CompleteJob, whose outcomes are Handover.HandoverOutcomes and Handover.ColdOutcomes |
| RecoveringProbe.RecoveringProbe.ConnectOrRecover | scripts/eventsub_recovery.py:260-271 | which failures are fatal, which lose the transport and which only postpone |
| RecoveringProbe.RecoveringProbe.ActOn | scripts/eventsub_recovery.py:308-316 | new state and error equal Recovery.Act: the first worker, the frame, then a second look by the router |
| RecoveringProbe.RecoveringProbe.ReceiveFrame | scripts/eventsub_recovery.py:302-316 | new state and error equal Recovery.Receive, whose cases are RecoveryProgress.LateFrame, DroppedFrame, BadFrame and GoodFrame |
| RecoveringProbe.RecoveringProbe.ListenOnce | scripts/eventsub_recovery.py:290-301 | new state and error equal Recovery.Listen |
| RecoveringProbe.RecoveringProbe.StayLive | scripts/eventsub_recovery.py:286-322 | new state and error equal Recovery.Live, which keeps the invariant (RecoveryRuns.LiveKeeps) |
| RecoveringProbe.RecoveringProbe.Reconnect | scripts/eventsub_recovery.py:281-285 | new state and error equal Recovery.Reconnecting, the unset retry time included; a job is started exactly from the retry time on without a stop (RecoveryProgress.ReconnectsIff) |
| RecoveringProbe.RecoveringProbe.HandleJob | scripts/eventsub_recovery.py:275-280 | new state and error equal Recovery.Jobs: a finished job, or a handover past its deadline |
| RecoveringProbe.RecoveringProbe.RunStep | scripts/eventsub_recovery.py:273-322 | new state and error equal Recovery.Step; the protocol invariant and the per-tick guarantees hold across it, and exactly the deliveries heard are dispatched |
| RecoveringProbe.RecoveringProbe.OnClockGap | scripts/eventsub_recovery.py:102-111 | new state and error equal Recovery.ForceGap, with the same invariant and guarantees |
| ClockGuard.SampleGoesForward | scripts/clock_guard.py:62-105 | a returned reading is never behind the previous one; a rollback waited out took at most 20 waits and 5 s; every fault was reported as a gap first |
| ClockGuard.QuietIff | scripts/clock_guard.py:62-80 | no gap is reported exactly when both clocks moved forward by under 90 s and within 5 s of each other |
| ClockGuard.RecoveryReportsTwice | scripts/clock_guard.py:88-105 | a corrected rollback reports a gap at its start and at its end |
| ClockGuard.RunGoesForward | scripts/clock_guard.py:62-80 | over any run the returned readings never go back on either clock |
| ClockGuard.ReturnsIff | scripts/clock_guard.py:62-105 | a rollback is waited out exactly when it is under 5 s and UTC catches up within 20 waits and 5 s of elapsed time that never goes back, and then that reading is returned; otherwise exactly which fault is raised |
| ClockGuard.GapsReported | scripts/clock_guard.py:62-105 | exactly which readings are reported as gaps |
| ClockGuard.ClockGuard.constructor | scripts/clock_guard.py:55-60 | no previous reading |
| ClockGuard.ClockGuard.Sample | scripts/clock_guard.py:62-80 | result, reported gaps and new previous reading |
| ClockGuard.ClockGuard.RecoverUtc | scripts/clock_guard.py:82-105 | the bounded recovery loop |
| LiveStatus.FieldsAnswerHistory | scripts/live_status.py:16-53 | the three fields accept a message for a stream exactly when the full poll history does |
| LiveStatus.ChecksUnobservableIff | scripts/live_status.py:16-20 | the checks of a history change no answer at t exactly when none fell outside the hold of the poll before it since the streak live at t began |
| LiveStatus.CheckUnobservableIff | scripts/live_status.py:16-20 | one check changes no answer from tick m on, whatever follows, exactly when it drops nothing or all it drops has expired by m |
| LiveStatus.CheckUnobservableFromItsTick | scripts/live_status.py:16-20 | in particular, from its own tick on, exactly when it is not behind the last poll |
| LiveStatus.ChecksAreUnobservable | scripts/live_status.py:16-20 | histories with the same polls give the same answers as long as no check disturbed the live streak |
| LiveStatus.OrderedIsUndisturbed | scripts/live_status.py:16-20 | nondecreasing ticks disturb nothing |
| LiveStatus.BackwardCheckForgets | scripts/live_status.py:16-20 | an instance with a check behind the last poll |
| LiveStatus.LateRecordedPollIsForgotten | scripts/live_status.py:16-20 | an instance with a check 90 s after the last poll and a poll observed before it but recorded after it |
| LiveStatus.LiveStatus.constructor | scripts/live_status.py:11-14 | nothing eligible |
| LiveStatus.LiveStatus.ExpireAt | scripts/live_status.py:16-20 | the lazy expiry |
| LiveStatus.LiveStatus.RecordLivePoll | scripts/live_status.py:22-32 | a live poll is added to the history the fields stand for |
| LiveStatus.LiveStatus.PollFailed | scripts/live_status.py:34-42 | eligibility is dropped |
| LiveStatus.LiveStatus.ChatStreamId | scripts/live_status.py:44-53 | the stream accepted, decided as the full poll history decides it unless an earlier check disturbed the streak live now |
| Collector.InvalidateAllIsCautious | scripts/collect_stream.py:268-291 | each reported gap is one new generation and drops eligibility |
| Collector.SampleIsCautious | scripts/collect_stream.py:293-299 | a sample never opens eligibility and never goes back |
| Collector.GapForcesFreshPoll | scripts/collect_stream.py:277-282 | after a reported gap a validating poll is due at that reading and the one in flight is disowned |
| Collector.SaveKeeps | scripts/collect_stream.py:710-777 | after a saved poll chat is either ineligible or eligible on that very poll |
| Collector.SaveOpensIff | scripts/collect_stream.py:710-777 | a saved poll opens eligibility exactly when live, not started in the future, and confirmed by two gap-free samples under 90 s later |
| Collector.StoredMeansTrusted | scripts/collect_stream.py:405-419 | a stored chat row names the tracked stream, committed in this run, polled live under 90 s ago, with no clock gap since the dispatch of the opening poll |
| Collector.StepKeeps | scripts/collect_stream.py:662-708 | one step keeps all of that |
| Collector.StepGrows | scripts/collect_stream.py:662-708 | one step, halted or not, only adds rows of committed streams, commits and reported gaps |
| Collector.EligibilityIsTrusted | scripts/collect_stream.py:662-777 | after any run, halted or not, every stored chat row references a stream committed in it; while it goes on, chat is eligible only for the tracked stream, polled live, with no clock gap since the dispatch of the opening poll |
| Collector.PumpChecksAreUnobservable | scripts/collect_stream.py:410-413 | the pump's checks are not behind the last poll, so they change no answer from their tick on |
| Collector.NoCatchUp | scripts/collect_stream.py:697-705 | the next poll is due within a minute on the same grid, and never two at once |
| Collector.GenerationCountsGaps | scripts/collect_stream.py:279-279 | over any run the generation never falls, and two of its states have the same generation exactly when the guard reported no gap between them |
| CollectorProgress.PumpStoresExactly | scripts/event_sink.py:249-254 | the rows a pump adds are, in order, one for each message that was committed, dated between the start of eligibility and its own receipt, with the last live poll under 90 s old; they name the tracked stream |
| CollectorProgress.PumpFollowsHistory | scripts/live_status.py:44-53 | the same with any history of polls that explains the live cache: exactly the committed messages that history accepts |
| CollectorProgress.StepStoresExactly | scripts/collect_stream.py:405-421 | a step stores exactly the messages its pump admits |
| CollectorProgress.RunStoresExactly | scripts/collect_stream.py:662-708 | over any run, halted or not, the rows stored are exactly the messages admitted, in order |
| CollectorProgress.LiveSave | scripts/collect_stream.py:746-777 | with working writes and no clock gap a live poll opens eligibility: since the poll, or since before if the same stream was eligible, not stale and polled under 90 s before |
| CollectorProgress.OfflineSave | scripts/collect_stream.py:726-733 | an offline poll closes eligibility and forgets the stream |
| CollectorProgress.PollNeedsItsRow | scripts/collect_stream.py:726-752 | a poll whose row does not commit ends the run with nothing tracked or eligible by it |
| CollectorProgress.PollNeedsItsHealth | scripts/collect_stream.py:755-777 | one whose health row does not commit ends it before chat is eligible by it |
| CollectorProgress.PollNotSaved | scripts/collect_stream.py:710-741 | which polls are refused: observed outside their job, 90 s ago or more, or of a stream that starts in the future |
| CollectorProgress.ResultTaken | scripts/collect_stream.py:675-693 | exactly which results are saved, which only close eligibility and which end the run |
| CollectorProgress.PollStartsIff | scripts/collect_stream.py:697-705 | a poll starts exactly when one is due, none is in flight and no stop is seen |
| CollectorProgress.HeartbeatIff | scripts/collect_stream.py:666-670 | a heartbeat is written exactly when 30 s have passed since the last |
| CollectorProgress.LivePollOpens | scripts/collect_stream.py:662-708 | in a step without clock gap or failed write, taking a live poll makes its stream the one whose messages the pump of the same step admits |
| PollingCollector.PollingCollector.constructor | scripts/collect_stream.py:301-304 | the state after the first sample of start |
| PollingCollector.PollingCollector.SetChatPolling | scripts/collect_stream.py:423-432 | the polling state changes even when its row fails, which stops the run |
| PollingCollector.PollingCollector.InvalidateClock | scripts/collect_stream.py:268-282 | eligibility dropped, generation raised, job disowned, validation forced, poll due at the reading |
| PollingCollector.PollingCollector.NotifyGaps | scripts/collect_stream.py:237-239 | the loop over reported gaps equals Collector.InvalidateAll: one generation for each |
| PollingCollector.PollingCollector.TakeSample | scripts/collect_stream.py:293-299 | new state and error equal Collector.Sample over the guard object: forward only, gaps applied before the reading is used |
| PollingCollector.PollingCollector.CheckStaleness | scripts/collect_stream.py:653-660 | new state and error equal Collector.CheckStale: 90 s after the last saved poll chat is ineligible, reported once |
| PollingCollector.PollingCollector.RecordPoll | scripts/collect_stream.py:726-752 | the tracked stream changes only after its row committed |
| PollingCollector.PollingCollector.ConfirmPoll | scripts/collect_stream.py:755-766 | new state and error equal Collector.Confirm: eligibility only after both rechecks (Collector.SaveOpensIff) |
| PollingCollector.PollingCollector.ReconfirmPoll | scripts/collect_stream.py:767-777 | the last recheck, after the healthy row committed |
| PollingCollector.PollingCollector.OpenEligibility | scripts/collect_stream.py:773-777 | the live cache and the chat sink change together |
| PollingCollector.PollingCollector.SavePoll | scripts/collect_stream.py:710-777 | new state and error equal Collector.Save (Collector.SaveKeeps) |
| PollingCollector.PollingCollector.ConsumeResult | scripts/collect_stream.py:675-693 | fatal, late, failed and saved polls; only the last can leave chat eligible |
| PollingCollector.PollingCollector.SkipMissed | scripts/collect_stream.py:703-705 | the next slot on the grid, within a minute |
| PollingCollector.PollingCollector.StartDuePoll | scripts/collect_stream.py:697-705 | new state equals Collector.StartPoll (Collector.NoCatchUp) |
| PollingCollector.PollingCollector.PumpMessages | scripts/event_sink.py:249-254 | the rows it adds are exactly the messages admitted at the pump tick (CollectorProgress.PumpStoresExactly) |
| PollingCollector.PollingCollector.WriteHeartbeatIfDue | scripts/collect_stream.py:666-670 | a due heartbeat is written, the next one is 30 s later, and staleness is checked again |
| PollingCollector.PollingCollector.RunPoll | scripts/collect_stream.py:674-705 | new state and error equal Collector.Poll |
| PollingCollector.PollingCollector.PumpEventSub | scripts/collect_stream.py:405-421 | the clock is sampled, and its gaps applied, before any message is decided; messages delivered before the probe ends the run are stored |
| PollingCollector.PollingCollector.RunStep | scripts/collect_stream.py:662-708 | new state and error equal Collector.Step; the eligibility invariant is kept, and the rows stored are exactly the messages admitted |
| EnhancedRuns.RaidStoredKeeps | scripts/collect_stream.py:440-461 | a stored raid's intent is queued, finalised as queue_full, or left to a storage failure: exactly one |
| EnhancedRuns.HandleRaidKeeps | scripts/collect_stream.py:567-598 | a lookup's result is retried once or finalised, with the number of requests made |
| EnhancedRuns.HandlePresenceKeeps | scripts/collect_stream.py:516-565 | a page's result extends the cursor chain or finalises the snapshot |
| EnhancedRuns.AdvanceKeeps | scripts/collect_stream.py:600-644 | one advance keeps all accounts |
| EnhancedGuarantees.WorkTakesTurns | scripts/collect_stream.py:632-644 | ready work is taken up, and when both kinds are ready they alternate |
| EnhancedGuarantees.AccountsHold | scripts/collect_stream.py:440-644 | after any run, halted or not: no attempt finalised twice, no intent both final and pending, at most 2 lookups and 20 pages each, at most 9 raid jobs queued or in flight |
| EnhancedGuarantees.CompleteSnapshot | scripts/collect_stream.py:516-565 | in any run, halted or not, complete means an unbroken cursor chain from page 1, exactly the members of those pages, and the same generation and stream and observed live at every advance of the run from its start to its completion |
| EnhancedGuarantees.ShutdownFinalisesAll | scripts/collect_stream.py:813-836 | after an orderly shutdown every snapshot and every intent was finalised exactly once, except intents whose own first writes failed |
| EnhancedProgress.PresenceVerdict | scripts/collect_stream.py:516-565 | what a page does to the snapshot in progress: rejected, complete, partial or asked on with the returned cursor, with the row and state each leaves when a write fails |
| EnhancedProgress.StatusIff | scripts/collect_stream.py:516-565 | a complete row is added exactly when the last page came to an attempt that holds, a partial one exactly on an error, at page 20 or after 120 s with a cursor left, a rejected one exactly when generation, stream or live state no longer holds |
| EnhancedProgress.AdvanceVerdict | scripts/collect_stream.py:600-624 | the same over a whole advance, with the second look after the reply |
| EnhancedProgress.BeginIff | scripts/collect_stream.py:467-494 | exactly when a snapshot begins, with its first page to ask for and the next one due 300 s later |
| EnhancedProgress.RaidStoredIff | scripts/collect_stream.py:440-461 | exactly which stored raids are queued, final at once or stranded |
| EnhancedProgress.RaidVerdict | scripts/collect_stream.py:567-598 | exactly which lookups are retried 5 s later, and the status and count of the others |
| EnhancedProgress.RequestsIff | scripts/collect_stream.py:626-644 | an advance makes a request exactly when nothing is in flight, no stop is seen, the viewer poll is idle and 5 s away, and work is ready |
| EnhancedProgress.DrainInterrupts | scripts/collect_stream.py:829-835 | the rows the queue leaves at shutdown, in order, and that it fails only with a write |
| EnhancedProgress.ShutdownInterrupts | scripts/collect_stream.py:813-836 | an orderly shutdown with working writes goes through and leaves the snapshot and every waiting intent interrupted |
| EnhancedCollection.EnhancedCollection.constructor | scripts/collect_stream.py:249-257 | nothing started |
| EnhancedCollection.EnhancedCollection.OnRaidStored | scripts/collect_stream.py:440-461 | new state equals EnhancedWork.RaidStored: queued below the limit, else finalised at once |
| EnhancedCollection.EnhancedCollection.HandleRaidResult | scripts/collect_stream.py:567-598 | one retry at the head of the queue five seconds later, else one final row |
| EnhancedCollection.EnhancedCollection.FinalizeActive | scripts/collect_stream.py:496-514 | one final row with the members collected, and no snapshot in progress |
| EnhancedCollection.EnhancedCollection.HandlePresenceResult | scripts/collect_stream.py:516-565 | a late page of an earlier snapshot changes nothing; otherwise the row's status as an equivalence (EnhancedProgress.StatusIff) |
| EnhancedCollection.EnhancedCollection.RecheckActive | scripts/collect_stream.py:614-624 | a snapshot that saw a gap, another stream or loss of live state is rejected |
| EnhancedCollection.EnhancedCollection.BeginPresenceIfDue | scripts/collect_stream.py:467-494 | a new snapshot only when none is in progress; the next is due 300 s later |
| EnhancedCollection.EnhancedCollection.DispatchNext | scripts/collect_stream.py:632-644 | new state equals EnhancedWork.Dispatch (EnhancedGuarantees.WorkTakesTurns) |
| EnhancedCollection.EnhancedCollection.AdvanceWork | scripts/collect_stream.py:600-644 | new state and error equal EnhancedWork.Advance, and the accounts are kept |
| EnhancedCollection.EnhancedCollection.DrainRaidQueue | scripts/collect_stream.py:829-835 | the loop finalises every queued intent as interrupted, with the requests made for it |
| EnhancedCollection.EnhancedCollection.ShutdownWork | scripts/collect_stream.py:813-836 | new state and error equal EnhancedWork.Shutdown (EnhancedGuarantees.ShutdownFinalisesAll) |
| Intervals.IslandsMeaning | sql/016_create_post_stream_analytics.sql:117-136 | islands are sorted, strictly separated and cover exactly the instants of the rows |
| Intervals.CanonicalIsUnique | sql/016_create_post_stream_analytics.sql:117-136 | only one such sequence covers a given set of instants |
| Intervals.IslandsDependOnPointsOnly | sql/016_create_post_stream_analytics.sql:117-136 | row order, duplicates, overlaps and nesting change nothing |
| Intervals.OrderedIsUnique | sql/016_create_post_stream_analytics.sql:117-130 | the window order is determined by the rows |
| Intervals.ClippedSumIsMeasure | sql/016_create_post_stream_analytics.sql:221-232 | clipped islands add up to the instants they cover in the window |
| Intervals.HealthyTimeIsMeasure | sql/016_create_post_stream_analytics.sql:221-233 | healthy seconds count the covered instants and the cap never binds |
| SourceIntervals.RowInterval | sql/016_create_post_stream_analytics.sql:88-112 | a row's interval is exactly the time its health row is in force during the stream, unless a later copy of the row follows |
| SourceIntervals.ViewPoints | sql/016_create_post_stream_analytics.sql:88-112 | the instants the view covers |
| SourceIntervals.SoleRunsAreExact | sql/016_create_post_stream_analytics.sql:88-112 | when no run observed two streams, the view is exactly the health log |
| SourceIntervals.OneStreamPerRow | sql/016_create_post_stream_analytics.sql:89-98 | a health row of a shared run counts for exactly one of its streams |
| SourceIntervals.SharedRunLosesStream | sql/016_create_post_stream_analytics.sql:89-98 | a fully healthy stream that the view covers nowhere |
| SourceIntervals.ViewIsExactIff | sql/016_create_post_stream_analytics.sql:88-112 | the view is right for all logs if and only if no run of the stream is shared, or the stream is empty |
| SourceIntervals.WindowCoverage | sql/016_create_post_stream_analytics.sql:221-233 | a window's healthy seconds count the instants at which the log was healthy |
| Windows.WindowsTile | sql/016_create_post_stream_analytics.sql:146-156 | the windows partition the stream |
| Windows.ExactlyOneWindow | sql/016_create_post_stream_analytics.sql:146-156 | every instant of the stream is in exactly one window |
| Windows.TotalOverWindows | sql/016_create_post_stream_analytics.sql:146-156 | anything additive over adjacent windows sums to its value over the stream |
| Windows.CoverageAddsUp | sql/016_create_post_stream_analytics.sql:221-233 | healthy seconds over windows sum to the healthy instants of the stream |
| Windows.CapBindsIff | sql/016_create_post_stream_analytics.sql:223-226 | the cap on healthy seconds binds in some window exactly when the stream went offline before it started |
| Windows.MessagesAddUp | sql/016_create_post_stream_analytics.sql:183-199 | per-window message counts sum to the stream's messages |
| Windows.MessagesCounted | sql/016_create_post_stream_analytics.sql:183-199 | a window counts exactly the messages of the stream, local or shared, dated in it |
| Windows.MessagesOfStream | sql/016_create_post_stream_analytics.sql:183-199 | over the windows that is every message dated inside the stream |
| Windows.ResolvedMeaning | sql/016_create_post_stream_analytics.sql:33-83 | an event is resolved to a stream exactly when that is the only closed stream around it and no other was captured |
| Windows.StatusMeaning | sql/016_create_post_stream_analytics.sql:52-78 | each association status, from the closed streams live at the time of the event |
| Windows.EventsCounted | sql/017_create_stream_event_timeline.sql:8-18 | the events joined to a stream are those of the kind at which it alone was live and no other was captured |
| Windows.EventsAddUp | sql/017_create_stream_event_timeline.sql:8-18 | per-window raid and follow counts sum to the stream's resolved events |
| Windows.EventsCountedOnce | sql/017_create_stream_event_timeline.sql:8-18 | over all streams every resolved event is counted exactly once |
| ViewerSegments.KeptMembers | sql/016_create_post_stream_analytics.sql:167-169 | the samples inside the stream, in order |
| ViewerSegments.SegmentsShape | sql/016_create_post_stream_analytics.sql:157-170 | segments are nonempty, disjoint, inside the stream and at most 90 s long |
| ViewerSegments.CoveredInstant | sql/016_create_post_stream_analytics.sql:157-170 | an instant belongs to a sample's segment exactly when that sample is the latest, under 90 s old and the stream is on |
| ViewerSegments.CoveredFits | sql/016_create_post_stream_analytics.sql:170-183 | a window's covered time is at most its length |
| ViewerSegments.AverageIsBetween | sql/016_create_post_stream_analytics.sql:270-278 | the weighted sum lies between the covered time times the smallest and the largest contributing count |
| ViewerSegments.SegmentsAddUp | sql/016_create_post_stream_analytics.sql:170-183 | covered time and weighted sums over windows equal the totals over segments |
| ViewerSegments.WindowMeaning | sql/016_create_post_stream_analytics.sql:170-183 | a window's covered time counts its instants with a viewer count in force, and its weighted sum adds those counts up |
| ViewerSegments.ViewersInForce | sql/016_create_post_stream_analytics.sql:157-170 | the count in force is that of the latest sample while it is under 90 s old |
| RestartGap.NeverMissesAHole | scripts/post_stream.py:423-444 | the reported gap is at least as long as every hole between runs |
| RestartGap.ExactIff | scripts/post_stream.py:423-444 | a positive gap is the length of a real hole exactly when at a step of that size every earlier run had ended |
| RestartGap.ExactWhenEndsAreOrdered | scripts/post_stream.py:423-428 | in particular when last observations are in the same order |
| RestartGap.NestedRunOverstates | scripts/post_stream.py:423-428 | a nested run makes it overstate |
| EndToEnd.TableIsLog | sql/016_create_post_stream_analytics.sql:88-112 | the tables call a run healthy at an instant exactly when its sink's log does, up to the run's end |
| EndToEnd.MemoryIsTable | scripts/event_sink.py:154-162 | and exactly when the sink was healthy in memory |
| EndToEnd.ReportedIsRemembered | sql/016_create_post_stream_analytics.sql:221-233 | the healthy seconds reported for a window count the instants at which some run's sink was healthy in memory |
| EndToEnd.ReachedRunIsRecorded | scripts/event_sink.py:154-162 | the rows a capture session writes for a source, in any state it reaches with working storage and a forward clock, are those of such a run of calls, so the end-to-end count applies to them |

## Left out

- RecoveringProbe: holds its session and its router as values; their updates in place are the classes `SessionReadiness` and `EventRouter`, and aliasing between the three objects is not captured.
- RecoveryTheorems.PollingKeeps: a failed polling write ends the run; the model records that in the router's latch, which the source leaves alone because it writes nothing afterwards.
- Collector: a run starts from the first sample of `start`; chat is always a configured source; a step's local `now` is a field; what the socket does in a pump is reduced to the chat notifications it delivers and whether it ends the run.
- EnhancedWork: the collector's generation, stream and live state are inputs at each advance; presence health rows are reduced to whether their write succeeded, metadata and reported totals to what the decisions need; the request worker always posts a result.
- PollingCollector.PollingCollector.SetChatPolling: does not set the presence flag or write presence health rows; the enhanced work takes observed-live as an input.
- SourceIntervals.WindowCoverage: assumes that no run of the stream observed another stream, without which it is false (finding 1).
- Probes without a router or a connector: only the capture configuration is modelled.
- Sockets, threads, HTTP, OAuth and token files: their results are inputs, in any order.
- Frames and event bodies: parsed forms and one malformed case are inputs; subscription matching is one flag of the frame.
- PostgreSQL: tables are sets of rows, writes have outcomes; connections, transactions, triggers and argument checks are not modelled.
- SQL rounding, integer casts, time zones, distinct-chatter counts, concentration ranking and historical averages.
- Which presence snapshot a window chooses, and quality assessment and the review workflow.
- Diagnostics, signals, the command line and exit codes.
- Floating-point time: ticks and UTC are integer microseconds.
- The shutdown of a probe and the stop rows of a run: the model follows a run up to its last tick, and stop rows are calls on the sinks.
