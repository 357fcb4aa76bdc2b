# AWP client verification

Dafny proofs about the delivery pipeline of the Agent Wake Protocol client: a
provider publishes events for agent sessions, a transport that loses and repeats
messages carries them to a device, and the daemon on that device records each
event, checks whether the session may be woken, runs the agent's adapter once,
and acknowledges. Beside the pipeline stand the permission store that licenses a
wake, the version comparison behind automatic updates, and the placeholder
substitution of the command adapter.

Run `dafny verify dfyconfig.toml` in this directory.

## How the model is laid out

| part | modules |
|---|---|
| shared values, trimming, sorted string sets | `Common`, `Protocol` |
| event store: values, the object updated in place, isolation, the unbounded journal it is compared with, what each operation leaves on file | `Wake`, `WakeStore`, `WakeHistory`, `WakeJournal`, `WakeMeaning` |
| daemon: handler protocol as a transition system, its invariants, properties of runs, the gate and what slips through it, events that a gate holds, second runs, what each step leaves on file, the code of one handler | `Daemon`, `DaemonInvariants`, `DaemonMeaning`, `DaemonRuns`, `DaemonGate`, `DaemonLocks`, `DaemonWakes`, `DaemonSlips`, `DaemonHeld`, `DaemonRepeats`, `DaemonProcess` |
| permission store: values, the object updated in place, history, theorems, who can ever be authorized, exactly what is taken, granted and answered | `Permissions`, `PermissionStore`, `PermissionHistory`, `PermissionTheorems`, `PermissionAnswers`, `PermissionMeaning` |
| example provider: values and invariant, the object updated in place, where deliveries come from | `Provider`, `ProviderState`, `ProviderMeaning` |
| client receive loop; what a connection comes to | `Client`, `ClientMeaning` |
| provider, transport, client, daemon and permissions as one system; the daemon's behaviour inside it; consent for every start | `Pipeline`, `PipelineSafety`, `PipelineTrimmed`, `PipelineRuns`, `PipelineConsent`, `PipelineOnce` |
| behaviours of that system: how it follows the handler protocol, second runs, skipped events, the gate, where records come from | `PipelineSchedules`, `PipelineRepeats`, `PipelineSkips`, `PipelineGate`, `PipelineRecords` |
| versions: order, round trips, grammar; automatic updates, and what one run does | `Versions`, `VersionOrder`, `VersionText`, `VersionGrammar`, `AutoUpdate`, `UpdateMeaning` |
| command template; any number of placeholders, step by step, and by the final texts alone | `Template`, `TemplateSteps`, `TemplateTexts` |

**Objects and values.** Code that updates an object in place is a class whose
methods have the loops and assignments of the original. Each method is proved
equal to a function on values (`WakeStore.EventStore.RecordDelivery` against
`Wake.RecordDelivery`, and so on); theorems about histories are then proved of
those functions. What each operation does is also said without those functions, in
the modules named `...Meaning`, `VersionGrammar` and `PipelineRecords`: by what a
reader finds afterwards, by the texts and fields the caller passed, or by the history,
and in both directions.

**The daemon.** Any number of handlers interleave. A step is one piece that the
program makes atomic: taking or releasing a session lock, one load, mutate and
save of the event store, one authorization, the start or the return of the
adapter. A handler is `Waiting`, `Locked`, `OnFile` (recorded, gate open),
`Denied`, `Authorized`, `Executing`, `Ran`, `Leaving` and at last `Answered`
(lock released, acknowledgement not yet written). Pauses and resumes come from
outside at any time, every save may fail, and the process may crash between any
two steps. `ops` and `runs` are history variables: they record the saved store
operations and the finished adapter runs and influence nothing.
`DaemonProcess.Process.Handle` is the handler's own code; it is proved to take
only steps of this protocol. In the protocol the answer to an authorization is
left open, so what holds of all its behaviours holds whatever the permission store
says; in the composed system the permission state gives it, and what is said to
happen is shown there.

**The transport** is the set of messages ever sent in either direction. A
message in the set may arrive at any time, any number of times, or never, so
loss, delay, duplication and reordering are all included.

**Inputs.** Clock readings, new delivery ids, the outcome of an adapter run,
whether a save succeeds, and release tags are parameters. The definition hash is
a parameter too, and the theorem that needs it takes injectivity as a
hypothesis. New delivery ids are assumed unused and not empty.

## Where the code does not keep an obvious promise

- *A session that is bound is woken for its events.* Binding a session rejects blank
  ids but keeps outer white space (internal/sessions/registry.go:127-150); permission
  requests are stored under trimmed ids and authorizations look them up as they are
  given (internal/permissions/store.go:176-178 and 375-382). So a session that is
  bound with outer white space is never woken, whatever is requested and granted:
  `PipelineRuns.UntrimmedNeverWakes`. A session can come to be authorized exactly
  when its ids are trimmed and not empty (`PermissionAnswers.AnsweredIffPlain`).
- *A redelivered completed event never wakes the agent again* (line 116 of the
  client's README). The exact rule is `DaemonRuns.SkippedIffCompletedInWindow`: it is
  skipped if and only if the store holds a completed record of it after which fewer
  than 500 others were appended, because the history evicts the oldest record
  whatever its status (internal/wake/store.go:265-267). `DaemonRuns.NoDoubleWake`,
  `DaemonRuns.CompletedRecordIsNotRunAgain` and `PipelineRuns.NoDoubleWakeOfSession`
  say that a second run needs at least those 500 appends, whichever bindings share
  the stored session; `PipelineRepeats.EvictedEventRunsAgain` gives a behaviour of
  the whole system in which 500 are enough.
  And the completion must be saved under the id that was recorded:
  `RecordDelivery` trims its ids, `CompleteEvent` does not.
  `WakeJournal.CompletionFindsRecordIffTrimmed` says exactly when the completion
  finds the record. When it does not, because of outer white space in the event id,
  which no code between the socket and the store removes, an event that was run with
  success and acknowledged as completed is run again by the next delivery of it:
  `PipelineRepeats.UntrimmedEventRunsAgain`.
- *An event that is acknowledged as completed was run.* It was when its session and
  event ids are trimmed (`PipelineSafety.CompletedDeliveriesWereRun`). An event whose
  id differs from that of a completed one in outer white space only is taken for that
  one, skipped, and acknowledged as completed without a run of its own:
  `PipelineSkips.CompletedWithoutRun`.
- *The daemon's per-session lock serialises a session* (internal/wake/store.go:352-355).
  The locks are per binding and the store is per trimmed id, so two bindings that
  differ in outer white space share one stored session under two locks.
  `DaemonRepeats.InFlightEventsStayIffAlone`: an in-flight event is sure to stay on
  file if and only if no other binding has the same trimmed ids.
- *A paused session is not woken until it is resumed* (internal/wake/store.go:311-313).
  A handler that is already past recording may still start the adapter, and a
  completion overwrites the pause with an idle or failed lifecycle
  (internal/wake/store.go:302-307), which lets later deliveries through.
  `PipelineGate.GateHoldsIffNothingSlips` is the exact condition on the state in
  which the gate closes, for the whole system and a binding that is alone on its
  stored session; `DaemonSlips.GateHoldsIffNothingSlips` is the one of the handler
  protocol, for any bindings. While a session is crashed no binding of it is woken
  (`PipelineRuns.CrashedSessionsStayAsleepInSystem`). The gate is that of the trimmed
  ids, under which deliveries are recorded and checked. `awp sessions pause` takes ids
  as they are typed (internal/cli/sessions.go:196-223): a pause under untrimmed ids is
  stored where no delivery looks (`DaemonSlips.UntrimmedGateIsNeverSeen`).
- *A held event is delivered after the resume.* It is on file as pending
  (`DaemonGate.HeldDeliveryIsRecorded`), and, unless it is delivered anew, is still
  there at the resume if and only if fewer than 500 records were appended after it
  (`DaemonHeld.HeldEventWaits`): holding one event can evict another. The provider
  was told `failed` and has dropped it from its queue, so nothing here claims that
  it is ever run.
- *Every handler acknowledges before the client stops* (internal/client/client.go:55-59).
  The context is cancelled and the connection closed before the client waits, so a
  concurrent handler that is still running then returns without an acknowledgement.
  `Client.Run` says exactly which ones are written.
- *Pre-release order is that of Semantic Versioning.* Only when every digit-only
  identifier fits in an int and none is a signed number such as `-1`:
  `VersionText.AgreesWithSemVerIffWellBehaved`.
- *An update is installed once.* A run that cannot save its policy, or a release
  whose tag ends in `-dev`, is installed again:
  `AutoUpdate.ReinstallsIffUnsavedOrDev`.
- *An update waits for its interval.* The interval is a 64-bit number of nanoseconds
  (internal/updater/updater.go:331-332), so this holds exactly up to 2562047 hours:
  `UpdateMeaning.IntervalIsKeptIff`.
- *An update is newer than what is running.* Once the policy names an installed
  version, the running one is not looked at (internal/cli/update.go:156-159), so
  after a manual installation of a newer version an automatic run may go back.
  `AutoUpdate.InstallsBeatRunningIff` says exactly when it cannot.
- *Substitution does not depend on map order.* `Template.SubstitutionIsConfluent`
  gives a sufficient condition for any token. For a token with one placeholder the
  condition is exact (`Template.OrderIsInvisibleIff`): every order gives the same
  text if and only if each other placeholder that the filled text spells stands
  for itself. For the prompt that is `Template.PromptIsVerbatimIff`. For any number
  of placeholders, `TemplateSteps.EveryStepIsAsMeantIff` says exactly when every
  step of every order fills its own holes and changes nothing else. The final texts
  alone do not decide that: two wrong steps can undo each other
  (`TemplateTexts.FinalTextsDoNotDecide`). They do when the token's own text spells
  no placeholder and at most two replacements are in question
  (`TemplateTexts.FinalTextsDecideTwo`).

## Model

| member | source | states |
|---|---|---|
| `PipelineSafety.CompletedDeliveriesWereRun` | example/backend/main.py:187-235 | End to end, for every interleaving, with lost, repeated and reordered messages, crashes and failed saves: a delivery to this device that the provider holds as `completed` had a successful adapter run under its own session and event id, or under the trimmed ones; when they are trimmed that is the same. |
| `PipelineSkips.CompletedWithoutRun` | internal/wake/store.go:228-271 | The failing behaviour: from every state with a completed event, the provider can publish another event, whose id differs in outer white space only, for which no run is ever made and which it ends up holding as `completed`. |
| `PipelineConsent.EveryRunWasAuthorized` | internal/cli/daemon.go:207-237 | In every behaviour, each finished adapter run of any provider was made for an event and with ids that an earlier step authorized; they held `runtime.wake`, and (for an injective hash) at that step each id was backed by a standing applicable grant for the definition then requested. |
| `PipelineConsent.EveryStartWasAuthorized` | internal/cli/daemon.go:207-237 | The same for every start of the adapter, also one that a crash cuts off before it returns: the authorization is an earlier step. |
| `PipelineConsent.RunsNeverExceedAuthorizations` | internal/cli/daemon.go:207-253 | In every behaviour the finished runs for an event with given ids never outnumber the starts of the adapter for it, crashed ones included, and those never outnumber the steps that authorized exactly that: one authorization pays for one start at most. |
| `PipelineSafety.DaemonFollows` | internal/cli/daemon.go:177-264 | Every behaviour of the composed system moves the daemon along a behaviour of the handler protocol, step for step and to the same state. |
| `PipelineSafety.DaemonInSystemIsReachable` | internal/cli/daemon.go:177-264 | The daemon inside the composed system is always in a reachable state of the handler protocol with unchanged bindings. |
| `PipelineRuns.NoDoubleWakeInSystem` | internal/cli/daemon.go:190-253 | `DaemonRuns.NoDoubleWake` for every behaviour of the composed system from each of its reachable states. |
| `PipelineRuns.NoDoubleWakeOfSession` | internal/cli/daemon.go:190-242 | In every reachable state of the composed system each start of the adapter, under whatever binding of a stored session, for an event with a completed record there comes at least 500 appends after that record. |
| `PipelineRuns.CompletedRecordIsNotRunAgainInSystem` | internal/cli/daemon.go:190-242 | In the composed system, for any bindings: a start for the event of a completed record comes at least 500 appends after it. |
| `PipelineRuns.GateHoldsInSystem` | internal/wake/store.go:302-322 | In the composed system, for any binding of a gated stored session: while nothing can slip through the gate of the handler protocol, no behaviour without a resume starts its adapter, and the gate stays closed. |
| `PipelineGate.GateHoldsIffNothingSlips` | internal/wake/store.go:302-322 | The gate of the whole system, permissions included, for a binding with trimmed ids: it stays asleep until a resume if, and when it is alone on its stored session only if, no handler of it is authorized, will open the session with its completion, or is about to ask for an authorization that the grants in memory can still give. |
| `PipelineRuns.CrashedSessionsStayAsleepInSystem` | internal/cli/daemon.go:239-253 | In the composed system no binding, whatever its ids, is woken while its stored session is crashed and not resumed. |
| `PipelineRuns.UntrimmedNeverWakes` | internal/permissions/store.go:323-382 | From every reachable state of the composed system no behaviour starts the adapter for a binding with outer white space in its ids, whatever is requested, granted, edited or put in place. |
| `PipelineTrimmed.OnlyTrimmedBindingsWake` | internal/cli/daemon.go:207-237 | In every behaviour each authorized or running handler, and each finished run, is that of a binding with trimmed ids. |
| `PipelineRuns.HeldEventWaitsInSystem` | internal/wake/store.go:222-271 | `DaemonHeld.HeldEventWaits` for every behaviour of the composed system. |
| `PipelineRecords.RecordsWerePublished` | internal/cli/daemon.go:310-331 | End to end: every record on the device was put on file by one of its bindings; under a binding of this provider it is that of a message which an earlier step published for this device and session, and while it is pending it carries the payload of that publication. |
| `PipelineRecords.SendsExactly` | example/backend/main.py:187-259 | The provider sends a newly published event if and only if its device is connected, on a bind exactly the pending deliveries of the session, and nothing else. |
| `PipelineRecords.GrantingMeans` | internal/cli/daemon.go:207-222 | In every state of the composed system an authorization step grants something if and only if it is saved, a request and a counting grant exist, and the history behind the daemon's permissions approves `runtime.wake` as it is requested now; then exactly the ids so approved. |
| `DaemonInvariants.InFlightEventsAreSafe` | internal/cli/daemon.go:186-253 | In every reachable state, for a binding that shares its stored session with no other: at most one handler is past recording; its event is still in the bounded history, pending; and completing it finds the record if and only if neither the binding's ids nor the event id have outer white space. |
| `DaemonRepeats.InFlightEventsStayIffAlone` | internal/wake/store.go:228-298 | The event of every in-flight handler of a binding is on file as pending in every reachable state if and only if no other binding has the same trimmed ids. |
| `DaemonRepeats.SharedSessionEvicts` | internal/wake/store.go:228-271 | The failing behaviour: while a handler is in flight, 500 deliveries to another binding of the same stored session, none of them authorized, evict its event. |
| `DaemonRuns.CompletedEventsWereRun` | internal/cli/daemon.go:190-253 | In every reachable state, for any bindings: a record marked completed had a successful run under just its ids, and a handler about to report success had one under its own ids or the trimmed ones, whatever saves failed and wherever the daemon crashed. |
| `DaemonRuns.SkippedIffCompletedInWindow` | internal/cli/daemon.go:190-206 | In every reachable state and for any ids, a delivery is answered as completed without a run if and only if it can be saved and a completed record of its event is followed by fewer than 500 others in the journal. |
| `DaemonRuns.CompletedRecordIsNotRunAgain` | internal/cli/daemon.go:190-242 | From every reachable state with a completed record, for any bindings: a handler of that session that is about to start the adapter for its event comes after at least 500 other appends to the session. |
| `DaemonRuns.NoDoubleWake` | internal/cli/daemon.go:190-253 | After a successful run under trimmed ids whose completion was saved, whichever bindings share the stored session: a later start of the adapter for the event by that binding comes after the event was appended anew, at least 500 other appends behind each record of it that was there, and there was one. |
| `PipelineRepeats.EvictedEventRunsAgain` | internal/wake/store.go:265-267 | In the composed system, from every state in which an open session is authorized by a lasting grant and can be sent events: 500 events that the provider publishes, each delivered, run with success and answered, and then a redelivery of any earlier message start the adapter for that one. |
| `PipelineRepeats.UntrimmedEventRunsAgain` | internal/wake/store.go:228-298 | In the composed system, a delivery whose event id has outer white space, once run with success, saved and acknowledged as completed, is run again when it is delivered again, with nothing in between. |
| `DaemonSlips.GateHoldsIffNothingSlips` | internal/wake/store.go:302-322 | In the handler protocol, from a gated stored session, for any binding and whatever others share it: no behaviour without a resume starts its adapter if no handler of the binding has its start still before it and no handler under the session's own ids has a completion that will overwrite the gate; for trimmed ids if and only if. |
| `DaemonSlips.CrashedSessionsStayAsleep` | internal/cli/daemon.go:239-253 | From any reachable state with a crashed stored session: no behaviour wakes a binding with these ids before a resume, nor any other binding of the session, unless that one had a handler past recording. |
| `DaemonSlips.UntrimmedGateIsNeverSeen` | internal/wake/store.go:314-331 | For every binding with untrimmed ids whose trimmed session is open: pausing it or marking it crashed under its own ids gates the session stored under those, and still its next delivery is put on file and passes the gate. |
| `DaemonGate.HeldDeliveryIsRecorded` | internal/wake/store.go:222-271 | For any binding, a delivery that arrives at a gated session leaves the gate as it was; a new event is on file as pending with its payload and is refused; a completed one changes nothing and is reported as done. |
| `DaemonHeld.HeldEventWaits` | internal/wake/store.go:222-271 | For any binding: until the stored session is resumed, in every behaviour, the record of a held event stays pending, if no handler already under way will open the session or finish this event (under trimmed ids there is none); and unless the event is delivered anew, the store still has it if and only if fewer than 500 records were appended after it. |
| `DaemonGate.HeldNeverWakes` | internal/cli/daemon.go:310-331 | Inductive form of the gate, for any binding: once its stored session is gated and nothing can slip, both stay so and nothing starts until a resume. |
| `DaemonSlips.SlipperyCanWake` | internal/cli/daemon.go:186-253 | Converse of the gate in the handler protocol, for trimmed ids: from each kind of handler that can slip a concrete behaviour without a resume starts the adapter. |
| `DaemonProcess.Process.Handle` | internal/cli/daemon.go:177-264 | The handler code takes exactly the steps that its inputs call for, in order; it runs the adapter, once and with the authorized ids, exactly when the delivery is recorded, not seen before, not gated, and an authorization is found and saved; it succeeds exactly for an already completed event or a successful run; it releases its lock. |
| `DaemonProcess.StepsMean` | internal/cli/daemon.go:177-264 | The steps of the handler code, in full: of a delivery that may not wake, of one whose wake is refused, and of one that is run. |
| `DaemonProcess.Process.Admit` | internal/cli/daemon.go:186-206 | Locking and recording ends in exactly one of four outcomes, decided by the stored session: lost, seen, held or open. |
| `DaemonProcess.Process.RecordOrGate` | internal/cli/daemon.go:310-331 | Loads, records and saves as the record step of the protocol does; failed, duplicate and blocked are mutually exclusive and each is reported exactly when the stored session says so. |
| `DaemonProcess.Process.Wake` | internal/cli/daemon.go:207-263 | From a recorded delivery: authorizes once with consumption, runs exactly when that succeeds and is saved, and reports success exactly for a successful run. |
| `DaemonProcess.Process.AuthorizeWake` | internal/cli/daemon.go:207-213 | The permission state moves as Authorize with consumption does; a failed save counts as a refusal although the one-time grant is gone from memory. |
| `DaemonProcess.Process.DenyWake` | internal/cli/daemon.go:213-222 | Without an authorization the event is closed as failed and no run is made. |
| `DaemonProcess.Process.Run` | internal/cli/daemon.go:225-263 | With an authorization exactly one run is made, with the authorized ids. |
| `DaemonProcess.Process.Execute` | internal/cli/daemon.go:236-263 | The run is followed by one completion, whose status is that of the run. |
| `DaemonProcess.Process.Complete` | internal/cli/daemon.go:243-253 | One atomic load, mutate and save, as the completion step of the protocol; what that leaves on file is `DaemonMeaning.CompleteLeaves`. |
| `DaemonProcess.Process.SetPermissions` | internal/cli/daemon.go:225-231 | One atomic load, mutate and save of the granted ids. |
| `DaemonMeaning.CompleteLeaves` | internal/cli/daemon.go:239-253 | In every reachable state, read from the stored sessions alone: a saved completion whose event is on file under the handler's own ids makes its record `completed` if and only if the run succeeded, and `failed` otherwise, drops the payload, and leaves every other record and session as it was; the session is idle after a success, failed after a failure, and crashed with the trimmed reason for a broken binding. |
| `DaemonMeaning.CompleteLeavesUnknown` | internal/cli/daemon.go:239-253 | A completion whose event is not on file changes nothing, except that a broken binding still marks the session crashed, with its records as they were. |
| `DaemonMeaning.DenyLeaves` | internal/cli/daemon.go:213-222 | A saved refusal closes the event as `failed`, without its payload, and leaves the session failed and all else as it was; nothing changes when the event is not on file. |
| `DaemonMeaning.StartLeaves` | internal/cli/daemon.go:225-231 | Starting the adapter leaves just the authorized ids on the session and changes nothing else. |
| `DaemonMeaning.RecordLeaves` | internal/cli/daemon.go:310-331 | In every reachable state: a delivery with a blank id is refused; a completed event is reported as done and nothing changes; any other is on file under the trimmed ids as pending, with its payload, and goes on if and only if the session is neither paused nor crashed. |
| `DaemonMeaning.UnsavedLeaves` | internal/cli/daemon.go:310-348 | A step whose save fails leaves the file as it was, and a delivery that cannot be saved is refused. |
| `DaemonMeaning.PauseLeaves` | internal/wake/store.go:314-319 | A pause from outside changes the lifecycle of the session it names and nothing else. |
| `DaemonMeaning.ResumptionLeaves` | internal/wake/store.go:335-343 | A resume makes the session idle that it names, when it is on file, and changes nothing else. |
| `DaemonProcess.ArrivalMeans` | internal/cli/daemon.go:310-331 | The four outcomes of recording, by what is on file: lost for a blank id or a failed save, seen for a completed event, held for a paused or crashed session, open otherwise. |
| `DaemonProcess.LicenceMeans` | internal/cli/daemon.go:207-222 | A wake is licensed if and only if the authorization is saved, a request and a counting grant exist, and the history approves `runtime.wake` under it as it is requested now; for exactly the ids so approved. |
| `WakeHistory.SessionIsolation` | internal/wake/store.go:167-375 | For any interleaving of operations over many sessions, the stored state of a session is what its own operations alone build from the empty store. |
| `WakeHistory.ApplyIsLocal` | internal/wake/store.go:198-375 | One operation changes at most the session it names, and what it makes of that session depends on nothing else in the store. |
| `WakeJournal.BoundedHistoryRefinesJournal` | internal/wake/store.go:236-271 | After any history a session holds exactly the newest min(n, 500) of the n records that an unbounded journal of the same operations holds. |
| `WakeJournal.JournalKeeps` | internal/wake/store.go:236-297 | In the journal an event is appended again only after 500 other appends, ids are trimmed and not empty, finished records carry no payload, and pending ones in the window carry the last delivered payload. |
| `WakeJournal.StoredRecords` | internal/wake/store.go:222-297 | After any history: at most 500 records with distinct event ids, no payload on a finished record, the latest delivered payload on a pending one. |
| `WakeJournal.DuplicateIffCompletedInWindow` | internal/wake/store.go:241-267 | After any history, RecordDelivery reports a duplicate if and only if a completed record of the event is followed by fewer than 500 others in the unbounded journal. |
| `WakeJournal.CompletionFindsRecordIffTrimmed` | internal/wake/store.go:228-298 | After a recorded delivery, completing it under the same ids finds the record if and only if provider, session and event id carry no outer white space. |
| `WakeJournal.UntrimmedEventIsNeverCompleted` | internal/wake/store.go:229-298 | A concrete delivery whose record its own completion does not find. |
| `WakeStore.EventStore.FindSession` | internal/wake/store.go:167-174 | The first session with the key, or -1 when there is none. |
| `WakeStore.EventStore.EnsureSession` | internal/wake/store.go:198-211 | The stored session, or a new idle one appended; every other session stays. |
| `WakeStore.EventStore.Seen` | internal/wake/store.go:185-196 | True exactly when the session exists and holds a record of the event. |
| `WakeStore.EventStore.RecordDelivery` | internal/wake/store.go:228-271 | The new store, session and duplicate flag on all inputs, the error case included, in which nothing changes. |
| `WakeStore.RecordInto` | internal/wake/store.go:241-271 | The loop over the records and the append with truncation: duplicate exactly for a completed record, retry in place for any other, else a new last record and at most 500 of them. |
| `WakeStore.EventStore.CompleteEvent` | internal/wake/store.go:279-309 | The new store and session, or which of the three errors is returned with nothing changed. |
| `WakeStore.EventStore.Pause` | internal/wake/store.go:314-319 | The session is paused with the trimmed reason, created if needed; nothing else changes. |
| `WakeStore.EventStore.MarkCrashed` | internal/wake/store.go:326-331 | The session is crashed with the trimmed reason, created if needed; nothing else changes. |
| `WakeStore.EventStore.Resume` | internal/wake/store.go:335-343 | The session is idle again; an unknown session is an error and nothing changes. |
| `WakeStore.EventStore.SetPermissions` | internal/wake/store.go:370-375 | The session carries the granted ids, created if needed; nothing else changes. |
| `WakeStore.Pending` | internal/wake/store.go:379-387 | Exactly the pending records, oldest first. |
| `WakeMeaning.DeliveryLeaves` | internal/wake/store.go:228-271 | After any history, what RecordDelivery leaves under the trimmed ids: it is a duplicate if and only if the event is on file as completed, and then the session stays; otherwise an existing record is rewritten in place and keeps its receipt time, or a new one is last and a full history of 500 loses its first; the session is running with the reason `retrying event` or `processing event`, unless it is paused or crashed; other sessions stay. |
| `WakeMeaning.DeliveryIsRefusedIff` | internal/wake/store.go:228-234 | A delivery is an error if and only if its provider, session or event id is blank. |
| `WakeMeaning.CompletionLeaves` | internal/wake/store.go:279-309 | After any history: exactly when each of the three errors is returned; otherwise the record takes the status and loses its payload, the session is idle or failed with the event named, and every other record and session stays. |
| `WakeMeaning.GatingLeaves` | internal/wake/store.go:314-331 | Pausing and marking as crashed change one session's lifecycle, to that status with the trimmed reason, and put a new session on file without records. |
| `WakeMeaning.PendingAreInOrder` | internal/wake/store.go:379-387 | The pending events are the records with that status, each once and in the order on file. |
| `WakeMeaning.RecordsWereDelivered` | internal/wake/store.go:228-309 | Every record on file was left by a delivery operation of its session and event: it has that delivery's id and, while it is pending, its payload and time. |
| `PermissionTheorems.AuthorizationIsSound` | internal/permissions/store.go:323-373 | Over any history and an injective hash: each id Authorize returns was named by an applicable grant, asked for under the text of the selected scope, that has since been neither replaced, consumed nor revoked of it, and that approved the very definition now requested, which is not interactive-only; `runtime.wake` is among the ids. |
| `PermissionTheorems.ToolsAreApproved` | internal/permissions/store.go:350-364 | Each tool Authorize returns belongs to a requested definition whose id it also returns. |
| `PermissionMeaning.AnswerIsExact` | internal/permissions/store.go:323-373 | Authorization is sound and complete on every history: Authorize succeeds if and only if a request and a counting grant exist and the history approves `runtime.wake` under that grant with the hash of the definition requested now; its ids are exactly the ones so approved, its tools exactly the tools of their definitions (both directions), both ascending; otherwise the error is the one for what is missing. |
| `PermissionMeaning.AuthorizationLeaves` | internal/permissions/store.go:364-372 | Requests and grants stay, except that a consuming success under scope once removes just that session's once grant; nothing at all changes without consumption or on an error. |
| `PermissionMeaning.GrantMeans` | internal/permissions/store.go:272-310 | A made grant has scope once if and only if the text is `once`, provider if and only if `provider`, binding if and only if it is empty or `binding`; a provider-wide grant names no session; it holds just the allowed ids under the hashes of their requested definitions. Any other text, a missing request, no id, the first id that is not requested or interactive-only, and a missing `runtime.wake` are each refused with their own error, in this order. |
| `PermissionMeaning.GrantLeaves` | internal/permissions/store.go:304-320 | A made grant is found under its provider, session and scope; the grants under all other keys, and the requests, stay. |
| `PermissionMeaning.DefinitionMeans` | internal/permissions/store.go:289-292 | On every history the definition of an id is the one permission with that id in the session's request. |
| `PermissionMeaning.RequestMeans` | internal/permissions/store.go:175-226 | Exactly which requests are taken and as what: refused for a blank id, an empty list, the first flaw by position and by check, or a missing `runtime.wake`; otherwise stored with trimmed texts and each list of tools ascending and once. |
| `PermissionMeaning.RequestLeaves` | internal/permissions/store.go:227-238 | An accepted request is the one of its session from then on; other requests and all grants stay. |
| `PermissionMeaning.LocalRequestMeans` | internal/permissions/store.go:257-270 | The request of AWP's own has exactly `runtime.wake` and the allowed ids, ascending and once each, with the stated risk, delegation and tools. |
| `PermissionTheorems.OnceGrantsAreUsedOnce` | internal/permissions/store.go:272-373 | On every history the successful consuming authorizations with scope once, plus the once grant still held, never exceed the grants made for the session under the text `once`. |
| `PipelineOnce.OnceRunsNeverExceedOnceGrants` | internal/permissions/store.go:323-373 | End to end, over the whole life of the system, restarts, crashes and failed saves included: the finished runs of a session under scope once never exceed its starts under it, and those plus the earlier uses never exceed the once grants of the first history and the ones that other processes made or put in place since. |
| `PermissionTheorems.RevokedUntilGrantedAgain` | internal/permissions/store.go:419-453 | After a revocation without a scope that covers an id, Authorize does not return the id for that session until a later grant names it. |
| `PermissionTheorems.RevokeReportsChange` | internal/permissions/store.go:419-453 | On every reachable store Revoke reports a change exactly when the grants differ. |
| `PermissionTheorems.ApprovalHasWitness` | internal/permissions/store.go:272-321 | An approval read off a history has a grant operation that made it and that nothing has ended, and the hash is that of the definition requested then. |
| `PermissionTheorems.AuthorizedIsApproved` | internal/permissions/store.go:323-364 | An authorized id is approved, in the history, in the selected grant under the hash of the definition requested now. |
| `PermissionAnswers.AnsweredIffPlain` | internal/permissions/store.go:175-382 | Some history of requests, grants, uses and revocations makes Authorize succeed for a session if and only if its provider and session ids are trimmed and not empty. |
| `PermissionAnswers.WakeCanBeAskedFor` | internal/permissions/store.go:323-373 | As long as the grant that counts holds `runtime.wake`, recording once more the request it was granted for makes Authorize succeed, whatever was requested in between. |
| `PermissionHistory.ReachableStoresAreOrderly` | internal/permissions/store.go:175-321 | In every reachable store there is one request per session, one grant per provider, session and scope, ids ascend without repetition, and a grant hashes exactly the ids it lists. |
| `PermissionHistory.SelectIsBest` | internal/permissions/store.go:328-345 | The selected grant is the once grant, else the binding grant, else the provider grant. |
| `PermissionHistory.AnswerIgnoresOrder` | internal/permissions/store.go:323-373 | On orderly stores Authorize answers the same in whatever order the grants are kept, by the best grant, with ascending lists free of repetition. |
| `PermissionHistory.GrantsMatchHistory` | internal/permissions/store.go:272-453 | The hash a stored grant holds for an id is exactly what the history of grants, uses and revocations says. |
| `PermissionStore.PermissionFile.AppendAudit` | internal/permissions/store.go:461-467 | The entry is last, at most 1000 entries stay, and those are the last ones of the old audit with the entry after it. |
| `PermissionHistory.AuditKeepsNewest` | internal/permissions/store.go:175-467 | After any history the audit is exactly the newest 1000 of all entries ever made, where each accepted request, grant, effective revocation and consuming authorization makes one and using up a one-time grant makes one more. |
| `PermissionStore.PermissionFile.RecordRequest` | internal/permissions/store.go:175-238 | The stored request and store, or the first failing check with nothing changed. |
| `PermissionStore.CheckPermissions` | internal/permissions/store.go:185-226 | The validation loop returns the normalized permissions, or the first flaw in the order in which the checks are made; `runtime.wake` must be among them. |
| `PermissionStore.PermissionFile.RequestLocal` | internal/permissions/store.go:257-270 | Records the request that AWP writes itself: `runtime.wake` and the allowed ids, once each and sorted, the tools on every id but `runtime.wake`. |
| `PermissionStore.PermissionFile.DecideGrant` | internal/permissions/store.go:272-310 | The grant about to be stored, or the first failing check, as `PermissionMeaning.GrantMeans` says. |
| `PermissionStore.PermissionFile.HashAllowed` | internal/permissions/store.go:293-303 | Each allowed id is hashed under its requested definition, or the first id that is not requested or interactive-only is reported. |
| `PermissionStore.PermissionFile.GrantPermissions` | internal/permissions/store.go:272-321 | The grant and the new store, or the refusal with nothing changed, as `PermissionMeaning.GrantMeans` and `PermissionMeaning.GrantLeaves` say. |
| `PermissionStore.PermissionFile.PutInPlace` | internal/permissions/store.go:311-320 | Replaces the grant with the same provider, session and scope, or appends it. |
| `PermissionStore.PermissionFile.SelectGrant` | internal/permissions/store.go:328-342 | The first applicable grant of the highest scope. |
| `PermissionStore.PermissionFile.CollectCurrent` | internal/permissions/store.go:350-359 | Exactly the ids whose approved definition is the one requested now, in order, and the tools of those. |
| `PermissionStore.PermissionFile.Authorize` | internal/permissions/store.go:323-373 | The answer and new store on all inputs, as `PermissionMeaning.AnswerIsExact` and `PermissionMeaning.AuthorizationLeaves` say; without consumption nothing changes. |
| `PermissionStore.PermissionFile.Remaining` | internal/permissions/store.go:435-444 | What a grant keeps after a partial revocation, hashes included, and whether it lost anything. |
| `PermissionStore.PermissionFile.RevokeAt` | internal/permissions/store.go:422-448 | One turn of the backward loop: the grant at the index is kept, shrunk or removed in place, and the others stay. |
| `PermissionStore.PermissionFile.RevokeGrants` | internal/permissions/store.go:422-448 | The backward loop with in-place removal equals filtering every matching grant and dropping the emptied ones. |
| `PermissionStore.PermissionFile.Revoke` | internal/permissions/store.go:419-453 | The new store, and whether anything was revoked. |
| `Common.CollectUniqueSorted` | internal/permissions/store.go:469-481 | The trimmed, non-empty values, ascending and without repetition. |
| `Common.AscendingIsCanonical` | internal/permissions/store.go:469-481 | Such a list is determined by its set of elements, so the result depends on the set of values only. |
| `Common.TrimMeans` | internal/wake/store.go:229-231 | A text is white space, what trimming leaves of it, and white space. |
| `Common.LessMeans` | internal/updater/updater.go:387-392 | Strings are ordered by their first different character, a proper prefix first. |
| `Provider.ReachableIsJoint` | example/backend/main.py:153-235 | After any history: the event index and the deliveries are inverse to each other, every delivery goes to the device its session is bound to, and each pending queue is the publication-ordered list of exactly the unacked deliveries of its device, without repeats. |
| `Provider.HistorySettles` | example/backend/main.py:173-235 | Over any further history deliveries keep their message, an acked one never becomes pending, sessions never change device, and publication order only grows. |
| `Provider.DeliverPendingIsExact` | example/backend/main.py:249-259 | For a session bound to the device, deliver_pending selects exactly the unacked deliveries of the session, in publication order. |
| `Provider.RepublishIsIdempotent` | example/backend/main.py:187-192 | Publishing an event id again, after any history and with any target, answers with the first delivery, is flagged as duplicate and changes nothing. |
| `Provider.NewestConnectionStays` | example/backend/main.py:162-171 | After a device connects, its connection is that socket through any further history, disconnects of replaced sockets included, until it connects anew or that very socket goes. |
| `ProviderMeaning.DeliveriesWerePublished` | example/backend/main.py:187-222 | Over every history with fresh ids, each delivery was published, with exactly its event id, device, session, payload and delivery id, by the first publication of its event whose session was bound to the named device. |
| `ProviderMeaning.AcceptedIsDelivered` | example/backend/main.py:187-222 | Conversely, the first such publication of an event stays on record as it was published, whatever follows. |
| `ProviderMeaning.FreshPublication` | example/backend/main.py:194-222 | Publishing a new event: an error for an unknown session or one of another device; otherwise the answer is that message, pending, no duplicate, online if and only if the device is connected, and it is last in the device's queue with all else unchanged. |
| `ProviderMeaning.AcknowledgementLeaves` | example/backend/main.py:224-235 | Exactly when an acknowledgement is refused; otherwise the delivery takes its status and its id alone leaves the queue of the device. |
| `ProviderMeaning.BindLeaves` | example/backend/main.py:173-185 | A bind is refused if and only if another device has the session; otherwise the session has the device and adapter, and all else stays. |
| `ProviderMeaning.ConnectionMeans` | example/backend/main.py:162-171 | After any history a device has a socket if and only if that was its last to connect and has not gone since. |
| `ProviderState.AwpState.Connect` | example/backend/main.py:162-166 | The socket is registered and the replaced one is returned. |
| `ProviderState.AwpState.Disconnect` | example/backend/main.py:168-171 | Only the connection that is this very socket is removed. |
| `ProviderState.AwpState.Bind` | example/backend/main.py:173-185 | Binds or rebinds on the same device; a session of another device is refused and nothing changes. |
| `ProviderState.AwpState.Publish` | example/backend/main.py:187-222 | The delivery, the online and duplicate flags and the new state, or the error with nothing changed, as `ProviderMeaning.FreshPublication` says for a new event and `Provider.RepublishIsIdempotent` for a known one. |
| `ProviderState.AwpState.Acknowledge` | example/backend/main.py:224-235 | The delivery takes the status and leaves its queue, or the error with nothing changed. |
| `ProviderState.AwpState.DeliverPending` | example/backend/main.py:249-259 | Sends a prefix of the selected deliveries: all of them, or those before the first failing send. |
| `Client.Run` | internal/client/client.go:40-173 | Starts handlers for exactly the deliveries of the conversation and ends for the right reason, a hello, bind, pong or acknowledgement that cannot be written included. A handler's acknowledgement is written if and only if the write succeeds and, for a concurrent handler, it is done before the connection ends; never twice; in order when the loop runs the handlers itself. |
| `Client.Receive` | internal/client/client.go:81-158 | The loop up to the end of the connection: the deliveries started, the messages read and the end are those of the conversation, and of the handlers that have returned exactly those have answered that could. |
| `Client.Turn` | internal/client/client.go:83-156 | One message: it ends the connection with the right error, or is the last one, or the loop goes on with the right rest. |
| `Client.Begin` | internal/client/client.go:129-140 | A handler is started beside the loop, or run inside it, where a failed acknowledgement ends the connection. |
| `Client.Settle` | internal/client/client.go:130-136 | The concurrent handlers that are done return; each of them writes its acknowledgement once, if it can. |
| `Client.StartedDeliveriesAreValid` | internal/client/client.go:62-145 | A handler is only started for a delivery that came after the welcome for this device, names this device, has both ids, and names one of the options' sessions, or the single session when that is all there is. |
| `ClientMeaning.ConversationMeans` | internal/client/client.go:81-158 | How every connection goes, by the messages, options and handlers: each message read before the last is taken and does not end it; the last one ends it for the right reason, or nothing more can be read; the deliveries handled are exactly those taken, in order. |
| `ClientMeaning.CourseIsUnique` | internal/client/client.go:81-158 | Those properties determine the deliveries handled, the messages read and the end. |
| `ClientMeaning.DeliveryIsStarted` | internal/client/client.go:109-140 | Converse of the above: a delivery that comes after the welcome, that the callback takes, with both ids, for this device and a registered session when there are any, is handed to a handler when the loop reads it. |
| `ClientMeaning.AnswersMean` | internal/client/client.go:161-173 | Each acknowledgement names its delivery and event, and is `accepted` if and only if there is no handler function, else `completed` if and only if the handler succeeded, else `failed`. |
| `Versions.ParseVersion` | internal/updater/updater.go:398-422 | The loop over the three numbers computes the parse, errors included. |
| `Versions.CompareParsed` | internal/updater/updater.go:349-396 | The indexed loops with early returns compute the comparison. |
| `VersionOrder.CompareIsTotalPreorder` | internal/updater/updater.go:340-396 | Reflexive, sign-antisymmetric and transitive on all parsed versions. |
| `VersionOrder.CompareAgrees` | internal/updater/updater.go:340-396 | On well-behaved identifiers the comparison is the precedence of section 11 of Semantic Versioning 2.0.0, which is defined on its own. |
| `VersionOrder.Disagreement` | internal/updater/updater.go:373-394 | Every version with a misread identifier is ordered against some well-behaved version the other way from Semantic Versioning. |
| `VersionText.AgreesWithSemVerIffWellBehaved` | internal/updater/updater.go:340-422 | A parsed text is ordered as Semantic Versioning orders it against every well-behaved text, if and only if its own identifiers are well behaved. |
| `VersionText.RoundTripIffPrintable` | internal/updater/updater.go:398-422 | Parsing a printed version gives it back if and only if its numbers fit an int, its identifiers hold no `.` or `+`, and its pre-release part is not one empty identifier. |
| `VersionText.ParsePrint` | internal/updater/updater.go:398-422 | The round trip for every such version. |
| `VersionText.ParsedTextIsStable` | internal/updater/updater.go:398-422 | Printing what was parsed and parsing it again gives the same version. |
| `VersionText.PrefixAndBuildAreIgnored` | internal/updater/updater.go:399-402 | One leading `v` and any build metadata do not change what is parsed, and a second `v` never parses. |
| `VersionGrammar.ParsesIffSpelled` | internal/updater/updater.go:398-422 | A text parses as a version if and only if it is an optional `v`, three numbers between dots that fit in an int, a `-` with the non-empty pre-release identifiers when there are any, and an optional `+` with anything. |
| `VersionGrammar.NotSemanticIff` | internal/updater/updater.go:402-406 | The first of the two errors is reported if and only if there are not three parts between dots before the first `-` or `+`. |
| `VersionGrammar.AtoiMeans` | internal/updater/updater.go:373-374 | An identifier counts as a number if and only if it is an optional sign and digits whose value fits in 64 bits. |
| `AutoUpdate.UpdateFile.RunAutomaticUpdate` | internal/cli/update.go:140-179 | What a run installs and what policy file it leaves, for a missing, damaged, refused or loaded policy and every combination of due time, release, installation and save. |
| `UpdateMeaning.RunMeans` | internal/cli/update.go:140-179 | For intervals that fit in a duration: without a policy that is on, or before the interval has passed, nothing is installed and the file stays; otherwise exactly when the release is installed, and what is saved. |
| `UpdateMeaning.QuietUntilInterval` | internal/updater/updater.go:326-333 | After a run that checked and saved, whatever runs follow before the interval has passed install nothing and leave the file unchanged. |
| `UpdateMeaning.IntervalIsKeptIff` | internal/updater/updater.go:331-332 | No run before the interval has passed does anything, if and only if the interval is at most 2562047 hours. |
| `UpdateMeaning.ConfiguringMeans` | internal/cli/update.go:114-132 | Switching on sets the interval, off keeps it; neither touches the last check nor the installed version, and only an interval below one hour or an unreadable file is refused. |
| `AutoUpdate.InstallsStrictlyIncrease` | internal/cli/update.go:140-179 | Over any sequence of runs and reconfigurations in which each run can save and no release is a `-dev` one, each installed version is newer than every earlier one. |
| `AutoUpdate.ReinstallsIffUnsavedOrDev` | internal/cli/update.go:156-175 | The same release is installed by a later run if and only if the policy could not be saved or the release ends in `-dev`. |
| `AutoUpdate.InstallsBeatRunningIff` | internal/cli/update.go:140-179 | For a running release: whatever run takes place with whatever release, an automatic installation is newer than the running version, if and only if the policy is off or unreadable, names no installed version, or names one that is not a `-dev` one nor older than the running one. |
| `Template.Substitute` | internal/adapters/command/command.go:107-112 | The loop over the map, for one iteration order of its keys. |
| `Template.SubstituteAll` | internal/adapters/command/command.go:81-84 | Every token is substituted on its own, each with an iteration order of its own. |
| `Template.SubstitutionIsConfluent` | internal/adapters/command/command.go:107-112 | For any number of placeholders: when neither the literals nor the values that are used open a brace, every iteration order gives the simultaneous left-to-right substitution. |
| `TemplateSteps.EveryStepIsAsMeantIff` | internal/adapters/command/command.go:107-112 | For any number of placeholders and any texts: every step of every iteration order leaves exactly the holes so far filled and the rest as it was, if and only if each replacement, done last with all other holes filled, gives the simultaneous substitution. |
| `TemplateSteps.EveryOrderIsAsMeant` | internal/adapters/command/command.go:107-112 | Under that condition every order gives the simultaneous substitution. |
| `TemplateTexts.FinalTextsDecideTwo` | internal/adapters/command/command.go:107-112 | When the token's own text spells neither of two placeholders and all other replacements are as meant: every order gives the simultaneous substitution if and only if these two, each done last with all other holes filled, do. |
| `TemplateTexts.FinalTextsDoNotDecide` | internal/adapters/command/command.go:107-112 | A token and two values for which every order gives the simultaneous text although one replacement on its own does not: without such conditions the final texts say nothing about the steps. |
| `Template.EventNeverReachesOtherTokens` | internal/adapters/command/command.go:73-84 | A token without the prompt placeholder comes out the same in every order and for every prompt, whatever the event says. |
| `Template.OrderIsInvisibleIff` | internal/adapters/command/command.go:107-112 | For every token with one placeholder among the keys: all iteration orders give the simultaneous substitution if and only if each other placeholder that the filled text spells is replaced by itself. |
| `Template.PromptIsVerbatimIff` | internal/adapters/command/command.go:73-84 | The prompt reaches the command unchanged in every order if and only if it spells no other placeholder, except one that stands for itself. |
| `Template.PromptMakesOrderVisible` | internal/adapters/command/command.go:107-112 | Whenever that condition fails, two iteration orders of the map give different texts. |

## Left out

- DaemonRuns.NoDoubleWake: requires trimmed ids, without which it fails (`PipelineRepeats.UntrimmedEventRunsAgain`).
- PipelineRuns.NoDoubleWakeInSystem: as NoDoubleWake.
- PipelineGate.GateHoldsIffNothingSlips: the converse requires that no other binding shares the stored session; one that does can push the event off file whose completion would open the session.
- PipelineRuns.GateHoldsInSystem: the half that keeps the session asleep, with the condition of the handler protocol; the exact one is `PipelineGate.GateHoldsIffNothingSlips`.
- DaemonInvariants.InFlightEventsAreSafe: requires that no other binding shares the stored session, which `DaemonRepeats.InFlightEventsStayIffAlone` shows to be necessary.
- DaemonHeld.HeldEventWaits: for an untrimmed binding, requires that no handler under the trimmed ids will open the session or finish the event.
- TemplateSteps.EveryOrderIsAsMeant: the condition is exact for every step of every order, and not necessary for the final texts (`TemplateTexts.FinalTextsDoNotDecide`); for a token whose own text spells no placeholder that is open when three or more replacements are in question.
- A permissions file that was written by hand: the permission state is that of a history of requests, grants, uses and revocations.
- DaemonGate.HeldDeliveryIsRecorded: requires provider and session ids that are not blank, as a binding must have.
- Pauses and resumes by the CLI and the MCP server are atomic steps. In the program load, mutate and save is atomic only inside one process (internal/cli/daemon.go:333-348); two processes that interleave inside it can lose an update.
- The daemon loads the permission store once (internal/cli/daemon.go:90), so a CLI grant or revocation does not reach a running daemon. The model does the same: edits by other processes are atomic steps on the saved file, which `Restart` loads.
- Eventual delivery: a held delivery is acknowledged as failed, and nothing says that it is ever run. No liveness is claimed.
- Order among terminal statuses: acknowledgements are written after the session lock is released, and the provider lets a later one overwrite an earlier one, although docs/HOW_TO_CREATE_AWP_BACKEND.md:495 asks for conflicting ones to be rejected. Only that a status never returns to pending is proved.
- Client.StartedDeliveriesAreValid: the order of decoding errors against callback errors inside one message is not distinguished.
- PermissionStore.PermissionFile.RecordRequest: the original also trims the caller's own permission slice in place; the model changes only the store.
- PermissionStore.PermissionFile.Revoke: the original always returns a nil error; the model has no error result.
- WakeStore.EventStore.CompleteEvent: the two clock readings of one call are one input.
- Provider.ReachableIsJoint: new delivery ids are assumed unused; generating them is outside the model.
- ProviderMeaning.DeliveriesWerePublished: as ReachableIsJoint.
- UpdateMeaning.QuietUntilInterval: requires an interval of at most 2562047 hours, the exact condition (`UpdateMeaning.IntervalIsKeptIff`).
- UpdateMeaning.RunMeans: as QuietUntilInterval; for a longer interval the time of the next check is that of the wrapped product.
- ProviderState.AwpState.DeliverPending: how many sends succeed is an input, and a failing send's own disconnect is a separate step.
- Lifecycle context hints and approval details, which no modelled operation sets.
- The workspace projection file that is written after a completion (internal/cli/daemon.go:254-262).
- Grant fields `granted_by`, and session binding metadata, which nothing reads.
- SHA-256: the definition hash is any function, injective where a theorem says so.
- Go's int has 64 bits; white space is the Unicode White_Space property; strings are valid UTF-8, on which byte order is code-point order.
- Loading and saving files: formats, modes, temporary files and validation of what is read.
- WebSocket, HTTP and JSON encoding; messages are values.
- Session registry, configuration checks, reconnect delays, CLI flags and output, launchd templates, the installer and the MCP dispatch.
- Release download, checksums and archive extraction; a run's installation succeeds or fails as an input.
- Codex argument building, prompt formatting and process execution; an adapter run is one outcome.
