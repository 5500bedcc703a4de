# XWiki scheduler plugin and basic link renderer, modelled in Dafny

This project models two parts of XWiki.

**The scheduler plugin** keeps scheduler jobs in step with a trigger engine (Quartz).
- A job is an `XWiki.SchedulerJobClass` object held by a wiki document.
- Each lifecycle operation drives the engine, then writes the job's new status (`Normal`, `Paused` or `None`) back to the holder document:
  - schedule, pause, resume, trigger and unschedule;
  - the startup of the plugin, which updates the job class of every wiki and replays the stored jobs.
- The plugin is the class `Scheduler.SchedulerPlugin`. Its fields are:
  - the engine (triggers and job details, by unique job id);
  - the job records held by the wiki documents;
  - the `XWiki.SchedulerJobClass` document of each wiki;
  - the current database of the context;
  - whether the engine was started.
- A job object is the class `Scheduler.JobObject`, whose status and context fields the methods update in place.

**The basic link renderer** writes a link as `reference[#anchor][?queryString][@interwikiAlias]`. It escapes the separators, and in the extra parts also the escape char `\`. `StringUtils.replaceEach` with single-character searches makes one pass and never rescans what it inserted, so it is modelled exactly as a per-character map. A reader of the rendered text is defined beside the renderer, so that the round trips can be stated.

Files:
- `wrappers.dfy`: Option, Result and Outcome, used for null, for a return-or-throw and for a void-or-throw.
- `job_id.dfy`: the unique job id and its injectivity.
- `trigger_engine.dfy`: the abstract engine, with the assumptions the model makes about Quartz.
- `job_class.dfy`: the repair `updateSchedulerJobClass` applies to the job class document.
- `scheduler_plugin.dfy`: the plugin and its operations.
- `basic_link_renderer.dfy`: the renderer, the reader and the round trips.

**Fault model.** Each operation takes `failing`, the set of call kinds that raise during it: a store load or save, an engine call, listing the wikis, and so on. A call of a kind in that set raises every time it is made. An exception is a `Failure(code, cause)`, so the wrapping done by the catch blocks shows in the results. `SchedulerPluginException` is an `XWikiException`. So a context-preparation failure inside `scheduleJob` is caught by its `XWikiException` clause and wrapped as `JOB_XCLASS_NOT_FOUND`. A `RESTORE_JOB` failure inside `restoreExistingJobs` is wrapped again as `RESTORE_EXISTING_JOBS`.

**Injected behaviour.** Three things the plugin relies on are given to it as functions:
- whether `Class.forName` finds a job class (`ClassExists`);
- whether a cron expression parses (`CronParses`);
- the first fire time the engine computes for a fresh trigger (`FirstFireTime`).

**Behaviours of the code that a reader might expect to be otherwise; the model follows the code:**
- When listing the virtual wikis fails, `init` visits no wiki at all. The main wiki is not added in that case (`SchedulerPlugin.java:96-104`). `Scheduler.MainWikiVisited` states exactly when the main wiki is visited.
- `prepareJobStubContext` initialises `jobNeedsUpdate` to true, so the holder document is saved on every call, filled in or not (`SchedulerPlugin.java:168`).
- Rescheduling a Normal job installs a fresh trigger (`SchedulerPlugin.java:348`). Its previous fire time is reset rather than kept.
- Failures are not isolated per job or per wiki. The first job whose replay fails ends `restoreExistingJobs` for its wiki, so the later jobs of that wiki are not restored (`SchedulerPlugin.java:270-290`). The exception then leaves the loop of `init` over the wikis, so the later wikis are not restored either (`SchedulerPlugin.java:128-133`). `Scheduler.ReplayStoppedAt` and `Scheduler.WikisStoppedAt` state where the restore stopped.
- Scheduling and pausing are not atomic. When the engine holds no trigger for a job stored as Paused, `scheduleJob` installs the trigger and then pauses it. If the pause fails, the trigger that was installed stays in state Normal, and it will fire (`SchedulerPlugin.java:352-355`). The same happens to a Paused job during the restore, before `RESTORE_JOB` aborts it. `Scheduler.FailedPauseLeavesJobNormal` states this.

## Model

| member | source | states |
|---|---|---|
| `JobIdentity.IntToString` | xwiki-platform-scheduler/plugin/src/main/java/com/xpn/xwiki/plugin/scheduler/SchedulerPlugin.java:593 | the object number is written with a minus sign exactly when it is negative, and decimal digits everywhere after the first character |
| `JobIdentity.NatToStringValue` | xwiki-platform-scheduler/plugin/src/main/java/com/xpn/xwiki/plugin/scheduler/SchedulerPlugin.java:593 | the decimal digits written for a natural number denote that number, and only 0 is written with a leading zero |
| `JobIdentity.IntToStringValue` | xwiki-platform-scheduler/plugin/src/main/java/com/xpn/xwiki/plugin/scheduler/SchedulerPlugin.java:593 | the digits after the optional minus sign denote the magnitude of the object number, without leading zeros |
| `JobIdentity.IntToStringInjective` | xwiki-platform-scheduler/plugin/src/main/java/com/xpn/xwiki/plugin/scheduler/SchedulerPlugin.java:593 | two numbers with the same decimal form are equal |
| `JobIdentity.UniqueIdInjectiveInWiki` | xwiki-platform-scheduler/plugin/src/main/java/com/xpn/xwiki/plugin/scheduler/SchedulerPlugin.java:584-594 | within one database, two job objects with the same id have the same holder name and number: the id keeps one job per object |
| `JobIdentity.UniqueIdInjective` | xwiki-platform-scheduler/plugin/src/main/java/com/xpn/xwiki/plugin/scheduler/SchedulerPlugin.java:584-594 | across databases whose names hold no `:`, equal ids mean the same database, holder name and number |
| `TriggerEngine.ResumeUndoesPause` | xwiki-platform-scheduler/plugin/src/main/java/com/xpn/xwiki/plugin/scheduler/SchedulerPlugin.java:388-419 | resuming a job that was Normal when it was paused gives back exactly the engine it was paused from |
| `TriggerEngine.PauseIdempotent` | xwiki-platform-scheduler/plugin/src/main/java/com/xpn/xwiki/plugin/scheduler/SchedulerPlugin.java:388-400 | pausing a job twice leaves the engine as pausing it once |
| `JobClassSchema.AddPropertiesSpec` | xwiki-platform-scheduler/plugin/src/main/java/com/xpn/xwiki/plugin/scheduler/SchedulerPlugin.java:619-627 | the nine property additions leave every job property present, keep existing properties unchanged, add nothing else, and report a change exactly when some property was missing |
| `JobClassSchema.RepairMakesUpToDate` | xwiki-platform-scheduler/plugin/src/main/java/com/xpn/xwiki/plugin/scheduler/SchedulerPlugin.java:617-649 | after the repair the class has every property, a creator, author, parent, title and content that are not blank, and the XWiki 2.0 syntax; properties already present keep their definition |
| `JobClassSchema.RepairNeededIffStale` | xwiki-platform-scheduler/plugin/src/main/java/com/xpn/xwiki/plugin/scheduler/SchedulerPlugin.java:606-651 | the repair asks for a save exactly when the loaded class was not up to date |
| `JobClassSchema.RepairChangedIffDifferent` | xwiki-platform-scheduler/plugin/src/main/java/com/xpn/xwiki/plugin/scheduler/SchedulerPlugin.java:629-651 | the repair asks for a save exactly when it changed the document, so an unchanged class is never saved |
| `JobClassSchema.RepairIdempotent` | xwiki-platform-scheduler/plugin/src/main/java/com/xpn/xwiki/plugin/scheduler/SchedulerPlugin.java:603-659 | a second repair finds nothing to do and changes nothing, so the class is saved at most once across restarts |
| `Scheduler.FillContext` | xwiki-platform-scheduler/plugin/src/main/java/com/xpn/xwiki/plugin/scheduler/SchedulerPlugin.java:168-189 | an empty context user or language is taken from the caller and a set one is kept; the context database always ends as the current database; no other field changes |
| `Scheduler.FillContextIdempotent` | xwiki-platform-scheduler/plugin/src/main/java/com/xpn/xwiki/plugin/scheduler/SchedulerPlugin.java:156-189 | once a caller with a user and a language has filled the context in, a later fill-in from the same database changes nothing |
| `Scheduler.DispatchedState` | xwiki-platform-scheduler/plugin/src/main/java/com/xpn/xwiki/plugin/scheduler/SchedulerPlugin.java:340-366 | a successful dispatch leaves the trigger Paused or Normal: Paused if it was Paused; for an absent trigger, Paused exactly when the stored status is Paused; Normal in every other case |
| `Scheduler.SavedStatus` | xwiki-platform-scheduler/plugin/src/main/java/com/xpn/xwiki/plugin/scheduler/SchedulerPlugin.java:340-366 | no status is saved exactly when the engine reported Paused or Normal; for an absent trigger the saved status is Paused or Normal by the stored one; for any other state it is Normal |
| `Scheduler.SavedStatusNamesEngineState` | xwiki-platform-scheduler/plugin/src/main/java/com/xpn/xwiki/plugin/scheduler/SchedulerPlugin.java:340-366 | whenever scheduleJob saves a status, that status names the state it leaves the trigger in |
| `Scheduler.ScheduleAgainIsStable` | xwiki-platform-scheduler/plugin/src/main/java/com/xpn/xwiki/plugin/scheduler/SchedulerPlugin.java:340-366 | scheduling again a job scheduleJob already scheduled keeps its state and saves no status |
| `Scheduler.DispatchedTriggers` | xwiki-platform-scheduler/plugin/src/main/java/com/xpn/xwiki/plugin/scheduler/SchedulerPlugin.java:340-366 | after the dispatch the job's trigger is in the dispatched state; a Paused job keeps the engine as it was; any other job gets a fresh trigger with its cron expression that has not fired yet; other jobs' triggers are kept |
| `Scheduler.DispatchCalls` | xwiki-platform-scheduler/plugin/src/main/java/com/xpn/xwiki/plugin/scheduler/SchedulerPlugin.java:340-366 | a Paused job makes no call; a Normal one is looked up and rescheduled; every other state schedules, pauses only an absent job stored as Paused, and saves exactly when a status is saved |
| `Scheduler.EngineAfterDispatchSucceeded` | xwiki-platform-scheduler/plugin/src/main/java/com/xpn/xwiki/plugin/scheduler/SchedulerPlugin.java:340-366 | when none of the engine calls of the dispatch fails, the engine ends as the successful dispatch leaves it, whether or not the status save fails |
| `Scheduler.EngineAfterFailedFirstCall` | xwiki-platform-scheduler/plugin/src/main/java/com/xpn/xwiki/plugin/scheduler/SchedulerPlugin.java:340-366 | when the lookup or reschedule of a Normal job fails, or the schedule of any other non-Paused job fails, the engine is left as it was |
| `Scheduler.FailedPauseLeavesJobNormal` | xwiki-platform-scheduler/plugin/src/main/java/com/xpn/xwiki/plugin/scheduler/SchedulerPlugin.java:352-355 | a job the engine held no trigger for, stored as Paused, whose pause fails after the schedule, keeps the fresh trigger the schedule installed, in state Normal |
| `Scheduler.DispatchSucceedsIffCallsSucceed` | xwiki-platform-scheduler/plugin/src/main/java/com/xpn/xwiki/plugin/scheduler/SchedulerPlugin.java:340-366 | the dispatch succeeds exactly when none of the calls it makes fails |
| `Scheduler.ScheduleSucceedsIffCallsSucceed` | xwiki-platform-scheduler/plugin/src/main/java/com/xpn/xwiki/plugin/scheduler/SchedulerPlugin.java:311-381 | past the class and cron checks, scheduleJob succeeds exactly when none of the holder load and save, addJob, the state query and the dispatch calls fails |
| `Scheduler.RestoredState` | xwiki-platform-scheduler/plugin/src/main/java/com/xpn/xwiki/plugin/scheduler/SchedulerPlugin.java:258-284 | a job stored as Paused ends Paused; one stored as Normal ends Normal unless the engine already held it Paused; a job with any other status keeps the engine's state |
| `Scheduler.RestoreOnFreshEngine` | xwiki-platform-scheduler/plugin/src/main/java/com/xpn/xwiki/plugin/scheduler/SchedulerPlugin.java:258-284 | on an engine that does not hold the job, replaying a status of Normal or Paused leaves the trigger in the state that status names |
| `Scheduler.RestoreOnFreshEngineAll` | xwiki-platform-scheduler/plugin/src/main/java/com/xpn/xwiki/plugin/scheduler/SchedulerPlugin.java:258-284 | on an engine that does not hold the job, the replayed trigger's state is named by the stored status when that is Normal or Paused, and is None otherwise |
| `Scheduler.RestoredStateIdempotent` | xwiki-platform-scheduler/plugin/src/main/java/com/xpn/xwiki/plugin/scheduler/SchedulerPlugin.java:278-284 | replaying a stored status a second time leaves the trigger in the state the first replay left it in, so a wiki listed twice ends with the trigger states of a wiki listed once |
| `Scheduler.ReplayedTriggers` | xwiki-platform-scheduler/plugin/src/main/java/com/xpn/xwiki/plugin/scheduler/SchedulerPlugin.java:278-284 | the engine after one job is replayed: its trigger is in the restored state of its stored status, other jobs keep theirs, and a status other than Normal and Paused leaves the engine as it was |
| `Scheduler.ReplayedTriggersIdempotent` | xwiki-platform-scheduler/plugin/src/main/java/com/xpn/xwiki/plugin/scheduler/SchedulerPlugin.java:278-284 | replaying the same job a second time leaves the whole engine, fire times included, exactly as one replay did |
| `Scheduler.OtherWikisUntouched` | xwiki-platform-scheduler/plugin/src/main/java/com/xpn/xwiki/plugin/scheduler/SchedulerPlugin.java:591-594 | an engine change confined to one job id of a wiki whose name holds no `:` leaves the trigger of every job of every other such wiki as it was |
| `Scheduler.LoadedClass` | xwiki-platform-scheduler/plugin/src/main/java/com/xpn/xwiki/plugin/scheduler/SchedulerPlugin.java:608-615 | the class repair starts from the stored class document when it loads, and from a new empty document when the load fails or finds none |
| `Scheduler.UpdatedClassSaveSkipped` | xwiki-platform-scheduler/plugin/src/main/java/com/xpn/xwiki/plugin/scheduler/SchedulerPlugin.java:603-659 | the repaired class is up to date; the save is skipped exactly when the stored class loads and is already up to date, and then the class is left as stored |
| `Scheduler.WikiServers` | xwiki-platform-scheduler/plugin/src/main/java/com/xpn/xwiki/plugin/scheduler/SchedulerPlugin.java:94-108 | outside virtual mode only the main wiki is visited; in virtual mode every virtual wiki and the main wiki are visited, and no wiki at all when the listing fails; no other wiki is ever visited |
| `Scheduler.MainWikiVisited` | xwiki-platform-scheduler/plugin/src/main/java/com/xpn/xwiki/plugin/scheduler/SchedulerPlugin.java:96-108 | the main wiki is visited exactly when the plugin is not in virtual mode or the wiki listing works |
| `Scheduler.InitialDatabase` | xwiki-platform-scheduler/plugin/src/main/java/com/xpn/xwiki/plugin/scheduler/SchedulerPlugin.java:93 | init comes back to the context's database, or to the main wiki when the context has none |
| `Scheduler.SchedulerPlugin.GetJobStatus` | xwiki-platform-scheduler/plugin/src/main/java/com/xpn/xwiki/plugin/scheduler/SchedulerPlugin.java:305-309 | the engine's state for the job's id in the current database; None exactly when the engine holds no trigger under that id; a failed query raises |
| `Scheduler.SchedulerPlugin.GetTrigger` | xwiki-platform-scheduler/plugin/src/main/java/com/xpn/xwiki/plugin/scheduler/SchedulerPlugin.java:463-479 | the trigger under the job's id; a failed engine call raises `JOB_XCLASS_NOT_FOUND` and an absent trigger raises `JOB_DOES_NOT_EXITS`, and these are the only errors |
| `Scheduler.SchedulerPlugin.GetPreviousFireTime` | xwiki-platform-scheduler/plugin/src/main/java/com/xpn/xwiki/plugin/scheduler/SchedulerPlugin.java:481-493 | the engine trigger's previous fire time, absent until the trigger first fires; fails exactly when getTrigger fails, with its error |
| `Scheduler.SchedulerPlugin.GetNextFireTime` | xwiki-platform-scheduler/plugin/src/main/java/com/xpn/xwiki/plugin/scheduler/SchedulerPlugin.java:495-504 | the engine trigger's next fire time; fails exactly when getTrigger fails, with its error |
| `Scheduler.SchedulerPlugin.SaveStatus` | xwiki-platform-scheduler/plugin/src/main/java/com/xpn/xwiki/plugin/scheduler/SchedulerPlugin.java:575-581 | a failed load leaves the job and the store alone; otherwise the job takes the status; only a successful save writes the job into its holder document in the current database, and nothing else in the store changes |
| `Scheduler.SchedulerPlugin.PrepareJobStubContext` | xwiki-platform-scheduler/plugin/src/main/java/com/xpn/xwiki/plugin/scheduler/SchedulerPlugin.java:166-256 | the job's fields follow the fill-in rules; the holder is always saved; a load or save failure raises `UNABLE_TO_PREPARE_JOB_CONTEXT` and leaves the store alone; the current database is restored on every path; the stub context holds the job's user and language, the current database and the main wiki |
| `Scheduler.SchedulerPlugin.Dispatch` | xwiki-platform-scheduler/plugin/src/main/java/com/xpn/xwiki/plugin/scheduler/SchedulerPlugin.java:338-366 | the state query and the switch on the state it reports succeed exactly when the query and the calls of the dispatch succeed; the engine is then left as the dispatch specifies and the job with the status that state calls for; on failure the engine is unchanged when the query fails, and otherwise is left as far as the dispatch's engine calls got; only the job's own trigger and holder change |
| `Scheduler.SchedulerPlugin.RescheduleTrigger` | xwiki-platform-scheduler/plugin/src/main/java/com/xpn/xwiki/plugin/scheduler/SchedulerPlugin.java:344-349 | a Normal job is rescheduled unconditionally with a fresh trigger; the trigger comparison only affects logging; a failed lookup or reschedule leaves the engine alone |
| `Scheduler.SchedulerPlugin.StartTrigger` | xwiki-platform-scheduler/plugin/src/main/java/com/xpn/xwiki/plugin/scheduler/SchedulerPlugin.java:350-365 | a fresh trigger is scheduled, and paused again exactly when the engine held none and the job's status is Paused; a failure of either call raises `SCHEDULE_JOB`; a failed schedule changes nothing, and a failed pause leaves the trigger the schedule installed; other jobs' triggers are kept |
| `Scheduler.SchedulerPlugin.ScheduleTrigger` | xwiki-platform-scheduler/plugin/src/main/java/com/xpn/xwiki/plugin/scheduler/SchedulerPlugin.java:350-365 | an absent job, or one in another state, is scheduled, paused again when absent and stored as Paused, and the status that state calls for is saved into its holder; on every outcome the engine is left as far as the schedule and pause got, a failed save not undoing them |
| `Scheduler.SchedulerPlugin.RegisterJob` | xwiki-platform-scheduler/plugin/src/main/java/com/xpn/xwiki/plugin/scheduler/SchedulerPlugin.java:327-336 | the context is filled in and the holder saved, then the job detail is registered under the job id, replacing any earlier one; it succeeds exactly when the load, the save and `addJob` succeed; a failed preparation raises `JOB_XCLASS_NOT_FOUND`, a failed `addJob` `SCHEDULE_JOB`, and neither registers a detail |
| `Scheduler.SchedulerPlugin.RegisterAndDispatch` | xwiki-platform-scheduler/plugin/src/main/java/com/xpn/xwiki/plugin/scheduler/SchedulerPlugin.java:327-366 | once the class and cron expression are valid, scheduling succeeds exactly when none of its calls fails; on success the detail is registered, the trigger dispatched and the job filled in and saved with the new status; when the preparation, `addJob` or the state query fails the engine's triggers are unchanged, and otherwise they are left as far as the dispatch's engine calls got |
| `Scheduler.SchedulerPlugin.ScheduleJob` | xwiki-platform-scheduler/plugin/src/main/java/com/xpn/xwiki/plugin/scheduler/SchedulerPlugin.java:311-381 | a missing job class or a malformed cron expression raises before anything changes; otherwise it succeeds exactly when none of its calls fails and then returns true; on success the job detail is registered, the trigger dispatched, and the job filled in and saved with the new status; on failure the triggers are unchanged unless the failure came after the state query, and then they are left as far as the dispatch's engine calls got; only the job's own trigger, detail and holder ever change |
| `Scheduler.SchedulerPlugin.ReplayJob` | xwiki-platform-scheduler/plugin/src/main/java/com/xpn/xwiki/plugin/scheduler/SchedulerPlugin.java:273-289 | one stored job is scheduled when Normal or Paused and paused when Paused, and keeps its stored status; any other is left alone; on success the engine is exactly the one `ReplayedTriggers` gives; a failure is wrapped as `RESTORE_JOB`; only that job's trigger and holder change |
| `Scheduler.SchedulerPlugin.RestoreExistingJobs` | xwiki-platform-scheduler/plugin/src/main/java/com/xpn/xwiki/plugin/scheduler/SchedulerPlugin.java:258-294 | every job document the query returned is replayed by its stored status; a failed query or load raises `RESTORE_EXISTING_JOBS` and changes nothing; a failed replay stops there: the documents before it are replayed and those after it keep their triggers and records; other documents are kept; jobs of other wikis whose names hold no `:` keep their triggers |
| `Scheduler.SchedulerPlugin.PauseJob` | xwiki-platform-scheduler/plugin/src/main/java/com/xpn/xwiki/plugin/scheduler/SchedulerPlugin.java:383-400 | the job's trigger is paused, then Paused is saved; a failed engine call changes nothing; every failure, including a failed status save, leaves the store unchanged; every failure raises `PAUSE_JOB` |
| `Scheduler.SchedulerPlugin.ResumeJob` | xwiki-platform-scheduler/plugin/src/main/java/com/xpn/xwiki/plugin/scheduler/SchedulerPlugin.java:402-419 | the job's trigger is resumed, then Normal is saved; a failed engine call changes nothing; every failure, including a failed status save, leaves the store unchanged; every failure raises `RESUME_JOB` |
| `Scheduler.SchedulerPlugin.TriggerJob` | xwiki-platform-scheduler/plugin/src/main/java/com/xpn/xwiki/plugin/scheduler/SchedulerPlugin.java:421-435 | firing changes neither the engine, the store nor the job; it fails with `TRIGGER_JOB` exactly when the engine call fails or holds no such job |
| `Scheduler.SchedulerPlugin.DeleteJob` | xwiki-platform-scheduler/plugin/src/main/java/com/xpn/xwiki/plugin/scheduler/SchedulerPlugin.java:445-448 | `deleteJob` removes exactly the job's trigger and detail from the engine; its failure changes nothing and raises `JOB_XCLASS_NOT_FOUND` |
| `Scheduler.SchedulerPlugin.UnscheduleJob` | xwiki-platform-scheduler/plugin/src/main/java/com/xpn/xwiki/plugin/scheduler/SchedulerPlugin.java:437-454 | the job and its trigger are deleted from the engine, then None is saved; a failed delete changes nothing; every failure, including a failed status save, leaves the store unchanged; every failure raises `JOB_XCLASS_NOT_FOUND` |
| `Scheduler.SchedulerPlugin.UpdateSchedulerJobClass` | xwiki-platform-scheduler/plugin/src/main/java/com/xpn/xwiki/plugin/scheduler/SchedulerPlugin.java:596-659 | the class of the current wiki is saved exactly when the load failed or the repair had work to do; a failed save raises `SAVE_JOB_CLASS` and leaves the class alone; on success the class is up to date; no other wiki's class changes |
| `Scheduler.SchedulerPlugin.UpdateClasses` | xwiki-platform-scheduler/plugin/src/main/java/com/xpn/xwiki/plugin/scheduler/SchedulerPlugin.java:110-117 | when the loop completes, the class of every visited wiki is up to date; it stops only at a failed save; the classes of wikis not visited are unchanged |
| `Scheduler.SchedulerPlugin.RestoreWikis` | xwiki-platform-scheduler/plugin/src/main/java/com/xpn/xwiki/plugin/scheduler/SchedulerPlugin.java:128-136 | the jobs of every visited wiki are replayed with that wiki as the current database; stored statuses are kept and documents that hold no job are untouched; a failure stops the loop at one wiki: the wikis before it are replayed, and the wikis after it that were not visited before keep their triggers and records |
| `Scheduler.SchedulerPlugin.Init` | xwiki-platform-scheduler/plugin/src/main/java/com/xpn/xwiki/plugin/scheduler/SchedulerPlugin.java:89-143 | the database is back to the initial one; a complete init leaves the engine started and every visited class up to date; on an empty engine every stored job ends in the state its status names; a failure before the restore loop changes neither the engine nor the store; a restore failure leaves the engine started and the classes up to date, and stops the restore at one wiki as `RestoreWikis` does; a failure to get the engine is logged as `GET_SCHEDULER` |
| `Scheduler.SchedulerPlugin.StartAndRestore` | xwiki-platform-scheduler/plugin/src/main/java/com/xpn/xwiki/plugin/scheduler/SchedulerPlugin.java:124-136 | a failure to get, listen to or start the engine changes nothing; otherwise the engine is started and the wikis restored, with the current database put back; on an empty engine every job ends in the state its status names; a restore failure stops at one wiki |
| `Scheduler.RestoredFreshEngine` | xwiki-platform-scheduler/plugin/src/main/java/com/xpn/xwiki/plugin/scheduler/SchedulerPlugin.java:128-133 | once every visited wiki is replayed on an empty engine, each job stored as Normal or Paused is in that state, and any other leaves its trigger in a state named None |
| `BasicLinkRenderer.ReferenceTable` | xwiki-rendering/xwiki-rendering-api/src/main/java/org/xwiki/rendering/internal/renderer/BasicLinkRenderer.java:39-50 | the reference tables prefix exactly `?`, `@` and `#` with the escape char, and map every other character, the escape char included, to itself |
| `BasicLinkRenderer.ExtraTable` | xwiki-rendering/xwiki-rendering-api/src/main/java/org/xwiki/rendering/internal/renderer/BasicLinkRenderer.java:55-68 | the extra-part tables prefix exactly `?`, `@`, `#` and the escape char with the escape char |
| `BasicLinkRenderer.EscapedLength` | xwiki-rendering/xwiki-rendering-api/src/main/java/org/xwiki/rendering/internal/renderer/BasicLinkRenderer.java:112-124 | the escaped text is as long as the input plus its number of special characters |
| `BasicLinkRenderer.EscapeIdentity` | xwiki-rendering/xwiki-rendering-api/src/main/java/org/xwiki/rendering/internal/renderer/BasicLinkRenderer.java:112-124 | text without special characters is returned unchanged |
| `BasicLinkRenderer.AddEscapesToReferencePart` | xwiki-rendering/xwiki-rendering-api/src/main/java/org/xwiki/rendering/internal/renderer/BasicLinkRenderer.java:108-115 | the reference grows by one character per separator and is unchanged when it holds none |
| `BasicLinkRenderer.AddEscapesToExtraParts` | xwiki-rendering/xwiki-rendering-api/src/main/java/org/xwiki/rendering/internal/renderer/BasicLinkRenderer.java:117-124 | an extra part grows by one character per separator or escape char and is unchanged when it holds none |
| `BasicLinkRenderer.ReferenceKeepsEscapeChar` | xwiki-rendering/xwiki-rendering-api/src/main/java/org/xwiki/rendering/internal/renderer/BasicLinkRenderer.java:112-115 | an escape char at the end of a reference is written as it is, not escaped |
| `BasicLinkRenderer.ReadEscapedExtra` | xwiki-rendering/xwiki-rendering-api/src/main/java/org/xwiki/rendering/internal/renderer/BasicLinkRenderer.java:121-124 | reading an escaped extra part back, dropping each escape char and keeping the next character, gives the original part and stops at the next separator |
| `BasicLinkRenderer.ReadEscapedReference` | xwiki-rendering/xwiki-rendering-api/src/main/java/org/xwiki/rendering/internal/renderer/BasicLinkRenderer.java:112-115 | an escaped reference without escape chars reads back as the original reference |
| `BasicLinkRenderer.RenderTail` | xwiki-rendering/xwiki-rendering-api/src/main/java/org/xwiki/rendering/internal/renderer/BasicLinkRenderer.java:89-103 | the extra parts are empty exactly when anchor, query string and interwiki alias are all null, and otherwise start with a separator |
| `BasicLinkRenderer.RenderLinkReference` | xwiki-rendering/xwiki-rendering-api/src/main/java/org/xwiki/rendering/internal/renderer/BasicLinkRenderer.java:75-106 | a URI link renders as its reference verbatim, or as the empty text for a null reference; any other link starts with its escaped reference |
| `BasicLinkRenderer.ReadLinkReference` | xwiki-rendering/xwiki-rendering-api/src/main/java/org/xwiki/rendering/internal/renderer/BasicLinkRenderer.java:70-73 | reading a rendered text gives a document link with a reference |
| `BasicLinkRenderer.ReadRenderedTail` | xwiki-rendering/xwiki-rendering-api/src/main/java/org/xwiki/rendering/internal/renderer/BasicLinkRenderer.java:89-103 | the anchor, query string and interwiki alias read back from their rendering in that order, each present exactly when it was non-null |
| `BasicLinkRenderer.ReadRenderedLink` | xwiki-rendering/xwiki-rendering-api/src/main/java/org/xwiki/rendering/internal/renderer/BasicLinkRenderer.java:75-106 | a document link whose reference holds no escape char reads back from its rendering as the same link |
| `BasicLinkRenderer.RenderEmptyLink` | xwiki-rendering/xwiki-rendering-api/src/main/java/org/xwiki/rendering/internal/renderer/BasicLinkRenderer.java:77-105 | a document link with every part null renders as the empty text |
| `BasicLinkRenderer.ReferenceAppend` | xwiki-rendering/xwiki-rendering-api/src/main/java/org/xwiki/rendering/internal/renderer/BasicLinkRenderer.java:112-115 | escaping a reference distributes over concatenation, because each character is escaped on its own |
| `BasicLinkRenderer.ReferenceSeparator` | xwiki-rendering/xwiki-rendering-api/src/main/java/org/xwiki/rendering/internal/renderer/BasicLinkRenderer.java:112-115 | each separator in a reference is written as the escape char followed by the separator |
| `BasicLinkRenderer.EscapeSeparatorInReference` | xwiki-rendering/xwiki-rendering-api/src/main/java/org/xwiki/rendering/internal/renderer/BasicLinkRenderer.java:80-85 | a separator between two runs of plain text in a reference is prefixed with the escape char, and nothing else changes |
| `BasicLinkRenderer.RenderCollision` | xwiki-rendering/xwiki-rendering-api/src/main/java/org/xwiki/rendering/internal/renderer/BasicLinkRenderer.java:47-50 | as written, the reference `a\` with the anchor `b` and the reference `a#b` alone render to the same text, which reads back as the second link |
| `BasicLinkRenderer.SameEscapingWithoutEscapeChar` | xwiki-rendering/xwiki-rendering-api/src/main/java/org/xwiki/rendering/internal/renderer/BasicLinkRenderer.java:39-68 | on text without escape chars both escaping tables give the same result |
| `BasicLinkRenderer.RenderLinkReferenceCorrected` | xwiki-rendering/xwiki-rendering-api/src/main/java/org/xwiki/rendering/internal/renderer/BasicLinkRenderer.java:79-86 | with the escape char escaped in the reference as the comment asks, URI links are unchanged, and every link whose reference holds no escape char renders as before |
| `BasicLinkRenderer.ReadRenderedLinkCorrected` | xwiki-rendering/xwiki-rendering-api/src/main/java/org/xwiki/rendering/internal/renderer/BasicLinkRenderer.java:75-106 | every document link with a reference reads back from its corrected rendering |
| `BasicLinkRenderer.RenderCorrectedInjective` | xwiki-rendering/xwiki-rendering-api/src/main/java/org/xwiki/rendering/internal/renderer/BasicLinkRenderer.java:75-106 | two document links with references that render alike under the corrected rendering are the same link |

## Left out

- Quartz itself is not modelled: cron evaluation, fire-time computation, firing, worker threads and the status listener's behaviour. The engine's responses are the assumptions written at the head of `trigger_engine.dfy`. The first fire time of a fresh trigger is an injected function.
- The daemon-thread system properties set before the engine starts are process-wide settings and are not modelled.
- `getDefaultSchedulerInstance`, `setScheduler`, `setStatusListener` and `start` appear in `Init` only as calls that may fail. The engine the plugin obtains is the trigger map it already holds; it is not reset.
- `super.init`, `virtualInit`, `getPluginApi` and `getName` hold no logic of the plugin and are not modelled.
- Logging is not modelled. `Init` returns the failure it would log instead of logging it.
- `prepareJobStubContext`: the stub request, response, URL, URL factory, context clone, store clean-up and second load of the holder are servlet plumbing and are not modelled. A failure of that second load is not modelled either.
- The job object `getObject(XWIKI_JOB_CLASS)` returns is modelled by the one job record each holder document stores. A holder with several job objects is not modelled.
- The HQL query of `restoreExistingJobs` is a parameter: the document names it returns for each wiki. `Scheduler.SchedulerPlugin.Init` and `Scheduler.SchedulerPlugin.RestoreWikis` assume every name returned has a stored job and no name is returned twice (`QueryResultsStored`).
- Scheduler.SchedulerPlugin.Init: the result that every replayed job ends in the state its status names is stated only for an engine that held no trigger and for wiki names without `:`. Where a failed restore stopped is also stated only for wiki names without `:`. When such names are allowed, two wikis could share a job id.
- Scheduler.SchedulerPlugin.RestoreExistingJobs: the jobs of other wikis are stated as kept only for wiki names without `:`, for the same reason.
- Scheduler.SchedulerPlugin.SaveStatus, Scheduler.SchedulerPlugin.PrepareJobStubContext: both write the job object itself into its holder's record. The code instead reloads the holder document and saves that copy. The job's changes reach the store only when the job object is the reloaded document's own instance. The unused `jObj` at `SchedulerPlugin.java:195-196` shows this is not checked. The model assumes that aliasing always holds. So it does not capture the case where the changes are lost. It also does not capture the case where the holder is missing in the current database and a new empty document is saved.
- Scheduler.RestoredStateIdempotent: the wiki-level restore results (`WikisReplayed`, `WikisStoppedAt`) speak of trigger states, not of whole triggers. For one job, `Scheduler.ReplayedTriggersIdempotent` states that the whole engine is unchanged by a second replay.
- Scheduler.ReplayedTriggersIdempotent: two replays give the same trigger because the first fire time of a fresh trigger is a function of its cron expression here. In the engine that time depends on when the trigger is scheduled, so a later replay can give a later first fire time.
- Scheduler.SchedulerPlugin.RestoreWikis: where a failed restore stopped is stated only for wiki names without `:`. Within the wiki where the restore failed, the state is the one `RestoreExistingJobs` states. For a wiki listed twice, the jobs replayed earlier are not stated as kept once the restore fails on its second visit.
- Faults: a call kind in `failing` fails every time it is made during the operation. A call that fails once and then works is not modelled.
- Class loading by `Class.forName` and cron parsing are injected predicates. A new trigger is built only after the class loads and the cron expression parses, as in the source.
- The name and full name set on a class document before the repair (`setName`, `setFullName`) are not modelled, because the class document is keyed by its wiki.
- JobClassSchema.IsWhitespace: follows `Character.isWhitespace` as of Unicode 6.3. Java runtimes on older Unicode versions also count U+180E MONGOLIAN VOWEL SEPARATOR as whitespace.
- `LinkParser` is not part of this model. Its constants are taken as the escape char `\` and the separators `?`, `@` and `#`. `ReadLinkReference` is a reader defined here for stating round trips, not the project's parser.
- Link types other than URI are modelled as one document type, because the renderer only tests for URI.

## Findings

| source | as written | input that shows it | evidently intended | confidence | as-written member | corrected member |
|---|---|---|---|---|---|---|
| xwiki-rendering/xwiki-rendering-api/src/main/java/org/xwiki/rendering/internal/renderer/BasicLinkRenderer.java:47-50 | the reference escape table holds `?`, `@` and `#` but not the escape char, although the comment at lines 80-81 says `\` is escaped too | the link with reference `a\` and anchor `b`, and the link with reference `a#b`, both render as `a\#b` | escape `\` in the reference as in the extra parts, so that the rendering is injective and reads back | not executed | `BasicLinkRenderer.RenderCollision` | `BasicLinkRenderer.RenderCorrectedInjective` |
