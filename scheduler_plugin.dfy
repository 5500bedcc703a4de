/**
 * SchedulerPlugin: keeps scheduler job objects (XWiki.SchedulerJobClass objects held by wiki
 * documents) in step with a trigger engine. Every lifecycle operation drives the engine, then
 * writes the job's new status back to its holder document.
 *
 * The wiki's document store is a map from (wiki, document name) to the job record the document
 * holds; the class documents are a map from wiki to its XWiki.SchedulerJobClass document.
 * Loading a class that cannot be found, parsing a cron expression and computing a trigger's first
 * fire time are functions the plugin is given. Every call into the store or the engine may fail:
 * an operation takes the set of calls that fail during it (`failing`), and a call of that kind
 * raises whenever it is made.
 */
module Scheduler {
  import opened Wrappers
  import opened JobIdentity
  import opened TriggerEngine
  import JobClassSchema

  /** SchedulerPlugin.XWIKI_JOB_CLASS */
  const XWIKI_JOB_CLASS: string := "XWiki.SchedulerJobClass"

  /** The status strings the plugin writes back to a job (JobState.STATE_NORMAL, STATE_PAUSED, STATE_NONE). */
  const STATUS_NORMAL: string := "Normal"
  const STATUS_PAUSED: string := "Paused"
  const STATUS_NONE: string := "None"

  /** The calls into the store and the engine that can raise. */
  datatype Call =
    | LoadDocument | SaveDocument | SearchDocuments
    | AddJob | QueryState | QueryTrigger | Reschedule | Schedule | Pause | Resume | Delete | FireNow
    | ListWikis | GetScheduler | AddListener | Start

  /** The codes of SchedulerPluginException, and the root causes the plugin wraps. */
  datatype ErrorCode =
    | BadCronExpression | JobXClassNotFound | UnableToPrepareJobContext | ScheduleJobError
    | PauseJobError | ResumeJobError | TriggerJobError | JobDoesNotExist | RestoreJobError
    | RestoreExistingJobsError | SaveJobClass | GetSchedulerError | InitializeStatusListener
    // root causes: ClassNotFoundException, ParseException, SchedulerException, XWikiException from the store
    | ClassNotFound | CronParse | EngineFailure | StoreFailure

  /** An exception and the exception it wraps. */
  datatype Failure = Failure(code: ErrorCode, cause: Option<Failure>)

  function Root(code: ErrorCode): Failure { Failure(code, None) }
  function Wrap(code: ErrorCode, cause: Failure): Failure { Failure(code, Some(cause)) }

  /** A holder document: the wiki it lives in and its full name. */
  datatype DocKey = DocKey(wiki: string, name: string)

  /** The job object as the holder document stores it. */
  datatype JobRecord = JobRecord(
    number: int,
    jobName: string,
    jobClass: string,
    cron: string,
    status: string,
    contextUser: string,
    contextLang: string,
    contextDatabase: string)

  /** What the plugin reads of the request context besides its database. */
  datatype Caller = Caller(user: string, language: string)

  /** The part of the stub context the plugin fills from the job. */
  datatype StubContext = StubContext(user: string, language: string, database: string, mainWiki: string)

  /** The job detail registered with the engine: the job class, its execution context and its holder. */
  datatype JobDetail = JobDetail(jobClass: string, context: StubContext, holder: DocKey)

  /**
   * The fill-in of prepareJobStubContext: an empty context user or language is taken from the
   * caller, and the context database becomes the current database whenever it is empty or differs.
   */
  function FillContext(r: JobRecord, caller: Caller, database: string): (f: JobRecord)
    ensures f.contextUser == (if r.contextUser == "" then caller.user else r.contextUser)
    ensures f.contextLang == (if r.contextLang == "" then caller.language else r.contextLang)
    ensures f.contextDatabase == database
    ensures f.(contextUser := r.contextUser, contextLang := r.contextLang, contextDatabase := r.contextDatabase) == r
  {
    var user := if r.contextUser == "" then caller.user else r.contextUser;
    var lang := if r.contextLang == "" then caller.language else r.contextLang;
    var db := if r.contextDatabase == "" || r.contextDatabase != database then database else r.contextDatabase;
    r.(contextUser := user, contextLang := lang, contextDatabase := db)
  }

  /** Once a caller with a user and a language has filled the context in, a later caller changes nothing. */
  lemma FillContextIdempotent(r: JobRecord, first: Caller, later: Caller, database: string)
    requires first.user != "" && first.language != ""
    ensures FillContext(FillContext(r, first, database), later, database) == FillContext(r, first, database)
  {
  }

  // ---------------------------------------------------------------------------------------
  // What scheduleJob does after addJob, by the state the engine reports
  // ---------------------------------------------------------------------------------------

  /** The state the job's trigger ends in when scheduleJob succeeds. */
  function DispatchedState(reported: TriggerState, status: string): (s: TriggerState)
    ensures s == StatePaused || s == StateNormal
    ensures reported == StatePaused ==> s == StatePaused
    ensures reported == StateNone ==> (s == StatePaused <==> status == STATUS_PAUSED)
    ensures reported != StatePaused && reported != StateNone ==> s == StateNormal
  {
    if reported == StatePaused || (reported == StateNone && status == STATUS_PAUSED) then StatePaused
    else StateNormal
  }

  /** The status scheduleJob saves, when it saves one. */
  function SavedStatus(reported: TriggerState, status: string): (saved: Option<string>)
    ensures saved.None? <==> reported == StatePaused || reported == StateNormal
    ensures reported == StateNone ==> saved == Some(if status == STATUS_PAUSED then STATUS_PAUSED else STATUS_NORMAL)
    ensures saved.Some? && reported != StateNone ==> saved.value == STATUS_NORMAL
  {
    match reported
    case StatePaused => None
    case StateNormal => None
    case StateNone => Some(if status == STATUS_PAUSED then STATUS_PAUSED else STATUS_NORMAL)
    case _ => Some(STATUS_NORMAL)
  }

  /** The status string that names a trigger state the plugin writes back. */
  function StatusName(s: TriggerState): string {
    if s == StatePaused then STATUS_PAUSED else if s == StateNormal then STATUS_NORMAL else STATUS_NONE
  }

  /** What scheduleJob saves always names the state it leaves the engine in. */
  lemma SavedStatusNamesEngineState(reported: TriggerState, status: string)
    requires SavedStatus(reported, status).Some?
    ensures SavedStatus(reported, status).value == StatusName(DispatchedState(reported, status))
  {
  }

  /** Scheduling a job that scheduleJob already scheduled leaves its state alone and saves nothing. */
  lemma ScheduleAgainIsStable(reported: TriggerState, status: string, later: string)
    ensures DispatchedState(DispatchedState(reported, status), later) == DispatchedState(reported, status)
    ensures SavedStatus(DispatchedState(reported, status), later).None?
  {
  }

  /** The engine after a successful scheduleJob dispatch on the job's trigger `id`. */
  function DispatchedTriggers(t: Triggers, id: string, cron: string, next: Option<int>, status: string): (r: Triggers)
    ensures StateOf(r, id) == DispatchedState(StateOf(t, id), status)
    ensures StateOf(t, id) == StatePaused ==> r == t
    ensures StateOf(t, id) != StatePaused ==> r[id].cron == cron && r[id].nextFireTime == next && r[id].previousFireTime.None?
    ensures r - {id} == t - {id}
  {
    var reported := StateOf(t, id);
    if reported == StatePaused then t
    else if reported == StateNone && status == STATUS_PAUSED then PauseAt(Install(t, id, cron, next), id)
    else Install(t, id, cron, next)
  }

  /**
   * The engine after the calls the dispatch makes on it, whichever of them fails: a failed
   * lookup, reschedule or schedule leaves it alone, and a pause that fails after the schedule
   * leaves the fresh trigger that schedule installed.
   */
  function EngineAfterDispatch(t: Triggers, id: string, cron: string, next: Option<int>, status: string, failing: set<Call>): (r: Triggers)
    ensures r - {id} == t - {id}
  {
    var reported := StateOf(t, id);
    if reported == StatePaused then t
    else if reported == StateNormal then
      if QueryTrigger in failing || Reschedule in failing then t else Install(t, id, cron, next)
    else if Schedule in failing then t
    else if reported == StateNone && status == STATUS_PAUSED && Pause !in failing then PauseAt(Install(t, id, cron, next), id)
    else Install(t, id, cron, next)
  }

  /** When none of the engine calls of the dispatch fails, the engine ends as on success, whatever the status save does. */
  lemma EngineAfterDispatchSucceeded(t: Triggers, id: string, cron: string, next: Option<int>, status: string, failing: set<Call>)
    requires failing !! (DispatchCalls(StateOf(t, id), status) - {LoadDocument, SaveDocument})
    ensures EngineAfterDispatch(t, id, cron, next, status, failing) == DispatchedTriggers(t, id, cron, next, status)
  {
  }

  /** A dispatch whose first engine call fails leaves the engine as it was. */
  lemma EngineAfterFailedFirstCall(t: Triggers, id: string, cron: string, next: Option<int>, status: string, failing: set<Call>)
    requires StateOf(t, id) == StateNormal ==> QueryTrigger in failing || Reschedule in failing
    requires StateOf(t, id) != StateNormal && StateOf(t, id) != StatePaused ==> Schedule in failing
    ensures EngineAfterDispatch(t, id, cron, next, status, failing) == t
  {
  }

  /**
   * A job the engine held no trigger for, whose status is Paused, is left scheduled and not paused
   * when the pause fails: its fresh trigger is in state Normal and will fire.
   */
  lemma FailedPauseLeavesJobNormal(t: Triggers, id: string, cron: string, next: Option<int>, failing: set<Call>)
    requires StateOf(t, id) == StateNone && Schedule !in failing && Pause in failing
    ensures EngineAfterDispatch(t, id, cron, next, STATUS_PAUSED, failing) == Install(t, id, cron, next)
    ensures StateOf(EngineAfterDispatch(t, id, cron, next, STATUS_PAUSED, failing), id) == StateNormal
  {
  }

  /** The calls the dispatch on the reported state makes. */
  function DispatchCalls(reported: TriggerState, status: string): (calls: set<Call>)
    ensures calls == {} <==> reported == StatePaused
    ensures Schedule in calls <==> reported != StatePaused && reported != StateNormal
    ensures Pause in calls <==> reported == StateNone && status == STATUS_PAUSED
    ensures (Reschedule in calls) == (QueryTrigger in calls) == (reported == StateNormal)
    ensures SaveDocument in calls <==> SavedStatus(reported, status).Some?
  {
    match reported
    case StatePaused => {}
    case StateNormal => {QueryTrigger, Reschedule}
    case StateNone => if status == STATUS_PAUSED then {Schedule, Pause, LoadDocument, SaveDocument} else {Schedule, LoadDocument, SaveDocument}
    case _ => {Schedule, LoadDocument, SaveDocument}
  }

  /** None of the calls the dispatch makes fails. */
  predicate DispatchSucceeds(reported: TriggerState, status: string, failing: set<Call>) {
    match reported
    case StatePaused => true
    case StateNormal => QueryTrigger !in failing && Reschedule !in failing
    case StateNone =>
      && Schedule !in failing && (status == STATUS_PAUSED ==> Pause !in failing)
      && LoadDocument !in failing && SaveDocument !in failing
    case _ => Schedule !in failing && LoadDocument !in failing && SaveDocument !in failing
  }

  /** The dispatch succeeds exactly when none of the calls it makes fails. */
  lemma DispatchSucceedsIffCallsSucceed(reported: TriggerState, status: string, failing: set<Call>)
    ensures DispatchSucceeds(reported, status, failing) <==> failing !! DispatchCalls(reported, status)
  {
  }

  /** scheduleJob, past the class and cron checks, succeeds exactly when none of the calls it makes fails. */
  lemma ScheduleSucceedsIffCallsSucceed(reported: TriggerState, status: string, failing: set<Call>)
    ensures (&& LoadDocument !in failing && SaveDocument !in failing && AddJob !in failing && QueryState !in failing
             && DispatchSucceeds(reported, status, failing))
            <==> failing !! ScheduleCalls(reported, status)
  {
    DispatchSucceedsIffCallsSucceed(reported, status, failing);
  }

  /**
   * The calls scheduleJob makes once the class loads and the cron expression parses: the holder
   * load and save of the context preparation, addJob, the state query, then the dispatch.
   */
  function ScheduleCalls(reported: TriggerState, status: string): (calls: set<Call>)
    ensures {LoadDocument, SaveDocument, AddJob, QueryState} <= calls
    ensures calls - {LoadDocument, SaveDocument, AddJob, QueryState} == DispatchCalls(reported, status) - {LoadDocument, SaveDocument}
  {
    {LoadDocument, SaveDocument, AddJob, QueryState} + DispatchCalls(reported, status)
  }

  /**
   * The state restoreExistingJobs leaves a job's trigger in: a job stored as Normal is scheduled,
   * one stored as Paused is scheduled and then paused, any other is left alone.
   */
  function RestoredState(reported: TriggerState, status: string): (s: TriggerState)
    ensures status == STATUS_PAUSED ==> s == StatePaused
    ensures status == STATUS_NORMAL ==> s == (if reported == StatePaused then StatePaused else StateNormal)
    ensures status != STATUS_NORMAL && status != STATUS_PAUSED ==> s == reported
  {
    if status == STATUS_NORMAL || status == STATUS_PAUSED then
      var scheduled := DispatchedState(reported, status);
      if status == STATUS_PAUSED then StatePaused else scheduled
    else reported
  }

  /** On a fresh engine, replaying a stored status gives back exactly the state that status names. */
  lemma RestoreOnFreshEngine(status: string)
    requires status == STATUS_NORMAL || status == STATUS_PAUSED
    ensures StatusName(RestoredState(StateNone, status)) == status
  {
  }

  /**
   * What restoring the documents `jobDocs` of wiki `db` promised for the document `d`, given the
   * engine `t0` and store `s0` before and the engine `t` and store `s` after.
   */
  ghost predicate Replayed(db: string, d: string, t0: Triggers, s0: map<DocKey, JobRecord>, t: Triggers, s: map<DocKey, JobRecord>)
    requires DocKey(db, d) in s0
  {
    var key := DocKey(db, d);
    var id := UniqueId(db, d, s0[key].number);
    && key in s && s[key].status == s0[key].status && s[key].number == s0[key].number
    && StateOf(t, id) == RestoredState(StateOf(t0, id), s0[key].status)
    && (s0[key].status != STATUS_NORMAL && s0[key].status != STATUS_PAUSED ==> Get(t, id) == Get(t0, id) && s[key] == s0[key])
  }

  /** Replayed depends on the engine and the store only at the document's own id and key. */
  lemma ReplayedUnchanged(db: string, d: string, t0: Triggers, s0: map<DocKey, JobRecord>,
                          t: Triggers, s: map<DocKey, JobRecord>, t': Triggers, s': map<DocKey, JobRecord>)
    requires DocKey(db, d) in s0 && Replayed(db, d, t0, s0, t, s)
    requires Get(t', UniqueId(db, d, s0[DocKey(db, d)].number)) == Get(t, UniqueId(db, d, s0[DocKey(db, d)].number))
    requires DocKey(db, d) in s' && s'[DocKey(db, d)] == s[DocKey(db, d)]
    ensures Replayed(db, d, t0, s0, t', s')
  {
    var id := UniqueId(db, d, s0[DocKey(db, d)].number);
    assert StateOf(t', id) == StateOf(t, id) by {
      assert (id in t') == Get(t', id).Some? == Get(t, id).Some? == (id in t);
    }
  }

  /** Updating the class of `wikis[i]` extends the wikis whose class is up to date by one. */
  lemma UpdateClassStep(wikis: seq<string>, i: nat, c0: map<string, JobClassSchema.ClassDoc>,
                        c1: map<string, JobClassSchema.ClassDoc>, c2: map<string, JobClassSchema.ClassDoc>)
    requires i < |wikis|
    requires ClassesUpToDate(wikis[..i], c1) && forall w :: w !in wikis[..i] ==> Get(c1, w) == Get(c0, w)
    requires c2 - {wikis[i]} == c1 - {wikis[i]} && wikis[i] in c2 && JobClassSchema.UpToDate(c2[wikis[i]])
    ensures ClassesUpToDate(wikis[..i + 1], c2)
    ensures forall w :: w !in wikis[..i + 1] ==> Get(c2, w) == Get(c0, w)
  {
    assert wikis[..i + 1] == wikis[..i] + [wikis[i]];
    forall w | w in wikis[..i + 1]
      ensures w in c2 && JobClassSchema.UpToDate(c2[w])
    {
      if w != wikis[i] {
        MinusAgrees(c2, c1, wikis[i], w);
      }
    }
    forall w | w !in wikis[..i + 1]
      ensures Get(c2, w) == Get(c0, w)
    {
      MinusAgrees(c2, c1, wikis[i], w);
    }
  }

  /** Two maps equal outside `x` agree at every other key. */
  lemma MinusAgrees<K, V>(m: map<K, V>, m': map<K, V>, x: K, k: K)
    requires m - {x} == m' - {x} && k != x
    ensures Get(m, k) == Get(m', k)
    ensures k in m ==> m[k] == m'[k]
  {
    assert (k in m) == (k in m - {x}) == (k in m' - {x}) == (k in m');
    if k in m {
      assert m[k] == (m - {x})[k] == (m' - {x})[k] == m'[k];
    }
  }

  /** The engine id of the job held by document `d` of wiki `db`, as the store `s` numbers it. */
  function IdIn(db: string, d: string, s: map<DocKey, JobRecord>): string
    requires DocKey(db, d) in s
  {
    UniqueId(db, d, s[DocKey(db, d)].number)
  }

  /** Every job document of `docs` has a record in `s`. */
  ghost predicate AllStored(db: string, docs: seq<string>, s: map<DocKey, JobRecord>) {
    forall d :: d in docs ==> DocKey(db, d) in s
  }

  /** The store `s` agrees with `s0` on every document other than the ones of `names` in wiki `db`. */
  ghost predicate StoreKeptOutside(db: string, names: seq<string>, s0: map<DocKey, JobRecord>, s: map<DocKey, JobRecord>) {
    forall k :: k in s0 && (k.wiki != db || k.name !in names) ==> k in s && s[k] == s0[k]
  }

  /** The documents of `docs` from index `from` on still have the triggers of `t0`. */
  ghost predicate TriggersKeptFrom(db: string, docs: seq<string>, from: nat, s0: map<DocKey, JobRecord>, t0: Triggers, t: Triggers)
    requires AllStored(db, docs, s0)
  {
    forall k :: from <= k < |docs| ==> Get(t, IdIn(db, docs[k], s0)) == Get(t0, IdIn(db, docs[k], s0))
  }

  /** The documents of `docs` before index `upto` are replayed. */
  ghost predicate ReplayedUpTo(db: string, docs: seq<string>, upto: nat, t0: Triggers, s0: map<DocKey, JobRecord>, t: Triggers, s: map<DocKey, JobRecord>)
    requires AllStored(db, docs, s0)
  {
    forall k :: 0 <= k < upto && k < |docs| ==> Replayed(db, docs[k], t0, s0, t, s)
  }

  /** One replayed document changes the store only at its own key. */
  lemma ReplayStepStore(db: string, docs: seq<string>, i: nat, s0: map<DocKey, JobRecord>, s1: map<DocKey, JobRecord>, s2: map<DocKey, JobRecord>)
    requires i < |docs|
    requires StoreKeptOutside(db, docs[..i], s0, s1)
    requires s2.Keys == s1.Keys && s2 - {DocKey(db, docs[i])} == s1 - {DocKey(db, docs[i])}
    ensures StoreKeptOutside(db, docs[..i + 1], s0, s2)
  {
    assert docs[..i + 1] == docs[..i] + [docs[i]];
    forall k | k in s0 && (k.wiki != db || k.name !in docs[..i + 1])
      ensures k in s2 && s2[k] == s0[k]
    {
      assert k.wiki != db || (k.name != docs[i] && k.name !in docs[..i]);
      MinusAgrees(s2, s1, DocKey(db, docs[i]), k);
    }
  }

  /**
   * Replaying document `docs[i]`, whether it succeeds or not, keeps the triggers of the documents
   * after it and the replays of the documents before it.
   */
  lemma ReplayStepEngine(db: string, docs: seq<string>, i: nat, t0: Triggers, s0: map<DocKey, JobRecord>,
                         t1: Triggers, s1: map<DocKey, JobRecord>, t2: Triggers, s2: map<DocKey, JobRecord>)
    requires i < |docs| && Distinct(docs) && AllStored(db, docs, s0)
    requires TriggersKeptFrom(db, docs, i, s0, t0, t1)
    requires ReplayedUpTo(db, docs, i, t0, s0, t1, s1)
    requires s2.Keys == s1.Keys && s2 - {DocKey(db, docs[i])} == s1 - {DocKey(db, docs[i])}
    requires t2 - {IdIn(db, docs[i], s0)} == t1 - {IdIn(db, docs[i], s0)}
    ensures TriggersKeptFrom(db, docs, i + 1, s0, t0, t2)
    ensures ReplayedUpTo(db, docs, i, t0, s0, t2, s2)
  {
    var d := docs[i];
    var id := IdIn(db, d, s0);
    forall k | 0 <= k < |docs| && k != i
      ensures Get(t2, IdIn(db, docs[k], s0)) == Get(t1, IdIn(db, docs[k], s0))
    {
      UniqueIdDistinctInWiki(db, docs[k], s0[DocKey(db, docs[k])].number, d, s0[DocKey(db, d)].number);
      MinusAgrees(t2, t1, id, IdIn(db, docs[k], s0));
    }
    forall k | 0 <= k < i
      ensures Replayed(db, docs[k], t0, s0, t2, s2)
    {
      assert DocKey(db, docs[k]) != DocKey(db, d);
      MinusAgrees(s2, s1, DocKey(db, d), DocKey(db, docs[k]));
      ReplayedUnchanged(db, docs[k], t0, s0, t1, s1, t2, s2);
    }
  }

  /**
   * The replay of `docs` stopped at document `docs[i]`: the documents before it are replayed, and
   * the documents after it still have their triggers and records of `t0` and `s0`.
   */
  ghost predicate ReplayStoppedAt(db: string, docs: seq<string>, i: nat, t0: Triggers, s0: map<DocKey, JobRecord>, t: Triggers, s: map<DocKey, JobRecord>)
    requires AllStored(db, docs, s0)
  {
    && i < |docs|
    && ReplayedUpTo(db, docs, i, t0, s0, t, s)
    && TriggersKeptFrom(db, docs, i + 1, s0, t0, t)
    && StoreKeptOutside(db, docs[..i + 1], s0, s)
  }

  /** The jobs of every wiki other than `db` whose name holds no ':' have the triggers of `t0`. */
  ghost predicate OtherWikisKept(db: string, t0: Triggers, t: Triggers) {
    forall w, d, n :: w != db && ':' !in w ==> Get(t, UniqueId(w, d, n)) == Get(t0, UniqueId(w, d, n))
  }

  lemma OtherWikisKeptTransitive(db: string, t0: Triggers, t1: Triggers, t2: Triggers)
    requires OtherWikisKept(db, t0, t1) && OtherWikisKept(db, t1, t2)
    ensures OtherWikisKept(db, t0, t2)
  {
  }

  /** A job id of a wiki whose name holds no ':' is never the id of a job of another such wiki. */
  lemma OtherWikisUntouched(db: string, d0: string, n0: int, t1: Triggers, t2: Triggers)
    requires ':' !in db
    requires t2 - {UniqueId(db, d0, n0)} == t1 - {UniqueId(db, d0, n0)}
    ensures OtherWikisKept(db, t1, t2)
  {
    var id := UniqueId(db, d0, n0);
    forall w, d, n | w != db && ':' !in w
      ensures Get(t2, UniqueId(w, d, n)) == Get(t1, UniqueId(w, d, n))
    {
      if UniqueId(w, d, n) == id {
        UniqueIdInjective(w, d, n, db, d0, n0);
      }
      MinusAgrees(t2, t1, id, UniqueId(w, d, n));
    }
  }

  /** Replaying a stored status a second time leaves the trigger state as the first replay left it. */
  lemma RestoredStateIdempotent(reported: TriggerState, status: string)
    ensures RestoredState(RestoredState(reported, status), status) == RestoredState(reported, status)
  {
  }

  /**
   * The engine after restoreExistingJobs replays the job `id` with cron expression `cron` and
   * stored status `status`, a fresh trigger being due at `next`: Normal is scheduled, Paused is
   * scheduled and then paused, any other status leaves the engine alone.
   */
  function ReplayedTriggers(t: Triggers, id: string, cron: string, next: Option<int>, status: string): (r: Triggers)
    ensures StateOf(r, id) == RestoredState(StateOf(t, id), status)
    ensures r - {id} == t - {id}
    ensures status != STATUS_NORMAL && status != STATUS_PAUSED ==> r == t
  {
    if status == STATUS_NORMAL then DispatchedTriggers(t, id, cron, next, status)
    else if status == STATUS_PAUSED then PauseAt(DispatchedTriggers(t, id, cron, next, status), id)
    else t
  }

  /**
   * Replaying a job a second time leaves the engine exactly as the first replay did: the trigger
   * a second schedule installs is the one the first installed, and a Paused trigger is kept.
   */
  lemma ReplayedTriggersIdempotent(t: Triggers, id: string, cron: string, next: Option<int>, status: string)
    ensures ReplayedTriggers(ReplayedTriggers(t, id, cron, next, status), id, cron, next, status)
            == ReplayedTriggers(t, id, cron, next, status)
  {
    var once := ReplayedTriggers(t, id, cron, next, status);
    if status == STATUS_NORMAL && StateOf(t, id) != StatePaused {
      assert once == Install(t, id, cron, next);
      assert StateOf(once, id) == StateNormal;
      assert Install(once, id, cron, next) == once;
    } else if status == STATUS_PAUSED {
      assert StateOf(once, id) == StatePaused;
      PauseIdempotent(once, id);
    }
  }

  /** The status a job replayed on a fresh engine is left in: its own when Normal or Paused, None otherwise. */
  function ReplayedStatus(status: string): (r: string)
    ensures r == STATUS_NORMAL || r == STATUS_PAUSED || r == STATUS_NONE
    ensures status == STATUS_NORMAL || status == STATUS_PAUSED ==> r == status
  {
    if status == STATUS_NORMAL || status == STATUS_PAUSED then status else STATUS_NONE
  }

  /** On a fresh engine, replaying a stored status leaves the trigger in the state ReplayedStatus names. */
  lemma RestoreOnFreshEngineAll(status: string)
    ensures StatusName(RestoredState(StateNone, status)) == ReplayedStatus(status)
  {
    if status == STATUS_NORMAL || status == STATUS_PAUSED {
      RestoreOnFreshEngine(status);
    }
  }

  /** Once every wiki of `wikis` is replayed on an empty engine, each job is in the state ReplayedStatus names. */
  lemma RestoredFreshEngine(wikis: seq<string>, jobDocs: map<string, seq<string>>, s0: map<DocKey, JobRecord>, t: Triggers)
    requires QueryResultsStored(jobDocs, s0) && WikisReplayed(wikis, wikis, jobDocs, s0, map[], t)
    ensures forall w, d :: w in wikis && d in DocsOf(jobDocs, w) ==>
              StatusName(StateOf(t, IdIn(w, d, s0))) == ReplayedStatus(s0[DocKey(w, d)].status)
  {
    forall w, d | w in wikis && d in DocsOf(jobDocs, w)
      ensures StatusName(StateOf(t, IdIn(w, d, s0))) == ReplayedStatus(s0[DocKey(w, d)].status)
    {
      RestoreOnFreshEngineAll(s0[DocKey(w, d)].status);
    }
  }

  /** Every document the store query returns for a wiki holds a job record, and no name is returned twice. */
  predicate QueryResultsStored(jobDocs: map<string, seq<string>>, store: map<DocKey, JobRecord>) {
    forall w :: w in jobDocs ==> Distinct(jobDocs[w]) && forall d :: d in jobDocs[w] ==> DocKey(w, d) in store
  }

  /** The class document updateSchedulerJobClass starts from: the stored one, or a new empty one when the load fails or finds none. */
  function LoadedClass(classDocs: map<string, JobClassSchema.ClassDoc>, db: string, failing: set<Call>): (d: JobClassSchema.ClassDoc)
    ensures LoadDocument !in failing && db in classDocs ==> d == classDocs[db]
    ensures LoadDocument in failing || db !in classDocs ==> d == JobClassSchema.EMPTY_CLASS_DOC
  {
    if LoadDocument in failing then JobClassSchema.EMPTY_CLASS_DOC
    else Get(classDocs, db).GetOr(JobClassSchema.EMPTY_CLASS_DOC)
  }

  /** The repaired class document, and whether updateSchedulerJobClass saves it: when the load failed or the repair had work to do. */
  function UpdatedClass(classDocs: map<string, JobClassSchema.ClassDoc>, db: string, failing: set<Call>): (JobClassSchema.ClassDoc, bool)
  {
    var repaired := JobClassSchema.Repair(LoadedClass(classDocs, db, failing));
    (repaired.0, LoadDocument in failing || repaired.1)
  }

  /** The repaired class is up to date, and the save is skipped exactly when the stored class loads and is already up to date. */
  lemma UpdatedClassSaveSkipped(classDocs: map<string, JobClassSchema.ClassDoc>, db: string, failing: set<Call>)
    ensures JobClassSchema.UpToDate(UpdatedClass(classDocs, db, failing).0)
    ensures !UpdatedClass(classDocs, db, failing).1 <==>
              LoadDocument !in failing && db in classDocs && JobClassSchema.UpToDate(classDocs[db])
    ensures !UpdatedClass(classDocs, db, failing).1 ==> UpdatedClass(classDocs, db, failing).0 == classDocs[db]
  {
    var loaded := LoadedClass(classDocs, db, failing);
    JobClassSchema.RepairMakesUpToDate(loaded);
    JobClassSchema.RepairNeededIffStale(loaded);
    JobClassSchema.RepairChangedIffDifferent(loaded);
    JobClassSchema.RepairNeededIffStale(JobClassSchema.EMPTY_CLASS_DOC);
  }

  /** The classes of the wikis of `wikis` are up to date. */
  ghost predicate ClassesUpToDate(wikis: seq<string>, classDocs: map<string, JobClassSchema.ClassDoc>) {
    forall w :: w in wikis ==> w in classDocs && JobClassSchema.UpToDate(classDocs[w])
  }

  /** Every stored job keeps its status and number. */
  ghost predicate StatusesKept(s0: map<DocKey, JobRecord>, s: map<DocKey, JobRecord>) {
    forall k :: k in s0 ==> k in s && s[k].status == s0[k].status && s[k].number == s0[k].number
  }

  /** The documents no store query returns are left as they were. */
  ghost predicate NonJobsKept(jobDocs: map<string, seq<string>>, s0: map<DocKey, JobRecord>, s: map<DocKey, JobRecord>) {
    forall k :: k in s0 && k.name !in DocsOf(jobDocs, k.wiki) ==> k in s && s[k] == s0[k]
  }

  /** The jobs of the wikis of `done` are replayed from `t0`; the jobs of the wikis of `todo` and not of `done` are untouched. */
  ghost predicate WikisReplayed(done: seq<string>, todo: seq<string>, jobDocs: map<string, seq<string>>,
                                s0: map<DocKey, JobRecord>, t0: Triggers, t: Triggers)
    requires QueryResultsStored(jobDocs, s0)
  {
    && (forall w, d :: w in done && d in DocsOf(jobDocs, w) ==>
          StateOf(t, IdIn(w, d, s0)) == RestoredState(StateOf(t0, IdIn(w, d, s0)), s0[DocKey(w, d)].status))
    && (forall w, d :: w in todo && w !in done && d in DocsOf(jobDocs, w) ==>
          Get(t, IdIn(w, d, s0)) == Get(t0, IdIn(w, d, s0)))
  }

  /** The records of every wiki not in `wikis` are those of `s0`. */
  ghost predicate WikisStoreKept(wikis: seq<string>, s0: map<DocKey, JobRecord>, s: map<DocKey, JobRecord>) {
    forall k :: k in s0 && k.wiki !in wikis ==> k in s && s[k] == s0[k]
  }

  /**
   * The restore of `wikis` stopped at wiki `wikis[j]`: the jobs of the wikis before it (other
   * than `wikis[j]` itself) are replayed, and the wikis after it that were not visited before
   * keep their triggers of `t0` and their records of `s0`.
   */
  ghost predicate WikisStoppedAt(wikis: seq<string>, j: nat, jobDocs: map<string, seq<string>>,
                                 s0: map<DocKey, JobRecord>, t0: Triggers, t: Triggers, s: map<DocKey, JobRecord>)
    requires QueryResultsStored(jobDocs, s0)
  {
    && j < |wikis|
    && (forall w, d :: w in wikis[..j] && w != wikis[j] && d in DocsOf(jobDocs, w) ==>
          StateOf(t, IdIn(w, d, s0)) == RestoredState(StateOf(t0, IdIn(w, d, s0)), s0[DocKey(w, d)].status))
    && (forall w, d :: w in wikis && w !in wikis[..j + 1] && d in DocsOf(jobDocs, w) ==>
          Get(t, IdIn(w, d, s0)) == Get(t0, IdIn(w, d, s0)))
    && WikisStoreKept(wikis[..j + 1], s0, s)
  }

  /** A failed restore of wiki `wikis[j]`, which touched no other wiki, stops the restore there. */
  lemma RestoreWikiStopped(wikis: seq<string>, j: nat, jobDocs: map<string, seq<string>>, t0: Triggers, s0: map<DocKey, JobRecord>,
                           t1: Triggers, s1: map<DocKey, JobRecord>, t2: Triggers, s2: map<DocKey, JobRecord>)
    requires j < |wikis| && forall w :: w in wikis ==> ':' !in w
    requires QueryResultsStored(jobDocs, s0)
    requires WikisReplayed(wikis[..j], wikis, jobDocs, s0, t0, t1) && WikisStoreKept(wikis[..j], s0, s1)
    requires OtherWikisKept(wikis[j], t1, t2)
    requires forall k :: k in s1 && k.wiki != wikis[j] ==> k in s2 && s2[k] == s1[k]
    requires s1.Keys == s0.Keys
    ensures WikisStoppedAt(wikis, j, jobDocs, s0, t0, t2, s2)
  {
    var x := wikis[j];
    assert wikis[..j + 1] == wikis[..j] + [x];
    forall w, d | w in wikis[..j] && w != x && d in DocsOf(jobDocs, w)
      ensures StateOf(t2, IdIn(w, d, s0)) == RestoredState(StateOf(t0, IdIn(w, d, s0)), s0[DocKey(w, d)].status)
    {
      var id := IdIn(w, d, s0);
      assert w in wikis;
      assert StateOf(t2, id) == StateOf(t1, id) by {
        assert (id in t2) == Get(t2, id).Some? == Get(t1, id).Some? == (id in t1);
      }
    }
    forall w, d | w in wikis && w !in wikis[..j + 1] && d in DocsOf(jobDocs, w)
      ensures Get(t2, IdIn(w, d, s0)) == Get(t0, IdIn(w, d, s0))
    {
    }
  }

  /** Restoring one more wiki `w` keeps WikisReplayed, one wiki further. */
  lemma RestoreWikiStep(wikis: seq<string>, j: nat, jobDocs: map<string, seq<string>>, t0: Triggers, s0: map<DocKey, JobRecord>,
                        t1: Triggers, s1: map<DocKey, JobRecord>, t2: Triggers, s2: map<DocKey, JobRecord>)
    requires j < |wikis| && forall w :: w in wikis ==> ':' !in w
    requires QueryResultsStored(jobDocs, s0) && StatusesKept(s0, s1)
    requires WikisReplayed(wikis[..j], wikis, jobDocs, s0, t0, t1)
    requires forall d :: d in DocsOf(jobDocs, wikis[j]) ==>
               DocKey(wikis[j], d) in s1 && Replayed(wikis[j], d, t1, s1, t2, s2)
    requires OtherWikisKept(wikis[j], t1, t2)
    ensures WikisReplayed(wikis[..j + 1], wikis, jobDocs, s0, t0, t2)
  {
    var w := wikis[j];
    assert wikis[..j + 1] == wikis[..j] + [w];
    forall v, d | v in wikis[..j + 1] && d in DocsOf(jobDocs, v)
      ensures StateOf(t2, IdIn(v, d, s0)) == RestoredState(StateOf(t0, IdIn(v, d, s0)), s0[DocKey(v, d)].status)
    {
      var id := IdIn(v, d, s0);
      if v == w {
        var key := DocKey(w, d);
        assert s1[key].status == s0[key].status && s1[key].number == s0[key].number;
        if w in wikis[..j] {
          RestoredStateIdempotent(StateOf(t0, id), s0[key].status);
        } else {
          assert StateOf(t1, id) == StateOf(t0, id) by {
            assert (id in t1) == Get(t1, id).Some? == Get(t0, id).Some? == (id in t0);
          }
        }
      } else {
        assert v in wikis;
        assert StateOf(t2, id) == StateOf(t1, id) by {
          assert (id in t2) == Get(t2, id).Some? == Get(t1, id).Some? == (id in t1);
        }
      }
    }
    forall v, d | v in wikis && v !in wikis[..j + 1] && d in DocsOf(jobDocs, v)
      ensures Get(t2, IdIn(v, d, s0)) == Get(t0, IdIn(v, d, s0))
    {
    }
  }

  /** The wikis init visits: the virtual wikis plus the main wiki, or only the main wiki outside virtual mode. */
  function WikiServers(virtualMode: bool, virtualWikis: seq<string>, mainWiki: string, failing: set<Call>): (wikis: seq<string>)
    ensures !virtualMode ==> wikis == [mainWiki]
    ensures virtualMode && ListWikis in failing ==> wikis == []
    ensures virtualMode && ListWikis !in failing ==> virtualWikis <= wikis && mainWiki in wikis
    ensures forall w :: w in wikis ==> w == mainWiki || w in virtualWikis
  {
    if !virtualMode then [mainWiki]
    else if ListWikis in failing then []
    else if mainWiki in virtualWikis then virtualWikis
    else virtualWikis + [mainWiki]
  }

  /** The main wiki is visited unless listing the virtual wikis fails, and then no wiki is visited. */
  lemma MainWikiVisited(virtualMode: bool, virtualWikis: seq<string>, mainWiki: string, failing: set<Call>)
    ensures mainWiki in WikiServers(virtualMode, virtualWikis, mainWiki, failing)
            <==> !virtualMode || ListWikis !in failing
  {
  }

  /** The database init starts from and comes back to: the context's, or the main wiki when it is empty. */
  function InitialDatabase(database: string, mainWiki: string): (db: string)
    ensures database != "" ==> db == database
    ensures database == "" ==> db == mainWiki
  {
    if database != "" then database else mainWiki
  }

  /** The documents the store query returns for wiki `w`. */
  function DocsOf(jobDocs: map<string, seq<string>>, w: string): seq<string> {
    if w in jobDocs then jobDocs[w] else []
  }

  predicate Distinct(s: seq<string>) {
    forall i, j :: 0 <= i < j < |s| ==> s[i] != s[j]
  }

  /** A job object, as loaded from its holder document and then updated in place. */
  class JobObject {
    /** The holder document's full name (BaseObject.getName) and the object's number in it. */
    const name: string
    const number: int
    const jobName: string
    const jobClass: string
    const cron: string
    var status: string
    var contextUser: string
    var contextLang: string
    var contextDatabase: string

    constructor (name: string, r: JobRecord)
      ensures this.name == name && Snapshot() == r
    {
      this.name := name;
      number, jobName, jobClass, cron := r.number, r.jobName, r.jobClass, r.cron;
      status, contextUser, contextLang, contextDatabase := r.status, r.contextUser, r.contextLang, r.contextDatabase;
    }

    /** The record the holder document stores once it is saved with this object. */
    function Snapshot(): (r: JobRecord)
      reads this
      ensures r.number == number && r.status == status && r.cron == cron && r.jobClass == jobClass
    {
      JobRecord(number, jobName, jobClass, cron, status, contextUser, contextLang, contextDatabase)
    }
  }

  class SchedulerPlugin {
    /** The main wiki's database name. */
    const mainWiki: string
    /** Class.forName succeeds on this name. */
    const ClassExists: string -> bool
    /** new CronTrigger(…, cron) parses this expression. */
    const CronParses: string -> bool
    /** The first fire time the engine computes for a fresh trigger with this cron expression, if any. */
    const FirstFireTime: string -> Option<int>

    /** The current database of the context. */
    var database: string
    /** The engine: triggers and job details, by unique job id. */
    var triggers: Triggers
    var details: map<string, JobDetail>
    /** The job records held by the wiki documents. */
    var store: map<DocKey, JobRecord>
    /** The XWiki.SchedulerJobClass document of each wiki. */
    var classDocs: map<string, JobClassSchema.ClassDoc>
    /** Whether the engine was started. */
    var started: bool

    constructor (mainWiki: string, classExists: string -> bool, cronParses: string -> bool,
                 firstFireTime: string -> Option<int>, database: string,
                 store: map<DocKey, JobRecord>, classDocs: map<string, JobClassSchema.ClassDoc>)
      ensures this.mainWiki == mainWiki && ClassExists == classExists && CronParses == cronParses
      ensures FirstFireTime == firstFireTime && this.database == database
      ensures this.store == store && this.classDocs == classDocs
      ensures triggers == map[] && details == map[] && !started
    {
      this.mainWiki, ClassExists, CronParses, FirstFireTime := mainWiki, classExists, cronParses, firstFireTime;
      this.database, this.store, this.classDocs := database, store, classDocs;
      triggers, details, started := map[], map[], false;
    }

    /** Nothing a job operation can change has changed: the engine, the store and the job object. */
    twostate predicate Untouched(job: JobObject)
      reads this, job
    {
      && triggers == old(triggers) && details == old(details) && store == old(store)
      && job.Snapshot() == old(job.Snapshot())
    }

    /** getObjectUniqueId, read from the current database. */
    function JobId(job: JobObject): (id: string)
      reads this`database
      ensures id == UniqueId(database, job.name, job.number)
    {
      UniqueId(database, job.name, job.number)
    }

    /** The holder document of `job` in the current database. */
    function HolderKey(job: JobObject): DocKey
      reads this`database
    {
      DocKey(database, job.name)
    }

    /** getJobStatus: the engine's state for the job's id. */
    function GetJobStatus(job: JobObject, failing: set<Call>): (r: Result<TriggerState, Failure>)
      reads this`database, this`triggers
      ensures QueryState in failing ==> r == Err(Root(EngineFailure))
      ensures QueryState !in failing ==> r.Ok? && (r.value == StateNone <==> JobId(job) !in triggers)
      ensures r.Ok? && JobId(job) in triggers ==> r.value == triggers[JobId(job)].state
    {
      if QueryState in failing then Err(Root(EngineFailure)) else Ok(StateOf(triggers, JobId(job)))
    }

    /** getTrigger: the trigger under the job's id; an engine failure and an absent trigger raise different codes. */
    function GetTrigger(job: JobObject, failing: set<Call>): (r: Result<Trigger, Failure>)
      reads this`database, this`triggers
      ensures r.Err? <==> QueryTrigger in failing || JobId(job) !in triggers
      ensures QueryTrigger in failing ==> r == Err(Wrap(JobXClassNotFound, Root(EngineFailure)))
      ensures QueryTrigger !in failing && JobId(job) !in triggers ==> r == Err(Root(JobDoesNotExist))
      ensures r.Ok? ==> r.value == triggers[JobId(job)]
    {
      if QueryTrigger in failing then Err(Wrap(JobXClassNotFound, Root(EngineFailure)))
      else if JobId(job) !in triggers then Err(Root(JobDoesNotExist))
      else Ok(triggers[JobId(job)])
    }

    /** getPreviousFireTime: the trigger's previous fire time, absent until it first fires. */
    function GetPreviousFireTime(job: JobObject, failing: set<Call>): (r: Result<Option<int>, Failure>)
      reads this`database, this`triggers
      ensures r.Err? ==> GetTrigger(job, failing).Err? && r.error == GetTrigger(job, failing).error
      ensures r.Ok? <==> QueryTrigger !in failing && JobId(job) in triggers
      ensures r.Ok? ==> r.value == triggers[JobId(job)].previousFireTime
    {
      var t := GetTrigger(job, failing);
      if t.Err? then Err(t.error) else Ok(t.value.previousFireTime)
    }

    /** getNextFireTime: the trigger's next fire time. */
    function GetNextFireTime(job: JobObject, failing: set<Call>): (r: Result<Option<int>, Failure>)
      reads this`database, this`triggers
      ensures r.Err? ==> GetTrigger(job, failing).Err? && r.error == GetTrigger(job, failing).error
      ensures r.Ok? <==> QueryTrigger !in failing && JobId(job) in triggers
      ensures r.Ok? ==> r.value == triggers[JobId(job)].nextFireTime
    {
      var t := GetTrigger(job, failing);
      if t.Err? then Err(t.error) else Ok(t.value.nextFireTime)
    }

    /**
     * saveStatus: loads the holder document, sets the job's status, then saves the holder. A
     * failed load leaves the job as it was; a failed save leaves the job changed but the store not.
     */
    method SaveStatus(status: string, job: JobObject, failing: set<Call>) returns (o: Outcome<Failure>)
      modifies this`store, job`status
      ensures LoadDocument in failing ==> o == Fail(Root(StoreFailure)) && job.status == old(job.status) && store == old(store)
      ensures LoadDocument !in failing ==> job.status == status
      ensures LoadDocument !in failing && SaveDocument in failing ==> o == Fail(Root(StoreFailure)) && store == old(store)
      ensures o.Pass? <==> LoadDocument !in failing && SaveDocument !in failing
      ensures o.Pass? ==> store == old(store)[HolderKey(job) := job.Snapshot()]
    {
      if LoadDocument in failing {
        return Fail(Root(StoreFailure));
      }
      job.status := status;
      if SaveDocument in failing {
        return Fail(Root(StoreFailure));
      }
      store := store[HolderKey(job) := job.Snapshot()];
      o := Pass;
    }

    /**
     * The field fill-in of prepareJobStubContext, and the save of the holder that always follows it.
     * The database is switched to the job's context database, which is the current one by then, and
     * switched back. The stub request, response, URL and URL factory are not modelled.
     */
    method PrepareJobStubContext(job: JobObject, caller: Caller, failing: set<Call>) returns (r: Result<StubContext, Failure>)
      modifies this`store, this`database, job`contextUser, job`contextLang, job`contextDatabase
      ensures database == old(database)
      ensures job.Snapshot() == FillContext(old(job.Snapshot()), caller, database)
      ensures r.Ok? <==> LoadDocument !in failing && SaveDocument !in failing
      ensures r.Err? ==> r == Err(Wrap(UnableToPrepareJobContext, Root(StoreFailure))) && store == old(store)
      ensures r.Ok? ==> store == old(store)[HolderKey(job) := job.Snapshot()]
      ensures r.Ok? ==> r.value == StubContext(job.contextUser, job.contextLang, database, mainWiki)
    {
      var jobNeedsUpdate := true;
      var cUser := job.contextUser;
      if cUser == "" {
        cUser := caller.user;
        job.contextUser := cUser;
        jobNeedsUpdate := true;
      }
      var cLang := job.contextLang;
      if cLang == "" {
        cLang := caller.language;
        job.contextLang := cLang;
        jobNeedsUpdate := true;
      }
      var iDb := database;
      var cDb := job.contextDatabase;
      if cDb == "" || cDb != iDb {
        cDb := database;
        job.contextDatabase := cDb;
        jobNeedsUpdate := true;
      }
      if jobNeedsUpdate {
        database := cDb;
        if LoadDocument in failing || SaveDocument in failing {
          database := iDb;
          return Err(Wrap(UnableToPrepareJobContext, Root(StoreFailure)));
        }
        store := store[HolderKey(job) := job.Snapshot()];
        database := iDb;
      }
      r := Ok(StubContext(cUser, cLang, cDb, mainWiki));
    }

    /**
     * The state query of scheduleJob and the switch on the state the engine reports: a Paused job
     * is left alone, a Normal one rescheduled, an absent one scheduled (and paused again when its
     * status says Paused), any other scheduled; the status the new state calls for is then saved.
     */
    method Dispatch(job: JobObject, failing: set<Call>) returns (r: Result<bool, Failure>)
      modifies this`store, this`triggers, job`status
      ensures triggers - {JobId(job)} == old(triggers) - {JobId(job)}
      ensures store - {HolderKey(job)} == old(store) - {HolderKey(job)}
      ensures old(store).Keys <= store.Keys <= old(store).Keys + {HolderKey(job)}
      ensures r.Ok? <==> QueryState !in failing && DispatchSucceeds(StateOf(old(triggers), JobId(job)), old(job.status), failing)
      ensures r.Ok? ==> r.value
      ensures r.Err? ==> r.error.code in {JobXClassNotFound, ScheduleJobError}
      ensures r.Ok? ==> triggers == DispatchedTriggers(old(triggers), JobId(job), job.cron, FirstFireTime(job.cron), old(job.status))
      ensures r.Ok? ==> job.status == SavedStatus(StateOf(old(triggers), JobId(job)), old(job.status)).GetOr(old(job.status))
      ensures r.Ok? ==> store == if SavedStatus(StateOf(old(triggers), JobId(job)), old(job.status)).Some? then old(store)[HolderKey(job) := job.Snapshot()] else old(store)
      ensures triggers == if QueryState in failing then old(triggers)
                          else EngineAfterDispatch(old(triggers), JobId(job), job.cron, FirstFireTime(job.cron), old(job.status), failing)
    {
      var status := GetJobStatus(job, failing);
      if status.Err? {
        return Err(Wrap(ScheduleJobError, status.error));
      }
      if status.value == StatePaused {
        // a paused job must be resumed, not scheduled
        return Ok(true);
      }
      if status.value == StateNormal {
        r := RescheduleTrigger(job, failing);
      } else {
        r := ScheduleTrigger(job, status.value, failing);
      }
    }

    /** The Normal case of the dispatch: the trigger is looked up, then replaced by a fresh one. */
    method RescheduleTrigger(job: JobObject, failing: set<Call>) returns (r: Result<bool, Failure>)
      requires JobId(job) in triggers
      modifies this`triggers
      ensures r.Ok? <==> QueryTrigger !in failing && Reschedule !in failing
      ensures r.Ok? ==> r.value && triggers == Install(old(triggers), JobId(job), job.cron, FirstFireTime(job.cron))
      ensures r.Err? ==> r.error.code in {JobXClassNotFound, ScheduleJobError} && triggers == old(triggers)
    {
      // the trigger comparison only decides whether a debug line is logged
      var current := GetTrigger(job, failing);
      if current.Err? {
        return Err(Wrap(JobXClassNotFound, current.error));
      }
      if Reschedule in failing {
        return Err(Wrap(ScheduleJobError, Root(EngineFailure)));
      }
      triggers := Install(triggers, JobId(job), job.cron, FirstFireTime(job.cron));
      r := Ok(true);
    }

    /**
     * The other cases of the dispatch: a fresh trigger is scheduled, paused again when the engine
     * held none and the job's status is Paused, and the status that state calls for is saved.
     */
    method ScheduleTrigger(job: JobObject, reported: TriggerState, failing: set<Call>) returns (r: Result<bool, Failure>)
      requires reported == StateOf(triggers, JobId(job)) && reported != StatePaused && reported != StateNormal
      modifies this`store, this`triggers, job`status
      ensures triggers - {JobId(job)} == old(triggers) - {JobId(job)}
      ensures store - {HolderKey(job)} == old(store) - {HolderKey(job)}
      ensures old(store).Keys <= store.Keys <= old(store).Keys + {HolderKey(job)}
      ensures r.Ok? <==> DispatchSucceeds(reported, old(job.status), failing)
      ensures r.Err? ==> r.error.code in {JobXClassNotFound, ScheduleJobError}
      ensures r.Ok? ==> r.value && triggers == DispatchedTriggers(old(triggers), JobId(job), job.cron, FirstFireTime(job.cron), old(job.status))
      ensures r.Ok? ==> job.status == SavedStatus(reported, old(job.status)).value && store == old(store)[HolderKey(job) := job.Snapshot()]
      ensures triggers == EngineAfterDispatch(old(triggers), JobId(job), job.cron, FirstFireTime(job.cron), old(job.status), failing)
    {
      ghost var after := EngineAfterDispatch(triggers, JobId(job), job.cron, FirstFireTime(job.cron), job.status, failing);
      var started := StartTrigger(job, reported, failing);
      assert triggers == after;
      if started.Fail? {
        return Err(started.error);
      }
      // a job the engine did not hold keeps a Paused status; any other is saved as Normal
      var saved := SaveStatus(SavedStatus(reported, job.status).value, job, failing);
      if saved.Fail? {
        return Err(Wrap(JobXClassNotFound, saved.error));
      }
      r := Ok(true);
    }

    /** The engine calls of ScheduleTrigger: a fresh trigger is scheduled, and paused again when the engine held none and the job's status is Paused. */
    method StartTrigger(job: JobObject, reported: TriggerState, failing: set<Call>) returns (o: Outcome<Failure>)
      requires reported == StateOf(triggers, JobId(job)) && reported != StatePaused && reported != StateNormal
      modifies this`triggers
      ensures o.Pass? <==> Schedule !in failing && (reported == StateNone && job.status == STATUS_PAUSED ==> Pause !in failing)
      ensures o.Fail? ==> o == Fail(Wrap(ScheduleJobError, Root(EngineFailure)))
      ensures triggers - {JobId(job)} == old(triggers) - {JobId(job)}
      ensures o.Pass? ==> triggers == DispatchedTriggers(old(triggers), JobId(job), job.cron, FirstFireTime(job.cron), job.status)
      ensures o.Fail? && Schedule in failing ==> triggers == old(triggers)
      ensures o.Fail? && Schedule !in failing ==> triggers == Install(old(triggers), JobId(job), job.cron, FirstFireTime(job.cron))
      ensures triggers == EngineAfterDispatch(old(triggers), JobId(job), job.cron, FirstFireTime(job.cron), job.status, failing)
    {
      var xjob := JobId(job);
      ghost var dispatched := DispatchedTriggers(triggers, xjob, job.cron, FirstFireTime(job.cron), job.status);
      ghost var after := EngineAfterDispatch(triggers, xjob, job.cron, FirstFireTime(job.cron), job.status, failing);
      if Schedule in failing {
        assert after == triggers;
        return Fail(Wrap(ScheduleJobError, Root(EngineFailure)));
      }
      var installed := Install(triggers, xjob, job.cron, FirstFireTime(job.cron));
      // the trigger is installed before the pause is attempted, and stays when the pause fails
      triggers := installed;
      if reported == StateNone && job.status == STATUS_PAUSED {
        if Pause in failing {
          assert after == installed;
          return Fail(Wrap(ScheduleJobError, Root(EngineFailure)));
        }
        assert dispatched == PauseAt(installed, xjob) == after;
        triggers := PauseAt(installed, xjob);
      } else {
        assert dispatched == installed == after;
      }
      o := Pass;
    }

    /**
     * The part of scheduleJob between the cron check and the state query: the execution context is
     * prepared, then the job detail is registered with addJob(…, true), replacing any detail held
     * under the same id.
     */
    method RegisterJob(job: JobObject, caller: Caller, failing: set<Call>) returns (r: Result<StubContext, Failure>)
      modifies this`store, this`database, this`details, job`contextUser, job`contextLang, job`contextDatabase
      ensures database == old(database)
      ensures job.Snapshot() == FillContext(old(job.Snapshot()), caller, database)
      ensures r.Ok? <==> LoadDocument !in failing && SaveDocument !in failing && AddJob !in failing
      ensures r.Err? ==> r.error.code in {JobXClassNotFound, ScheduleJobError} && details == old(details)
      ensures store == if LoadDocument !in failing && SaveDocument !in failing then old(store)[HolderKey(job) := job.Snapshot()] else old(store)
      ensures r.Ok? ==> r.value == StubContext(job.contextUser, job.contextLang, database, mainWiki)
      ensures r.Ok? ==> details == old(details)[JobId(job) := JobDetail(job.jobClass, r.value, HolderKey(job))]
    {
      var stubContext := PrepareJobStubContext(job, caller, failing);
      if stubContext.Err? {
        return Err(Wrap(JobXClassNotFound, stubContext.error));
      }
      if AddJob in failing {
        return Err(Wrap(ScheduleJobError, Root(EngineFailure)));
      }
      details := details[JobId(job) := JobDetail(job.jobClass, stubContext.value, HolderKey(job))];
      r := stubContext;
    }

    /**
     * scheduleJob: registers the job with the engine and starts, restarts or leaves its trigger by
     * the state the engine reports, then saves the status that state calls for. The job class is
     * loaded, then the cron expression parsed, before anything changes.
     */
    method ScheduleJob(job: JobObject, caller: Caller, failing: set<Call>) returns (r: Result<bool, Failure>)
      modifies this`store, this`database, this`triggers, this`details, job
      ensures database == old(database)
      ensures triggers - {JobId(job)} == old(triggers) - {JobId(job)}
      ensures details - {JobId(job)} == old(details) - {JobId(job)}
      ensures store - {HolderKey(job)} == old(store) - {HolderKey(job)}
      ensures old(store).Keys <= store.Keys <= old(store).Keys + {HolderKey(job)}
      ensures !ClassExists(job.jobClass) ==> r == Err(Wrap(JobXClassNotFound, Root(ClassNotFound))) && unchanged(this) && unchanged(job)
      ensures ClassExists(job.jobClass) && !CronParses(job.cron) ==> r == Err(Wrap(BadCronExpression, Root(CronParse))) && unchanged(this) && unchanged(job)
      ensures r.Ok? <==> ClassExists(job.jobClass) && CronParses(job.cron)
                          && LoadDocument !in failing && SaveDocument !in failing && AddJob !in failing && QueryState !in failing
                          && DispatchSucceeds(StateOf(old(triggers), JobId(job)), old(job.status), failing)
      ensures r.Ok? ==> r.value
      ensures r.Err? ==> r.error.code in {JobXClassNotFound, BadCronExpression, ScheduleJobError}
      ensures r.Ok? ==> triggers == DispatchedTriggers(old(triggers), JobId(job), job.cron, FirstFireTime(job.cron), old(job.status))
      ensures r.Ok? ==> details == old(details)[JobId(job) := JobDetail(job.jobClass, StubContext(job.contextUser, job.contextLang, database, mainWiki), HolderKey(job))]
      ensures r.Ok? ==> job.Snapshot() == FillContext(old(job.Snapshot()), caller, database).(status := SavedStatus(StateOf(old(triggers), JobId(job)), old(job.status)).GetOr(old(job.status)))
      ensures r.Ok? ==> store == old(store)[HolderKey(job) := job.Snapshot()]
      ensures LoadDocument in failing || SaveDocument in failing || AddJob in failing || QueryState in failing ==> triggers == old(triggers)
      ensures ClassExists(job.jobClass) && CronParses(job.cron)
              && LoadDocument !in failing && SaveDocument !in failing && AddJob !in failing && QueryState !in failing ==>
                triggers == EngineAfterDispatch(old(triggers), JobId(job), job.cron, FirstFireTime(job.cron), old(job.status), failing)
    {
      if !ClassExists(job.jobClass) {
        return Err(Wrap(JobXClassNotFound, Root(ClassNotFound)));
      }
      if !CronParses(job.cron) {
        return Err(Wrap(BadCronExpression, Root(CronParse)));
      }
      r := RegisterAndDispatch(job, caller, failing);
    }

    /** scheduleJob once its class and cron expression are known to be valid. */
    method RegisterAndDispatch(job: JobObject, caller: Caller, failing: set<Call>) returns (r: Result<bool, Failure>)
      modifies this`store, this`database, this`triggers, this`details, job`contextUser, job`contextLang, job`contextDatabase, job`status
      ensures database == old(database)
      ensures triggers - {JobId(job)} == old(triggers) - {JobId(job)}
      ensures details - {JobId(job)} == old(details) - {JobId(job)}
      ensures store - {HolderKey(job)} == old(store) - {HolderKey(job)}
      ensures old(store).Keys <= store.Keys <= old(store).Keys + {HolderKey(job)}
      ensures r.Ok? <==> LoadDocument !in failing && SaveDocument !in failing && AddJob !in failing && QueryState !in failing
                          && DispatchSucceeds(StateOf(old(triggers), JobId(job)), old(job.status), failing)
      ensures r.Ok? ==> r.value
      ensures r.Err? ==> r.error.code in {JobXClassNotFound, ScheduleJobError}
      ensures r.Ok? ==> triggers == DispatchedTriggers(old(triggers), JobId(job), job.cron, FirstFireTime(job.cron), old(job.status))
      ensures r.Ok? ==> details == old(details)[JobId(job) := JobDetail(job.jobClass, StubContext(job.contextUser, job.contextLang, database, mainWiki), HolderKey(job))]
      ensures r.Ok? ==> job.Snapshot() == FillContext(old(job.Snapshot()), caller, database).(status := SavedStatus(StateOf(old(triggers), JobId(job)), old(job.status)).GetOr(old(job.status)))
      ensures r.Ok? ==> store == old(store)[HolderKey(job) := job.Snapshot()]
      ensures LoadDocument in failing || SaveDocument in failing || AddJob in failing || QueryState in failing ==> triggers == old(triggers)
      ensures LoadDocument !in failing && SaveDocument !in failing && AddJob !in failing && QueryState !in failing ==>
                triggers == EngineAfterDispatch(old(triggers), JobId(job), job.cron, FirstFireTime(job.cron), old(job.status), failing)
    {
      ghost var before := job.Snapshot();
      ghost var reported := StateOf(triggers, JobId(job));
      var registered := RegisterJob(job, caller, failing);
      if registered.Err? {
        return Err(registered.error);
      }
      ghost var filled := job.Snapshot();
      assert filled == FillContext(before, caller, database);
      assert StateOf(triggers, JobId(job)) == reported;
      r := Dispatch(job, failing);
      assert job.Snapshot() == filled.(status := job.status);
      assert r.Ok? ==> job.status == SavedStatus(reported, before.status).GetOr(before.status);
    }

    /**
     * The body of the replay loop of restoreExistingJobs for the document `d`: the job object is
     * loaded from its holder, scheduled when its status is Normal or Paused, and paused when it is
     * Paused. A failure of either call is wrapped as RESTORE_JOB.
     */
    method ReplayJob(d: string, caller: Caller, failing: set<Call>) returns (o: Outcome<Failure>)
      requires DocKey(database, d) in store
      requires LoadDocument !in failing
      modifies this`store, this`database, this`triggers, this`details
      ensures database == old(database)
      ensures store.Keys == old(store).Keys
      ensures var id := UniqueId(database, d, old(store)[DocKey(database, d)].number);
              triggers - {id} == old(triggers) - {id}
      ensures store - {DocKey(database, d)} == old(store) - {DocKey(database, d)}
      ensures o.Fail? ==> o.error.code == RestoreJobError
      ensures o.Pass? ==> Replayed(database, d, old(triggers), old(store), triggers, store)
      ensures var r := old(store)[DocKey(database, d)];
              o.Pass? ==> triggers == ReplayedTriggers(old(triggers), UniqueId(database, d, r.number), r.cron, FirstFireTime(r.cron), r.status)
    {
      var key := DocKey(database, d);
      var job := new JobObject(d, store[key]);
      assert JobId(job) == UniqueId(database, d, old(store)[key].number);
      assert HolderKey(job) == key;
      var status := job.status;
      if status == STATUS_NORMAL || status == STATUS_PAUSED {
        var r := ScheduleJob(job, caller, failing);
        if r.Err? {
          return Fail(Wrap(RestoreJobError, r.error));
        }
      }
      if status == STATUS_PAUSED {
        var p := PauseJob(job, failing);
        if p.Fail? {
          return Fail(Wrap(RestoreJobError, p.error));
        }
      }
      o := Pass;
    }

    /** One turn of the replay loop of restoreExistingJobs: document `jobDocs[i]` is replayed, from the engine `t0` and store `s0` the loop started from. */
    method ReplayNext(jobDocs: seq<string>, i: nat, ghost t0: Triggers, ghost s0: map<DocKey, JobRecord>, caller: Caller, failing: set<Call>)
      returns (o: Outcome<Failure>)
      requires i < |jobDocs| && Distinct(jobDocs) && AllStored(database, jobDocs, s0)
      requires LoadDocument !in failing
      requires store.Keys == s0.Keys && StoreKeptOutside(database, jobDocs[..i], s0, store)
      requires TriggersKeptFrom(database, jobDocs, i, s0, t0, triggers)
      requires ReplayedUpTo(database, jobDocs, i, t0, s0, triggers, store)
      requires ':' !in database ==> OtherWikisKept(database, t0, triggers)
      modifies this`store, this`database, this`triggers, this`details
      ensures database == old(database)
      ensures store.Keys == s0.Keys && StoreKeptOutside(database, jobDocs[..i + 1], s0, store)
      ensures ':' !in database ==> OtherWikisKept(database, t0, triggers)
      ensures o.Fail? ==> o.error.code == RestoreJobError
      ensures TriggersKeptFrom(database, jobDocs, i + 1, s0, t0, triggers)
      ensures ReplayedUpTo(database, jobDocs, if o.Pass? then i + 1 else i, t0, s0, triggers, store)
    {
      var d := jobDocs[i];
      ghost var t1, s1 := triggers, store;
      assert d !in jobDocs[..i];
      assert s1[DocKey(database, d)] == s0[DocKey(database, d)];
      o := ReplayJob(d, caller, failing);
      ReplayStepStore(database, jobDocs, i, s0, s1, store);
      if ':' !in database {
        OtherWikisUntouched(database, d, s0[DocKey(database, d)].number, t1, triggers);
        OtherWikisKeptTransitive(database, t0, t1, triggers);
      }
      ReplayStepEngine(database, jobDocs, i, t0, s0, t1, s1, triggers, store);
    }

    /**
     * restoreExistingJobs on the current wiki: replays the job documents the store query returned,
     * in order, by their stored status; a job stored as Normal is scheduled, one stored as Paused is
     * scheduled and then paused, any other is left alone. The first failure ends the replay.
     */
    method RestoreExistingJobs(jobDocs: seq<string>, caller: Caller, failing: set<Call>) returns (o: Outcome<Failure>)
      requires forall d :: d in jobDocs ==> DocKey(database, d) in store
      requires Distinct(jobDocs)
      modifies this`store, this`database, this`triggers, this`details
      ensures database == old(database)
      ensures store.Keys == old(store).Keys
      ensures forall k :: k in old(store) && (k.wiki != database || k.name !in jobDocs) ==> store[k] == old(store)[k]
      ensures o.Fail? ==> o.error.code == RestoreExistingJobsError
      ensures SearchDocuments in failing || (LoadDocument in failing && jobDocs != []) ==>
                o == Fail(Wrap(RestoreExistingJobsError, Root(StoreFailure))) && triggers == old(triggers) && store == old(store)
      ensures o.Fail? && SearchDocuments !in failing ==>
                exists i: nat :: ReplayStoppedAt(database, jobDocs, i, old(triggers), old(store), triggers, store)
      ensures o.Pass? ==> forall d :: d in jobDocs ==> Replayed(database, d, old(triggers), old(store), triggers, store)
      ensures ':' !in database ==> OtherWikisKept(database, old(triggers), triggers)
    {
      if SearchDocuments in failing {
        return Fail(Wrap(RestoreExistingJobsError, Root(StoreFailure)));
      }
      var i := 0;
      while i < |jobDocs|
        invariant 0 <= i <= |jobDocs|
        invariant database == old(database)
        invariant store.Keys == old(store).Keys
        invariant StoreKeptOutside(database, jobDocs[..i], old(store), store)
        invariant TriggersKeptFrom(database, jobDocs, i, old(store), old(triggers), triggers)
        invariant ReplayedUpTo(database, jobDocs, i, old(triggers), old(store), triggers, store)
        invariant LoadDocument in failing ==> i == 0
        invariant i == 0 ==> triggers == old(triggers) && store == old(store)
        invariant ':' !in database ==> OtherWikisKept(database, old(triggers), triggers)
      {
        if LoadDocument in failing {
          assert ReplayStoppedAt(database, jobDocs, 0, old(triggers), old(store), triggers, store);
          return Fail(Wrap(RestoreExistingJobsError, Root(StoreFailure)));
        }
        var r := ReplayNext(jobDocs, i, old(triggers), old(store), caller, failing);
        if r.Fail? {
          assert jobDocs[..i + 1] <= jobDocs;
          assert ReplayStoppedAt(database, jobDocs, i, old(triggers), old(store), triggers, store);
          return Fail(Wrap(RestoreExistingJobsError, r.error));
        }
        i := i + 1;
      }
      assert jobDocs[..i] == jobDocs;
      o := Pass;
    }

    /** pauseJob: pauses the job's trigger, then saves "Paused"; the save happens only after the engine call succeeded. */
    method PauseJob(job: JobObject, failing: set<Call>) returns (o: Outcome<Failure>)
      modifies this`store, job`status, this`triggers
      ensures Pause in failing ==> o == Fail(Wrap(PauseJobError, Root(EngineFailure))) && Untouched(job)
      ensures Pause !in failing ==> triggers == PauseAt(old(triggers), JobId(job))
      ensures o.Pass? <==> Pause !in failing && LoadDocument !in failing && SaveDocument !in failing
      ensures o.Fail? ==> o.error.code == PauseJobError
      ensures o.Pass? ==> job.status == STATUS_PAUSED && store == old(store)[HolderKey(job) := job.Snapshot()]
      ensures o.Fail? ==> store == old(store)
      ensures store - {HolderKey(job)} == old(store) - {HolderKey(job)}
      ensures old(store).Keys <= store.Keys <= old(store).Keys + {HolderKey(job)}
      ensures job.status == old(job.status) || job.status == STATUS_PAUSED
    {
      if Pause in failing {
        return Fail(Wrap(PauseJobError, Root(EngineFailure)));
      }
      triggers := PauseAt(triggers, JobId(job));
      var saved := SaveStatus(STATUS_PAUSED, job, failing);
      if saved.Fail? {
        return Fail(Wrap(PauseJobError, saved.error));
      }
      o := Pass;
    }

    /** resumeJob: resumes the job's trigger, then saves "Normal". */
    method ResumeJob(job: JobObject, failing: set<Call>) returns (o: Outcome<Failure>)
      modifies this`store, job`status, this`triggers
      ensures Resume in failing ==> o == Fail(Wrap(ResumeJobError, Root(EngineFailure))) && Untouched(job)
      ensures Resume !in failing ==> triggers == ResumeAt(old(triggers), JobId(job))
      ensures o.Pass? <==> Resume !in failing && LoadDocument !in failing && SaveDocument !in failing
      ensures o.Fail? ==> o.error.code == ResumeJobError
      ensures o.Pass? ==> job.status == STATUS_NORMAL && store == old(store)[HolderKey(job) := job.Snapshot()]
      ensures o.Fail? ==> store == old(store)
      ensures store - {HolderKey(job)} == old(store) - {HolderKey(job)}
      ensures old(store).Keys <= store.Keys <= old(store).Keys + {HolderKey(job)}
    {
      if Resume in failing {
        return Fail(Wrap(ResumeJobError, Root(EngineFailure)));
      }
      triggers := ResumeAt(triggers, JobId(job));
      var saved := SaveStatus(STATUS_NORMAL, job, failing);
      if saved.Fail? {
        return Fail(Wrap(ResumeJobError, saved.error));
      }
      o := Pass;
    }

    /** triggerJob: fires the job now; the job and its stored status are left as they are. */
    method TriggerJob(job: JobObject, failing: set<Call>) returns (o: Outcome<Failure>)
      ensures o.Fail? <==> FireNow in failing || JobId(job) !in details
      ensures o.Fail? ==> o == Fail(Wrap(TriggerJobError, Root(EngineFailure)))
    {
      // the engine refuses to fire a job it holds no detail for
      if FireNow in failing || JobId(job) !in details {
        return Fail(Wrap(TriggerJobError, Root(EngineFailure)));
      }
      o := Pass;
    }

    /** The engine call of unscheduleJob: the job and its trigger are deleted. */
    method DeleteJob(job: JobObject, failing: set<Call>) returns (o: Outcome<Failure>)
      modifies this`triggers, this`details
      ensures o.Pass? <==> Delete !in failing
      ensures o.Fail? ==> o == Fail(Wrap(JobXClassNotFound, Root(EngineFailure))) && triggers == old(triggers) && details == old(details)
      ensures o.Pass? ==> triggers == old(triggers) - {JobId(job)} && details == old(details) - {JobId(job)}
    {
      if Delete in failing {
        return Fail(Wrap(JobXClassNotFound, Root(EngineFailure)));
      }
      triggers := triggers - {JobId(job)};
      details := details - {JobId(job)};
      o := Pass;
    }

    /** unscheduleJob: deletes the job and its trigger from the engine, then saves "None". */
    method UnscheduleJob(job: JobObject, failing: set<Call>) returns (o: Outcome<Failure>)
      modifies this`store, job`status, this`triggers, this`details
      ensures Delete in failing ==> o == Fail(Wrap(JobXClassNotFound, Root(EngineFailure))) && Untouched(job)
      ensures Delete !in failing ==> triggers == old(triggers) - {JobId(job)} && details == old(details) - {JobId(job)}
      ensures Delete !in failing ==> JobId(job) !in triggers && JobId(job) !in details
      ensures o.Pass? <==> Delete !in failing && LoadDocument !in failing && SaveDocument !in failing
      ensures o.Fail? ==> o.error.code == JobXClassNotFound
      ensures o.Pass? ==> job.status == STATUS_NONE && store == old(store)[HolderKey(job) := job.Snapshot()]
      ensures o.Fail? ==> store == old(store)
      ensures store - {HolderKey(job)} == old(store) - {HolderKey(job)}
      ensures old(store).Keys <= store.Keys <= old(store).Keys + {HolderKey(job)}
    {
      var deleted := DeleteJob(job, failing);
      if deleted.Fail? {
        return deleted;
      }
      var saved := SaveStatus(STATUS_NONE, job, failing);
      if saved.Fail? {
        return Fail(Wrap(JobXClassNotFound, saved.error));
      }
      o := Pass;
    }

    /**
     * updateSchedulerJobClass on the current wiki: the class document is loaded (a new empty one
     * when the load fails), repaired, and saved when the load failed or the repair had work to do.
     */
    method UpdateSchedulerJobClass(failing: set<Call>) returns (o: Outcome<Failure>)
      modifies this`classDocs
      ensures !UpdatedClass(old(classDocs), database, failing).1 ==> o.Pass? && classDocs == old(classDocs)
      ensures UpdatedClass(old(classDocs), database, failing).1 && SaveDocument in failing ==>
                o == Fail(Wrap(SaveJobClass, Root(StoreFailure))) && classDocs == old(classDocs)
      ensures UpdatedClass(old(classDocs), database, failing).1 && SaveDocument !in failing ==>
                o.Pass? && classDocs == old(classDocs)[database := UpdatedClass(old(classDocs), database, failing).0]
      ensures o.Pass? ==> database in classDocs && JobClassSchema.UpToDate(classDocs[database])
      ensures o.Pass? <==> SaveDocument !in failing ||
                           (LoadDocument !in failing && database in old(classDocs) && JobClassSchema.UpToDate(old(classDocs)[database]))
      ensures classDocs - {database} == old(classDocs) - {database}
    {
      var repaired := UpdatedClass(classDocs, database, failing);
      UpdatedClassSaveSkipped(classDocs, database, failing);
      if repaired.1 {
        if SaveDocument in failing {
          return Fail(Wrap(SaveJobClass, Root(StoreFailure)));
        }
        classDocs := classDocs[database := repaired.0];
      }
      o := Pass;
    }

    /** One turn of the first loop of init: the class of wiki `wikis[i]` is updated, from the class documents `c0` the loop started from. */
    method UpdateClassNext(wikis: seq<string>, i: nat, ghost c0: map<string, JobClassSchema.ClassDoc>, failing: set<Call>) returns (o: Outcome<Failure>)
      requires i < |wikis|
      requires ClassesUpToDate(wikis[..i], classDocs)
      requires forall w :: w !in wikis[..i] ==> Get(classDocs, w) == Get(c0, w)
      modifies this`classDocs, this`database
      ensures o.Fail? ==> o == Fail(Wrap(SaveJobClass, Root(StoreFailure))) && SaveDocument in failing
      ensures LoadDocument in failing && SaveDocument in failing ==> o.Fail?
      ensures o.Fail? ==> forall w :: w !in wikis ==> Get(classDocs, w) == Get(c0, w)
      ensures o.Pass? ==> ClassesUpToDate(wikis[..i + 1], classDocs)
      ensures o.Pass? ==> forall w :: w !in wikis[..i + 1] ==> Get(classDocs, w) == Get(c0, w)
    {
      ghost var c1 := classDocs;
      database := wikis[i];
      o := UpdateSchedulerJobClass(failing);
      if o.Fail? {
        forall w | w !in wikis
          ensures Get(classDocs, w) == Get(c0, w)
        {
          assert w !in wikis[..i];
        }
        return;
      }
      UpdateClassStep(wikis, i, c0, c1, classDocs);
    }

    /** The first loop of init: the class of every wiki of `wikis` is updated, each with that wiki as the current database. */
    method UpdateClasses(wikis: seq<string>, failing: set<Call>) returns (o: Outcome<Failure>)
      modifies this`classDocs, this`database
      ensures o.Pass? ==> ClassesUpToDate(wikis, classDocs)
      ensures o.Fail? ==> o == Fail(Wrap(SaveJobClass, Root(StoreFailure))) && SaveDocument in failing
      ensures LoadDocument in failing && SaveDocument in failing && wikis != [] ==> o.Fail?
      ensures forall w :: w !in wikis ==> Get(classDocs, w) == Get(old(classDocs), w)
    {
      var i := 0;
      while i < |wikis|
        invariant 0 <= i <= |wikis|
        invariant ClassesUpToDate(wikis[..i], classDocs)
        invariant forall w :: w !in wikis[..i] ==> Get(classDocs, w) == Get(old(classDocs), w)
        invariant LoadDocument in failing && SaveDocument in failing ==> i == 0
      {
        var u := UpdateClassNext(wikis, i, old(classDocs), failing);
        if u.Fail? {
          return u;
        }
        i := i + 1;
      }
      assert wikis[..i] == wikis;
      o := Pass;
    }

    /** The second loop of init: the jobs of every wiki of `wikis` are restored, each with that wiki as the current database. */
    method RestoreWikis(wikis: seq<string>, jobDocs: map<string, seq<string>>, caller: Caller, failing: set<Call>) returns (o: Outcome<Failure>)
      requires QueryResultsStored(jobDocs, store)
      modifies this`store, this`database, this`triggers, this`details
      ensures store.Keys == old(store).Keys
      ensures NonJobsKept(jobDocs, old(store), store)
      ensures o.Fail? ==> o.error.code == RestoreExistingJobsError
      ensures SearchDocuments in failing && wikis != [] ==> o == Fail(Wrap(RestoreExistingJobsError, Root(StoreFailure)))
      ensures o.Pass? ==> StatusesKept(old(store), store)
      ensures o.Pass? && (forall w :: w in wikis ==> ':' !in w) ==>
                WikisReplayed(wikis, wikis, jobDocs, old(store), old(triggers), triggers)
      ensures o.Fail? && (forall w :: w in wikis ==> ':' !in w) ==>
                exists j: nat :: WikisStoppedAt(wikis, j, jobDocs, old(store), old(triggers), triggers, store)
    {
      ghost var noColon := forall w :: w in wikis ==> ':' !in w;
      var j := 0;
      while j < |wikis|
        invariant 0 <= j <= |wikis|
        invariant store.Keys == old(store).Keys
        invariant NonJobsKept(jobDocs, old(store), store)
        invariant StatusesKept(old(store), store)
        invariant WikisStoreKept(wikis[..j], old(store), store)
        invariant noColon ==> WikisReplayed(wikis[..j], wikis, jobDocs, old(store), old(triggers), triggers)
        invariant SearchDocuments in failing ==> j == 0
      {
        ghost var t1, s1 := triggers, store;
        var r := RestoreWiki(wikis, j, jobDocs, old(triggers), old(store), caller, failing);
        assert WikisStoreKept(wikis[..j + 1], old(store), store) by {
          assert wikis[..j + 1] == wikis[..j] + [wikis[j]];
        }
        if r.Fail? {
          if noColon {
            RestoreWikiStopped(wikis, j, jobDocs, old(triggers), old(store), t1, s1, triggers, store);
          }
          return r;
        }
        j := j + 1;
      }
      assert wikis[..j] == wikis;
      o := Pass;
    }

    /** One turn of the second loop of init: wiki `wikis[j]` is restored, from the engine `t0` and store `s0` the loop started from. */
    method RestoreWiki(wikis: seq<string>, j: nat, jobDocs: map<string, seq<string>>, ghost t0: Triggers, ghost s0: map<DocKey, JobRecord>,
                       caller: Caller, failing: set<Call>) returns (o: Outcome<Failure>)
      requires j < |wikis| && QueryResultsStored(jobDocs, s0)
      requires store.Keys == s0.Keys && NonJobsKept(jobDocs, s0, store) && StatusesKept(s0, store)
      requires (forall w :: w in wikis ==> ':' !in w) ==> WikisReplayed(wikis[..j], wikis, jobDocs, s0, t0, triggers)
      modifies this`store, this`database, this`triggers, this`details
      ensures store.Keys == s0.Keys && NonJobsKept(jobDocs, s0, store)
      ensures forall k :: k in old(store) && k.wiki != wikis[j] ==> k in store && store[k] == old(store)[k]
      ensures ':' !in wikis[j] ==> OtherWikisKept(wikis[j], old(triggers), triggers)
      ensures o.Fail? ==> o.error.code == RestoreExistingJobsError
      ensures SearchDocuments in failing ==> o == Fail(Wrap(RestoreExistingJobsError, Root(StoreFailure)))
      ensures o.Pass? ==> StatusesKept(s0, store)
      ensures o.Pass? && (forall w :: w in wikis ==> ':' !in w) ==> WikisReplayed(wikis[..j + 1], wikis, jobDocs, s0, t0, triggers)
    {
      database := wikis[j];
      var docs := DocsOf(jobDocs, database);
      ghost var t1, s1 := triggers, store;
      o := RestoreExistingJobs(docs, caller, failing);
      if o.Fail? {
        return;
      }
      forall k | k in s0
        ensures k in store && store[k].status == s0[k].status && store[k].number == s0[k].number
      {
        if k.wiki == database && k.name in docs {
          assert Replayed(database, k.name, t1, s1, triggers, store);
        }
      }
      if forall w :: w in wikis ==> ':' !in w {
        assert database in wikis;
        RestoreWikiStep(wikis, j, jobDocs, t0, s0, t1, s1, triggers, store);
      }
    }

    /**
     * init: the scheduler job class is updated in every wiki, the engine is obtained, given its
     * status listener and started, then the jobs of every wiki are restored. The current database
     * is put back to the one init started from after each loop. The first failure ends init; it is
     * logged, not raised, and is returned here.
     */
    method Init(virtualMode: bool, virtualWikis: seq<string>, jobDocs: map<string, seq<string>>, caller: Caller, failing: set<Call>)
      returns (logged: Option<Failure>)
      requires QueryResultsStored(jobDocs, store)
      modifies this`classDocs, this`database, this`store, this`triggers, this`details, this`started
      ensures database == InitialDatabase(old(database), mainWiki)
      ensures var wikis := WikiServers(virtualMode, virtualWikis, mainWiki, failing);
              forall w :: w !in wikis ==> Get(classDocs, w) == Get(old(classDocs), w)
      ensures logged.None? ==> started && ClassesUpToDate(WikiServers(virtualMode, virtualWikis, mainWiki, failing), classDocs)
      ensures logged.None? ==> StatusesKept(old(store), store)
      ensures var wikis := WikiServers(virtualMode, virtualWikis, mainWiki, failing);
              logged.None? && old(triggers) == map[] && (forall w :: w in wikis ==> ':' !in w) ==>
                forall w, d :: w in wikis && d in DocsOf(jobDocs, w) ==>
                  StatusName(StateOf(triggers, IdIn(w, d, old(store)))) == ReplayedStatus(old(store)[DocKey(w, d)].status)
      ensures store.Keys == old(store).Keys && NonJobsKept(jobDocs, old(store), store)
      ensures logged.Some? ==> logged.value.code in {SaveJobClass, GetSchedulerError, InitializeStatusListener, EngineFailure, RestoreExistingJobsError}
      ensures var wikis := WikiServers(virtualMode, virtualWikis, mainWiki, failing);
              logged.Some? && logged.value.code == RestoreExistingJobsError ==> started && ClassesUpToDate(wikis, classDocs)
      ensures var wikis := WikiServers(virtualMode, virtualWikis, mainWiki, failing);
              logged.Some? && logged.value.code == RestoreExistingJobsError && (forall w :: w in wikis ==> ':' !in w) ==>
                exists j: nat :: WikisStoppedAt(wikis, j, jobDocs, old(store), old(triggers), triggers, store)
      ensures logged.Some? && logged.value.code != RestoreExistingJobsError ==>
                started == old(started) && triggers == old(triggers) && details == old(details) && store == old(store)
      ensures SaveDocument !in failing ==>
                (GetScheduler in failing <==> logged == Some(Wrap(GetSchedulerError, Root(EngineFailure))))
    {
      var initialDb := InitialDatabase(database, mainWiki);
      var wikis := WikiServers(virtualMode, virtualWikis, mainWiki, failing);
      var u := UpdateClasses(wikis, failing);
      database := initialDb;
      if u.Fail? {
        return Some(u.error);
      }
      logged := StartAndRestore(wikis, jobDocs, caller, failing);
    }

    /**
     * The part of init after the class update: the engine is obtained, given its status listener
     * and started, then the jobs of every wiki of `wikis` are restored, and the current database is
     * put back to the one init started from, which is current by then.
     */
    method StartAndRestore(wikis: seq<string>, jobDocs: map<string, seq<string>>, caller: Caller, failing: set<Call>)
      returns (logged: Option<Failure>)
      requires QueryResultsStored(jobDocs, store)
      modifies this`database, this`store, this`triggers, this`details, this`started
      ensures database == old(database)
      ensures store.Keys == old(store).Keys && NonJobsKept(jobDocs, old(store), store)
      ensures logged.Some? ==> logged.value.code in {GetSchedulerError, InitializeStatusListener, EngineFailure, RestoreExistingJobsError}
      ensures logged.Some? && logged.value.code != RestoreExistingJobsError ==>
                started == old(started) && triggers == old(triggers) && details == old(details) && store == old(store)
      ensures GetScheduler in failing <==> logged == Some(Wrap(GetSchedulerError, Root(EngineFailure)))
      ensures logged.None? ==> started && StatusesKept(old(store), store)
      ensures logged.None? && old(triggers) == map[] && (forall w :: w in wikis ==> ':' !in w) ==>
                forall w, d :: w in wikis && d in DocsOf(jobDocs, w) ==>
                  StatusName(StateOf(triggers, IdIn(w, d, old(store)))) == ReplayedStatus(old(store)[DocKey(w, d)].status)
      ensures logged.Some? && logged.value.code == RestoreExistingJobsError ==> started
      ensures logged.Some? && logged.value.code == RestoreExistingJobsError && (forall w :: w in wikis ==> ':' !in w) ==>
                exists j: nat :: WikisStoppedAt(wikis, j, jobDocs, old(store), old(triggers), triggers, store)
    {
      var initialDb := database;
      if GetScheduler in failing {
        return Some(Wrap(GetSchedulerError, Root(EngineFailure)));
      }
      if AddListener in failing {
        return Some(Wrap(InitializeStatusListener, Root(EngineFailure)));
      }
      if Start in failing {
        return Some(Root(EngineFailure));
      }
      started := true;
      ghost var t0, s0 := triggers, store;
      var r := RestoreWikis(wikis, jobDocs, caller, failing);
      database := initialDb;
      if r.Fail? {
        if forall w :: w in wikis ==> ':' !in w {
          ghost var j: nat :| WikisStoppedAt(wikis, j, jobDocs, s0, t0, triggers, store);
          assert t0 == old(triggers) && s0 == old(store);
        }
        return Some(r.error);
      }
      if old(triggers) == map[] && forall w :: w in wikis ==> ':' !in w {
        RestoredFreshEngine(wikis, jobDocs, old(store), triggers);
      }
      logged := None;
    }
  }
}
