/**
 * The error-monitoring pipeline: configuration merge, record preparation, the
 * queue with its batch trigger and critical fast path, flushing, delivery to a
 * custom HTTP endpoint with exponential-backoff retries, the periodic flush
 * timer, and the user-id / session / tag lookups over the browser stores.
 *
 * The pipeline's state is the value `Monitor`; each operation is a function
 * from the old state to the new one, and the class `ErrorMonitorService`
 * implements the operations imperatively against those functions.
 */
module ErrorMonitoring {
  import opened Wrappers
  import opened ErrorClassify

  /** A string-keyed JavaScript object (`Record<string, ...>`). */
  type Record = map<string, string>

  /** The effective configuration after the defaults are merged. */
  datatype Config = Config(
    enableRemoteLogging: bool,
    enableConsoleLogging: bool,
    maxRetries: int,
    batchSize: int,
    flushInterval: int,
    customApiEndpoint: Option<string>)

  /** The fields a caller may supply (`ErrorMonitoringConfig`); `None` means absent. */
  datatype Overrides = Overrides(
    enableRemoteLogging: Option<bool>,
    enableConsoleLogging: Option<bool>,
    maxRetries: Option<int>,
    batchSize: Option<int>,
    flushInterval: Option<int>,
    customApiEndpoint: Option<string>)

  const NoOverrides: Overrides := Overrides(None, None, None, None, None, None)

  /** The defaults written in the constructor; console logging is on outside production. */
  function Defaults(production: bool): Config {
    Config(true, !production, 3, 10, 30000, None)
  }

  /** `{ ...defaults, ...config }`: every supplied field replaces its default. */
  function MergeConfig(production: bool, o: Overrides): (c: Config)
    ensures c.enableRemoteLogging == o.enableRemoteLogging.GetOr(true)
    ensures c.enableConsoleLogging == o.enableConsoleLogging.GetOr(!production)
    ensures c.maxRetries == o.maxRetries.GetOr(3)
    ensures c.batchSize == o.batchSize.GetOr(10)
    ensures c.flushInterval == o.flushInterval.GetOr(30000)
    ensures c.customApiEndpoint == o.customApiEndpoint
  {
    var d := Defaults(production);
    Config(
      o.enableRemoteLogging.GetOr(d.enableRemoteLogging),
      o.enableConsoleLogging.GetOr(d.enableConsoleLogging),
      o.maxRetries.GetOr(d.maxRetries),
      o.batchSize.GetOr(d.batchSize),
      o.flushInterval.GetOr(d.flushInterval),
      if o.customApiEndpoint.Some? then o.customApiEndpoint else d.customApiEndpoint)
  }

  /** No overrides gives the defaults; a fully supplied configuration ignores them. */
  lemma MergeConfigDefaults(production: bool, o: Overrides)
    ensures MergeConfig(production, NoOverrides) == Defaults(production)
    ensures o.enableRemoteLogging.Some? && o.enableConsoleLogging.Some? && o.maxRetries.Some?
            && o.batchSize.Some? && o.flushInterval.Some?
            ==> MergeConfig(production, o) == MergeConfig(!production, o)
  {
  }

  /** The application's own configuration object (`errorMonitoringConfig`). */
  function EnvironmentOverrides(production: bool): Overrides {
    Overrides(Some(production), Some(!production), Some(3), Some(10), Some(30000),
              if production then Some("/api/errors") else None)
  }

  /** A POST target is configured: `customApiEndpoint` is present and non-empty. */
  predicate HasEndpoint(c: Config) {
    Truthy(c.customApiEndpoint)
  }

  /** The application's configuration is well formed and sends remotely exactly in production. */
  lemma EnvironmentConfigWellFormed(production: bool)
    ensures var c := MergeConfig(production, EnvironmentOverrides(production));
      && c.maxRetries >= 0 && c.batchSize >= 1
      && c.enableRemoteLogging == production
      && c.enableConsoleLogging == !production
      && (HasEndpoint(c) <==> production)
  {
  }

  /** One outgoing error record (`ErrorData`). */
  datatype ErrorData = ErrorData(
    message: string,
    stack: string,
    timestamp: string,
    url: string,
    userAgent: string,
    userId: string,
    sessionId: string,
    buildVersion: string,
    errorType: string,
    severity: Severity,
    context: Option<Record>,
    tags: Record,
    fingerprint: string)

  /**
   * The ambient inputs of one `reportError` call: clock, location, user agent,
   * the random part of a new session id, and whether browser storage throws.
   */
  datatype Ambient = Ambient(
    timestamp: string, url: string, userAgent: string, sessionSuffix: string, storageThrows: bool)

  /**
   * What the service is constructed with: its configuration, the build flag,
   * the HTTP transport (whether the n-th POST it issues succeeds) and JSON.
   */
  datatype Setup = Setup(
    config: Config,
    production: bool,
    transport: nat -> bool,
    stringify: Record -> string,
    parse: string -> Option<Record>)

  /** A POST of `data` to `endpoint`, issued `waitedMs` after the failure it retries. */
  datatype Post = Post(endpoint: string, data: ErrorData, retryCount: nat, waitedMs: nat, ok: bool)

  /** A scheduled `setTimeout` that will call `sendToCustomAPI(data, retryCount)`. */
  datatype Retry = Retry(data: ErrorData, retryCount: nat, delayMs: nat)

  /** The `console.warn` lines the service can emit. */
  datatype Warning = ProcessingFailed | SendFailed | UserContextFailed | TagsFailed

  /** The observable state of the service and of the world it writes to. */
  datatype Monitor = Monitor(
    queue: seq<ErrorData>,
    flushTimer: Option<nat>,
    activeIntervals: set<nat>,
    nextTimerId: nat,
    isInitialized: bool,
    local: map<string, string>,
    session: map<string, string>,
    echoed: seq<ErrorData>,
    dispatched: seq<ErrorData>,
    posts: seq<Post>,
    pending: seq<Retry>,
    warnings: seq<Warning>)

  const UserIdKey: string := "errorMonitoring_userId"
  const FallbackUserIdKey: string := "userId"
  const UserInfoKey: string := "errorMonitoring_userInfo"
  const TagsKey: string := "errorMonitoring_tags"
  const SessionKey: string := "sessionId"
  const AnonymousUser: string := "anonymous"

  /** `storage.getItem(key)` as an optional string. */
  function Lookup(store: map<string, string>, key: string): Option<string> {
    if key in store then Some(store[key]) else None
  }

  /** `getCurrentUserId`: the first non-empty of the two stored ids, else `anonymous`. */
  function CurrentUserId(local: map<string, string>): (id: string)
    ensures id != ""
    ensures Truthy(Lookup(local, UserIdKey)) ==> id == local[UserIdKey]
    ensures !Truthy(Lookup(local, UserIdKey)) && Truthy(Lookup(local, FallbackUserIdKey))
            ==> id == local[FallbackUserIdKey]
    ensures !Truthy(Lookup(local, UserIdKey)) && !Truthy(Lookup(local, FallbackUserIdKey))
            ==> id == AnonymousUser
  {
    if Truthy(Lookup(local, UserIdKey)) then local[UserIdKey]
    else if Truthy(Lookup(local, FallbackUserIdKey)) then local[FallbackUserIdKey]
    else AnonymousUser
  }

  /** `getSessionId`: the stored id, or a new `session_...` id that is stored. */
  function SessionOf(session: map<string, string>, suffix: string): (r: (string, map<string, string>))
    ensures r.0 != "" && SessionKey in r.1 && r.1[SessionKey] == r.0
    ensures Truthy(Lookup(session, SessionKey)) ==> r == (session[SessionKey], session)
    ensures !Truthy(Lookup(session, SessionKey)) ==> r.1 == session[SessionKey := r.0]
  {
    if Truthy(Lookup(session, SessionKey)) then (session[SessionKey], session)
    else
      var id := "session_" + suffix;
      (id, session[SessionKey := id])
  }

  /** Once a session id exists it is returned unchanged and the store is left alone. */
  lemma SessionStable(session: map<string, string>, suffix1: string, suffix2: string)
    ensures var (id, s1) := SessionOf(session, suffix1);
            SessionOf(s1, suffix2) == (id, s1)
  {
  }

  /** `getCurrentTags`: the parsed stored tags; absent, empty or unparsable gives `{}`. */
  function CurrentTags(s: Setup, local: map<string, string>): (tags: Record)
    ensures !Truthy(Lookup(local, TagsKey)) ==> tags == map[]
    ensures Truthy(Lookup(local, TagsKey)) && s.parse(local[TagsKey]).None? ==> tags == map[]
  {
    if Truthy(Lookup(local, TagsKey)) then s.parse(local[TagsKey]).GetOr(map[]) else map[]
  }

  function BuildVersion(production: bool): string {
    if production then "1.0.0" else "development"
  }

  /** `prepareErrorData`, given the session id it resolved. */
  function BuildRecord(s: Setup, e: ErrorValue, context: Option<Record>, amb: Ambient,
                            local: map<string, string>, sessionId: string): ErrorData
  {
    ErrorData(Message(e), Stack(e), amb.timestamp, amb.url, amb.userAgent, CurrentUserId(local),
              sessionId, BuildVersion(s.production), ErrorType(e), ErrorSeverity(e), context,
              CurrentTags(s, local), Fingerprint(e))
  }

  function Pow2(n: nat): (p: nat)
    ensures p >= 1
  {
    if n == 0 then 1 else 2 * Pow2(n - 1)
  }

  /** `Math.pow(2, retryCount) * 1000`. */
  function BackoffMs(retryCount: nat): nat {
    Pow2(retryCount) * 1000
  }

  /** `sendToCustomAPI(d, retryCount)`: one POST; a failure warns and schedules a retry while any are left. */
  function Attempted(s: Setup, m: Monitor, d: ErrorData, retryCount: nat, waitedMs: nat): Monitor {
    if !HasEndpoint(s.config) then m
    else
      var ok := s.transport(|m.posts|);
      var m1 := m.(posts := m.posts + [Post(s.config.customApiEndpoint.value, d, retryCount, waitedMs, ok)]);
      if ok then m1
      else if retryCount < s.config.maxRetries then
        m1.(warnings := m1.warnings + [SendFailed],
            pending := m1.pending + [Retry(d, retryCount + 1, BackoffMs(retryCount))])
      else
        m1.(warnings := m1.warnings + [SendFailed])
  }

  /** `sendErrorData`: nothing leaves unless remote logging is on and an endpoint is set. */
  function Dispatched(s: Setup, m: Monitor, d: ErrorData): Monitor {
    var m1 := m.(dispatched := m.dispatched + [d]);
    if !s.config.enableRemoteLogging then m1
    else if HasEndpoint(s.config) then Attempted(s, m1, d, 0, 0)
    else m1
  }

  /** `batch.forEach(sendErrorData)`. */
  function DispatchedAll(s: Setup, m: Monitor, batch: seq<ErrorData>): Monitor
    decreases |batch|
  {
    if batch == [] then m
    else Dispatched(s, DispatchedAll(s, m, batch[..|batch| - 1]), batch[|batch| - 1])
  }

  /** `flushErrorQueue`: empty the queue, then hand each former entry to `sendErrorData`. */
  function Flushed(s: Setup, m: Monitor): Monitor {
    if |m.queue| == 0 then m
    else DispatchedAll(s, m.(queue := []), m.queue)
  }

  /** The record `reportError` would build in state `m`. */
  function RecordFor(s: Setup, m: Monitor, e: ErrorValue, context: Option<Record>, amb: Ambient): ErrorData {
    BuildRecord(s, e, context, amb, m.local, SessionOf(m.session, amb.sessionSuffix).0)
  }

  /** The rest of `reportError` once record `d` is built: echo, enqueue, send at once when critical, flush when the batch is full. */
  function Enqueued(s: Setup, m: Monitor, d: ErrorData): Monitor {
    var m1 := m.(echoed := if s.config.enableConsoleLogging then m.echoed + [d] else m.echoed,
                 queue := m.queue + [d]);
    var m2 := if d.severity == Critical then Dispatched(s, m1, d) else m1;
    if |m2.queue| >= s.config.batchSize then Flushed(s, m2) else m2
  }

  /** `reportError`: a storage failure while building the record only warns. */
  function Reported(s: Setup, m: Monitor, e: ErrorValue, context: Option<Record>, amb: Ambient): Monitor {
    if amb.storageThrows then m.(warnings := m.warnings + [ProcessingFailed])
    else Enqueued(s, m.(session := SessionOf(m.session, amb.sessionSuffix).1), RecordFor(s, m, e, context, amb))
  }

  /** `startPeriodicFlush`: clear the running interval, if any, then arm a new one. */
  function TimerStarted(m: Monitor): Monitor {
    var kept := if m.flushTimer.Some? then m.activeIntervals - {m.flushTimer.value} else m.activeIntervals;
    m.(flushTimer := Some(m.nextTimerId), activeIntervals := kept + {m.nextTimerId},
       nextTimerId := m.nextTimerId + 1)
  }

  /** `initialize`: runs once; starts the periodic flush. */
  function Initialized(m: Monitor): Monitor {
    if m.isInitialized then m else TimerStarted(m).(isInitialized := true)
  }

  /** The state right after construction, over the given browser stores. */
  function Created(local: map<string, string>, session: map<string, string>): Monitor {
    Initialized(Monitor([], None, {}, 1, false, local, session, [], [], [], [], []))
  }

  /** The callback of interval `id` runs: it flushes if that interval is still armed. */
  function Ticked(s: Setup, m: Monitor, id: nat): Monitor {
    if id in m.activeIntervals then Flushed(s, m) else m
  }

  /** The retry timer `m.pending[i]` fires. */
  function RetryFired(s: Setup, m: Monitor, i: nat): Monitor
    requires i < |m.pending|
  {
    var r := m.pending[i];
    Attempted(s, m.(pending := m.pending[..i] + m.pending[i + 1..]), r.data, r.retryCount, r.delayMs)
  }

  /** `destroy`: clear the interval, forget it, and flush what is queued. */
  function Destroyed(s: Setup, m: Monitor): Monitor {
    var m1 := if m.flushTimer.Some? then m.(activeIntervals := m.activeIntervals - {m.flushTimer.value},
                                            flushTimer := None)
              else m;
    Flushed(s, m1)
  }

  /**
   * `setUserContext`: store the id, then the JSON of `info` only when supplied.
   * `idThrows` is the first write throwing; `infoThrows` is the serialisation
   * or the second write throwing, after the id is already stored.
   */
  function UserContextSet(s: Setup, m: Monitor, userId: string, info: Option<Record>,
                          idThrows: bool, infoThrows: bool): Monitor {
    if idThrows then m.(warnings := m.warnings + [UserContextFailed])
    else
      var local := m.local[UserIdKey := userId];
      if info.None? then m.(local := local)
      else if infoThrows then m.(local := local, warnings := m.warnings + [UserContextFailed])
      else m.(local := local[UserInfoKey := s.stringify(info.value)])
  }

  /** `setTags`: store the JSON of the tags. */
  function TagsSet(s: Setup, m: Monitor, tags: Record, storageThrows: bool): Monitor {
    if storageThrows then m.(warnings := m.warnings + [TagsFailed])
    else m.(local := m.local[TagsKey := s.stringify(tags)])
  }

  /**
   * The invariant of the service: at most one interval runs and it is the one
   * `flushTimer` names; the queue is shorter than a batch, or empty.
   */
  ghost predicate Inv(s: Setup, m: Monitor) {
    && m.nextTimerId >= 1
    && m.activeIntervals == (if m.flushTimer.Some? then {m.flushTimer.value} else {})
    && (m.flushTimer.Some? ==> 0 < m.flushTimer.value < m.nextTimerId)
    && (|m.queue| < s.config.batchSize || m.queue == [])
  }

  /** `a` and `b` agree on everything but the delivery logs. */
  predicate SameExceptDelivery(a: Monitor, b: Monitor) {
    && a.queue == b.queue && a.flushTimer == b.flushTimer && a.activeIntervals == b.activeIntervals
    && a.nextTimerId == b.nextTimerId && a.isInitialized == b.isInitialized
    && a.local == b.local && a.session == b.session && a.echoed == b.echoed
  }

  /** One POST attempt only extends the delivery logs, and keeps earlier POSTs. */
  lemma AttemptedExtends(s: Setup, m: Monitor, d: ErrorData, retryCount: nat, waitedMs: nat)
    ensures var r := Attempted(s, m, d, retryCount, waitedMs);
      && SameExceptDelivery(r, m) && r.dispatched == m.dispatched
      && |r.posts| >= |m.posts| && r.posts[..|m.posts|] == m.posts
  {
  }

  /**
   * `forEach(sendErrorData)` hands every record of the batch to `sendErrorData`
   * exactly once, in batch order, and changes nothing but the delivery logs.
   */
  lemma {:induction false} DispatchedAllInOrder(s: Setup, m: Monitor, batch: seq<ErrorData>)
    ensures var r := DispatchedAll(s, m, batch);
      && r.dispatched == m.dispatched + batch
      && SameExceptDelivery(r, m)
      && |r.posts| >= |m.posts| && r.posts[..|m.posts|] == m.posts
    decreases |batch|
  {
    if batch != [] {
      var init, last := batch[..|batch| - 1], batch[|batch| - 1];
      DispatchedAllInOrder(s, m, init);
      var mid := DispatchedAll(s, m, init);
      AttemptedExtends(s, mid.(dispatched := mid.dispatched + [last]), last, 0, 0);
      assert batch == init + [last];
    }
  }

  /** With remote logging off or no endpoint configured, dispatching posts nothing and schedules nothing. */
  lemma {:induction false} DispatchedAllSilent(s: Setup, m: Monitor, batch: seq<ErrorData>)
    requires !s.config.enableRemoteLogging || !HasEndpoint(s.config)
    ensures var r := DispatchedAll(s, m, batch);
      r.posts == m.posts && r.pending == m.pending && r.warnings == m.warnings
    decreases |batch|
  {
    if batch != [] {
      DispatchedAllSilent(s, m, batch[..|batch| - 1]);
    }
  }

  /**
   * Flushing an empty queue changes nothing; otherwise the queue is left empty
   * and each former entry has been handed to `sendErrorData` once, in order.
   */
  lemma FlushedDrains(s: Setup, m: Monitor)
    ensures m.queue == [] ==> Flushed(s, m) == m
    ensures var r := Flushed(s, m);
      && r.queue == [] && r.dispatched == m.dispatched + m.queue
      && r.flushTimer == m.flushTimer && r.activeIntervals == m.activeIntervals
      && r.nextTimerId == m.nextTimerId && r.isInitialized == m.isInitialized
      && r.local == m.local && r.session == m.session && r.echoed == m.echoed
      && |r.posts| >= |m.posts| && r.posts[..|m.posts|] == m.posts
  {
    if m.queue != [] {
      DispatchedAllInOrder(s, m.(queue := []), m.queue);
    }
  }

  /**
   * `reportError` (storage working) appends exactly the prepared record; a
   * critical record is dispatched at once and stays queued; when the queue
   * reaches the batch size it is flushed to empty.
   */
  lemma EnqueuedEffect(s: Setup, m: Monitor, d: ErrorData)
    ensures var r := Enqueued(s, m, d);
      var full := |m.queue| + 1 >= s.config.batchSize;
      && r.queue == (if full then [] else m.queue + [d])
      && r.dispatched == m.dispatched + (if d.severity == Critical then [d] else [])
                         + (if full then m.queue + [d] else [])
      && r.echoed == (if s.config.enableConsoleLogging then m.echoed + [d] else m.echoed)
      && r.local == m.local && r.session == m.session && r.flushTimer == m.flushTimer
      && r.activeIntervals == m.activeIntervals && r.nextTimerId == m.nextTimerId
      && |r.posts| >= |m.posts| && r.posts[..|m.posts|] == m.posts
  {
    var m1 := m.(echoed := if s.config.enableConsoleLogging then m.echoed + [d] else m.echoed,
                 queue := m.queue + [d]);
    var m2 := if d.severity == Critical then Dispatched(s, m1, d) else m1;
    if d.severity == Critical {
      AttemptedExtends(s, m1.(dispatched := m1.dispatched + [d]), d, 0, 0);
    }
    FlushedDrains(s, m2);
  }

  /** `reportError` in terms of the record it builds, the session it may create and its storage outcome. */
  lemma ReportedEffect(s: Setup, m: Monitor, e: ErrorValue, context: Option<Record>, amb: Ambient)
    ensures amb.storageThrows ==> Reported(s, m, e, context, amb) == m.(warnings := m.warnings + [ProcessingFailed])
    ensures !amb.storageThrows ==>
      var d := RecordFor(s, m, e, context, amb);
      var r := Reported(s, m, e, context, amb);
      var full := |m.queue| + 1 >= s.config.batchSize;
      && r.queue == (if full then [] else m.queue + [d])
      && r.dispatched == m.dispatched + (if d.severity == Critical then [d] else [])
                         + (if full then m.queue + [d] else [])
      && r.echoed == (if s.config.enableConsoleLogging then m.echoed + [d] else m.echoed)
      && r.session == SessionOf(m.session, amb.sessionSuffix).1
      && r.local == m.local && r.flushTimer == m.flushTimer
      && r.activeIntervals == m.activeIntervals && r.nextTimerId == m.nextTimerId
  {
    if !amb.storageThrows {
      EnqueuedEffect(s, m.(session := SessionOf(m.session, amb.sessionSuffix).1), RecordFor(s, m, e, context, amb));
    }
  }

  /**
   * A critical record is POSTed to the endpoint during the `reportError` call
   * itself, as first attempt, when remote logging is on and an endpoint is set.
   */
  lemma CriticalPostedAtOnce(s: Setup, m: Monitor, d: ErrorData)
    requires s.config.enableRemoteLogging && HasEndpoint(s.config) && d.severity == Critical
    ensures var r := Enqueued(s, m, d);
      && |r.posts| > |m.posts|
      && r.posts[|m.posts|] == Post(s.config.customApiEndpoint.value, d, 0, 0, s.transport(|m.posts|))
  {
    var m1 := m.(echoed := if s.config.enableConsoleLogging then m.echoed + [d] else m.echoed,
                 queue := m.queue + [d]);
    var m2 := Dispatched(s, m1, d);
    var p := Post(s.config.customApiEndpoint.value, d, 0, 0, s.transport(|m.posts|));
    assert m2.posts == m.posts + [p];
    FlushedDrains(s, m2);
    var r := if |m2.queue| >= s.config.batchSize then Flushed(s, m2) else m2;
    assert Enqueued(s, m, d) == r;
    assert r.posts[..|m2.posts|][|m.posts|] == p;
  }

  /** With remote logging off or no endpoint, enqueueing never POSTs nor schedules a retry. */
  lemma EnqueuedSilent(s: Setup, m: Monitor, d: ErrorData)
    requires !s.config.enableRemoteLogging || !HasEndpoint(s.config)
    ensures var r := Enqueued(s, m, d);
      r.posts == m.posts && r.pending == m.pending
  {
    var m1 := m.(echoed := if s.config.enableConsoleLogging then m.echoed + [d] else m.echoed,
                 queue := m.queue + [d]);
    var m2 := if d.severity == Critical then Dispatched(s, m1, d) else m1;
    DispatchedAllSilent(s, m2.(queue := []), m2.queue);
  }

  /** With remote logging off or no endpoint, reporting never POSTs nor schedules a retry. */
  lemma ReportedSilentWhenRemoteOff(s: Setup, m: Monitor, e: ErrorValue, context: Option<Record>, amb: Ambient)
    requires !s.config.enableRemoteLogging || !HasEndpoint(s.config)
    ensures var r := Reported(s, m, e, context, amb);
      r.posts == m.posts && r.pending == m.pending
  {
    if !amb.storageThrows {
      EnqueuedSilent(s, m.(session := SessionOf(m.session, amb.sessionSuffix).1), RecordFor(s, m, e, context, amb));
    }
  }

  /** The service starts with exactly one armed interval and an empty queue. */
  lemma CreatedInv(s: Setup, local: map<string, string>, session: map<string, string>)
    ensures var m := Created(local, session);
      Inv(s, m) && m.isInitialized && m.flushTimer == Some(1) && m.activeIntervals == {1} && m.queue == []
  {
  }

  /** Re-arming clears the previous interval first: exactly one, new, interval runs. */
  lemma TimerStartedInv(s: Setup, m: Monitor)
    requires Inv(s, m)
    ensures var r := TimerStarted(m);
      Inv(s, r) && r.flushTimer == Some(m.nextTimerId) && r.activeIntervals == {m.nextTimerId}
      && m.nextTimerId !in m.activeIntervals
  {
  }

  /** Reporting keeps the invariant; with `batchSize >= 1` the queue stays below a batch. */
  lemma ReportedInv(s: Setup, m: Monitor, e: ErrorValue, context: Option<Record>, amb: Ambient)
    requires Inv(s, m)
    ensures Inv(s, Reported(s, m, e, context, amb))
    ensures s.config.batchSize >= 1 ==> |Reported(s, m, e, context, amb).queue| < s.config.batchSize
  {
    ReportedEffect(s, m, e, context, amb);
  }

  lemma TickedInv(s: Setup, m: Monitor, id: nat)
    requires Inv(s, m)
    ensures Inv(s, Ticked(s, m, id))
  {
    FlushedDrains(s, m);
  }

  lemma RetryFiredInv(s: Setup, m: Monitor, i: nat)
    requires Inv(s, m) && i < |m.pending|
    ensures Inv(s, RetryFired(s, m, i))
  {
  }

  /**
   * `destroy` leaves no interval armed and an empty queue, after dispatching
   * what was queued; a second `destroy` changes nothing.
   */
  lemma DestroyedIdempotent(s: Setup, m: Monitor)
    requires Inv(s, m)
    ensures var r := Destroyed(s, m);
      && Inv(s, r) && r.flushTimer == None && r.activeIntervals == {} && r.queue == []
      && r.dispatched == m.dispatched + m.queue
      && Destroyed(s, r) == r
  {
    var m1 := if m.flushTimer.Some? then m.(activeIntervals := m.activeIntervals - {m.flushTimer.value},
                                            flushTimer := None)
              else m;
    FlushedDrains(s, m1);
    FlushedDrains(s, Destroyed(s, m));
  }

  /** The delay before retry number `k` (`k >= 1`) is `2^(k-1)` seconds; the first attempt waits for nothing. */
  function WaitBefore(k: nat): nat {
    if k == 0 then 0 else BackoffMs(k - 1)
  }

  /** The first `n` attempts to send `d`, all failed. */
  function FailedPosts(endpoint: string, d: ErrorData, n: nat): (ps: seq<Post>)
    ensures |ps| == n
    ensures forall k :: 0 <= k < n ==> ps[k] == Post(endpoint, d, k, WaitBefore(k), false)
  {
    if n == 0 then [] else FailedPosts(endpoint, d, n - 1) + [Post(endpoint, d, n - 1, WaitBefore(n - 1), false)]
  }

  /** `n` copies of the send-failure warning. */
  function SendFailures(n: nat): (ws: seq<Warning>)
    ensures |ws| == n && forall k :: 0 <= k < n ==> ws[k] == SendFailed
  {
    if n == 0 then [] else SendFailures(n - 1) + [SendFailed]
  }

  /** The state after attempts `0..j` of `d` all failed, with the next retry scheduled if any is left. */
  function AfterFailures(s: Setup, m: Monitor, d: ErrorData, j: nat): Monitor
    requires HasEndpoint(s.config)
  {
    m.(posts := m.posts + FailedPosts(s.config.customApiEndpoint.value, d, j + 1),
       warnings := m.warnings + SendFailures(j + 1),
       pending := m.pending + (if j < s.config.maxRetries then [Retry(d, j + 1, BackoffMs(j))] else []))
  }

  /** The environment fires the most recently scheduled retry timer, `k` times. */
  function FireLatest(s: Setup, m: Monitor, k: nat): Monitor
    decreases k
  {
    if k == 0 || m.pending == [] then m
    else FireLatest(s, RetryFired(s, m, |m.pending| - 1), k - 1)
  }

  /** Firing the latest retry once, then `k - 1` more times. */
  lemma FireLatestUnfold(s: Setup, m: Monitor, k: nat)
    requires k > 0 && m.pending != []
    ensures FireLatest(s, m, k) == FireLatest(s, RetryFired(s, m, |m.pending| - 1), k - 1)
  {
  }

  /** Firing the latest retry after `j + 1` failed attempts makes the next attempt, which fails too. */
  lemma RetryAfterFailures(s: Setup, m: Monitor, d: ErrorData, j: nat)
    requires HasEndpoint(s.config) && j < s.config.maxRetries
    requires forall n :: !s.transport(n)
    ensures var a := AfterFailures(s, m, d, j);
      |a.pending| > 0 && RetryFired(s, a, |a.pending| - 1) == AfterFailures(s, m, d, j + 1)
  {
    var a := AfterFailures(s, m, d, j);
    var ep := s.config.customApiEndpoint.value;
    assert a.pending[..|a.pending| - 1] + a.pending[|a.pending|..] == m.pending;
    assert FailedPosts(ep, d, j + 2) == FailedPosts(ep, d, j + 1) + [Post(ep, d, j + 1, BackoffMs(j), false)];
  }

  /**
   * States each of which, by firing its latest retry, becomes the next one:
   * firing `n - j` times from the `j`-th reaches the `n`-th.
   */
  lemma {:induction false} FireChain(s: Setup, x: nat -> Monitor, j: nat, n: nat)
    requires j <= n
    requires forall i :: j <= i < n ==> x(i).pending != [] && RetryFired(s, x(i), |x(i).pending| - 1) == x(i + 1)
    ensures FireLatest(s, x(j), n - j) == x(n)
    decreases n - j
  {
    if j < n {
      calc {
        FireLatest(s, x(j), n - j);
      == { FireLatestUnfold(s, x(j), n - j); }
        FireLatest(s, x(j + 1), n - (j + 1));
      == { FireChain(s, x, j + 1, n); }
        x(n);
      }
    }
  }

  /** Firing the latest retry `n - j` times after `j + 1` failed attempts reaches `n + 1` failed attempts. */
  lemma FailureChain(s: Setup, m: Monitor, d: ErrorData, j: nat, n: nat)
    requires HasEndpoint(s.config) && j <= n <= s.config.maxRetries
    requires forall i :: !s.transport(i)
    ensures FireLatest(s, AfterFailures(s, m, d, j), n - j) == AfterFailures(s, m, d, n)
  {
    var x := (i: nat) => AfterFailures(s, m, d, i);
    forall i | j <= i < n
      ensures x(i).pending != [] && RetryFired(s, x(i), |x(i).pending| - 1) == x(i + 1)
    {
      RetryAfterFailures(s, m, d, i);
    }
    FireChain(s, x, j, n);
  }

  /**
   * If every POST fails, sending a record makes exactly `maxRetries + 1`
   * attempts, numbered `0..maxRetries`, the `k`-th after a wait of
   * `2^(k-1)` seconds, each one warned about; then no retry of it is left.
   */
  lemma AllAttemptsFail(s: Setup, m: Monitor, d: ErrorData)
    requires HasEndpoint(s.config) && s.config.maxRetries >= 0
    requires forall n :: !s.transport(n)
    ensures var r := FireLatest(s, Attempted(s, m, d, 0, 0), s.config.maxRetries);
      && r.pending == m.pending
      && |r.posts| == |m.posts| + s.config.maxRetries + 1
      && r.posts[..|m.posts|] == m.posts
      && (forall k :: 0 <= k <= s.config.maxRetries ==>
            r.posts[|m.posts| + k] == Post(s.config.customApiEndpoint.value, d, k, WaitBefore(k), false))
      && r.warnings == m.warnings + SendFailures(s.config.maxRetries + 1)
  {
    FirstAttemptFails(s, m, d);
    FailureChain(s, m, d, 0, s.config.maxRetries);
    assert s.config.maxRetries - 0 == s.config.maxRetries;
    FailedChainShape(s, m, d, s.config.maxRetries);
  }

  /** A first attempt that fails is the start of a failed chain. */
  lemma FirstAttemptFails(s: Setup, m: Monitor, d: ErrorData)
    requires HasEndpoint(s.config) && !s.transport(|m.posts|)
    ensures Attempted(s, m, d, 0, 0) == AfterFailures(s, m, d, 0)
  {
    var ep := s.config.customApiEndpoint.value;
    assert FailedPosts(ep, d, 1) == [Post(ep, d, 0, 0, false)];
  }

  /** After the last of `n + 1` failed attempts no retry is left, and every attempt is recorded and warned about. */
  lemma FailedChainShape(s: Setup, m: Monitor, d: ErrorData, n: nat)
    requires HasEndpoint(s.config) && n == s.config.maxRetries
    ensures var r := AfterFailures(s, m, d, n);
      && r.pending == m.pending
      && |r.posts| == |m.posts| + n + 1
      && r.posts[..|m.posts|] == m.posts
      && (forall k :: 0 <= k <= n ==>
            r.posts[|m.posts| + k] == Post(s.config.customApiEndpoint.value, d, k, WaitBefore(k), false))
      && r.warnings == m.warnings + SendFailures(n + 1)
  {
    var ep := s.config.customApiEndpoint.value;
    var r := AfterFailures(s, m, d, n);
    forall k | 0 <= k <= n
      ensures r.posts[|m.posts| + k] == Post(ep, d, k, WaitBefore(k), false)
    {
      assert r.posts[|m.posts| + k] == FailedPosts(ep, d, n + 1)[k];
    }
  }

  /** A first attempt that succeeds is the only one: no warning, no retry. */
  lemma FirstAttemptSucceeds(s: Setup, m: Monitor, d: ErrorData)
    requires HasEndpoint(s.config) && s.transport(|m.posts|)
    ensures var r := Attempted(s, m, d, 0, 0);
      r.posts == m.posts + [Post(s.config.customApiEndpoint.value, d, 0, 0, true)]
      && r.pending == m.pending && r.warnings == m.warnings
  {
  }

  /** The total wait of a fully failed chain is `(2^maxRetries - 1)` seconds. */
  lemma {:induction false} TotalWait(n: nat)
    ensures SumWaits(n) == (Pow2(n) - 1) * 1000
  {
    if n > 0 {
      TotalWait(n - 1);
    }
  }

  /** The waits before attempts `1..n`. */
  function SumWaits(n: nat): nat {
    if n == 0 then 0 else SumWaits(n - 1) + WaitBefore(n)
  }

  /**
   * After `setUserContext(id)` the next record carries `id` as its user, even
   * when storing the user info then fails; without user info, or when storing
   * it fails, the stored info is left as it was.
   */
  lemma UserContextReachesRecord(s: Setup, m: Monitor, userId: string, info: Option<Record>, infoThrows: bool,
                                 e: ErrorValue, context: Option<Record>, amb: Ambient)
    requires userId != ""
    ensures RecordFor(s, UserContextSet(s, m, userId, info, false, infoThrows), e, context, amb).userId == userId
    ensures info.None? || infoThrows ==>
      Lookup(UserContextSet(s, m, userId, info, false, infoThrows).local, UserInfoKey) == Lookup(m.local, UserInfoKey)
  {
  }

  /** Stored tags come back on the next record, provided JSON round-trips them. */
  lemma TagsReachRecord(s: Setup, m: Monitor, tags: Record, e: ErrorValue, context: Option<Record>, amb: Ambient)
    requires s.stringify(tags) != "" && s.parse(s.stringify(tags)) == Some(tags)
    ensures RecordFor(s, TagsSet(s, m, tags, false), e, context, amb).tags == tags
  {
  }

  /**
   * The service's own test configuration (both logs on, 2 retries, batches
   * of 5, a one-second interval, an endpoint): a fresh service reporting
   * `new Error("API test error")` POSTs the critical record to the endpoint
   * during the call, as first attempt, and keeps it queued.
   */
  lemma CriticalErrorPostedImmediately(production: bool, transport: nat -> bool, stringify: Record -> string,
                                   parse: string -> Option<Record>, local: map<string, string>,
                                   session: map<string, string>, amb: Ambient)
    requires !amb.storageThrows
    ensures var o := Overrides(Some(true), Some(true), Some(2), Some(5), Some(1000), Some("http://test-api.com/errors"));
      var s := Setup(MergeConfig(production, o), production, transport, stringify, parse);
      var m := Created(local, session);
      var e := Obj(Some("API test error"), None, None, Some("Error"));
      var d := RecordFor(s, m, e, None, amb);
      var r := Reported(s, m, e, None, amb);
      && d.severity == Critical && d.message == "API test error" && d.errorType == "Error"
      && |r.posts| >= 1 && r.posts[0] == Post("http://test-api.com/errors", d, 0, 0, transport(0))
      && r.queue == [d]
  {
    var o := Overrides(Some(true), Some(true), Some(2), Some(5), Some(1000), Some("http://test-api.com/errors"));
    var s := Setup(MergeConfig(production, o), production, transport, stringify, parse);
    var m := Created(local, session);
    var e := Obj(Some("API test error"), None, None, Some("Error"));
    var d := RecordFor(s, m, e, None, amb);
    ApiTestErrorIsCritical();
    assert s.config.enableRemoteLogging && s.config.customApiEndpoint == Some("http://test-api.com/errors");
    assert s.config.batchSize == 5 && m.posts == [] && m.queue == [];
    var m1 := m.(session := SessionOf(m.session, amb.sessionSuffix).1);
    assert Reported(s, m, e, None, amb) == Enqueued(s, m1, d);
    CriticalPostedAtOnce(s, m1, d);
    EnqueuedEffect(s, m1, d);
  }

  /** A flush keeps the invariant. */
  lemma FlushedInv(s: Setup, m: Monitor)
    requires Inv(s, m)
    ensures Inv(s, Flushed(s, m))
  {
    FlushedDrains(s, m);
  }

  /**
   * `ErrorMonitoringService`: the queue, the interval timer and the logs of
   * what was echoed, dispatched, POSTed, scheduled and warned about.
   */
  class ErrorMonitorService {
    const setup: Setup
    var queue: seq<ErrorData>
    var flushTimer: Option<nat>
    var activeIntervals: set<nat>
    var nextTimerId: nat
    var isInitialized: bool
    var local: map<string, string>
    var session: map<string, string>
    var echoed: seq<ErrorData>
    var dispatched: seq<ErrorData>
    var posts: seq<Post>
    var pending: seq<Retry>
    var warnings: seq<Warning>

    function State(): Monitor
      reads this
    {
      Monitor(queue, flushTimer, activeIntervals, nextTimerId, isInitialized, local, session,
              echoed, dispatched, posts, pending, warnings)
    }

    ghost predicate Valid()
      reads this
    {
      Inv(setup, State())
    }

    /** Merges the configuration over the defaults and initialises (arms the flush interval). */
    constructor (config: Option<Overrides>, production: bool, transport: nat -> bool,
                 stringify: Record -> string, parse: string -> Option<Record>,
                 localStore: map<string, string>, sessionStore: map<string, string>)
      ensures setup == Setup(MergeConfig(production, config.GetOr(NoOverrides)), production,
                             transport, stringify, parse)
      ensures Valid() && State() == Created(localStore, sessionStore)
    {
      setup := Setup(MergeConfig(production, config.GetOr(NoOverrides)), production,
                     transport, stringify, parse);
      queue := [];
      flushTimer := None;
      activeIntervals := {};
      nextTimerId := 1;
      isInitialized := false;
      local := localStore;
      session := sessionStore;
      echoed, dispatched, posts, pending, warnings := [], [], [], [], [];
      new;
      Initialize();
    }

    method Initialize()
      requires Valid()
      modifies this
      ensures Valid() && State() == Initialized(old(State()))
    {
      if isInitialized {
        return;
      }
      StartPeriodicFlush();
      isInitialized := true;
    }

    method StartPeriodicFlush()
      requires Valid()
      modifies this
      ensures Valid() && State() == TimerStarted(old(State()))
    {
      TimerStartedInv(setup, State());
      if flushTimer.Some? {
        activeIntervals := activeIntervals - {flushTimer.value};
      }
      var id := nextTimerId;
      nextTimerId := nextTimerId + 1;
      activeIntervals := activeIntervals + {id};
      flushTimer := Some(id);
    }

    /** `getSessionId`: reads, and creates when missing, the session id. */
    method GetSessionId(suffix: string) returns (id: string)
      modifies this
      ensures (id, session) == SessionOf(old(session), suffix)
      ensures State() == old(State()).(session := session)
    {
      if SessionKey in session && session[SessionKey] != "" {
        id := session[SessionKey];
      } else {
        id := "session_" + suffix;
        session := session[SessionKey := id];
      }
    }

    method PrepareErrorData(error: ErrorValue, context: Option<Record>, amb: Ambient) returns (data: ErrorData)
      modifies this
      ensures data == RecordFor(setup, old(State()), error, context, amb)
      ensures State() == old(State()).(session := SessionOf(old(session), amb.sessionSuffix).1)
    {
      var sessionId := GetSessionId(amb.sessionSuffix);
      data := BuildRecord(setup, error, context, amb, local, sessionId);
    }

    method ReportError(error: ErrorValue, context: Option<Record>, amb: Ambient)
      requires Valid()
      modifies this
      ensures Valid() && State() == Reported(setup, old(State()), error, context, amb)
    {
      ghost var m0 := State();
      if amb.storageThrows {
        warnings := warnings + [ProcessingFailed];
        ReportedInv(setup, m0, error, context, amb);
        return;
      }
      var data := PrepareErrorData(error, context, amb);
      EnqueueErrorData(data);
      ReportedInv(setup, m0, error, context, amb);
    }

    /** The part of `reportError` after the record is built: echo, enqueue, send when critical, flush a full batch. */
    method EnqueueErrorData(data: ErrorData)
      modifies this
      ensures State() == Enqueued(setup, old(State()), data)
    {
      ghost var m1 := State();
      if setup.config.enableConsoleLogging {
        echoed := echoed + [data];
      }
      queue := queue + [data];
      ghost var m2 := State();
      assert m2 == m1.(echoed := if setup.config.enableConsoleLogging then m1.echoed + [data] else m1.echoed,
                       queue := m1.queue + [data]);
      if data.severity == Critical {
        SendErrorData(data);
      }
      ghost var m3 := State();
      assert m3 == if data.severity == Critical then Dispatched(setup, m2, data) else m2;
      if |queue| >= setup.config.batchSize {
        FlushErrorQueue();
      }
    }

    method SetUserContext(userId: string, userInfo: Option<Record>, idThrows: bool, infoThrows: bool)
      requires Valid()
      modifies this
      ensures Valid() && State() == UserContextSet(setup, old(State()), userId, userInfo, idThrows, infoThrows)
    {
      if idThrows {
        warnings := warnings + [UserContextFailed];
        return;
      }
      local := local[UserIdKey := userId];
      if userInfo.Some? {
        if infoThrows {
          warnings := warnings + [UserContextFailed];
          return;
        }
        local := local[UserInfoKey := setup.stringify(userInfo.value)];
      }
    }

    method SetTags(tags: Record, storageThrows: bool)
      requires Valid()
      modifies this
      ensures Valid() && State() == TagsSet(setup, old(State()), tags, storageThrows)
    {
      if storageThrows {
        warnings := warnings + [TagsFailed];
        return;
      }
      local := local[TagsKey := setup.stringify(tags)];
    }

    method SendErrorData(data: ErrorData)
      modifies this
      ensures State() == Dispatched(setup, old(State()), data)
    {
      dispatched := dispatched + [data];
      if !setup.config.enableRemoteLogging {
        return;
      }
      if HasEndpoint(setup.config) {
        SendToCustomApi(data, 0, 0);
      }
    }

    /** `sendToCustomAPI(data, retryCount)`, issued `waitedMs` after the failure it retries. */
    method SendToCustomApi(data: ErrorData, retryCount: nat, waitedMs: nat)
      modifies this
      ensures State() == Attempted(setup, old(State()), data, retryCount, waitedMs)
    {
      if !HasEndpoint(setup.config) {
        return;
      }
      var ok := setup.transport(|posts|);
      posts := posts + [Post(setup.config.customApiEndpoint.value, data, retryCount, waitedMs, ok)];
      if !ok {
        warnings := warnings + [SendFailed];
        if retryCount < setup.config.maxRetries {
          pending := pending + [Retry(data, retryCount + 1, BackoffMs(retryCount))];
        }
      }
    }

    method FlushErrorQueue()
      modifies this
      ensures State() == Flushed(setup, old(State()))
    {
      if |queue| == 0 {
        return;
      }
      var errors := queue;
      queue := [];
      ghost var start := State();
      var i := 0;
      while i < |errors|
        invariant 0 <= i <= |errors|
        invariant State() == DispatchedAll(setup, start, errors[..i])
      {
        assert errors[..i + 1][..i] == errors[..i];
        assert DispatchedAll(setup, start, errors[..i + 1])
            == Dispatched(setup, DispatchedAll(setup, start, errors[..i]), errors[i]);
        SendErrorData(errors[i]);
        i := i + 1;
      }
      assert errors[..i] == errors;
    }

    /** The callback of interval `id` runs. */
    method IntervalFired(id: nat)
      requires Valid()
      modifies this
      ensures Valid() && State() == Ticked(setup, old(State()), id)
    {
      FlushedInv(setup, State());
      if id in activeIntervals {
        FlushErrorQueue();
      }
    }

    /** The retry timer `pending[i]` fires. */
    method RetryTimerFired(i: nat)
      requires Valid() && i < |pending|
      modifies this
      ensures Valid() && State() == RetryFired(setup, old(State()), i)
    {
      var r := pending[i];
      pending := pending[..i] + pending[i + 1..];
      SendToCustomApi(r.data, r.retryCount, r.delayMs);
    }

    method Destroy()
      requires Valid()
      modifies this
      ensures Valid() && State() == Destroyed(setup, old(State()))
    {
      DestroyedIdempotent(setup, State());
      if flushTimer.Some? {
        activeIntervals := activeIntervals - {flushTimer.value};
        flushTimer := None;
      }
      FlushErrorQueue();
    }
  }
}
