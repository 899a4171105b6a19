/**
 * The refresh daemon of pkg/auth/providerrefresh/daemon.go as a state machine.
 *
 * The Go package keeps two package-level variables: `ref`, the refresher,
 * which is nil until the daemon is started, and `c`, the one live cron
 * runner. Here both live in an immutable `Daemon` record and every exported
 * function is a pure transition returning the next record and the Go result.
 * The cron grammar, `time.ParseDuration`, the refresher's own work and the
 * RFC 3339 formatter are collaborators passed in through `Env`.
 */
module ProviderRefresh {
  import opened Wrappers
  import opened Cron
  import opened Attributes
  import opened Errors

  /** `time.Duration`: a signed count of nanoseconds. */
  type Duration = int

  /** The collaborators the daemon calls but does not define. */
  datatype Env = Env(
    /** `cron.ParseStandard`: a standard five-field cron expression to a schedule. */
    parseStandard: string -> Result<Schedule, string>,
    /** `time.ParseDuration`. */
    parseDuration: string -> Result<Duration, string>,
    /** `ref.refreshAttributes`: re-fetches one record from its providers. */
    refreshAttributes: UserAttribute -> Result<UserAttribute, Error>,
    /** `t.Format(time.RFC3339)`. */
    formatRfc3339: Instant -> string)

  /** A request the daemon hands to its refresher (`ref`), in the order made. */
  datatype Call =
    | EnsureMaxAgeUpToDate(setting: string)
    | RefreshAll(force: bool)
    | RefreshAttributesOf(record: UserAttribute)

  /**
   * The package state: whether `ref` is set, the live runner `c`, every
   * runner that `c` used to hold (oldest first), and the requests made of `ref`.
   */
  datatype Daemon = Daemon(initialised: bool, live: Runner, retired: seq<Runner>, calls: seq<Call>)

  /** Go's two results: a value (possibly nil) and an error (possibly nil). */
  datatype Ret<T> = Ret(value: T, err: Option<Error>)

  /** One transition: the next daemon state and what the call returned. */
  datatype Step<T> = Step(daemon: Daemon, result: T)

  /**
   * The state the package starts in: `ref` is nil and `c` is a fresh runner
   * from `cron.New()` with nothing scheduled.
   */
  function Boot(): (d: Daemon)
    ensures !d.initialised && d.retired == [] && d.calls == []
    ensures !Armed(d.live) && d.live.entries == []
  {
    Daemon(false, New(0), [], [])
  }

  /**
   * What every reachable state satisfies: runners are numbered in creation
   * order, every runner replaced so far was stopped, a runner holds at most
   * one entry and runs exactly when it holds one, and nothing has been
   * scheduled before the daemon was initialised.
   */
  predicate Valid(d: Daemon)
  {
    && (forall i :: 0 <= i < |d.retired| ==>
          !d.retired[i].running && d.retired[i].generation == i && |d.retired[i].entries| <= 1)
    && d.live.generation == |d.retired|
    && |d.live.entries| <= 1
    && d.live.running == (|d.live.entries| == 1)
    && (!d.initialised ==> d.retired == [] && !d.live.running)
  }

  /** All runners ever installed as `c`, the live one last. */
  function Runners(d: Daemon): (cs: seq<Runner>)
    ensures |cs| == |d.retired| + 1 && cs[|cs| - 1] == d.live
  {
    d.retired + [d.live]
  }

  /**
   * `ParseCron`: the empty setting means no schedule and no error; any other
   * setting goes to the cron parser, whose failure is wrapped.
   */
  function ParseCron(env: Env, setting: string): (r: Ret<Option<Schedule>>)
    ensures setting == "" ==> r == Ret(None, None)
    ensures setting != "" ==>
      match env.parseStandard(setting)
      case Success(s) => r == Ret(Some(s), None)
      case Failure(why) => r == Ret(None, Some(CronSyntax(why)))
  {
    if setting == "" then Ret(None, None)
    else
      match env.parseStandard(setting)
      case Failure(why) => Ret(None, Some(CronSyntax(why)))
      case Success(s) => Ret(Some(s), None)
  }

  /**
   * `ParseMaxAge`: the setting is a number of seconds; it is suffixed with
   * the unit "s" and handed to the duration parser. On failure the duration
   * returned is zero.
   */
  function ParseMaxAge(env: Env, setting: string): (r: Ret<Duration>)
    ensures r.err.None? <==> env.parseDuration(setting + "s").Success?
    ensures r.err.None? ==> r.value == env.parseDuration(setting + "s").value
    ensures r.err.Some? ==>
      r.value == 0 && r.err.value == MaxAgeSyntax(env.parseDuration(setting + "s").error)
  {
    match env.parseDuration(setting + "s")
    case Failure(why) => Ret(0, Some(MaxAgeSyntax(why)))
    case Success(dur) => Ret(dur, None)
  }

  /**
   * `UpdateRefreshCronTime`: refuses when uninitialised or given the empty
   * setting, and when the setting does not parse; in those cases nothing
   * changes. Otherwise the live runner is stopped and retired, and a fresh
   * runner replaces it, armed with the parsed schedule when there is one.
   */
  function UpdateRefreshCronTime(env: Env, d: Daemon, refreshCronTime: string): (r: Step<Option<Error>>)
    ensures r.daemon.initialised == d.initialised && r.daemon.calls == d.calls
    ensures r.result.None? <==>
      d.initialised && refreshCronTime != "" && env.parseStandard(refreshCronTime).Success?
    ensures !d.initialised || refreshCronTime == "" ==> r == Step(d, Some(CronTimeNotProvided))
    ensures d.initialised && refreshCronTime != "" && env.parseStandard(refreshCronTime).Failure? ==>
      r == Step(d, Some(CronParsing(CronSyntax(env.parseStandard(refreshCronTime).error))))
    ensures r.result.None? ==>
      && r.daemon.retired == d.retired + [Stop(d.live)]
      && r.daemon.live.generation == d.live.generation + 1
      && r.daemon.live.entries == [env.parseStandard(refreshCronTime).value]
      && r.daemon.live.running
  {
    if !d.initialised || refreshCronTime == "" then
      Step(d, Some(CronTimeNotProvided))
    else
      var parsed := ParseCron(env, refreshCronTime);
      if parsed.err.Some? then
        Step(d, Some(CronParsing(parsed.err.value)))
      else
        var next := New(d.live.generation + 1);
        var c := if parsed.value.Some? then Start(AddSchedule(next, parsed.value.value)) else next;
        Step(d.(live := c, retired := d.retired + [Stop(d.live)]), None)
  }

  /**
   * `UpdateRefreshMaxAge`: refuses when uninitialised; otherwise hands the
   * setting to the refresher once and succeeds. The cron runners are never touched.
   */
  function UpdateRefreshMaxAge(d: Daemon, maxAge: string): (r: Step<Option<Error>>)
    ensures r.result.None? <==> d.initialised
    ensures r.result.Some? ==> r.result.value == MaxAgeNotProvided
    ensures r.daemon.initialised == d.initialised
    ensures r.daemon.live == d.live && r.daemon.retired == d.retired
    ensures r.daemon.calls == d.calls + (if d.initialised then [EnsureMaxAgeUpToDate(maxAge)] else [])
  {
    if !d.initialised then Step(d, Some(MaxAgeNotProvided))
    else Step(d.(calls := d.calls + [EnsureMaxAgeUpToDate(maxAge)]), None)
  }

  /**
   * `RefreshAllForCron`, the job every cron entry runs: nothing when
   * uninitialised, otherwise one unforced bulk refresh.
   */
  function RefreshAllForCron(d: Daemon): (d': Daemon)
    ensures d'.initialised == d.initialised && d'.live == d.live && d'.retired == d.retired
    ensures d'.calls == d.calls + (if d.initialised then [RefreshAll(false)] else [])
  {
    if !d.initialised then d
    else d.(calls := d.calls + [RefreshAll(false)])
  }

  /**
   * `RefreshAttributes`: refuses when uninitialised; otherwise asks the
   * refresher to re-fetch the record. Its error is returned as is, with no
   * record; its record is returned stamped as refreshed at `now` (in UTC)
   * and no longer marked as needing a refresh, its payload untouched.
   */
  function RefreshAttributes(env: Env, d: Daemon, attribs: UserAttribute, now: Instant)
    : (r: Step<Ret<Option<UserAttribute>>>)
    ensures r.daemon.initialised == d.initialised && r.daemon.live == d.live && r.daemon.retired == d.retired
    ensures !d.initialised ==> r == Step(d, Ret(None, Some(NotInitialized)))
    ensures d.initialised ==> r.daemon.calls == d.calls + [RefreshAttributesOf(attribs)]
    ensures d.initialised && env.refreshAttributes(attribs).Failure? ==>
      r.result == Ret(None, Some(env.refreshAttributes(attribs).error))
    ensures d.initialised && env.refreshAttributes(attribs).Success? ==>
      && r.result.err.None?
      && r.result.value.Some?
      && SamePayload(r.result.value.value, env.refreshAttributes(attribs).value)
      && r.result.value.value.lastRefresh == env.formatRfc3339(ToUtc(now))
      && !r.result.value.value.needsRefresh
  {
    if !d.initialised then
      Step(d, Ret(None, Some(NotInitialized)))
    else
      var d' := d.(calls := d.calls + [RefreshAttributesOf(attribs)]);
      match env.refreshAttributes(attribs)
      case Failure(e) => Step(d', Ret(None, Some(e)))
      case Success(modified) =>
        var stamped := modified.(lastRefresh := env.formatRfc3339(ToUtc(now)), needsRefresh := false);
        Step(d', Ret(Some(stamped), None))
  }

  /**
   * `StartRefreshDaemon`: installs a new refresher, then applies the max-age
   * and the cron settings in that order, discarding both errors.
   */
  function StartRefreshDaemon(env: Env, d: Daemon, maxAge: string, refreshCronTime: string): (d': Daemon)
    ensures d'.initialised
    ensures d'.calls == d.calls + [EnsureMaxAgeUpToDate(maxAge)]
    ensures UpdateRefreshCronTime(env, d.(initialised := true), refreshCronTime).result.Some? ==>
      d'.live == d.live && d'.retired == d.retired
  {
    var withRef := d.(initialised := true);
    var afterMaxAge := UpdateRefreshMaxAge(withRef, maxAge).daemon;
    UpdateRefreshCronTime(env, afterMaxAge, refreshCronTime).daemon
  }

  /**
   * A tick of the cron machinery for schedule `s`: the job runs once when
   * `s` is one the live runner fires on. Retired runners are stopped and
   * never fire.
   */
  function Tick(d: Daemon, s: Schedule): (d': Daemon)
    ensures d'.live == d.live && d'.retired == d.retired && d'.initialised == d.initialised
    ensures s !in FiringSchedules(d.live) ==> d' == d
  {
    if s in FiringSchedules(d.live) then RefreshAllForCron(d) else d
  }

  /** The operations a caller can apply to the package. */
  datatype Op =
    | StartDaemon(maxAge: string, refreshCronTime: string)
    | SetCron(refreshCronTime: string)
    | SetMaxAge(maxAge: string)
    | CronJob
    | RefreshOne(attribs: UserAttribute, now: Instant)
    | Fire(schedule: Schedule)

  /** The next state after one operation. */
  function Apply(env: Env, d: Daemon, op: Op): Daemon
  {
    match op
    case StartDaemon(maxAge, cron) => StartRefreshDaemon(env, d, maxAge, cron)
    case SetCron(cron) => UpdateRefreshCronTime(env, d, cron).daemon
    case SetMaxAge(maxAge) => UpdateRefreshMaxAge(d, maxAge).daemon
    case CronJob => RefreshAllForCron(d)
    case RefreshOne(attribs, now) => RefreshAttributes(env, d, attribs, now).daemon
    case Fire(s) => Tick(d, s)
  }

  /** The state after a sequence of operations, applied left to right. */
  function Run(env: Env, d: Daemon, ops: seq<Op>): Daemon
    decreases |ops|
  {
    if ops == [] then d else Run(env, Apply(env, d, ops[0]), ops[1..])
  }

  /** Number of bulk refreshes with the given `force` flag in a request log. */
  function CountRefreshAll(calls: seq<Call>, force: bool): (n: nat)
    ensures n <= |calls|
  {
    if calls == [] then 0
    else CountRefreshAll(calls[..|calls| - 1], force)
         + (if calls[|calls| - 1] == RefreshAll(force) then 1 else 0)
  }
}
