/**
 * Properties of the refresh daemon model: the single-trigger invariant,
 * what a failed or successful reconfiguration does to the trigger, and how
 * the daemon delegates to its refresher.
 */
module RefreshProperties {
  import opened Wrappers
  import opened Cron
  import opened Attributes
  import opened Errors
  import opened ProviderRefresh

  /** `ParseCron` follows Go's convention: never a schedule and an error together, and nil for both only on the empty setting. */
  lemma ParseCronResultShape(env: Env, setting: string)
    ensures var r := ParseCron(env, setting);
      && !(r.value.Some? && r.err.Some?)
      && (r.value.None? && r.err.None? <==> setting == "")
  {
  }

  /** Every transition keeps the state `Valid`. */
  lemma ApplyPreservesValid(env: Env, d: Daemon, op: Op)
    requires Valid(d)
    ensures Valid(Apply(env, d, op))
  {
  }

  /** Any sequence of operations from a valid state ends in a valid state. */
  lemma {:induction false} RunPreservesValid(env: Env, d: Daemon, ops: seq<Op>)
    requires Valid(d)
    ensures Valid(Run(env, d, ops))
    decreases |ops|
  {
    if ops != [] {
      ApplyPreservesValid(env, d, ops[0]);
      RunPreservesValid(env, Apply(env, d, ops[0]), ops[1..]);
    }
  }

  /** The package's initial state is valid. */
  lemma BootIsValid()
    ensures Valid(Boot())
  {
  }

  /**
   * In a valid state at most one runner ever installed is armed, and it is
   * the live one: every replaced runner was stopped.
   */
  lemma AtMostOneArmed(d: Daemon)
    requires Valid(d)
    ensures ArmedCount(Runners(d)) == (if Armed(d.live) then 1 else 0)
    ensures ArmedCount(Runners(d)) <= 1
  {
    ArmedCountAppend(d.retired, [d.live]);
    StoppedRunnersNotArmed(d.retired);
    assert [d.live][..0] == [];
  }

  /** Whatever operations run after boot, no two runners are ever armed together. */
  lemma NeverTwoTriggers(env: Env, ops: seq<Op>)
    ensures ArmedCount(Runners(Run(env, Boot(), ops))) <= 1
  {
    BootIsValid();
    RunPreservesValid(env, Boot(), ops);
    AtMostOneArmed(Run(env, Boot(), ops));
  }

  /**
   * A failed `UpdateRefreshCronTime` (uninitialised, empty or unparsable
   * setting) leaves the daemon exactly as it was: the previous runner is
   * still installed, still armed if it was, and fires on the same schedules.
   */
  lemma FailedCronUpdateKeepsTrigger(env: Env, d: Daemon, refreshCronTime: string)
    requires UpdateRefreshCronTime(env, d, refreshCronTime).result.Some?
    ensures var d' := UpdateRefreshCronTime(env, d, refreshCronTime).daemon;
      && d'.live == d.live
      && d'.retired == d.retired
      && (Armed(d'.live) <==> Armed(d.live))
      && FiringSchedules(d'.live) == FiringSchedules(d.live)
      && forall s :: Tick(d', s) == Tick(d, s)
  {
  }

  /**
   * A successful `UpdateRefreshCronTime` stops the previous runner and
   * installs one newer runner armed with exactly the parsed schedule; it is
   * then the only armed runner. The empty setting is refused before parsing,
   * so a success never installs an unarmed runner.
   */
  lemma SuccessfulCronUpdateArmsOne(env: Env, d: Daemon, refreshCronTime: string)
    requires Valid(d)
    requires UpdateRefreshCronTime(env, d, refreshCronTime).result.None?
    ensures var d' := UpdateRefreshCronTime(env, d, refreshCronTime).daemon;
      && ParseCron(env, refreshCronTime).value.Some?
      && Armed(d'.live)
      && FiringSchedules(d'.live) == {ParseCron(env, refreshCronTime).value.value}
      && !d'.retired[|d'.retired| - 1].running
      && d'.retired[|d'.retired| - 1].generation == d.live.generation
      && d'.live.generation > d.live.generation
      && ArmedCount(Runners(d')) == 1
  {
    var d' := UpdateRefreshCronTime(env, d, refreshCronTime).daemon;
    assert Valid(d');
    AtMostOneArmed(d');
    var s := env.parseStandard(refreshCronTime).value;
    assert d'.live.entries == [s];
    assert FiringSchedules(d'.live) == {s} by {
      assert d'.live.entries[0] == s;
    }
  }

  /** `UpdateRefreshMaxAge` delegates at most once and never touches the trigger. */
  lemma MaxAgeUpdateKeepsTrigger(d: Daemon, maxAge: string)
    ensures var d' := UpdateRefreshMaxAge(d, maxAge).daemon;
      && Runners(d') == Runners(d)
      && FiringSchedules(d'.live) == FiringSchedules(d.live)
      && d'.calls == d.calls + (if d.initialised then [EnsureMaxAgeUpToDate(maxAge)] else [])
  {
  }

  /**
   * `RefreshAllForCron` asks for exactly one unforced bulk refresh when the
   * daemon is initialised, none otherwise, and never a forced one.
   */
  lemma CronJobRefreshesOnce(d: Daemon)
    ensures var d' := RefreshAllForCron(d);
      && CountRefreshAll(d'.calls, false) == CountRefreshAll(d.calls, false) + (if d.initialised then 1 else 0)
      && CountRefreshAll(d'.calls, true) == CountRefreshAll(d.calls, true)
  {
  }

  /** A tick runs one bulk refresh iff the daemon is initialised and the live runner fires on that schedule. */
  lemma TickRefreshesIffArmed(d: Daemon, s: Schedule)
    ensures CountRefreshAll(Tick(d, s).calls, false) == CountRefreshAll(d.calls, false) + 1
      <==> d.initialised && s in FiringSchedules(d.live)
  {
  }

  /**
   * `RefreshAttributes` follows Go's convention: it returns a record exactly
   * when it returns no error, and a returned record is never stale.
   */
  lemma RefreshAttributesResultShape(env: Env, d: Daemon, attribs: UserAttribute, now: Instant)
    ensures var r := RefreshAttributes(env, d, attribs, now).result;
      && (r.value.Some? <==> r.err.None?)
      && (r.value.Some? ==> !r.value.value.needsRefresh)
      && (r.value.Some? <==> d.initialised && env.refreshAttributes(attribs).Success?)
  {
  }

  /**
   * Before `StartRefreshDaemon`, every exported operation is refused or does
   * nothing, and the state is unchanged.
   */
  lemma UninitialisedRefusesAll(env: Env, d: Daemon, setting: string, attribs: UserAttribute, now: Instant)
    requires !d.initialised
    ensures UpdateRefreshCronTime(env, d, setting) == Step(d, Some(CronTimeNotProvided))
    ensures UpdateRefreshMaxAge(d, setting) == Step(d, Some(MaxAgeNotProvided))
    ensures RefreshAllForCron(d) == d
    ensures RefreshAttributes(env, d, attribs, now) == Step(d, Ret(None, Some(NotInitialized)))
  {
  }

  /**
   * `StartRefreshDaemon` discards the error of its cron update: with a bad
   * cron setting the daemon still becomes initialised, keeps the runner it
   * had, and the max-age setting has been applied; with a good one it ends
   * with exactly one armed runner firing on that schedule.
   */
  lemma StartIgnoresCronErrors(env: Env, d: Daemon, maxAge: string, refreshCronTime: string)
    requires Valid(d)
    ensures var d' := StartRefreshDaemon(env, d, maxAge, refreshCronTime);
      && d'.initialised
      && d'.calls == d.calls + [EnsureMaxAgeUpToDate(maxAge)]
      && (refreshCronTime == "" || env.parseStandard(refreshCronTime).Failure? ==> Runners(d') == Runners(d))
      && (refreshCronTime != "" && env.parseStandard(refreshCronTime).Success? ==>
            && ArmedCount(Runners(d')) == 1
            && FiringSchedules(d'.live) == {env.parseStandard(refreshCronTime).value})
  {
    var afterMaxAge := UpdateRefreshMaxAge(d.(initialised := true), maxAge).daemon;
    assert Valid(afterMaxAge);
    if refreshCronTime != "" && env.parseStandard(refreshCronTime).Success? {
      SuccessfulCronUpdateArmsOne(env, afterMaxAge, refreshCronTime);
    }
  }

  /** Operations only ever add to the history: replaced runners and refresher requests are never forgotten. */
  lemma {:induction false} RunExtendsHistory(env: Env, d: Daemon, ops: seq<Op>)
    ensures var d' := Run(env, d, ops);
      && |d.retired| <= |d'.retired| && d'.retired[..|d.retired|] == d.retired
      && |d.calls| <= |d'.calls| && d'.calls[..|d.calls|] == d.calls
    decreases |ops|
  {
    if ops != [] {
      var d1 := Apply(env, d, ops[0]);
      assert |d.retired| <= |d1.retired| && d1.retired[..|d.retired|] == d.retired;
      assert |d.calls| <= |d1.calls| && d1.calls[..|d.calls|] == d.calls;
      RunExtendsHistory(env, d1, ops[1..]);
    }
  }

  /**
   * The errors the daemon returns render as the texts Go prints: fixed
   * messages for the refusals, and the wrapped parser reason on a parse failure.
   */
  lemma ErrorMessages(env: Env, d: Daemon, setting: string, attribs: UserAttribute, now: Instant)
    ensures !d.initialised ==>
      && Message(UpdateRefreshCronTime(env, d, setting).result.value) == "refresh cron time must be provided"
      && Message(UpdateRefreshMaxAge(d, setting).result.value) == "refresh max age must be provided"
      && Message(RefreshAttributes(env, d, attribs, now).result.err.value) == "refresh daemon not yet initialized"
    ensures d.initialised && setting != "" && env.parseStandard(setting).Failure? ==>
      Message(UpdateRefreshCronTime(env, d, setting).result.value)
        == "parsing error: " + ("error parsing auth refresh cron: " + env.parseStandard(setting).error)
    ensures ParseMaxAge(env, setting).err.Some? ==>
      Message(ParseMaxAge(env, setting).err.value)
        == "error parsing auth refresh max age: " + env.parseDuration(setting + "s").error
  {
  }
}
