/**
 * A minimal model of the cron runner (`cron.Cron` of the robfig/cron library)
 * as the refresh daemon uses it: a runner is created empty and stopped,
 * schedules are added to it, and it is started or stopped as a whole.
 * The cron grammar itself is not modelled; a parsed schedule is opaque.
 */
module Cron {

  /** A parsed cron schedule (the library's `cron.Schedule`); its contents are opaque. */
  type Schedule(==)

  /**
   * One cron runner. `generation` numbers the runners in the order they were
   * created, `entries` are the schedules registered on it (every one runs the
   * same job, the daemon's bulk refresh), `running` tells whether it fires.
   */
  datatype Runner = Runner(generation: nat, entries: seq<Schedule>, running: bool)

  /** `cron.New()`: a fresh runner with no entries that is not running. */
  function New(generation: nat): (c: Runner)
    ensures c.generation == generation && c.entries == [] && !c.running
  {
    Runner(generation, [], false)
  }

  /** `c.Schedule(s, job)`: registers one more entry; the running state is kept. */
  function AddSchedule(c: Runner, s: Schedule): (c': Runner)
    ensures c'.entries == c.entries + [s]
    ensures c'.generation == c.generation && c'.running == c.running
  {
    c.(entries := c.entries + [s])
  }

  /** `c.Start()`: the runner fires its entries from now on. */
  function Start(c: Runner): (c': Runner)
    ensures c'.running && c'.entries == c.entries && c'.generation == c.generation
  {
    c.(running := true)
  }

  /** `c.Stop()`: the runner no longer fires; stopping a stopped runner does nothing. */
  function Stop(c: Runner): (c': Runner)
    ensures !c'.running && c'.entries == c.entries && c'.generation == c.generation
  {
    c.(running := false)
  }

  /** A runner is armed when it is running and has something to fire. */
  predicate Armed(c: Runner)
  {
    c.running && |c.entries| > 0
  }

  /** The schedules on which a runner will actually fire the refresh job. */
  function FiringSchedules(c: Runner): (s: set<Schedule>)
    ensures !c.running ==> s == {}
  {
    if c.running then set i | 0 <= i < |c.entries| :: c.entries[i] else {}
  }

  /** Number of armed runners in a sequence of runners. */
  function ArmedCount(cs: seq<Runner>): (n: nat)
    ensures n <= |cs|
  {
    if cs == [] then 0
    else ArmedCount(cs[..|cs| - 1]) + (if Armed(cs[|cs| - 1]) then 1 else 0)
  }

  /** Counting armed runners distributes over concatenation. */
  lemma {:induction false} ArmedCountAppend(a: seq<Runner>, b: seq<Runner>)
    ensures ArmedCount(a + b) == ArmedCount(a) + ArmedCount(b)
    decreases |b|
  {
    if b == [] {
      assert a + b == a;
    } else {
      var b0 := b[..|b| - 1];
      assert (a + b)[..|a + b| - 1] == a + b0;
      ArmedCountAppend(a, b0);
    }
  }

  /** A sequence of stopped runners holds no armed runner. */
  lemma {:induction false} StoppedRunnersNotArmed(cs: seq<Runner>)
    requires forall i :: 0 <= i < |cs| ==> !cs[i].running
    ensures ArmedCount(cs) == 0
    decreases |cs|
  {
    if cs != [] {
      StoppedRunnersNotArmed(cs[..|cs| - 1]);
    }
  }
}
