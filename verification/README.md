# Provider-refresh daemon, modelled in Dafny

This project models the control logic of Rancher's user-attribute refresh
daemon (`pkg/auth/providerrefresh/daemon.go`). The daemon re-fetches cached
user attributes, such as group memberships and provider claims, from the
identity providers. It does this on a cron schedule and on demand for a
single record.

The Go package keeps two package-level variables. `ref` is the refresher and
stays nil until `StartRefreshDaemon` runs. `c` is the single live cron runner.
The model keeps both in an immutable record, `ProviderRefresh.Daemon`:

- `initialised` is true once `ref` is set;
- `live` is the runner `c` holds now;
- `retired` lists, oldest first, every runner that `c` held before, each in the state `Stop` left it in;
- `calls` logs the requests made of the refresher: `ensureMaxAgeUpToDate`, `refreshAll` and `refreshAttributes`.

Every exported function becomes a pure transition. It returns the next state
and Go's result. Go's `(value, error)` pairs are written `Ret(value, err)`.

Collaborators outside the file are fields of `ProviderRefresh.Env`. Three
are total functions that either succeed or fail:

- `cron.ParseStandard`;
- `time.ParseDuration`;
- the refresher's own `refreshAttributes`.

The fourth, RFC 3339 formatting, is a total function from an instant to a
string that cannot fail.

The clock reading `now` is a parameter. The cron library's runner is reduced
to the few operations the daemon uses (`Cron` module): `New`, `Schedule`,
`Start` and `Stop`. A parsed schedule is an opaque type.

The main properties:

- **Single trigger.** Runners are numbered in creation order, and every replaced runner was stopped. So at most one runner is ever armed, after any sequence of operations from boot, for operations run one at a time (concurrency is left out, see below).
- **Failed cron update.** Nothing changes. The previous runner stays installed and armed, and it fires on the same schedules.
- **Successful cron update.** The previous runner is stopped and retired. One newer runner is installed, armed with exactly the parsed schedule. Because the empty setting is refused before parsing, a successful update always arms a runner.
- **Refreshing one record.** Before initialisation it is refused. A refresher error is passed through with no record. A success returns the refresher's record, stamped with the UTC time and no longer marked as needing a refresh; its payload is untouched.

Three behaviours of the code are easy to miss, and the model keeps them as written:

- `ParseCron` maps the empty setting to no schedule (daemon.go:104-106), but `UpdateRefreshCronTime` refuses the empty setting before parsing (daemon.go:40). So the branch that installs an unarmed runner (daemon.go:52) cannot be reached through it.
- `StartRefreshDaemon` discards the errors of both updates (daemon.go:34-35).
- Called before initialisation, the operations fail with three different errors (daemon.go:41, 62, 80): "refresh cron time must be provided", "refresh max age must be provided" and "refresh daemon not yet initialized". `RefreshAllForCron` returns silently instead (daemon.go:70-72).

## Model

| member | source | states |
|---|---|---|
| ProviderRefresh.Boot | pkg/auth/providerrefresh/daemon.go:17-20 | the package starts with `ref` unset and a fresh, unarmed runner with no entries, no history and no requests |
| ProviderRefresh.ParseCron | pkg/auth/providerrefresh/daemon.go:103-112 | an empty setting gives no schedule and no error; otherwise a parser failure gives no schedule and a wrapped syntax error, and a parser success gives the parser's schedule unchanged |
| ProviderRefresh.ParseMaxAge | pkg/auth/providerrefresh/daemon.go:94-101 | the setting, suffixed with the unit "s", goes to the duration parser; success returns its duration, failure returns zero and a wrapped max-age syntax error |
| ProviderRefresh.UpdateRefreshCronTime | pkg/auth/providerrefresh/daemon.go:39-58 | succeeds iff initialised, the setting is non-empty and it parses; when uninitialised or empty, and on a parse failure, the state is unchanged and the matching error is returned; on success the old runner is retired stopped and a newer running runner holds exactly the parsed schedule; the refresher is never called |
| ProviderRefresh.UpdateRefreshMaxAge | pkg/auth/providerrefresh/daemon.go:60-67 | errors iff uninitialised; otherwise hands the setting to the refresher exactly once and returns nil; the runners are unchanged either way |
| ProviderRefresh.RefreshAllForCron | pkg/auth/providerrefresh/daemon.go:69-76 | no-op when uninitialised; otherwise exactly one unforced bulk refresh request is appended, runners unchanged |
| ProviderRefresh.RefreshAttributes | pkg/auth/providerrefresh/daemon.go:78-92 | uninitialised: not-initialised error, no record, state unchanged; refresher error: that error unchanged, no record; success: the refresher's record with the same payload, `LastRefresh` set to the formatted UTC `now` and `NeedsRefresh` cleared |
| ProviderRefresh.StartRefreshDaemon | pkg/auth/providerrefresh/daemon.go:22-37 | afterwards the daemon is initialised and the max-age setting was delegated once; a cron-update error is swallowed and leaves the runners as they were |
| ProviderRefresh.Tick | pkg/auth/providerrefresh/daemon.go:52-55 | a cron firing runs the job only for a schedule the live runner fires on; otherwise nothing changes |
| RefreshProperties.ParseCronResultShape | pkg/auth/providerrefresh/daemon.go:103-112 | `ParseCron` never returns both a schedule and an error, and returns neither exactly for the empty setting |
| RefreshProperties.BootIsValid | pkg/auth/providerrefresh/daemon.go:17-20 | the initial package state satisfies the daemon invariant |
| RefreshProperties.ApplyPreservesValid | pkg/auth/providerrefresh/daemon.go:22-92 | every exported operation and every cron firing preserves the invariant: retired runners stopped and numbered in order, one entry at most per runner, live runner running exactly when it has its entry, nothing scheduled before initialisation |
| RefreshProperties.RunPreservesValid | pkg/auth/providerrefresh/daemon.go:22-92 | any sequence of operations from a valid state ends in a valid state |
| RefreshProperties.AtMostOneArmed | pkg/auth/providerrefresh/daemon.go:49-56 | in a valid state the number of armed runners ever installed is one if the live runner is armed and zero otherwise |
| RefreshProperties.NeverTwoTriggers | pkg/auth/providerrefresh/daemon.go:17-58 | after any sequence of operations from boot, at most one runner is armed |
| RefreshProperties.FailedCronUpdateKeepsTrigger | pkg/auth/providerrefresh/daemon.go:39-47 | a failed cron update keeps the previous runner installed, armed if it was, firing on the same schedules, and every later tick behaves as before |
| RefreshProperties.SuccessfulCronUpdateArmsOne | pkg/auth/providerrefresh/daemon.go:39-58 | a successful cron update always has a schedule from `ParseCron`; afterwards the new runner is armed with exactly that schedule, the replaced runner is stopped, generations increase, and exactly one runner is armed |
| RefreshProperties.MaxAgeUpdateKeepsTrigger | pkg/auth/providerrefresh/daemon.go:60-67 | a max-age update leaves every runner and the firing schedules untouched and makes one refresher request iff initialised |
| RefreshProperties.CronJobRefreshesOnce | pkg/auth/providerrefresh/daemon.go:69-76 | the cron job adds exactly one unforced bulk refresh when initialised, none otherwise, and never a forced one |
| RefreshProperties.TickRefreshesIffArmed | pkg/auth/providerrefresh/daemon.go:52-55 | a tick adds one bulk refresh iff the daemon is initialised and the live runner fires on that schedule |
| RefreshProperties.RefreshAttributesResultShape | pkg/auth/providerrefresh/daemon.go:78-92 | a record is returned exactly when no error is, exactly when the daemon is initialised and the refresher succeeds, and a returned record never needs a refresh |
| RefreshProperties.UninitialisedRefusesAll | pkg/auth/providerrefresh/daemon.go:39-92 | before initialisation both updates and the single refresh return their errors and the cron job does nothing, all leaving the state unchanged |
| RefreshProperties.StartIgnoresCronErrors | pkg/auth/providerrefresh/daemon.go:22-37 | start always initialises and delegates the max age; with an empty or bad cron setting the runners are unchanged; with a good one exactly one runner is armed, firing on the parsed schedule |
| RefreshProperties.ErrorMessages | pkg/auth/providerrefresh/daemon.go:39-112 | the errors returned render as the Go texts: the two refusals and the not-initialised error have their fixed messages, a cron parse failure reads "parsing error: error parsing auth refresh cron: " followed by the parser's reason, and a max-age parse failure reads "error parsing auth refresh max age: " followed by the parser's reason |
| RefreshProperties.RunExtendsHistory | pkg/auth/providerrefresh/daemon.go:39-92 | operations only append to the list of replaced runners and to the refresher request log |

## Left out

- The construction of listers, clients and the token manager in `StartRefreshDaemon` (Kubernetes controller wiring): modelled only as "the refresher is now set".
- The cron grammar (`cron.ParseStandard`) and `time.ParseDuration`: foreign library code, modelled as arbitrary total functions, so the model says nothing about which strings are accepted.
- The internals of `refreshAll`, `refreshAttributes` and `ensureMaxAgeUpToDate` are not part of this model. They are recorded as requests in `calls`, and `refreshAttributes` is a function of the record alone. So staleness decisions, max-age bookkeeping and per-record writes are not modelled.
- Goroutine firing of cron jobs and the missing locking around `c` and `ref`: concurrency is not modelled. A firing is the synchronous `Tick`. Two concurrent `UpdateRefreshCronTime` calls can each start a new runner (daemon.go:49-55), so the single-trigger property holds only for operations run one at a time.
- The settings store: `StartRefreshDaemon` reads the cron and max-age settings itself (daemon.go:23-24); the model takes them as the parameters `maxAge` and `refreshCronTime`.
- Logging (`logrus`) is left out because it has no effect on state. The wall clock is the parameter `now`, and RFC 3339 formatting is an opaque function.
- Nil pointers: a nil `attribs`, and a refresher that returns a nil record with a nil error, both panic in Go. Records are never nil in the model.
- Aliasing: Go stamps the record object the refresher returned, and that object may be the caller's own. The model returns a new value.
- Re-running `StartRefreshDaemon` replaces `ref` with a new refresher. The model keeps one request log across restarts.
