/**
 * The user-attribute record the refresh daemon rewrites, and the wall-clock
 * instant it stamps on it.
 */
module Attributes {

  /**
   * A cached user-attribute record (`v3.UserAttribute`). The daemon only
   * writes `lastRefresh` and `needsRefresh`; the provider-derived payload
   * (group principals and extra claims per provider) is carried unchanged.
   */
  datatype UserAttribute = UserAttribute(
    name: string,
    userName: string,
    groupPrincipals: map<string, seq<string>>,
    extraByProvider: map<string, map<string, seq<string>>>,
    lastRefresh: string,
    needsRefresh: bool)

  /** Two records agree on everything except the refresh bookkeeping. */
  predicate SamePayload(a: UserAttribute, b: UserAttribute)
  {
    && a.name == b.name
    && a.userName == b.userName
    && a.groupPrincipals == b.groupPrincipals
    && a.extraByProvider == b.extraByProvider
  }

  /**
   * A point in time (`time.Time`): seconds and nanoseconds since the Unix
   * epoch, plus the offset of the location it is presented in.
   */
  datatype Instant = Instant(unixSeconds: int, nanos: nat, offsetSeconds: int)

  /** `t.UTC()`: the same instant, presented in UTC. */
  function ToUtc(t: Instant): (u: Instant)
    ensures u.offsetSeconds == 0
    ensures u.unixSeconds == t.unixSeconds && u.nanos == t.nanos
  {
    t.(offsetSeconds := 0)
  }
}
