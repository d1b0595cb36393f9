/** app/policies/service.py: the monthly token account and the per-minute rate limit of model calls. */
module Policies {
  import opened Values

  // ---- Calendar time -----------------------------------------------------------------------

  type Month = m: int | 1 <= m <= 12 witness 1

  /** A point in UTC time: `rest` counts the microseconds since the month began. */
  datatype Instant = Instant(year: nat, month: Month, rest: nat)

  function MonthIndex(t: Instant): nat { t.year * 12 + t.month - 1 }

  /** Comparison of timestamps, field by field. */
  predicate AtOrBefore(a: Instant, b: Instant) {
    || a.year < b.year
    || (a.year == b.year && (a.month < b.month || (a.month == b.month && a.rest <= b.rest)))
  }

  function NextReset(now: Instant): Instant {
    if now.month == 12 then Instant(now.year + 1, 1, 0) else Instant(now.year, now.month + 1, 0)
  }

  /** The account is reset in the first later month in which it is looked at, and once in each. */
  lemma ResetOncePerMonth(now: Instant, t: Instant)
    ensures AtOrBefore(NextReset(now), t) <==> MonthIndex(now) < MonthIndex(t)
  {
    if now.year < t.year { assert t.year * 12 >= (now.year + 1) * 12; }
    if t.year < now.year { assert now.year * 12 >= (t.year + 1) * 12; }
  }

  // ---- Token usage of a response -----------------------------------------------------------

  /** A usage record: provider fields that may be missing. */
  datatype Usage = Usage(input: Option<int>, output: Option<int>, total: Option<int>)

  /** The two places where a message carries its usage. */
  datatype Message = Message(usage: Usage, metadata: Usage)

  /** `a or b or 0` */
  function Pick(a: Option<int>, b: Option<int>): int {
    if a.Some? && a.value != 0 then a.value else if b.Some? then b.value else 0
  }

  datatype Tokens = Tokens(prompt: int, completion: int, total: int)

  function Sums(reply: seq<Message>): Tokens {
    if reply == [] then Tokens(0, 0, 0)
    else
      var s, m := Sums(reply[..|reply| - 1]), reply[|reply| - 1];
      Tokens(s.prompt + Pick(m.usage.input, m.metadata.input),
             s.completion + Pick(m.usage.output, m.metadata.output),
             s.total + Pick(m.usage.total, m.metadata.total))
  }

  function UsageOf(reply: seq<Message>): Tokens {
    var s := Sums(reply);
    if s.total != 0 then s else s.(total := s.prompt + s.completion)
  }

  /** `_token_usage` */
  method TokenUsage(reply: seq<Message>) returns (t: Tokens)
    ensures t == UsageOf(reply)
  {
    var prompt, completion, total := 0, 0, 0;
    for i := 0 to |reply|
      invariant Tokens(prompt, completion, total) == Sums(reply[..i])
    {
      assert reply[..i + 1][..i] == reply[..i];
      var m := reply[i];
      prompt := prompt + Pick(m.usage.input, m.metadata.input);
      completion := completion + Pick(m.usage.output, m.metadata.output);
      total := total + Pick(m.usage.total, m.metadata.total);
    }
    assert reply[..|reply|] == reply;
    t := Tokens(prompt, completion, if total != 0 then total else prompt + completion);
  }

  // ---- The account -------------------------------------------------------------------------

  datatype Account = Account(models: seq<string>, quota: int, rpmLimit: int, tokensUsed: int, resetAt: Instant)

  /** `normalize_model_allowlist` of the deployment. */
  const NormalizedModels: seq<string> -> seq<string>

  /** `get_policy`: the account as it is read, and stored, at `now`. */
  function Refreshed(p: Account, now: Instant): Account {
    var q := p.(models := NormalizedModels(p.models));
    if AtOrBefore(q.resetAt, now) then q.(tokensUsed := 0, resetAt := NextReset(now)) else q
  }

  predicate QuotaSpent(p: Account) { p.quota >= 0 && p.tokensUsed >= p.quota }

  predicate Allows(p: Account, model: string) { model in p.models && !QuotaSpent(p) }

  function Recorded(p: Account, total: int, now: Instant): Account {
    if total <= 0 then p
    else
      var q := Refreshed(p, now);
      q.(tokensUsed := q.tokensUsed + total)
  }

  /** What became of a call whose preparation was authorized. */
  datatype Course =
    | CacheHit
    | Stopped(enforced: Instant)
    | Replied(enforced: Instant, reply: seq<Message>, recorded: Instant)

  /** One call of `wrap_model_call`: stopped by the rate limit or by a failing handler, or replied. */
  datatype Call = Call(model: string, prepared: Instant, course: Course)

  /** A usage the account was charged with. */
  datatype Charge = Charge(at: Instant, tokens: int)

  function AfterCall(p: Account, c: Call): (Account, seq<Charge>) {
    var p1 := Refreshed(p, c.prepared);
    if !Allows(p1, c.model) || c.course.CacheHit? then (p1, [])
    else
      var p2 := Refreshed(p1, c.course.enforced);
      if !Allows(p2, c.model) || c.course.Stopped? then (p2, [])
      else
        var total := UsageOf(c.course.reply).total;
        (Recorded(p2, total, c.course.recorded), if total <= 0 then [] else [Charge(c.course.recorded, total)])
  }

  /** A serial run of calls, with every charge in order. */
  function Run(p: Account, calls: seq<Call>): (Account, seq<Charge>) {
    if calls == [] then (p, [])
    else
      var (q, charges) := Run(p, calls[..|calls| - 1]);
      var (r, more) := AfterCall(q, calls[|calls| - 1]);
      (r, charges + more)
  }

  /** The charges of one calendar month. */
  function MonthTotal(charges: seq<Charge>, month: nat): int {
    if charges == [] then 0
    else
      var last := charges[|charges| - 1];
      MonthTotal(charges[..|charges| - 1], month) + if MonthIndex(last.at) == month then last.tokens else 0
  }

  function Ended(c: Call): Instant {
    match c.course
    case CacheHit => c.prepared
    case Stopped(t) => t
    case Replied(_, _, t) => t
  }

  predicate InOrder(c: Call) {
    match c.course
    case CacheHit => true
    case Stopped(t) => MonthIndex(c.prepared) <= MonthIndex(t)
    case Replied(t, _, u) => MonthIndex(c.prepared) <= MonthIndex(t) <= MonthIndex(u)
  }

  function EndOf(calls: seq<Call>, from: Instant): Instant {
    if calls == [] then from else Ended(calls[|calls| - 1])
  }

  /** Calls one after the other, none in a month before `from`. */
  predicate Serial(calls: seq<Call>, from: Instant) {
    calls == [] ||
    (var front, c := calls[..|calls| - 1], calls[|calls| - 1];
     Serial(front, from) && InOrder(c) && MonthIndex(EndOf(front, from)) <= MonthIndex(c.prepared))
  }

  /** A registered account: nothing used, reset due next month. */
  predicate Registered(p: Account, at: Instant) { p.tokensUsed == 0 && p.resetAt == NextReset(at) }

  /** The account holds exactly the charges of its month, which is no earlier than any charge's. */
  ghost predicate Balanced(p: Account, charges: seq<Charge>, month: nat) {
    && p.resetAt.rest == 0 && MonthIndex(p.resetAt) == month + 1
    && p.tokensUsed == MonthTotal(charges, month)
    && forall i :: 0 <= i < |charges| ==> MonthIndex(charges[i].at) <= month && charges[i].tokens > 0
  }

  lemma {:induction false} NoChargeYet(charges: seq<Charge>, month: nat)
    requires forall i :: 0 <= i < |charges| ==> MonthIndex(charges[i].at) < month
    ensures MonthTotal(charges, month) == 0
    decreases |charges|
  {
    if charges != [] { NoChargeYet(charges[..|charges| - 1], month); }
  }

  lemma {:induction false} TotalsAreNatural(charges: seq<Charge>, month: nat)
    requires forall i :: 0 <= i < |charges| ==> charges[i].tokens > 0
    ensures MonthTotal(charges, month) >= 0
    decreases |charges|
  {
    if charges != [] { TotalsAreNatural(charges[..|charges| - 1], month); }
  }

  function Later(a: nat, b: nat): nat { if a < b then b else a }

  lemma RefreshKeepsBalance(p: Account, charges: seq<Charge>, month: nat, now: Instant)
    requires Balanced(p, charges, month)
    ensures Balanced(Refreshed(p, now), charges, Later(month, MonthIndex(now)))
    ensures Refreshed(p, now).quota == p.quota
  {
    DueIff(p.resetAt, now);
    if MonthIndex(now) > month { NoChargeYet(charges, MonthIndex(now)); }
  }

  /** A reset time at the start of a month is due from that month on. */
  lemma DueIff(reset: Instant, now: Instant)
    requires reset.rest == 0
    ensures AtOrBefore(reset, now) <==> MonthIndex(reset) <= MonthIndex(now)
  {
    if now.year < reset.year { assert reset.year * 12 >= (now.year + 1) * 12; }
    if reset.year < now.year { assert now.year * 12 >= (reset.year + 1) * 12; }
  }

  lemma ChargeKeepsBalance(p: Account, charges: seq<Charge>, month: nat, total: int, now: Instant)
    requires Balanced(p, charges, month) && month <= MonthIndex(now) && total > 0
    ensures Balanced(Recorded(p, total, now), charges + [Charge(now, total)], MonthIndex(now))
    ensures Recorded(p, total, now).quota == p.quota
  {
    RefreshKeepsBalance(p, charges, month, now);
    assert (charges + [Charge(now, total)])[..|charges|] == charges;
  }

  /** Every charge found its month's total below the quota. */
  predicate EachWithinQuota(charges: seq<Charge>, quota: int) {
    forall i | 0 <= i < |charges| :: MonthTotal(charges[..i], MonthIndex(charges[i].at)) < quota
  }

  /** One call keeps the balance, and only charges an account below its quota. */
  lemma CallKeepsBalance(p: Account, charges: seq<Charge>, month: nat, c: Call)
    requires Balanced(p, charges, month) && InOrder(c) && month <= MonthIndex(c.prepared)
    ensures var (q, more) := AfterCall(p, c);
      q.quota == p.quota && exists m :: month <= m <= MonthIndex(Ended(c)) && Balanced(q, charges + more, m)
    ensures var (q, more) := AfterCall(p, c);
      p.quota >= 0 && EachWithinQuota(charges, p.quota) ==> EachWithinQuota(charges + more, p.quota)
  {
    var p1 := Refreshed(p, c.prepared);
    var m1 := MonthIndex(c.prepared);
    RefreshKeepsBalance(p, charges, month, c.prepared);
    assert charges + [] == charges;
    if Allows(p1, c.model) && !c.course.CacheHit? {
      var p2 := Refreshed(p1, c.course.enforced);
      var m2 := MonthIndex(c.course.enforced);
      RefreshKeepsBalance(p1, charges, m1, c.course.enforced);
      if Allows(p2, c.model) && c.course.Replied? {
        var total, t := UsageOf(c.course.reply).total, c.course.recorded;
        if total > 0 {
          ChargeKeepsBalance(p2, charges, m2, total, t);
          if p.quota >= 0 && EachWithinQuota(charges, p.quota) { ChargeWithinQuota(p2, charges, m2, total, t); }
        }
      }
    }
  }

  lemma ChargeWithinQuota(p: Account, charges: seq<Charge>, month: nat, total: int, now: Instant)
    requires Balanced(p, charges, month) && month <= MonthIndex(now)
    requires p.quota >= 0 && !QuotaSpent(p) && EachWithinQuota(charges, p.quota)
    ensures EachWithinQuota(charges + [Charge(now, total)], p.quota)
  {
    var all := charges + [Charge(now, total)];
    TotalsAreNatural(charges, month);
    if month < MonthIndex(now) { NoChargeYet(charges, MonthIndex(now)); }
    forall i | 0 <= i < |all| ensures MonthTotal(all[..i], MonthIndex(all[i].at)) < p.quota {
      assert all[..i] == charges[..i];
      if i == |charges| { assert charges[..i] == charges; }
    }
  }

  /** Over any serial run of a registered account: it holds exactly the charges of its month, and every
      charge found its month below the quota. */
  lemma {:induction false} AccountIsMonthTotal(p: Account, at: Instant, calls: seq<Call>) returns (month: nat)
    requires Registered(p, at) && Serial(calls, at)
    ensures var (q, charges) := Run(p, calls);
      && Balanced(q, charges, month) && q.quota == p.quota
      && month <= MonthIndex(EndOf(calls, at))
    ensures p.quota >= 0 ==> EachWithinQuota(Run(p, calls).1, p.quota)
    decreases |calls|
  {
    if calls == [] {
      ResetOncePerMonth(at, NextReset(at));
      month := MonthIndex(at);
    } else {
      var front, c := calls[..|calls| - 1], calls[|calls| - 1];
      var before := AccountIsMonthTotal(p, at, front);
      var (q, charges) := Run(p, front);
      CallKeepsBalance(q, charges, before, c);
      var (r, more) := AfterCall(q, c);
      month :| before <= month <= MonthIndex(Ended(c)) && Balanced(r, charges + more, month);
    }
  }

  lemma {:induction false} LastChargeOfMonth(charges: seq<Charge>, quota: int, month: nat)
    requires EachWithinQuota(charges, quota) && MonthTotal(charges, month) != 0
    ensures exists i | 0 <= i < |charges| ::
      MonthIndex(charges[i].at) == month && MonthTotal(charges, month) - charges[i].tokens < quota
    decreases |charges|
  {
    var n := |charges| - 1;
    var front := charges[..n];
    if MonthIndex(charges[n].at) != month {
      forall i | 0 <= i < n ensures MonthTotal(front[..i], MonthIndex(front[i].at)) < quota {
        assert front[..i] == charges[..i] && front[i] == charges[i];
      }
      LastChargeOfMonth(front, quota, month);
      var i :| 0 <= i < n && MonthIndex(front[i].at) == month && MonthTotal(front, month) - front[i].tokens < quota;
      assert front[i] == charges[i];
    }
  }

  /** So in no month do the charges of a serial run pass the quota by as much as one call's usage. */
  lemma OvershootBelowOneCall(p: Account, at: Instant, calls: seq<Call>, month: nat)
    requires Registered(p, at) && Serial(calls, at) && p.quota >= 0
    ensures var charges := Run(p, calls).1;
      MonthTotal(charges, month) == 0 ||
      exists i | 0 <= i < |charges| ::
        MonthIndex(charges[i].at) == month && MonthTotal(charges, month) - charges[i].tokens < p.quota
  {
    var now := AccountIsMonthTotal(p, at, calls);
    if MonthTotal(Run(p, calls).1, month) != 0 { LastChargeOfMonth(Run(p, calls).1, p.quota, month); }
  }

  lemma BalancedSpentIff(q: Account, charges: seq<Charge>, month: nat, now: Instant)
    requires Balanced(q, charges, month) && month <= MonthIndex(now)
    ensures QuotaSpent(Refreshed(q, now)) <==> q.quota >= 0 && MonthTotal(charges, MonthIndex(now)) >= q.quota
  {
    RefreshKeepsBalance(q, charges, month, now);
  }

  /** So after any serial run a call finds the quota spent exactly when the charges of the calendar month
      it is made in reach the quota. */
  lemma QuotaSpentIff(p: Account, at: Instant, calls: seq<Call>, now: Instant)
    requires Registered(p, at) && Serial(calls, at)
    requires MonthIndex(EndOf(calls, at)) <= MonthIndex(now)
    ensures QuotaSpent(Refreshed(Run(p, calls).0, now))
      <==> p.quota >= 0 && MonthTotal(Run(p, calls).1, MonthIndex(now)) >= p.quota
  {
    var month := AccountIsMonthTotal(p, at, calls);
    BalancedSpentIff(Run(p, calls).0, Run(p, calls).1, month, now);
  }

  // ---- The rate limit ----------------------------------------------------------------------

  /** Milliseconds. */
  const MINUTE: nat := 60_000
  const COUNTER_TTL: nat := 120_000

  /** One pass through the rate limit: the clock is read, then the counter of that minute is incremented.
      `up`: the INCR succeeded. `expire`: how long after it the EXPIRE of a new counter took effect, if ever. */
  datatype Attempt = Attempt(user: string, read: nat, sent: nat, up: bool, expire: Option<nat>)

  type Key = (string, nat)

  function KeyOf(a: Attempt): Key { (a.user, a.read / MINUTE) }

  type Positive = n: int | n > 0 witness 1

  /** A Redis counter with its expiry, if one was set. */
  datatype Counter = Counter(count: Positive, expires: Option<nat>)

  type Counters = map<Key, Counter>

  predicate Live(cs: Counters, key: Key, now: nat) {
    key in cs && (cs[key].expires.None? || now < cs[key].expires.value)
  }

  function Incremented(cs: Counters, a: Attempt): Counter {
    if Live(cs, KeyOf(a), a.sent) then cs[KeyOf(a)].(count := cs[KeyOf(a)].count + 1)
    else Counter(1, if a.expire.Some? then Some(a.sent + a.expire.value + COUNTER_TTL) else None)
  }

  function AfterAttempt(cs: Counters, a: Attempt): Counters {
    if a.up then cs[KeyOf(a) := Incremented(cs, a)] else cs
  }

  /** A failing Redis command lets the call through. */
  predicate LetThrough(cs: Counters, a: Attempt, limit: int) {
    || !a.up
    || Incremented(cs, a).count <= limit
    || (Incremented(cs, a).count == 1 && a.expire.None?)
  }

  function After(run: seq<Attempt>): Counters {
    if run == [] then map[] else AfterAttempt(After(run[..|run| - 1]), run[|run| - 1])
  }

  /** The attempts of a key that reached Redis. */
  function Counted(run: seq<Attempt>, key: Key): nat {
    if run == [] then 0
    else Counted(run[..|run| - 1], key) + if run[|run| - 1].up && KeyOf(run[|run| - 1]) == key then 1 else 0
  }

  /** Those of them that were let through. */
  function Admitted(run: seq<Attempt>, limit: int, key: Key): nat {
    if run == [] then 0
    else
      var front, a := run[..|run| - 1], run[|run| - 1];
      Admitted(front, limit, key) + if a.up && KeyOf(a) == key && LetThrough(After(front), a, limit) then 1 else 0
  }

  /** Any interleaving of any callers: commands reach Redis in the order of `sent`, each at most `delay`
      after its caller read the clock. */
  predicate Timely(run: seq<Attempt>, delay: nat) {
    && (forall i | 0 <= i < |run| :: run[i].read <= run[i].sent <= run[i].read + delay)
    && (forall i, j | 0 <= i < j < |run| :: run[i].sent <= run[j].sent)
  }

  lemma PrefixTimely(run: seq<Attempt>, delay: nat)
    requires Timely(run, delay) && run != []
    ensures Timely(run[..|run| - 1], delay)
  {
    var front := run[..|run| - 1];
    assert forall i :: 0 <= i < |front| ==> front[i] == run[i];
  }

  lemma KeyWindow(a: Attempt)
    ensures KeyOf(a).1 * MINUTE <= a.read < KeyOf(a).1 * MINUTE + MINUTE
  {
  }

  /** A counter holds every attempt of its minute, and outlives the last one. */
  ghost predicate CounterExact(cs: Counters, run: seq<Attempt>, key: Key) {
    && (key in cs <==> Counted(run, key) > 0)
    && (key in cs ==> cs[key].count == Counted(run, key))
    && (key in cs && cs[key].expires.Some? ==> cs[key].expires.value >= key.1 * MINUTE + COUNTER_TTL)
  }

  lemma {:induction false} CountersAreExact(run: seq<Attempt>, delay: nat, key: Key)
    requires Timely(run, delay) && delay <= MINUTE
    ensures CounterExact(After(run), run, key)
    decreases |run|
  {
    if run != [] {
      PrefixTimely(run, delay);
      CountersAreExact(run[..|run| - 1], delay, key);
      KeyWindow(run[|run| - 1]);
    }
  }

  function Min(a: nat, b: nat): nat { if a < b then a else b }

  /** Under every timely interleaving exactly the first `limit` attempts of a minute are admitted. */
  lemma {:induction false} AdmittedExactly(run: seq<Attempt>, delay: nat, limit: nat, key: Key)
    requires Timely(run, delay) && delay <= MINUTE && limit >= 1
    ensures Admitted(run, limit, key) == Min(Counted(run, key), limit)
    decreases |run|
  {
    if run != [] {
      var front, a := run[..|run| - 1], run[|run| - 1];
      PrefixTimely(run, delay);
      AdmittedExactly(front, delay, limit, key);
      CountersAreExact(front, delay, key);
      KeyWindow(a);
    }
  }

  ghost predicate LimitHolds(limit: nat, delay: nat) {
    forall run, key | Timely(run, delay) :: Admitted(run, limit, key) <= limit
  }

  function Burst(n: nat): (run: seq<Attempt>)
    ensures |run| == n && forall i :: 0 <= i < n ==> run[i] == Attempt("u", 0, 0, true, Some(0))
  {
    seq(n, _ => Attempt("u", 0, 0, true, Some(0)))
  }

  lemma {:induction false} BurstCounted(n: nat)
    ensures Counted(Burst(n), ("u", 0)) == n
    ensures n > 0 ==> var cs := After(Burst(n)); ("u", 0) in cs && cs[("u", 0)].expires == Some(COUNTER_TTL)
  {
    if n > 0 {
      BurstCounted(n - 1);
      assert Burst(n)[..n - 1] == Burst(n - 1);
      CountersAreExact(Burst(n - 1), 0, ("u", 0));
    }
  }

  lemma AdmittedSnoc(run: seq<Attempt>, a: Attempt, limit: nat, key: Key)
    ensures Admitted(run + [a], limit, key)
      == Admitted(run, limit, key) + if a.up && KeyOf(a) == key && LetThrough(After(run), a, limit) then 1 else 0
  {
    assert (run + [a])[..|run|] == run;
  }

  /** One attempt that comes more than a minute after its clock was read exceeds the limit. */
  lemma LateAttemptExceeds(limit: nat, delay: nat)
    requires limit >= 1 && delay > MINUTE
    ensures !LimitHolds(limit, delay)
  {
    var late := Attempt("u", MINUTE - 1, COUNTER_TTL, true, Some(0));
    var burst, key := Burst(limit), ("u", 0);
    BurstCounted(limit);
    AdmittedExactly(burst, 0, limit, key);
    AdmittedSnoc(burst, late, limit, key);
    assert Timely(burst + [late], delay);
  }

  /** The limit holds over all interleavings if and only if no command lags its clock by over a minute. */
  lemma LimitHoldsIff(limit: nat, delay: nat)
    requires limit >= 1
    ensures LimitHolds(limit, delay) <==> delay <= MINUTE
  {
    if delay <= MINUTE {
      forall run, key | Timely(run, delay) ensures Admitted(run, limit, key) <= limit {
        AdmittedExactly(run, delay, limit, key);
      }
    } else {
      LateAttemptExceeds(limit, delay);
    }
  }

  // ---- The service -------------------------------------------------------------------------

  datatype Verdict = Granted | Refused

  /** The policy rows of active users and the Redis counters. */
  class PolicyService {
    var accounts: map<string, Account>
    var counters: Counters

    constructor ()
      ensures accounts == map[] && counters == map[]
    {
      accounts, counters := map[], map[];
    }

    method GetPolicy(user: string, now: Instant) returns (p: Option<Account>)
      modifies this`accounts
      ensures p == if user in old(accounts) then Some(Refreshed(old(accounts)[user], now)) else None
      ensures accounts == if p.Some? then old(accounts)[user := p.value] else old(accounts)
    {
      if user !in accounts { return None; }
      var row := accounts[user];
      row := row.(models := NormalizedModels(row.models));
      if AtOrBefore(row.resetAt, now) {
        var reset := if now.month == 12 then Instant(now.year + 1, 1, 0) else Instant(now.year, now.month + 1, 0);
        row := row.(tokensUsed := 0, resetAt := reset);
      }
      accounts := accounts[user := row];
      p := Some(row);
    }

    method AuthorizeModelAccess(user: string, model: string, now: Instant) returns (v: Verdict, p: Option<Account>)
      modifies this`accounts
      ensures p == if user in old(accounts) then Some(Refreshed(old(accounts)[user], now)) else None
      ensures accounts == if p.Some? then old(accounts)[user := p.value] else old(accounts)
      ensures v == Granted <==> p.Some? && Allows(p.value, model)
    {
      p := GetPolicy(user, now);
      if p.None? || model !in p.value.models { return Refused, p; }
      if p.value.quota >= 0 && p.value.tokensUsed >= p.value.quota { return Refused, p; }
      v := Granted;
    }

    /** The attempt's user is the caller. */
    method EnforceModel(model: string, now: Instant, a: Attempt) returns (v: Verdict)
      modifies this
      ensures accounts == if a.user in old(accounts)
        then old(accounts)[a.user := Refreshed(old(accounts)[a.user], now)] else old(accounts)
      ensures var asked := a.user in old(accounts) && Allows(Refreshed(old(accounts)[a.user], now), model);
        && counters == (if asked then AfterAttempt(old(counters), a) else old(counters))
        && (v == Granted <==> asked && LetThrough(old(counters), a, old(accounts)[a.user].rpmLimit))
    {
      var p;
      v, p := AuthorizeModelAccess(a.user, model, now);
      if v == Refused || !a.up { return; }
      var count := Incr(KeyOf(a), a.sent);
      if count == 1 {
        if a.expire.None? { return; }
        counters := counters[KeyOf(a) := counters[KeyOf(a)].(expires := Some(a.sent + a.expire.value + COUNTER_TTL))];
      }
      if count > p.value.rpmLimit { v := Refused; }
    }

    /** Redis INCR: an expired or missing counter starts at one, without an expiry. */
    method Incr(key: Key, now: nat) returns (count: nat)
      modifies this`counters
      ensures count == if Live(old(counters), key, now) then old(counters)[key].count + 1 else 1
      ensures var c := if Live(old(counters), key, now) then old(counters)[key].(count := count) else Counter(1, None);
        counters == old(counters)[key := c]
    {
      var expires := if Live(counters, key, now) then counters[key].expires else None;
      count := if Live(counters, key, now) then counters[key].count + 1 else 1;
      counters := counters[key := Counter(count, expires)];
    }

    method RecordTokenUsage(user: string, total: int, now: Instant)
      modifies this`accounts
      ensures user !in old(accounts) ==> accounts == old(accounts)
      ensures user in old(accounts) ==>
        accounts == old(accounts)[user := Recorded(old(accounts)[user], total, now)]
    {
      if total <= 0 {
        assert user in accounts ==> accounts[user := accounts[user]] == accounts;
        return;
      }
      var p := GetPolicy(user, now);
      if p.Some? { accounts := accounts[user := p.value.(tokensUsed := p.value.tokensUsed + total)]; }
    }

    /** The accounting of one `wrap_model_call`: `hit` says that an answer was cached, `reply` what the handler
        returned unless it raised. */
    method ModelCall(model: string, prepared: Instant, enforced: Instant, recorded: Instant, a: Attempt,
                     hit: bool, reply: Option<seq<Message>>)
      modifies this
      ensures a.user !in old(accounts) ==> accounts == old(accounts)
      ensures a.user in old(accounts) ==>
        var row := old(accounts)[a.user];
        var through := LetThrough(old(counters), a, row.rpmLimit);
        var c := Call(model, prepared, CourseOf(enforced, recorded, hit, reply, through));
        accounts == old(accounts)[a.user := AfterCall(row, c).0]
    {
      var v, p := AuthorizeModelAccess(a.user, model, prepared);
      if v == Refused { return; }
      if hit {
        RecordTokenUsage(a.user, 0, prepared);
        return;
      }
      v := EnforceModel(model, enforced, a);
      if v == Refused || reply.None? { return; }
      var t := TokenUsage(reply.value);
      RecordTokenUsage(a.user, t.total, recorded);
    }
  }

  /** A hit ends the call before the rate limit; a reply needs a caller let through and a handler that returns. */
  function CourseOf(enforced: Instant, recorded: Instant, hit: bool, reply: Option<seq<Message>>,
                    through: bool): Course {
    if hit then CacheHit
    else if reply.Some? && through then Replied(enforced, reply.value, recorded)
    else Stopped(enforced)
  }
}
