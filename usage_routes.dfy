/** The usage routes: statistics for a period, the quota check and the
    paginated history. The database queries are given as their results (the
    rows of `usage_logs` of the user, the `quotas` rows); the clock is given as
    the instants `new Date(...)` computes. */
module UsageRoutes {
  import opened Common
  import opened Schema
  import Sse

  /** Now, local midnight today and the first instant of this month, in ms. */
  datatype Clock = Clock(now: int, midnight: int, monthStart: int)

  const WeekMs := 7 * 24 * 60 * 60 * 1000

  /** The `period` query value, `'month'` when absent. */
  function PeriodOf(query: Option<string>): string
  {
    match query
    case Some(p) => p
    case None => "month"
  }

  /** The start of the statistics window. */
  function PeriodStart(period: string, clock: Clock): (start: int)
    ensures period == "day" ==> start == clock.midnight
    ensures period == "week" ==> start == clock.now - 604800000
    ensures period != "day" && period != "week" ==> start == clock.monthStart
  {
    if period == "day" then clock.midnight
    else if period == "week" then clock.now - WeekMs
    else clock.monthStart
  }

  /** `WHERE userId = u AND timestamp >= start`, keeping the table's order. */
  function LogsSince(logs: seq<UsageRow>, userId: string, start: int): (r: seq<UsageRow>)
    ensures |r| <= |logs|
    ensures forall i :: 0 <= i < |r| ==> r[i].userId == userId && r[i].timestamp >= start
    ensures forall i :: 0 <= i < |logs| && logs[i].userId == userId && logs[i].timestamp >= start ==> logs[i] in r
  {
    if |logs| == 0 then []
    else
      var rest := LogsSince(logs[..|logs| - 1], userId, start);
      var last := logs[|logs| - 1];
      if last.userId == userId && last.timestamp >= start then rest + [last] else rest
  }

  /** `logs.reduce((sum, log) => sum + log.totalTokens, 0)`. */
  function TotalTokens(logs: seq<UsageRow>): int
  {
    if |logs| == 0 then 0 else TotalTokens(logs[..|logs| - 1]) + logs[|logs| - 1].totalTokens
  }

  /** `logs.reduce((sum, log) => sum + Number(log.costUsd), 0)`. */
  function TotalCost(logs: seq<UsageRow>): real
  {
    if |logs| == 0 then 0.0 else TotalCost(logs[..|logs| - 1]) + logs[|logs| - 1].costUsd
  }

  datatype Totals = Totals(tokens: int, cost: real, requests: nat)

  function TotalsOf(logs: seq<UsageRow>): (t: Totals)
    ensures t.requests == |logs|
  {
    Totals(TotalTokens(logs), TotalCost(logs), |logs|)
  }

  /** The rows of one provider, in order. */
  function OfProvider(logs: seq<UsageRow>, provider: string): (r: seq<UsageRow>)
    ensures |r| <= |logs|
    ensures forall i :: 0 <= i < |r| ==> r[i].provider == provider
    ensures forall i :: 0 <= i < |logs| && logs[i].provider == provider ==> logs[i] in r
  {
    if |logs| == 0 then []
    else
      var rest := OfProvider(logs[..|logs| - 1], provider);
      if logs[|logs| - 1].provider == provider then rest + [logs[|logs| - 1]] else rest
  }

  /** One key of the `byProvider` record; keys keep their insertion order. */
  datatype Entry = Entry(provider: string, totals: Totals)

  /** The index of `provider`'s entry, or -1. */
  function FindEntry(acc: seq<Entry>, provider: string): (k: int)
    ensures -1 <= k < |acc|
    ensures k >= 0 ==> acc[k].provider == provider
    ensures k == -1 <==> forall i :: 0 <= i < |acc| ==> acc[i].provider != provider
  {
    if |acc| == 0 then -1
    else if acc[|acc| - 1].provider == provider then |acc| - 1
    else FindEntry(acc[..|acc| - 1], provider)
  }

  /** `acc[log.provider].tokens += ...; .cost += ...; .requests += 1`. */
  function Bump(e: Entry, log: UsageRow): Entry
  {
    Entry(e.provider, Totals(e.totals.tokens + log.totalTokens, e.totals.cost + log.costUsd, e.totals.requests + 1))
  }

  const Zero := Totals(0, 0.0, 0)

  /** The accumulator step of the `byProvider` reduce: a provider seen for the
      first time gets a zero entry at the end, then its entry is bumped. */
  function AddLog(acc: seq<Entry>, log: UsageRow): seq<Entry>
  {
    var k := FindEntry(acc, log.provider);
    if k < 0 then acc + [Bump(Entry(log.provider, Zero), log)] else acc[k := Bump(acc[k], log)]
  }

  /** The `byProvider` record after reducing over `logs`. */
  function Group(logs: seq<UsageRow>): seq<Entry>
  {
    if |logs| == 0 then [] else AddLog(Group(logs[..|logs| - 1]), logs[|logs| - 1])
  }

  /** The `byProvider` reduce, mutating its accumulator in place. */
  method ByProvider(logs: seq<UsageRow>) returns (acc: seq<Entry>)
    ensures acc == Group(logs)
  {
    acc := [];
    var i := 0;
    while i < |logs|
      invariant 0 <= i <= |logs|
      invariant acc == Group(logs[..i])
    {
      var log := logs[i];
      assert logs[..i + 1][..i] == logs[..i];
      var k := FindEntry(acc, log.provider);
      if k < 0 {
        ghost var before := acc;
        acc := acc + [Entry(log.provider, Zero)];
        k := |acc| - 1;
        acc := acc[k := Bump(acc[k], log)];
        assert acc == before + [Bump(Entry(log.provider, Zero), log)];
      } else {
        acc := acc[k := Bump(acc[k], log)];
      }
      i := i + 1;
    }
    assert logs[..i] == logs;
  }

  function SumTokens(es: seq<Entry>): int
  {
    if |es| == 0 then 0 else SumTokens(es[..|es| - 1]) + es[|es| - 1].totals.tokens
  }

  function SumCost(es: seq<Entry>): real
  {
    if |es| == 0 then 0.0 else SumCost(es[..|es| - 1]) + es[|es| - 1].totals.cost
  }

  function SumRequests(es: seq<Entry>): int
  {
    if |es| == 0 then 0 else SumRequests(es[..|es| - 1]) + es[|es| - 1].totals.requests
  }

  /** Replacing one entry changes each sum by the difference. */
  lemma {:induction false} SumsUpdate(es: seq<Entry>, k: nat, e: Entry)
    requires k < |es|
    ensures SumTokens(es[k := e]) == SumTokens(es) - es[k].totals.tokens + e.totals.tokens
    ensures SumCost(es[k := e]) == SumCost(es) - es[k].totals.cost + e.totals.cost
    ensures SumRequests(es[k := e]) == SumRequests(es) - es[k].totals.requests + e.totals.requests
    decreases |es|
  {
    var n := |es| - 1;
    if k < n {
      assert es[k := e][..n] == es[..n][k := e];
      SumsUpdate(es[..n], k, e);
    } else {
      assert es[k := e][..n] == es[..n];
    }
  }

  /** The per-provider sums add up to the totals. */
  lemma {:induction false} GroupSums(logs: seq<UsageRow>)
    ensures SumTokens(Group(logs)) == TotalTokens(logs)
    ensures SumCost(Group(logs)) == TotalCost(logs)
    ensures SumRequests(Group(logs)) == |logs|
    decreases |logs|
  {
    if |logs| > 0 {
      var n := |logs| - 1;
      var prev := logs[..n];
      var g := Group(prev);
      assert Group(logs) == AddLog(g, logs[n]);
      assert TotalTokens(logs) == TotalTokens(prev) + logs[n].totalTokens;
      assert TotalCost(logs) == TotalCost(prev) + logs[n].costUsd;
      GroupSums(prev);
      AddLogSums(g, logs[n]);
    }
  }

  lemma AddLogSums(acc: seq<Entry>, log: UsageRow)
    ensures SumTokens(AddLog(acc, log)) == SumTokens(acc) + log.totalTokens
    ensures SumCost(AddLog(acc, log)) == SumCost(acc) + log.costUsd
    ensures SumRequests(AddLog(acc, log)) == SumRequests(acc) + 1
  {
    var k := FindEntry(acc, log.provider);
    if k < 0 {
      var r := acc + [Bump(Entry(log.provider, Zero), log)];
      assert r[..|r| - 1] == acc;
    } else {
      SumsUpdate(acc, k, Bump(acc[k], log));
    }
  }

  predicate DistinctProviders(es: seq<Entry>)
  {
    forall i, j :: 0 <= i < j < |es| ==> es[i].provider != es[j].provider
  }

  /** Each entry holds the totals of exactly its provider's rows. */
  predicate EntriesExact(es: seq<Entry>, logs: seq<UsageRow>)
  {
    forall i :: 0 <= i < |es| ==> es[i].totals == TotalsOf(OfProvider(logs, es[i].provider))
  }

  /** Every provider that occurs has an entry. */
  predicate Covers(es: seq<Entry>, logs: seq<UsageRow>)
  {
    forall j :: 0 <= j < |logs| ==> FindEntry(es, logs[j].provider) >= 0
  }

  /** `byProvider` has one entry per provider that occurs, and each entry holds
      the totals of exactly that provider's rows. */
  predicate GroupedBy(es: seq<Entry>, logs: seq<UsageRow>)
  {
    DistinctProviders(es) && EntriesExact(es, logs) && Covers(es, logs)
  }

  /** Adding a row to the prefix it extends, for one provider's totals. */
  lemma OfProviderSnoc(logs: seq<UsageRow>, provider: string)
    requires |logs| > 0
    ensures logs[|logs| - 1].provider == provider ==>
      TotalsOf(OfProvider(logs, provider)) ==
        var t := TotalsOf(OfProvider(logs[..|logs| - 1], provider));
        Totals(t.tokens + logs[|logs| - 1].totalTokens, t.cost + logs[|logs| - 1].costUsd, t.requests + 1)
    ensures logs[|logs| - 1].provider != provider ==>
      OfProvider(logs, provider) == OfProvider(logs[..|logs| - 1], provider)
  {
    var rest := OfProvider(logs[..|logs| - 1], provider);
    if logs[|logs| - 1].provider == provider {
      var r := rest + [logs[|logs| - 1]];
      assert r[..|r| - 1] == rest;
    }
  }

  lemma {:induction false} GroupIsGrouping(logs: seq<UsageRow>)
    ensures GroupedBy(Group(logs), logs)
    decreases |logs|
  {
    if |logs| > 0 {
      var n := |logs| - 1;
      GroupIsGrouping(logs[..n]);
      AddLogGroups(Group(logs[..n]), logs);
    }
  }

  /** One reduce step keeps the grouping exact. */
  lemma AddLogGroups(acc: seq<Entry>, logs: seq<UsageRow>)
    requires |logs| > 0
    requires GroupedBy(acc, logs[..|logs| - 1])
    ensures GroupedBy(AddLog(acc, logs[|logs| - 1]), logs)
  {
    AddLogDistinct(acc, logs[|logs| - 1]);
    AddLogExact(acc, logs);
    AddLogCovers(acc, logs);
  }

  lemma AddLogDistinct(acc: seq<Entry>, log: UsageRow)
    requires DistinctProviders(acc)
    ensures DistinctProviders(AddLog(acc, log))
  {
  }

  lemma AddLogExact(acc: seq<Entry>, logs: seq<UsageRow>)
    requires |logs| > 0
    requires DistinctProviders(acc)
    requires EntriesExact(acc, logs[..|logs| - 1]) && Covers(acc, logs[..|logs| - 1])
    ensures EntriesExact(AddLog(acc, logs[|logs| - 1]), logs)
  {
    var n := |logs| - 1;
    var log := logs[n];
    var k := FindEntry(acc, log.provider);
    var r := AddLog(acc, log);
    var j := if k < 0 then |acc| else k;
    if k < 0 {
      OfProviderAbsent(logs[..n], log.provider, acc);
      BumpedEntry(Entry(log.provider, Zero), logs);
    } else {
      BumpedEntry(acc[k], logs);
    }
    forall i | 0 <= i < |r| && i != j ensures r[i].totals == TotalsOf(OfProvider(logs, r[i].provider)) {
      assert r[i] == acc[i];
      UntouchedEntry(acc[i], logs);
    }
  }

  lemma UntouchedEntry(e: Entry, logs: seq<UsageRow>)
    requires |logs| > 0 && e.provider != logs[|logs| - 1].provider
    requires e.totals == TotalsOf(OfProvider(logs[..|logs| - 1], e.provider))
    ensures e.totals == TotalsOf(OfProvider(logs, e.provider))
  {
    OfProviderSnoc(logs, e.provider);
  }

  lemma BumpedEntry(e: Entry, logs: seq<UsageRow>)
    requires |logs| > 0 && e.provider == logs[|logs| - 1].provider
    requires e.totals == TotalsOf(OfProvider(logs[..|logs| - 1], e.provider))
    ensures Bump(e, logs[|logs| - 1]).totals == TotalsOf(OfProvider(logs, e.provider))
  {
    OfProviderSnoc(logs, e.provider);
  }

  lemma AddLogCovers(acc: seq<Entry>, logs: seq<UsageRow>)
    requires |logs| > 0
    requires Covers(acc, logs[..|logs| - 1])
    ensures Covers(AddLog(acc, logs[|logs| - 1]), logs)
  {
    var n := |logs| - 1;
    var log := logs[n];
    var k := FindEntry(acc, log.provider);
    var r := AddLog(acc, log);
    var j := if k < 0 then |acc| else k;
    assert r[j].provider == log.provider;
    forall q | 0 <= q < |logs| ensures FindEntry(r, logs[q].provider) >= 0 {
      if q < n {
        assert logs[q] == logs[..n][q];
        var m := FindEntry(acc, logs[q].provider);
        assert r[m].provider == logs[q].provider;
      }
    }
  }

  /** A provider with no entry has no rows. */
  lemma OfProviderAbsent(logs: seq<UsageRow>, provider: string, es: seq<Entry>)
    requires forall j :: 0 <= j < |logs| ==> FindEntry(es, logs[j].provider) >= 0
    requires FindEntry(es, provider) == -1
    ensures OfProvider(logs, provider) == []
  {
    forall j | 0 <= j < |logs| ensures logs[j].provider != provider {
      assert FindEntry(es, logs[j].provider) != FindEntry(es, provider);
    }
    OfProviderNone(logs, provider);
  }

  lemma {:induction false} OfProviderNone(logs: seq<UsageRow>, provider: string)
    requires forall j :: 0 <= j < |logs| ==> logs[j].provider != provider
    ensures OfProvider(logs, provider) == []
    decreases |logs|
  {
    if |logs| > 0 {
      var n := |logs| - 1;
      assert forall j :: 0 <= j < n ==> logs[..n][j] == logs[j];
      OfProviderNone(logs[..n], provider);
    }
  }

  /** The `quota` object of the statistics reply. */
  datatype QuotaView = QuotaView(
    tokensLimit: int, tokensUsed: int, tokensRemaining: int,
    costLimit: real, costUsed: real, costRemaining: real,
    requestsLimit: int, requestsUsed: int, requestsRemaining: int)

  function MaxReal(a: real, b: real): real
  {
    if a >= b then a else b
  }

  /** The first `quotas` row of the user (`.limit(1)`), if any. */
  function QuotaFor(quotas: seq<QuotaRow>, userId: string): (q: Option<QuotaRow>)
    ensures q.Some? ==> q.value.userId == userId && q.value in quotas
    ensures q.None? <==> forall i :: 0 <= i < |quotas| ==> quotas[i].userId != userId
  {
    if |quotas| == 0 then None
    else if quotas[0].userId == userId then Some(quotas[0])
    else QuotaFor(quotas[1..], userId)
  }

  /** `quota`: the three remaining amounts, each `max(0, limit - used)`. */
  function QuotaOf(q: Option<QuotaRow>, t: Totals): (v: Option<QuotaView>)
    ensures v.None? <==> q.None?
    ensures v.Some? ==>
      && v.value.tokensRemaining >= 0 && v.value.costRemaining >= 0.0 && v.value.requestsRemaining >= 0
      && v.value.tokensRemaining == (if t.tokens <= q.value.tokensLimit then q.value.tokensLimit - t.tokens else 0)
      && v.value.costRemaining == (if t.cost <= q.value.costLimit then q.value.costLimit - t.cost else 0.0)
      && v.value.requestsRemaining == (if t.requests <= q.value.requestsLimit then q.value.requestsLimit - t.requests else 0)
      && v.value.tokensUsed == t.tokens && v.value.costUsed == t.cost && v.value.requestsUsed == t.requests
  {
    match q
    case None => None
    case Some(row) =>
      Some(QuotaView(
        row.tokensLimit, t.tokens, Max(0, row.tokensLimit - t.tokens),
        row.costLimit, t.cost, MaxReal(0.0, row.costLimit - t.cost),
        row.requestsLimit, t.requests, Max(0, row.requestsLimit - t.requests)))
  }

  datatype StatsBody = StatsBody(period: string, startDate: int, endDate: int, totals: Totals,
                                 byProvider: seq<Entry>, quota: Option<QuotaView>)

  /** A route's reply: a JSON body, or a 500 with the thrown message. */
  datatype Reply<T> = Json(body: T) | ServerError(error: string)

  /** `GET /stats/:userId`; `fault` is an error a query throws. */
  function Stats(logs: seq<UsageRow>, quotas: seq<QuotaRow>, userId: string, query: Option<string>,
                 clock: Clock, fault: Option<string>): (r: Reply<StatsBody>)
    ensures fault.Some? <==> r.ServerError?
  {
    if fault.Some? then ServerError(fault.value)
    else
      var period := PeriodOf(query);
      var start := PeriodStart(period, clock);
      var rows := LogsSince(logs, userId, start);
      var totals := TotalsOf(rows);
      Json(StatsBody(period, start, clock.now, totals, Group(rows), QuotaOf(QuotaFor(quotas, userId), totals)))
  }

  /** The statistics reply's figures agree with each other: the provider
      breakdown adds up to the totals, and the quota part exists exactly when
      the user has a quota row. */
  lemma StatsConsistent(logs: seq<UsageRow>, quotas: seq<QuotaRow>, userId: string, query: Option<string>, clock: Clock)
    ensures var r := Stats(logs, quotas, userId, query, clock, None);
      && r.Json?
      && SumTokens(r.body.byProvider) == r.body.totals.tokens
      && SumCost(r.body.byProvider) == r.body.totals.cost
      && SumRequests(r.body.byProvider) == r.body.totals.requests
      && (r.body.quota.None? <==> forall i :: 0 <= i < |quotas| ==> quotas[i].userId != userId)
  {
    var period := PeriodOf(query);
    GroupSums(LogsSince(logs, userId, PeriodStart(period, clock)));
  }

  /** The reply of `GET /check-quota/:userId`. */
  datatype QuotaCheck =
    | NoQuota
    | Checked(tokensExceeded: bool, costExceeded: bool, requestsExceeded: bool, anyExceeded: bool,
              usage: Totals, limits: QuotaRow)

  /** `GET /check-quota/:userId` over this month's rows. */
  function CheckQuota(logs: seq<UsageRow>, quotas: seq<QuotaRow>, userId: string, clock: Clock,
                      fault: Option<string>): (r: Reply<QuotaCheck>)
    ensures fault.Some? <==> r.ServerError?
    ensures r.Json? ==> (r.body.NoQuota? <==> QuotaFor(quotas, userId).None?)
    ensures r.Json? && r.body.Checked? ==>
      var t := TotalsOf(LogsSince(logs, userId, clock.monthStart));
      var q := QuotaFor(quotas, userId).value;
      && (r.body.tokensExceeded <==> t.tokens >= q.tokensLimit)
      && (r.body.costExceeded <==> t.cost >= q.costLimit)
      && (r.body.requestsExceeded <==> t.requests >= q.requestsLimit)
      && (r.body.anyExceeded <==> r.body.tokensExceeded || r.body.costExceeded || r.body.requestsExceeded)
    ensures r.Json? && r.body.Checked? ==>
      var t := TotalsOf(LogsSince(logs, userId, clock.monthStart));
      var q := QuotaFor(quotas, userId).value;
      && r.body.tokensExceeded == Sse.IsQuotaExceeded(t.tokens as real, q.tokensLimit as real)
      && r.body.costExceeded == Sse.IsQuotaExceeded(t.cost, q.costLimit)
      && r.body.requestsExceeded == Sse.IsQuotaExceeded(t.requests as real, q.requestsLimit as real)
  {
    if fault.Some? then ServerError(fault.value)
    else
      var rows := LogsSince(logs, userId, clock.monthStart);
      var t := TotalsOf(rows);
      match QuotaFor(quotas, userId)
      case None => Json(NoQuota)
      case Some(q) =>
        var tokens := t.tokens >= q.tokensLimit;
        var cost := t.cost >= q.costLimit;
        var requests := t.requests >= q.requestsLimit;
        Json(Checked(tokens, cost, requests, tokens || cost || requests, t, q))
  }

  /** The quota check's "remaining" and "exceeded" agree: the worker
      utility's `isQuotaExceeded` test holds for a quantity exactly when its remaining
      amount in the statistics is 0 (reaching the limit counts as exceeded). */
  lemma ExceededMeansNothingRemains(q: QuotaRow, t: Totals)
    ensures var v := QuotaOf(Some(q), t).value;
      (Sse.IsQuotaExceeded(t.tokens as real, q.tokensLimit as real) <==> v.tokensRemaining == 0)
      && (Sse.IsQuotaExceeded(t.requests as real, q.requestsLimit as real) <==> v.requestsRemaining == 0)
      && (Sse.IsQuotaExceeded(t.cost, q.costLimit) <==> v.costRemaining == 0.0)
  {
  }

  /** The `pagination` object of `GET /history/:userId`. */
  datatype Pagination = Pagination(limit: int, offset: int, hasMore: bool)

  /** `limit` defaults to 50 and `offset` to 0; `rows` are what the query
      returned. */
  function History(rows: seq<UsageRow>, limit: Option<int>, offset: Option<int>): (p: Pagination)
    ensures p.limit == (if limit.Some? then limit.value else 50)
    ensures p.offset == (if offset.Some? then offset.value else 0)
    ensures p.hasMore <==> |rows| == p.limit
  {
    var l := if limit.Some? then limit.value else 50;
    var o := if offset.Some? then offset.value else 0;
    Pagination(l, o, |rows| == l)
  }
}
