/** Token metering: the per-1K-token price table, the cost of one completion in
    US dollars (as an exact `real`), and the best-effort insert of a usage row. */
module Metering {
  import opened Common
  import opened Schema

  /** A row of the price table: dollars per 1000 prompt and completion tokens. */
  datatype Price = Price(input: real, output: real)

  const DefaultPrice := Price(0.01, 0.03)

  /** `PRICING[provider][model]` when both levels are listed. */
  function ListedPrice(provider: string, model: string): Option<Price>
  {
    if provider == "openai" then
      if model == "gpt-4o" then Some(Price(0.01, 0.03))
      else if model == "gpt-4-1106-preview" then Some(Price(0.01, 0.03))
      else if model == "gpt-4-0613" then Some(Price(0.03, 0.06))
      else if model == "gpt-3.5-turbo" then Some(Price(0.001, 0.002))
      else None
    else if provider == "anthropic" then
      if model == "claude-3-5-sonnet-20240620" then Some(Price(0.003, 0.015))
      else if model == "claude-3-opus-20240229" then Some(Price(0.015, 0.075))
      else if model == "claude-3-sonnet-20240229" then Some(Price(0.003, 0.015))
      else if model == "claude-3-haiku-20240307" then Some(Price(0.00025, 0.00125))
      else None
    else None
  }

  /** The price `calculateCost` uses: the listed row, or the global default.
      There is no per-provider default. */
  function PriceFor(provider: string, model: string): (p: Price)
    ensures ListedPrice(provider, model).Some? ==> p == ListedPrice(provider, model).value
    ensures ListedPrice(provider, model).None? ==> p == DefaultPrice
    ensures p.input > 0.0 && p.output > 0.0
  {
    match ListedPrice(provider, model)
    case Some(p) => p
    case None => DefaultPrice
  }

  /** `calculateCost(provider, model, promptTokens, completionTokens)`. */
  function CalculateCost(provider: string, model: string, promptTokens: int, completionTokens: int): real
  {
    var p := PriceFor(provider, model);
    (promptTokens as real / 1000.0) * p.input + (completionTokens as real / 1000.0) * p.output
  }

  /** The two listed providers price their models by the table; a model the
      table does not list, or any other provider, pays the default rate. */
  lemma PriceTable()
    ensures PriceFor("openai", "gpt-4o") == Price(0.01, 0.03)
    ensures PriceFor("openai", "gpt-4-0613") == Price(0.03, 0.06)
    ensures PriceFor("openai", "gpt-3.5-turbo") == Price(0.001, 0.002)
    ensures PriceFor("anthropic", "claude-3-5-sonnet-20240620") == Price(0.003, 0.015)
    ensures PriceFor("anthropic", "claude-3-opus-20240229") == Price(0.015, 0.075)
    ensures PriceFor("anthropic", "claude-3-haiku-20240307") == Price(0.00025, 0.00125)
    ensures PriceFor("anthropic", "gpt-4o") == DefaultPrice
    ensures PriceFor("perplexity", "sonar") == DefaultPrice
  {
  }

  /** The table's prices are per thousand tokens: a thousand prompt tokens
      cost the input price, a thousand completion tokens the output price. */
  lemma PricePerThousand(provider: string, model: string)
    ensures CalculateCost(provider, model, 1000, 0) == PriceFor(provider, model).input
    ensures CalculateCost(provider, model, 0, 1000) == PriceFor(provider, model).output
  {
  }

  lemma ZeroCost(provider: string, model: string)
    ensures CalculateCost(provider, model, 0, 0) == 0.0
  {
  }

  /** Cost is non-negative, and grows with either token count. */
  lemma CostMonotone(provider: string, model: string, p: int, c: int, p': int, c': int)
    requires 0 <= p <= p' && 0 <= c <= c'
    ensures 0.0 <= CalculateCost(provider, model, p, c) <= CalculateCost(provider, model, p', c')
  {
    var price := PriceFor(provider, model);
    assert p as real / 1000.0 * price.input <= p' as real / 1000.0 * price.input;
    assert c as real / 1000.0 * price.output <= c' as real / 1000.0 * price.output;
  }

  /** Cost adds up over token counts: two calls cost what one call with the
      summed counts costs. */
  lemma CostAdditive(provider: string, model: string, p: int, c: int, p': int, c': int)
    ensures CalculateCost(provider, model, p + p', c + c') ==
      CalculateCost(provider, model, p, c) + CalculateCost(provider, model, p', c')
  {
  }

  /** The argument of `logUsage`. */
  datatype UsageData = UsageData(userId: string, provider: string, model: string, promptTokens: int,
                                 completionTokens: int, totalTokens: int, ms: int, sessionId: Option<string>)

  /** The row `logUsage` inserts; `timestamp` is the database's insert time. */
  function UsageRowOf(u: UsageData, timestamp: int): (r: UsageRow)
    ensures r.costUsd == CalculateCost(u.provider, u.model, u.promptTokens, u.completionTokens)
    ensures r.userId == u.userId && r.provider == u.provider && r.model == u.model
    ensures r.promptTokens == u.promptTokens && r.completionTokens == u.completionTokens
    ensures r.totalTokens == u.totalTokens && r.ms == u.ms && r.sessionId == u.sessionId
  {
    UsageRow(u.userId, u.provider, u.model, u.promptTokens, u.completionTokens, u.totalTokens, u.ms,
             CalculateCost(u.provider, u.model, u.promptTokens, u.completionTokens), u.sessionId, timestamp)
  }

  /** `logUsage(usageData)`: one insert; a failing insert is swallowed, so the
      caller never sees an error. */
  method LogUsage(db: Database, u: UsageData, timestamp: int, fault: Option<string>)
    requires db.Valid()
    modifies db
    ensures db.Valid()
    ensures db.usageLogs == if fault.None? then old(db.usageLogs) + [UsageRowOf(u, timestamp)] else old(db.usageLogs)
    ensures db.documents == old(db.documents) && db.chunks == old(db.chunks) && db.quotas == old(db.quotas)
  {
    var costUsd := CalculateCost(u.provider, u.model, u.promptTokens, u.completionTokens);
    var row := UsageRow(u.userId, u.provider, u.model, u.promptTokens, u.completionTokens, u.totalTokens, u.ms,
                        costUsd, u.sessionId, timestamp);
    var err := db.InsertUsage(row, fault);
  }
}
