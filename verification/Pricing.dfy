/** Estimated cost of a request, in hundredths of a cent, from exact prices. */
module Pricing {
  import opened Common
  import opened Json

  /** Microdollars per million tokens. */
  datatype Price = Price(input: nat, output: nat)

  datatype Usage = Usage(prompt: Option<int>, completion: Option<int>, total: Option<nat>)

  const NO_USAGE := Usage(None, None, None)
  const ZERO_USAGE := Usage(Some(0), Some(0), None)

  /** A count of tokens as a reply states it. */
  function Counted(j: Json): Option<int> {
    if j.Num? && j.n == j.n.Floor as real then Some(j.n.Floor) else None
  }

  function UsageField(usage: Json, name: string): Option<int> {
    if usage.Obj? && name in usage.fields then Counted(usage.fields[name]) else None
  }

  /** The usage a reply reports; what is missing or no object reports nothing. */
  function UsageOf(response: Json): Usage {
    var usage := if response.Obj? && "usage" in response.fields then response.fields["usage"] else Obj(map[]);
    var total := UsageField(usage, "total_tokens");
    Usage(UsageField(usage, "prompt_tokens"), UsageField(usage, "completion_tokens"),
          if total.Some? && total.value >= 0 then Some(total.value) else None)
  }

  /** The three counts are read off the fields of these names, each by itself. */
  lemma UsageIsRead(rest: map<string, Json>, fields: map<string, Json>, prompt: nat, completion: nat, total: nat)
    ensures var reported := UsageOf(Obj(rest["usage" := Obj(fields["prompt_tokens" := Num(prompt as real)]
                                                            ["completion_tokens" := Num(completion as real)]
                                                            ["total_tokens" := Num(total as real)])]));
            reported == Usage(Some(prompt), Some(completion), Some(total))
    ensures "usage" !in rest ==> UsageOf(Obj(rest)) == Usage(None, None, None)
    ensures forall j: Json | !j.Obj? :: UsageOf(j) == Usage(None, None, None)
    ensures forall j: Json | !j.Obj? :: UsageOf(Obj(rest["usage" := j])) == Usage(None, None, None)
  {
  }

  // A price unit is 10^-6 microdollar per token; a hundredth of a cent is 100 microdollars.
  const HUNDREDTH := 100_000_000

  function Tokens(reported: Option<int>): nat {
    if reported.Some? && reported.value > 0 then reported.value else 0
  }

  function Microdollars(usage: Usage, price: Price): nat {
    Tokens(usage.prompt) * price.input + Tokens(usage.completion) * price.output
  }

  /** Decimal quantisation to two places, half up: compare what is cut off with a half. */
  function HalfUp(amount: nat): nat {
    amount / HUNDREDTH + (if 2 * (amount % HUNDREDTH) >= HUNDREDTH then 1 else 0)
  }

  predicate Priced(model: Option<string>, prices: map<string, Price>) {
    model.Some? && model.value != "" && model.value in prices
  }

  function EstimatedCost(model: Option<string>, usage: Usage, prices: map<string, Price>): Option<nat> {
    if !Priced(model, prices) then None
    else if usage.prompt.None? && usage.completion.None? then None
    else Some(HalfUp(Microdollars(usage, prices[model.value])))
  }

  /** The recorded amount is the one multiple of a hundredth within half a
      hundredth of the exact amount, the upper one on a tie. */
  lemma HalfUpIsNearest(amount: nat, recorded: nat)
    ensures recorded == HalfUp(amount)
            <==> -HUNDREDTH < 2 * (recorded * HUNDREDTH - amount) <= HUNDREDTH
    ensures HalfUp(amount) == (amount + HUNDREDTH / 2) / HUNDREDTH
  {
    var q, r := amount / HUNDREDTH, amount % HUNDREDTH;
    assert amount == q * HUNDREDTH + r;
  }

  lemma HalfUpMonotone(a: nat, b: nat)
    requires a <= b
    ensures HalfUp(a) <= HalfUp(b)
  {
    HalfUpIsNearest(a, HalfUp(a));
    HalfUpIsNearest(b, HalfUp(b));
  }

  /** Reporting more tokens never costs less. */
  lemma CostMonotone(model: Option<string>, less: Usage, more: Usage, prices: map<string, Price>)
    requires EstimatedCost(model, less, prices).Some? && EstimatedCost(model, more, prices).Some?
    requires Tokens(less.prompt) <= Tokens(more.prompt) && Tokens(less.completion) <= Tokens(more.completion)
    ensures EstimatedCost(model, less, prices).value <= EstimatedCost(model, more, prices).value
  {
    var p := prices[model.value];
    ProductMonotone(Tokens(less.prompt), Tokens(more.prompt), p.input);
    ProductMonotone(Tokens(less.completion), Tokens(more.completion), p.output);
    HalfUpMonotone(Microdollars(less, p), Microdollars(more, p));
  }

  lemma ProductMonotone(a: nat, b: nat, factor: nat)
    requires a <= b
    ensures a * factor <= b * factor
  {
  }

  function Total(amounts: seq<nat>): nat {
    if amounts == [] then 0 else amounts[0] + Total(amounts[1..])
  }

  function Recorded(amounts: seq<nat>): nat {
    if amounts == [] then 0 else HalfUp(amounts[0]) + Recorded(amounts[1..])
  }

  /** Over k requests the recorded cost is off by at most k/2 hundredths. */
  lemma {:induction false} RecordedSumError(amounts: seq<nat>)
    ensures -|amounts| * HUNDREDTH <= 2 * (Recorded(amounts) * HUNDREDTH - Total(amounts)) <= |amounts| * HUNDREDTH
  {
    if amounts != [] {
      HalfUpIsNearest(amounts[0], HalfUp(amounts[0]));
      RecordedSumError(amounts[1..]);
    }
  }

  /** The gate's probe with zero tokens says exactly whether a price is known. */
  lemma ZeroUsageProbesThePrice(model: Option<string>, usage: Usage, prices: map<string, Price>)
    ensures EstimatedCost(model, ZERO_USAGE, prices) == if Priced(model, prices) then Some(0) else None
    ensures EstimatedCost(model, usage, prices).Some? ==> EstimatedCost(model, ZERO_USAGE, prices).Some?
  {
    if Priced(model, prices) {
      HalfUpIsNearest(0, 0);
    }
  }
}
