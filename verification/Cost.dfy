/** Cost estimation (backend/ai_intelligence/services.py, `calculate_estimated_cost`). */
module Cost {
  import opened Common

  /** USD per 1000 input and output tokens. */
  datatype Price = Price(input: real, output: real)

  /** The price table of a provider, in the order it is searched. */
  function PriceTable(provider: string): seq<(string, Price)> {
    if provider == "openai" then [
      ("gpt-4", Price(0.03, 0.06)),
      ("gpt-4-turbo", Price(0.01, 0.03)),
      ("gpt-4o", Price(0.005, 0.015)),
      ("gpt-4o-mini", Price(0.00015, 0.0006)),
      ("gpt-3.5-turbo", Price(0.0005, 0.0015))
    ] else if provider == "anthropic" then [
      ("claude-3-opus", Price(0.015, 0.075)),
      ("claude-3-sonnet", Price(0.003, 0.015)),
      ("claude-3-haiku", Price(0.00025, 0.00125))
    ] else []
  }

  function Exact(table: seq<(string, Price)>, model: string): Option<Price> {
    if table == [] then None
    else if table[0].0 == model then Some(table[0].1)
    else Exact(table[1..], model)
  }

  function FirstPrefix(table: seq<(string, Price)>, model: string): Option<Price> {
    if table == [] then None
    else if table[0].0 <= model then Some(table[0].1)
    else FirstPrefix(table[1..], model)
  }

  function PriceOf(provider: string, model: string): Option<Price> {
    var table := PriceTable(Lower(provider));
    match Exact(table, Lower(model))
    case Some(p) => Some(p)
    case None => FirstPrefix(table, Lower(model))
  }

  function EstimatedCost(provider: string, model: string, input: nat, output: nat): real {
    match PriceOf(provider, model)
    case None => 0.0
    case Some(p) => input as real / 1000.0 * p.input + output as real / 1000.0 * p.output
  }

  lemma {:induction false} PricesAreNonNegative(table: seq<(string, Price)>, model: string)
    requires forall i :: 0 <= i < |table| ==> table[i].1.input >= 0.0 && table[i].1.output >= 0.0
    ensures Exact(table, model).Some? ==>
      Exact(table, model).value.input >= 0.0 && Exact(table, model).value.output >= 0.0
    ensures FirstPrefix(table, model).Some? ==>
      FirstPrefix(table, model).value.input >= 0.0 && FirstPrefix(table, model).value.output >= 0.0
  {
    if table != [] {
      PricesAreNonNegative(table[1..], model);
    }
  }

  lemma EstimateIsNonNegative(provider: string, model: string, input: nat, output: nat)
    ensures EstimatedCost(provider, model, input, output) >= 0.0
  {
    PricesAreNonNegative(PriceTable(Lower(provider)), Lower(model));
  }

  /** Estimating turn by turn and adding up is estimating once on the total token counts. */
  lemma EstimateIsAdditive(provider: string, model: string, i1: nat, o1: nat, i2: nat, o2: nat)
    ensures EstimatedCost(provider, model, i1, o1) + EstimatedCost(provider, model, i2, o2)
         == EstimatedCost(provider, model, i1 + i2, o1 + o2)
  {
    match PriceOf(provider, model)
    case None =>
    case Some(p) =>
      Split(i1 as real / 1000.0, i2 as real / 1000.0, p.input);
      Split(o1 as real / 1000.0, o2 as real / 1000.0, p.output);
  }

  lemma Split(a: real, b: real, rate: real)
    ensures a * rate + b * rate == (a + b) * rate
  {
  }

  /** An estimate is so much for every thousand tokens in, and so much for every thousand out. */
  lemma EstimateIsPerThousand(provider: string, model: string, input: nat, output: nat)
    requires PriceOf(provider, model).Some?
    ensures var p := PriceOf(provider, model).value;
      EstimatedCost(provider, model, 1000 * input, 1000 * output)
      == input as real * p.input + output as real * p.output
  {
    assert (1000 * input) as real / 1000.0 == input as real;
    assert (1000 * output) as real / 1000.0 == output as real;
  }

  /** Answering never costs less than asking: no listed price has output below input. */
  lemma OutputCostsMore(provider: string, model: string, tokens: nat)
    ensures EstimatedCost(provider, model, 0, tokens) >= EstimatedCost(provider, model, tokens, 0)
    ensures tokens > 0 && PriceOf(provider, model).Some? ==>
      EstimatedCost(provider, model, 0, tokens) > EstimatedCost(provider, model, tokens, 0) > 0.0
  {
    OutputsAreDearer(PriceTable(Lower(provider)), Lower(model));
    hide PriceTable;
    if PriceOf(provider, model).Some? {
      var p := PriceOf(provider, model).value;
      Dearer(tokens as real / 1000.0, p.input, p.output);
    }
  }

  lemma Dearer(thousands: real, low: real, high: real)
    requires 0.0 < low < high && thousands >= 0.0
    ensures thousands * high >= thousands * low
    ensures thousands > 0.0 ==> thousands * high > thousands * low > 0.0
  {
    assert thousands * (high - low) >= 0.0;
    if thousands > 0.0 {
      assert thousands * (high - low) > 0.0;
      assert thousands * low > 0.0;
    }
  }

  lemma {:induction false} OutputsAreDearer(table: seq<(string, Price)>, model: string)
    requires forall i :: 0 <= i < |table| ==> 0.0 < table[i].1.input < table[i].1.output
    ensures Exact(table, model).Some? ==> 0.0 < Exact(table, model).value.input < Exact(table, model).value.output
    ensures FirstPrefix(table, model).Some? ==>
      0.0 < FirstPrefix(table, model).value.input < FirstPrefix(table, model).value.output
  {
    if table != [] {
      OutputsAreDearer(table[1..], model);
    }
  }

  /** A model listed by its full name is charged its own price, whatever shorter names it begins with. */
  lemma {:induction false} ListedIsChargedItsPrice(table: seq<(string, Price)>, i: nat)
    requires i < |table| && forall j, k :: 0 <= j < k < |table| ==> table[j].0 != table[k].0
    ensures Exact(table, table[i].0) == Some(table[i].1)
  {
    if i > 0 {
      ListedIsChargedItsPrice(table[1..], i - 1);
    }
  }

  /** The agents' own providers ("llm", "mock_llm") are in no price table: they estimate to zero. */
  lemma AgentProvidersAreUnpriced(provider: string, model: string, input: nat, output: nat)
    requires provider == "llm" || provider == "mock_llm"
    ensures EstimatedCost(provider, model, input, output) == 0.0
  {
    assert |Lower(provider)| == |provider|;
  }

  /**
   * The prefix search meets "gpt-4" first, so every model that starts with it and is not listed by
   * its full name (a dated "gpt-4o" or "gpt-4-turbo", say) is charged the "gpt-4" price.
   */
  lemma UnlistedGpt4IsChargedAsGpt4(model: string)
    requires "gpt-4" <= Lower(model)
    requires Lower(model) !in {"gpt-4-turbo", "gpt-4o", "gpt-4o-mini"}
    ensures PriceOf("openai", model) == Some(Price(0.03, 0.06))
  {
    var table := PriceTable("openai");
    assert Lower("openai") == "openai";
    var m := Lower(model);
    if m != "gpt-4" {
      assert m != "gpt-3.5-turbo" by { assert m[4] == '4'; }
      NotListed(table, m);
    }
  }

  lemma {:induction false} NotListed(table: seq<(string, Price)>, model: string)
    requires forall i :: 0 <= i < |table| ==> table[i].0 != model
    ensures Exact(table, model) == None
  {
    if table != [] {
      NotListed(table[1..], model);
    }
  }
}
