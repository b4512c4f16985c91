/**
 * The fallback pricing engine of backend/app/routes.py: one of three fixed
 * markups chosen by inventory and recent sales, clamped into the margin band,
 * and a copy of each record enriched with derived metrics.
 */
module SimpleEngine {
  import opened Wrappers
  import opened Records
  import opened Margin
  import opened Batch

  /** The three rules, in priority order. */
  datatype Rule = LowInventory | HighDemand | Standard

  function Multiplier(rule: Rule): real {
    match rule
    case LowInventory => 1.2
    case HighDemand => 1.1
    case Standard => 1.05
  }

  function Label(rule: Rule): string {
    match rule
    case LowInventory => "Low inventory: +20%"
    case HighDemand => "High demand: +10%"
    case Standard => "Standard: +5%"
  }

  /** A base price the engine can divide by. */
  type NonZero = x: real | x != 0.0 witness 1.0

  /** What the engine decided for one record, before rounding. */
  datatype Decision = Decision(base: NonZero, sales: real, rule: Rule, price: real)

  /** The three keys the fallback engine reads, in the order it reads them. */
  predicate HasKeys(p: Record) {
    BasePrice in p && Inventory in p && Sales in p
  }

  /** Every field the fallback engine needs is present and numeric. */
  predicate WellFormed(p: Record) {
    HasNumber(p, BasePrice) && HasNumber(p, Inventory) && HasNumber(p, Sales)
  }

  /**
   * The pricing decision for one record, raising where Python would and with
   * the same error: the three reads first, then the inventory comparison, then
   * (in the order the branch taken evaluates them) the base price, the
   * division by it and the sales figure.
   */
  function Decide(p: Record): (d: Result<Decision, Error>)
  {
    var baseValue :- Lookup(p, BasePrice);
    var inventoryValue :- Lookup(p, Inventory);
    var salesValue :- Lookup(p, Sales);
    var inventory :- AsNumber(inventoryValue, Inventory);
    if inventory < 10.0 then
      var base :- AsNumber(baseValue, BasePrice);
      if base == 0.0 then Failure(DivisionByZero)
      else
        var sales :- AsNumber(salesValue, Sales);
        Success(Decision(base, sales, LowInventory, CapThenRaise(base * Multiplier(LowInventory), base)))
    else
      var sales :- AsNumber(salesValue, Sales);
      var base :- AsNumber(baseValue, BasePrice);
      if base == 0.0 then Failure(DivisionByZero)
      else
        var rule := if sales > 100.0 then HighDemand else Standard;
        Success(Decision(base, sales, rule, CapThenRaise(base * Multiplier(rule), base)))
  }

  /** What `Decide` decides, and when it raises. */
  lemma DecideMeaning(p: Record)
    ensures Decide(p).Success? <==> WellFormed(p) && NumberAt(p, BasePrice) != 0.0
    // the first missing key, in read order
    ensures BasePrice !in p ==> Decide(p) == Failure(MissingKey(BasePrice))
    ensures BasePrice in p && Inventory !in p ==> Decide(p) == Failure(MissingKey(Inventory))
    ensures BasePrice in p && Inventory in p && Sales !in p ==> Decide(p) == Failure(MissingKey(Sales))
    // then the inventory comparison
    ensures HasKeys(p) && !HasNumber(p, Inventory) ==> Decide(p) == Failure(NotANumber(Inventory))
    // under low inventory: the base price, the division by it, then the sales figure
    ensures HasKeys(p) && HasNumber(p, Inventory) && NumberAt(p, Inventory) < 10.0 && !HasNumber(p, BasePrice) ==>
              Decide(p) == Failure(NotANumber(BasePrice))
    ensures HasKeys(p) && HasNumber(p, Inventory) && NumberAt(p, Inventory) < 10.0
            && HasNumber(p, BasePrice) && NumberAt(p, BasePrice) == 0.0 ==>
              Decide(p) == Failure(DivisionByZero)
    ensures HasKeys(p) && HasNumber(p, Inventory) && NumberAt(p, Inventory) < 10.0
            && HasNumber(p, BasePrice) && NumberAt(p, BasePrice) != 0.0 && !HasNumber(p, Sales) ==>
              Decide(p) == Failure(NotANumber(Sales))
    // otherwise: the sales figure, the base price, then the division
    ensures HasKeys(p) && HasNumber(p, Inventory) && NumberAt(p, Inventory) >= 10.0 && !HasNumber(p, Sales) ==>
              Decide(p) == Failure(NotANumber(Sales))
    ensures HasKeys(p) && HasNumber(p, Inventory) && NumberAt(p, Inventory) >= 10.0
            && HasNumber(p, Sales) && !HasNumber(p, BasePrice) ==>
              Decide(p) == Failure(NotANumber(BasePrice))
    ensures WellFormed(p) && NumberAt(p, BasePrice) == 0.0 ==> Decide(p) == Failure(DivisionByZero)
    ensures Decide(p).Success? ==> Decide(p).value.base == NumberAt(p, BasePrice) && Decide(p).value.sales == NumberAt(p, Sales)
    // rule priority: low inventory wins whatever the sales, then high demand, then standard
    ensures Decide(p).Success? ==> (Decide(p).value.rule == LowInventory <==> NumberAt(p, Inventory) < 10.0)
    ensures Decide(p).Success? ==> (Decide(p).value.rule == HighDemand <==> NumberAt(p, Inventory) >= 10.0 && NumberAt(p, Sales) > 100.0)
    // the margin band holds whichever rule fired; the standard +5% is always raised to +10%
    ensures Decide(p).Success? && Decide(p).value.base > 0.0 ==> InBand(Decide(p).value.price, Decide(p).value.base)
    ensures Decide(p).Success? && Decide(p).value.base > 0.0 ==>
              Decide(p).value.price == Decide(p).value.base * (if Decide(p).value.rule == LowInventory then 1.2 else 1.1)
    // a negative base empties the band and every rule ends at the floor
    ensures Decide(p).Success? && Decide(p).value.base < 0.0 ==> Decide(p).value.price == Decide(p).value.base * 1.1
  {
  }

  function PercentChange(d: Decision): real
  {
    (d.price - d.base) / d.base * 100.0
  }

  function Impact(d: Decision): real {
    (d.price - d.base) * d.sales
  }

  /** For a positive base the price change is +20% under low inventory and +10% otherwise. */
  lemma PercentChangeBand(p: Record)
    requires Decide(p).Success? && Decide(p).value.base > 0.0
    ensures 10.0 <= PercentChange(Decide(p).value) <= 50.0
    ensures PercentChange(Decide(p).value) == if Decide(p).value.rule == LowInventory then 20.0 else 10.0
  {
    DecideMeaning(p);
    var d := Decide(p).value;
    var rate := if d.rule == LowInventory then 0.2 else 0.1;
    assert d.price - d.base == rate * d.base;
    ScaleCancels(rate, d.base);
  }

  lemma ScaleCancels(r: real, b: real)
    requires b != 0.0
    ensures (r * b) / b == r
  {
  }

  /** With a positive base and non-negative sales the revenue impact is never negative. */
  lemma ImpactNonNegative(p: Record)
    requires Decide(p).Success? && Decide(p).value.base > 0.0 && Decide(p).value.sales >= 0.0
    ensures Impact(Decide(p).value) >= 0.0
  {
    DecideMeaning(p);
    var d := Decide(p).value;
    assert d.price - d.base >= 0.0;
  }

  /** The seven keys the fallback engine adds to or overwrites in each copy. */
  const AddedKeys: set<string> :=
    {AdjustedPrice, PriceChangePercent, RevenueImpact, RuleApplied, PredictedSales, CompetitorPrice, DemandMultiplier}

  /** The copy of `p` enriched with the decision's metrics (`copy()` then `update(...)`). */
  function Enrich(p: Record, d: Decision, round: Rounding): (r: Record)
  {
    p + Metrics(d, round)
  }

  /** The enriched copy keeps every other key of the record and sets the seven metrics. */
  lemma EnrichMeaning(p: Record, d: Decision, round: Rounding)
    ensures Enrich(p, d, round).Keys == p.Keys + AddedKeys
    ensures forall k :: k in p && k !in AddedKeys ==> Enrich(p, d, round)[k] == p[k]
    ensures Enrich(p, d, round)[AdjustedPrice] == Num(round(d.price, 2))
    ensures Enrich(p, d, round)[PriceChangePercent] == Num(round(PercentChange(d), 2))
    ensures Enrich(p, d, round)[RevenueImpact] == Num(round(Impact(d), 2))
    ensures Enrich(p, d, round)[RuleApplied] == Str(Label(d.rule))
    ensures Enrich(p, d, round)[PredictedSales] == Num(round(d.sales * 0.95, 1))
    ensures Enrich(p, d, round)[CompetitorPrice] == Null
    ensures Enrich(p, d, round)[DemandMultiplier] == Num(1.0)
  {
  }

  /** The dictionary literal passed to `update`. */
  function Metrics(d: Decision, round: Rounding): (m: Record)
  {
    map[AdjustedPrice := Num(round(d.price, 2)),
        PriceChangePercent := Num(round(PercentChange(d), 2)),
        RevenueImpact := Num(round(Impact(d), 2)),
        RuleApplied := Str(Label(d.rule)),
        PredictedSales := Num(round(d.sales * 0.95, 1)),
        CompetitorPrice := Null,
        DemandMultiplier := Num(1.0)]
  }

  /** One record's outcome in `simple_get_adjusted_prices`: its enriched copy, or why it raised. */
  function Enriched(p: Record, round: Rounding): Result<Record, Error> {
    var d :- Decide(p);
    Success(Enrich(p, d, round))
  }

  /** `Enriched` as the step applied to every record of a batch. */
  function SimpleStep(round: Rounding): Record -> Result<Record, Error> {
    p => Enriched(p, round)
  }

  /** What `simple_get_adjusted_prices` returns for a batch of record contents. */
  function SimpleBatch(ps: seq<Record>, round: Rounding): Result<seq<Record>, Error> {
    Traverse(SimpleStep(round), ps)
  }

  /**
   * The batch succeeds iff every record can be decided, and then holds, in
   * input order, each record's enriched copy; otherwise it reports the error
   * of its first failing record.
   */
  lemma SimpleBatchMeaning(ps: seq<Record>, round: Rounding)
    ensures SimpleBatch(ps, round).Success? <==> forall i :: 0 <= i < |ps| ==> Decide(ps[i]).Success?
    ensures SimpleBatch(ps, round).Success? ==>
              |SimpleBatch(ps, round).value| == |ps|
              && forall i :: 0 <= i < |ps| ==> SimpleBatch(ps, round).value[i] == Enrich(ps[i], Decide(ps[i]).value, round)
    ensures SimpleBatch(ps, round).Failure? ==>
              exists k :: 0 <= k < |ps| && Decide(ps[k]) == Failure(SimpleBatch(ps, round).error)
                          && forall j :: 0 <= j < k ==> Decide(ps[j]).Success?
  {
    var step := SimpleStep(round);
    forall i | 0 <= i < |ps| {
      SimpleStepMeaning(round, ps[i]);
    }
    TraverseSucceeds(step, ps);
    if SimpleBatch(ps, round).Failure? {
      TraverseFailsFirst(step, ps);
    }
  }

  /** One record's step: its enriched copy when it can be decided, else its error. */
  lemma SimpleStepMeaning(round: Rounding, p: Record)
    ensures SimpleStep(round)(p).Success? <==> Decide(p).Success?
    ensures Decide(p).Success? ==> SimpleStep(round)(p).value == Enrich(p, Decide(p).value, round)
    ensures Decide(p).Failure? ==> SimpleStep(round)(p).error == Decide(p).error
  {
  }

  /**
   * The rules and the clamp of the loop body of `simple_get_adjusted_prices`,
   * step by step: reads, rule choice, clamp, and the two operations that can
   * still raise while the metrics are computed.
   */
  method DecideRecord(p: Record) returns (d: Result<Decision, Error>)
    ensures d == Decide(p)
  {
    var basePrice :- Lookup(p, BasePrice);
    var inventory :- Lookup(p, Inventory);
    var sales :- Lookup(p, Sales);

    var inventoryNumber :- AsNumber(inventory, Inventory);
    var base: real;
    var salesNumber: real;
    var adjustedPrice: real;
    var ruleApplied: Rule;
    if inventoryNumber < 10.0 {
      base :- AsNumber(basePrice, BasePrice);
      adjustedPrice := base * 1.2;
      ruleApplied := LowInventory;
    } else {
      salesNumber :- AsNumber(sales, Sales);
      if salesNumber > 100.0 {
        base :- AsNumber(basePrice, BasePrice);
        adjustedPrice := base * 1.1;
        ruleApplied := HighDemand;
      } else {
        base :- AsNumber(basePrice, BasePrice);
        adjustedPrice := base * 1.05;
        ruleApplied := Standard;
      }
    }

    adjustedPrice := Max(base * 1.1, Min(adjustedPrice, base * 1.5));

    if base == 0.0 {
      return Failure(DivisionByZero);
    }
    salesNumber :- AsNumber(sales, Sales);
    d := Success(Decision(base, salesNumber, ruleApplied, adjustedPrice));
  }

  /**
   * One pass of the loop body (lines 7-34) for one dictionary: its enriched
   * copy, a new dictionary made by `copy()` then `update(...)`, or the error
   * the record raises.
   */
  method PriceProduct(product: Dict, round: Rounding) returns (r: Result<Dict, Error>)
    ensures r.Failure? ==> Enriched(product.entries, round) == Failure(r.error)
    ensures r.Success? ==> fresh(r.value) && Enriched(product.entries, round) == Success(r.value.entries)
  {
    var decision := DecideRecord(product.entries);
    if decision.Failure? {
      return Failure(decision.error);
    }
    var productResult := product.Copy();
    productResult.Update(Metrics(decision.value, round));
    r := Success(productResult);
  }

  /**
   * `simple_get_adjusted_prices`: the input dictionaries are left alone and
   * the outcome is the batch outcome of their contents; on success the result
   * list holds new dictionaries, none of them an input and no two the same.
   */
  method SimpleGetAdjustedPrices(products: seq<Dict>, round: Rounding) returns (res: Result<seq<Dict>, Error>)
    ensures Contents(res) == SimpleBatch(Snapshot(products), round)
    ensures res.Success? ==> forall i :: 0 <= i < |res.value| ==> fresh(res.value[i])
    ensures res.Success? ==> Distinct(res.value)
  {
    ghost var inputs := Snapshot(products);
    ghost var step := SimpleStep(round);
    ghost var outputs: seq<Record> := [];
    var results: seq<Dict> := [];
    var i := 0;
    while i < |products|
      invariant 0 <= i <= |products| && |results| == i
      invariant Traverse(step, inputs[..i]) == Success(outputs)
      invariant forall j :: 0 <= j < i ==> results[j].entries == outputs[j]
      invariant forall j :: 0 <= j < i ==> fresh(results[j])
      invariant Distinct(results)
    {
      var priced := PriceProduct(products[i], round);
      assert step(inputs[i]) == Enriched(inputs[i], round);
      if priced.Failure? {
        TraverseStopsAt(step, inputs, i);
        return Failure(priced.error);
      }
      TraverseSnoc(step, inputs, i);
      var productResult := priced.value;
      DistinctSnoc(results, productResult);
      results := results + [productResult];
      outputs := outputs + [productResult.entries];
      i := i + 1;
    }
    assert inputs[..i] == inputs;
    res := Success(results);
    assert Snapshot(results) == outputs;
  }
}
