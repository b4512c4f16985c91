/**
 * The "advanced" pricing engine of backend/app/pricing_engine.py: a demand
 * prediction from the base price, an inventory rule and a demand rule, the
 * margin clamp written as `max` then `min`, and the rounded price written
 * into each input dictionary in place.
 */
module PricingEngine {
  import opened Wrappers
  import opened Records
  import opened Margin
  import opened Batch

  /** The trained demand model's prediction for a base price (`model.predict`), left abstract. */
  type Predictor = real -> real

  /** The business rules and the margin enforcement, once every operand is a number. */
  function RulePrice(base: real, inventory: real, predictedSales: real): real {
    var adjusted :=
      if inventory < 10.0 then Min(base * 1.3, base * 1.5)
      else if predictedSales < 20.0 then Max(base * 0.8, base * 1.1)
      else base;
    RaiseThenCap(adjusted, base)
  }

  /**
   * Whichever rule fires, a non-negative base ends in the margin band: at
   * +30% under low inventory and at +10% otherwise, the demand branch and
   * the fall-through alike. A negative base empties the band and the
   * ceiling wins.
   */
  lemma RulePriceMeaning(base: real, inventory: real, predictedSales: real)
    ensures base >= 0.0 ==> InBand(RulePrice(base, inventory, predictedSales), base)
    ensures base >= 0.0 && inventory < 10.0 ==> RulePrice(base, inventory, predictedSales) == base * 1.3
    ensures base >= 0.0 && inventory >= 10.0 ==> RulePrice(base, inventory, predictedSales) == base * 1.1
    ensures base < 0.0 ==> RulePrice(base, inventory, predictedSales) == base * 1.5
  {
  }

  /**
   * The unrounded price for one record, raising where Python would: the four
   * reads in order, then the prediction (which needs a numeric base price),
   * then the inventory comparison.
   */
  function Price(p: Record, predict: Predictor): Result<real, Error> {
    var baseValue :- Lookup(p, BasePrice);
    var inventoryValue :- Lookup(p, Inventory);
    var _ :- Lookup(p, Sales);
    var _ :- Lookup(p, Rating);
    var base :- AsNumber(baseValue, BasePrice);
    var predictedSales := predict(base);
    var inventory :- AsNumber(inventoryValue, Inventory);
    Success(RulePrice(base, inventory, predictedSales))
  }

  /** The four keys the engine reads, in the order it reads them. */
  predicate HasKeys(p: Record) {
    BasePrice in p && Inventory in p && Sales in p && Rating in p
  }

  /**
   * A record is priced iff it has the four keys and numeric base price and
   * inventory; the first missing key, else the first non-numeric operand,
   * is the error. A priced record with a non-negative base is in the band.
   */
  lemma PriceMeaning(p: Record, predict: Predictor)
    ensures Price(p, predict).Success? <==> HasKeys(p) && HasNumber(p, BasePrice) && HasNumber(p, Inventory)
    ensures BasePrice !in p ==> Price(p, predict) == Failure(MissingKey(BasePrice))
    ensures BasePrice in p && Inventory !in p ==> Price(p, predict) == Failure(MissingKey(Inventory))
    ensures BasePrice in p && Inventory in p && Sales !in p ==> Price(p, predict) == Failure(MissingKey(Sales))
    ensures BasePrice in p && Inventory in p && Sales in p && Rating !in p ==>
              Price(p, predict) == Failure(MissingKey(Rating))
    ensures HasKeys(p) && !HasNumber(p, BasePrice) ==> Price(p, predict) == Failure(NotANumber(BasePrice))
    ensures HasKeys(p) && HasNumber(p, BasePrice) && !HasNumber(p, Inventory) ==>
              Price(p, predict) == Failure(NotANumber(Inventory))
    ensures Price(p, predict).Success? && NumberAt(p, BasePrice) >= 0.0 ==>
              InBand(Price(p, predict).value, NumberAt(p, BasePrice))
    ensures Price(p, predict).Success? && NumberAt(p, BasePrice) >= 0.0 ==>
              Price(p, predict).value == NumberAt(p, BasePrice) * (if NumberAt(p, Inventory) < 10.0 then 1.3 else 1.1)
    ensures Price(p, predict).Success? && NumberAt(p, BasePrice) < 0.0 ==>
              Price(p, predict).value == NumberAt(p, BasePrice) * 1.5
  {
    if HasKeys(p) && HasNumber(p, BasePrice) && HasNumber(p, Inventory) {
      var base, inventory := NumberAt(p, BasePrice), NumberAt(p, Inventory);
      RulePriceMeaning(base, inventory, predict(base));
    }
  }

  /** The demand model never changes the outcome: any two predictors price every record alike. */
  lemma DemandModelIrrelevant(p: Record, predict: Predictor, other: Predictor)
    ensures Price(p, predict) == Price(p, other)
  {
    if Price(p, predict).Success? {
      var base, inventory := NumberAt(p, BasePrice), NumberAt(p, Inventory);
      RulePriceMeaning(base, inventory, predict(base));
      RulePriceMeaning(base, inventory, other(base));
    }
  }

  /**
   * Sales and rating are read but never used: changing their values (while
   * keeping the keys) leaves the outcome alone.
   */
  lemma SalesAndRatingIgnored(p: Record, predict: Predictor, sales: Value, rating: Value)
    requires Sales in p && Rating in p
    ensures Price(p[Sales := sales][Rating := rating], predict) == Price(p, predict)
  {
    var q := p[Sales := sales][Rating := rating];
    assert q.Keys == p.Keys;
    assert BasePrice in p ==> q[BasePrice] == p[BasePrice];
    assert Inventory in p ==> q[Inventory] == p[Inventory];
  }

  /** The record after `product["adjusted_price"] = round(adjusted_price, 2)`, or why it raised first. */
  function Priced(p: Record, predict: Predictor, round: Rounding): Result<Record, Error> {
    var price :- Price(p, predict);
    Success(p[AdjustedPrice := Num(round(price, 2))])
  }

  /** Pricing gains or overwrites `adjusted_price` and keeps every other key and value. */
  lemma PricedMeaning(p: Record, predict: Predictor, round: Rounding)
    ensures Priced(p, predict, round).Success? <==> Price(p, predict).Success?
    ensures Priced(p, predict, round).Failure? ==> Priced(p, predict, round).error == Price(p, predict).error
    ensures Priced(p, predict, round).Success? ==>
              && Priced(p, predict, round).value.Keys == p.Keys + {AdjustedPrice}
              && Priced(p, predict, round).value[AdjustedPrice] == Num(round(Price(p, predict).value, 2))
              && forall k :: k in p && k != AdjustedPrice ==> Priced(p, predict, round).value[k] == p[k]
  {
  }

  /**
   * Pricing a priced record again gives the same record: the engine reads
   * none of the key it writes. This is why a dictionary listed twice ends
   * up as if it had been listed once.
   */
  lemma PricedIsStable(p: Record, predict: Predictor, round: Rounding)
    requires Priced(p, predict, round).Success?
    ensures Price(Priced(p, predict, round).value, predict) == Price(p, predict)
    ensures Priced(Priced(p, predict, round).value, predict, round) == Priced(p, predict, round)
  {
    var q := Priced(p, predict, round).value;
    assert AdjustedPrice != BasePrice && AdjustedPrice != Inventory && AdjustedPrice != Sales && AdjustedPrice != Rating by {
      assert AdjustedPrice[1] != BasePrice[1] && AdjustedPrice[1] != Inventory[1];
      assert AdjustedPrice[1] != Sales[1] && AdjustedPrice[1] != Rating[1];
    }
    assert q[BasePrice] == p[BasePrice] && q[Inventory] == p[Inventory];
    assert q[AdjustedPrice := q[AdjustedPrice]] == q;
  }

  /** `Priced` as the step applied to every record of a batch. */
  function EngineStep(predict: Predictor, round: Rounding): Record -> Result<Record, Error> {
    p => Priced(p, predict, round)
  }

  /** The new contents of a batch of records, or the error of the first record that raises. */
  function EngineBatch(ps: seq<Record>, predict: Predictor, round: Rounding): Result<seq<Record>, Error> {
    Traverse(EngineStep(predict, round), ps)
  }

  /** A batch is priced iff every record is, and then each record is priced on its own, in order. */
  lemma EngineBatchMeaning(ps: seq<Record>, predict: Predictor, round: Rounding)
    ensures EngineBatch(ps, predict, round).Success? <==> forall i :: 0 <= i < |ps| ==> Price(ps[i], predict).Success?
    ensures EngineBatch(ps, predict, round).Success? ==>
              |EngineBatch(ps, predict, round).value| == |ps|
              && forall i :: 0 <= i < |ps| ==> EngineBatch(ps, predict, round).value[i] == Priced(ps[i], predict, round).value
    ensures EngineBatch(ps, predict, round).Failure? ==>
              exists k :: 0 <= k < |ps| && Price(ps[k], predict) == Failure(EngineBatch(ps, predict, round).error)
                          && forall j :: 0 <= j < k ==> Price(ps[j], predict).Success?
  {
    var step := EngineStep(predict, round);
    TraverseSucceeds(step, ps);
    if EngineBatch(ps, predict, round).Failure? {
      TraverseFailsFirst(step, ps);
      var k :| 0 <= k < |ps| && step(ps[k]) == Failure(EngineBatch(ps, predict, round).error)
                && Traverse(step, ps[..k]).Success?;
      TraverseSucceeds(step, ps[..k]);
      assert forall j :: 0 <= j < k ==> ps[..k][j] == ps[j];
    }
  }

  /**
   * Dictionaries that are the same object held the same record before the
   * engine ran (true of any snapshot of `data`).
   */
  predicate SameObjectSameRecord(data: seq<Dict>, olds: seq<Record>) {
    |olds| == |data| &&
    forall j, m :: 0 <= j < |data| && 0 <= m < |data| && data[j] == data[m] ==> olds[j] == olds[m]
  }

  lemma SnapshotIsConsistent(data: seq<Dict>)
    ensures SameObjectSameRecord(data, Snapshot(data))
  {
  }

  /**
   * The contents `cur` of `data` once the loop has handled `data[..i]`:
   * every dictionary met so far holds its priced record, every other one
   * is as it was (`olds`).
   */
  predicate HandledUpTo(data: seq<Dict>, olds: seq<Record>, cur: seq<Record>, i: nat, predict: Predictor, round: Rounding) {
    |olds| == |data| && |cur| == |data| && i <= |data| &&
    forall j :: 0 <= j < |data| ==>
      if data[j] in data[..i] then Priced(olds[j], predict, round) == Success(cur[j]) else cur[j] == olds[j]
  }

  /** Before the loop nothing is handled. */
  lemma HandledNothing(data: seq<Dict>, olds: seq<Record>, predict: Predictor, round: Rounding)
    requires |olds| == |data|
    ensures HandledUpTo(data, olds, olds, 0, predict, round)
  {
  }

  /** When everything is handled, the contents are the batch's priced records. */
  lemma HandledAll(data: seq<Dict>, olds: seq<Record>, cur: seq<Record>, predict: Predictor, round: Rounding)
    requires HandledUpTo(data, olds, cur, |data|, predict, round)
    ensures EngineBatch(olds, predict, round) == Success(cur)
  {
    assert data[..|data|] == data;
    assert forall j :: 0 <= j < |data| ==> data[j] in data[..|data|];
    TraverseSucceeds(EngineStep(predict, round), olds);
    assert EngineBatch(olds, predict, round).value == cur;
  }

  /**
   * The record the loop finds in `data[i]` prices exactly like the one it
   * held before the loop, though it may already be priced (an alias met
   * earlier).
   */
  lemma CurrentPricesAsBefore(data: seq<Dict>, olds: seq<Record>, cur: seq<Record>, i: nat, predict: Predictor, round: Rounding)
    requires HandledUpTo(data, olds, cur, i, predict, round) && i < |data|
    ensures Price(cur[i], predict) == Price(olds[i], predict)
    ensures Priced(cur[i], predict, round) == Priced(olds[i], predict, round)
  {
    if data[i] in data[..i] {
      PricedIsStable(olds[i], predict, round);
    }
  }

  /** A record that raises, after a handled prefix, is the first failure of the batch. */
  lemma FailsAt(data: seq<Dict>, olds: seq<Record>, cur: seq<Record>, i: nat, predict: Predictor, round: Rounding)
    requires HandledUpTo(data, olds, cur, i, predict, round) && i < |data|
    requires Traverse(EngineStep(predict, round), olds[..i]).Success? && Price(cur[i], predict).Failure?
    ensures Priced(olds[i], predict, round) == Failure(Price(cur[i], predict).error)
    ensures EngineBatch(olds, predict, round) == Failure(Price(cur[i], predict).error)
  {
    CurrentPricesAsBefore(data, olds, cur, i, predict, round);
    TraverseStopsAt(EngineStep(predict, round), olds, i);
  }

  /** The contents once `entries` is written into the object `d`: every slot holding `d` changes. */
  function WriteThrough(data: seq<Dict>, cur: seq<Record>, d: Dict, entries: Record): (next: seq<Record>)
    requires |cur| == |data|
    ensures |next| == |data|
    ensures forall j :: 0 <= j < |data| ==> next[j] == if data[j] == d then entries else cur[j]
  {
    seq(|data|, j requires 0 <= j < |data| => if data[j] == d then entries else cur[j])
  }

  /**
   * Writing the priced record of `data[i]` into that object (and so into all
   * its aliases) extends the handled prefix by one.
   */
  lemma HandleNext(data: seq<Dict>, olds: seq<Record>, cur: seq<Record>, i: nat, predict: Predictor, round: Rounding)
    requires HandledUpTo(data, olds, cur, i, predict, round) && SameObjectSameRecord(data, olds) && i < |data|
    requires Priced(olds[i], predict, round).Success?
    ensures HandledUpTo(data, olds, WriteThrough(data, cur, data[i], Priced(olds[i], predict, round).value), i + 1, predict, round)
  {
    var next := WriteThrough(data, cur, data[i], Priced(olds[i], predict, round).value);
    forall j | 0 <= j < |data|
      ensures if data[j] in data[..i + 1] then Priced(olds[j], predict, round) == Success(next[j]) else next[j] == olds[j]
    {
      assert data[j] in data[..i + 1] <==> data[j] in data[..i] || data[j] == data[i] by {
        assert data[..i + 1] == data[..i] + [data[i]];
      }
    }
  }

  /**
   * What `get_adjusted_prices` leaves behind, given the contents `olds` of
   * `data` before the call and `cur` after it. On success it returns the very
   * objects it was given, in order, and each holds its priced record. When a
   * record raises, the error is the batch's (that of its first failing
   * record, `data[k]`); the dictionaries met before it are already priced
   * and the others keep their contents.
   */
  predicate EngineOutcome(data: seq<Dict>, olds: seq<Record>, cur: seq<Record>, res: Result<seq<Dict>, Error>,
                          predict: Predictor, round: Rounding)
  {
    |olds| == |data| &&
    match res
    case Success(results) =>
      results == data && EngineBatch(olds, predict, round) == Success(cur)
    case Failure(e) =>
      && EngineBatch(olds, predict, round) == Failure(e)
      && exists k :: 0 <= k < |data| && Priced(olds[k], predict, round) == Failure(e)
                     && Traverse(EngineStep(predict, round), olds[..k]).Success?
                     && HandledUpTo(data, olds, cur, k, predict, round)
  }

  /**
   * The per-record part of the loop body of `get_adjusted_prices`: the reads,
   * the prediction and the rules, in source order.
   */
  method PriceRecord(p: Record, predict: Predictor) returns (r: Result<real, Error>)
    ensures r == Price(p, predict)
  {
    var baseValue :- Lookup(p, BasePrice);
    var inventoryValue :- Lookup(p, Inventory);
    var _ :- Lookup(p, Sales);
    var _ :- Lookup(p, Rating);

    var base :- AsNumber(baseValue, BasePrice);
    var predictedSales := predict(base);

    var adjustedPrice := base;

    var inventory :- AsNumber(inventoryValue, Inventory);
    if inventory < 10.0 {
      adjustedPrice := Min(base * 1.3, base * 1.5);
    } else if predictedSales < 20.0 {
      adjustedPrice := Max(base * 0.8, base * 1.1);
    }

    adjustedPrice := Max(adjustedPrice, base * 1.1);
    adjustedPrice := Min(adjustedPrice, base * 1.5);
    r := Success(adjustedPrice);
  }

  /**
   * `get_adjusted_prices`: prices the dictionaries in place and returns the
   * same objects, in order. When a record raises, the dictionaries met before
   * it have already been priced and the rest are untouched.
   */
  method GetAdjustedPrices(data: seq<Dict>, predict: Predictor, round: Rounding) returns (res: Result<seq<Dict>, Error>)
    modifies data
    ensures EngineOutcome(data, old(Snapshot(data)), Snapshot(data), res, predict, round)
  {
    ghost var olds := Snapshot(data);
    ghost var cur := olds;
    ghost var step := EngineStep(predict, round);
    SnapshotIsConsistent(data);
    HandledNothing(data, olds, predict, round);
    var results: seq<Dict> := [];
    var i := 0;
    while i < |data|
      invariant 0 <= i <= |data| && |results| == i && forall j :: 0 <= j < i ==> results[j] == data[j]
      invariant |cur| == |data| && forall j :: 0 <= j < |data| ==> data[j].entries == cur[j]
      invariant Traverse(step, olds[..i]).Success?
      invariant HandledUpTo(data, olds, cur, i, predict, round)
    {
      var product := data[i];
      CurrentPricesAsBefore(data, olds, cur, i, predict, round);
      var price := PriceRecord(product.entries, predict);
      if price.Failure? {
        FailsAt(data, olds, cur, i, predict, round);
        res := Failure(price.error);
        assert Snapshot(data) == cur;
        assert EngineOutcome(data, olds, cur, res, predict, round);
        return;
      }
      TraverseSnoc(step, olds, i);
      ghost var next := Priced(olds[i], predict, round).value;
      product.Set(AdjustedPrice, Num(round(price.value, 2)));
      assert product.entries == next;
      HandleNext(data, olds, cur, i, predict, round);
      cur := WriteThrough(data, cur, product, next);
      results := results + [product];
      i := i + 1;
    }
    HandledAll(data, olds, cur, predict, round);
    assert Snapshot(data) == cur;
    assert results == data;
    res := Success(results);
  }
}
