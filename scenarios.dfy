/**
 * The two engines side by side, and the concrete records the repository
 * feeds them: its two tests and the demo product list of `/api/products`.
 * The route module serves whichever engine could be imported, so both are
 * held to the same inputs.
 */
module Scenarios {
  import opened Wrappers
  import opened Records
  import opened Margin
  import SimpleEngine
  import PricingEngine

  /**
   * On a record both engines can price, with a positive base, their
   * unrounded prices agree exactly when inventory is at least 10 (both
   * +10%); under low inventory the fallback gives +20% and the advanced
   * engine +30%.
   */
  lemma EnginesAgreeIffStocked(p: Record, predict: PricingEngine.Predictor)
    requires SimpleEngine.Decide(p).Success? && PricingEngine.Price(p, predict).Success?
    requires NumberAt(p, BasePrice) > 0.0
    ensures SimpleEngine.Decide(p).value.price == PricingEngine.Price(p, predict).value
            <==> NumberAt(p, Inventory) >= 10.0
    ensures NumberAt(p, Inventory) < 10.0 ==>
              SimpleEngine.Decide(p).value.price < PricingEngine.Price(p, predict).value
  {
    SimpleEngine.DecideMeaning(p);
    PricingEngine.PriceMeaning(p, predict);
  }

  /** A product record shaped like the ones the tests and the demo list use. */
  function Product(id: string, base: real, inventory: real, sales: real, rating: real, category: string): Record {
    map["product_id" := Str(id), BasePrice := Num(base), Inventory := Num(inventory),
        Sales := Num(sales), Rating := Num(rating), "category" := Str(category)]
  }

  /** How the advanced engine prices such a record, for a non-negative base. */
  lemma ProductPrice(id: string, base: real, inventory: real, sales: real, rating: real, category: string,
                     predict: PricingEngine.Predictor)
    requires base >= 0.0
    ensures PricingEngine.Price(Product(id, base, inventory, sales, rating, category), predict)
            == Success(base * if inventory < 10.0 then 1.3 else 1.1)
  {
    PricingEngine.PriceMeaning(Product(id, base, inventory, sales, rating, category), predict);
  }

  /** Which rule the fallback engine applies to such a record, and its price, for a positive base. */
  lemma ProductDecision(id: string, base: real, inventory: real, sales: real, rating: real, category: string)
    requires base > 0.0
    ensures SimpleEngine.Decide(Product(id, base, inventory, sales, rating, category)).Success?
    ensures SimpleEngine.Decide(Product(id, base, inventory, sales, rating, category)).value.rule
            == if inventory < 10.0 then SimpleEngine.LowInventory
               else if sales > 100.0 then SimpleEngine.HighDemand
               else SimpleEngine.Standard
    ensures SimpleEngine.Decide(Product(id, base, inventory, sales, rating, category)).value.price
            == base * if inventory < 10.0 then 1.2 else 1.1
  {
    SimpleEngine.DecideMeaning(Product(id, base, inventory, sales, rating, category));
  }

  /**
   * The advanced engine's unit test: base 100 and inventory 5 give
   * `adjusted_price = round(130, 2)`, and 130 lies in the tested range
   * [110, 150], whatever the demand model predicts; when `round` leaves 130
   * as it is, the stored `adjusted_price` itself is in that range.
   */
  lemma AdvancedEngineTest(predict: PricingEngine.Predictor, round: Rounding)
    ensures PricingEngine.Price(Product("P001", 100.0, 5.0, 120.0, 4.5, "Electronics"), predict) == Success(130.0)
    ensures PricingEngine.EngineBatch([Product("P001", 100.0, 5.0, 120.0, 4.5, "Electronics")], predict, round).Success?
    ensures PricingEngine.EngineBatch([Product("P001", 100.0, 5.0, 120.0, 4.5, "Electronics")], predict, round).value[0][AdjustedPrice]
            == Num(round(130.0, 2))
    // the test's own assertions, on the rounded price, for a `round` that keeps a value with no more digits than asked for
    ensures round(130.0, 2) == 130.0 ==>
              110.0 <= PricingEngine.EngineBatch([Product("P001", 100.0, 5.0, 120.0, 4.5, "Electronics")], predict, round).value[0][AdjustedPrice].x <= 150.0
  {
    var p := Product("P001", 100.0, 5.0, 120.0, 4.5, "Electronics");
    PricingEngine.PriceMeaning(p, predict);
    PricingEngine.EngineBatchMeaning([p], predict, round);
  }

  /** The record the API test posts: inventory 15, sales 120. */
  function ApiSample(): Record {
    Product("P001", 100.0, 15.0, 120.0, 4.5, "Electronics")
  }

  /**
   * The API test, served by the fallback engine: the response record
   * carries `adjusted_price`, from the high-demand rule at +10%.
   */
  lemma ApiTestFallback(round: Rounding)
    ensures SimpleEngine.Decide(ApiSample()).Success?
    ensures SimpleEngine.Decide(ApiSample()).value.rule == SimpleEngine.HighDemand
    ensures SimpleEngine.Decide(ApiSample()).value.price == 110.0
    ensures SimpleEngine.SimpleBatch([ApiSample()], round).Success?
    ensures AdjustedPrice in SimpleEngine.SimpleBatch([ApiSample()], round).value[0]
  {
    var p := ApiSample();
    SimpleEngine.DecideMeaning(p);
    SimpleEngine.SimpleBatchMeaning([p], round);
    assert AdjustedPrice in SimpleEngine.Metrics(SimpleEngine.Decide(p).value, round);
  }

  /**
   * The API test, served by the advanced engine: the response record
   * carries `adjusted_price`, at +10% before rounding.
   */
  lemma ApiTestAdvanced(predict: PricingEngine.Predictor, round: Rounding)
    ensures PricingEngine.Price(ApiSample(), predict) == Success(110.0)
    ensures PricingEngine.EngineBatch([ApiSample()], predict, round).Success?
    ensures AdjustedPrice in PricingEngine.EngineBatch([ApiSample()], predict, round).value[0]
  {
    var p := ApiSample();
    PricingEngine.PriceMeaning(p, predict);
    PricingEngine.EngineBatchMeaning([p], predict, round);
    PricingEngine.PricedMeaning(p, predict, round);
  }

  /** The demo product list `/api/products` prices (backend/app/routes.py). */
  function DemoProducts(): seq<Record> {
    [Product("P001", 100.0, 15.0, 120.0, 4.5, "Electronics"),
     Product("P002", 200.0, 50.0, 40.0, 4.0, "Apparel"),
     Product("P003", 50.0, 5.0, 10.0, 3.8, "Home"),
     Product("P004", 75.0, 25.0, 80.0, 4.2, "Electronics"),
     Product("P005", 150.0, 8.0, 60.0, 4.7, "Apparel")]
  }

  /**
   * The fallback engine on the demo list: the rules that fire and the
   * unrounded prices; P002 and P004 fall to the standard +5%, which the
   * clamp lifts to +10%.
   */
  lemma DemoFallback()
    ensures forall i :: 0 <= i < 5 ==> SimpleEngine.Decide(DemoProducts()[i]).Success?
    ensures SimpleEngine.Decide(DemoProducts()[0]).value.rule == SimpleEngine.HighDemand
    ensures SimpleEngine.Decide(DemoProducts()[1]).value.rule == SimpleEngine.Standard
    ensures SimpleEngine.Decide(DemoProducts()[2]).value.rule == SimpleEngine.LowInventory
    ensures SimpleEngine.Decide(DemoProducts()[3]).value.rule == SimpleEngine.Standard
    ensures SimpleEngine.Decide(DemoProducts()[4]).value.rule == SimpleEngine.LowInventory
    ensures SimpleEngine.Decide(DemoProducts()[0]).value.price == 110.0
    ensures SimpleEngine.Decide(DemoProducts()[1]).value.price == 220.0
    ensures SimpleEngine.Decide(DemoProducts()[2]).value.price == 60.0
    ensures SimpleEngine.Decide(DemoProducts()[3]).value.price == 82.5
    ensures SimpleEngine.Decide(DemoProducts()[4]).value.price == 180.0
  {
    var ps := DemoProducts();
    assert ps[0] == Product("P001", 100.0, 15.0, 120.0, 4.5, "Electronics");
    ProductDecision("P001", 100.0, 15.0, 120.0, 4.5, "Electronics");
    assert ps[1] == Product("P002", 200.0, 50.0, 40.0, 4.0, "Apparel");
    ProductDecision("P002", 200.0, 50.0, 40.0, 4.0, "Apparel");
    assert ps[2] == Product("P003", 50.0, 5.0, 10.0, 3.8, "Home");
    ProductDecision("P003", 50.0, 5.0, 10.0, 3.8, "Home");
    assert ps[3] == Product("P004", 75.0, 25.0, 80.0, 4.2, "Electronics");
    ProductDecision("P004", 75.0, 25.0, 80.0, 4.2, "Electronics");
    assert ps[4] == Product("P005", 150.0, 8.0, 60.0, 4.7, "Apparel");
    ProductDecision("P005", 150.0, 8.0, 60.0, 4.7, "Apparel");
  }

  /** The advanced engine on the demo list, whatever the demand model predicts. */
  lemma DemoAdvanced(predict: PricingEngine.Predictor)
    ensures PricingEngine.Price(DemoProducts()[0], predict) == Success(110.0)
    ensures PricingEngine.Price(DemoProducts()[1], predict) == Success(220.0)
    ensures PricingEngine.Price(DemoProducts()[2], predict) == Success(65.0)
    ensures PricingEngine.Price(DemoProducts()[3], predict) == Success(82.5)
    ensures PricingEngine.Price(DemoProducts()[4], predict) == Success(195.0)
  {
    var ps := DemoProducts();
    assert ps[0] == Product("P001", 100.0, 15.0, 120.0, 4.5, "Electronics");
    ProductPrice("P001", 100.0, 15.0, 120.0, 4.5, "Electronics", predict);
    assert ps[1] == Product("P002", 200.0, 50.0, 40.0, 4.0, "Apparel");
    ProductPrice("P002", 200.0, 50.0, 40.0, 4.0, "Apparel", predict);
    assert ps[2] == Product("P003", 50.0, 5.0, 10.0, 3.8, "Home");
    ProductPrice("P003", 50.0, 5.0, 10.0, 3.8, "Home", predict);
    assert ps[3] == Product("P004", 75.0, 25.0, 80.0, 4.2, "Electronics");
    ProductPrice("P004", 75.0, 25.0, 80.0, 4.2, "Electronics", predict);
    assert ps[4] == Product("P005", 150.0, 8.0, 60.0, 4.7, "Apparel");
    ProductPrice("P005", 150.0, 8.0, 60.0, 4.7, "Apparel", predict);
  }
}
