# Dynamic pricing engines, modelled in Dafny

The Dynamic-Pricing-System backend prices a batch of product records: JSON
objects with a base price, an inventory count, recent sales, an average
rating and other keys. It has two pricing engines. The route module serves
whichever one it could import.

- **The fallback engine** (`simple_get_adjusted_prices`, backend/app/routes.py) picks one of
  three markups: low inventory +20%, high demand +10%, standard +5%. It
  clamps the price into the margin band `[1.1·base, 1.5·base]` and returns
  a *copy* of each record. The copy carries seven added or overwritten keys:
  the rounded price, the percent change, the revenue impact, the rule label,
  a predicted-sales figure and two constants.
- **The advanced engine** (`get_adjusted_prices`, backend/app/pricing_engine.py) asks a trained demand
  model for a prediction from the base price. It applies an inventory rule
  and a demand rule, then the same band written as `max` then `min`. It
  writes the rounded price into each *input* dictionary in place, and
  returns the same objects.

The model has these modules:

- `Records`: dynamically typed values and records; Python's `record[key]`
  and numeric-operand semantics; the mutable dictionary class `Dict`
  (`copy`, `update`, item assignment).
- `Margin`: the band and its two clamps.
- `Batch`: the in-order walk that stops at the first record that raises.
- `SimpleEngine` and `PricingEngine`: the two engines. Each has a
  specification on values (a per-record function plus the batch built from
  it) and an imperative method that mirrors the source loop and is proved
  against that specification.
- `Scenarios`: compares the two engines and replays the repository's tests
  and demo product list.

Conventions:

- Prices are exact reals.
- Python's `round` is a parameter of type `Rounding`. The demand model is
  a parameter of type `Predictor` (a function of the base price). Every
  property holds for every choice of either.
- A record that raises is modelled as a `Failure`:
  - a missing key gives `MissingKey`, for the first key read in source
    order;
  - a non-number used in arithmetic or a comparison gives `NotANumber`
    (bools count as numbers, as in Python);
  - the fallback engine's division by a zero base price gives
    `DivisionByZero`.

  The whole batch is then abandoned, as the exception would abandon it.

## Model

| member | source | states |
|---|---|---|
| `Records.Lookup` | backend/app/routes.py:7-9 | `record[key]` succeeds exactly when the key is present, yields its value, and otherwise raises a missing-key error naming that key |
| `Records.AsNumber` | backend/app/pricing_engine.py:21 | a value is usable as a number exactly when it is a number or a bool (bools as 0/1); anything else raises a not-a-number error naming the key |
| `Records.Dict.Copy` | backend/app/routes.py:25 | `copy()` returns a new dictionary (not an existing object) with the same entries |
| `Records.Dict.Update` | backend/app/routes.py:26-34 | `update(...)` adds or overwrites exactly the given keys and keeps the others |
| `Records.Dict.Set` | backend/app/pricing_engine.py:30 | item assignment replaces one key of that dictionary only |
| `Margin.Max` | backend/app/routes.py:23 | Python's two-argument `max`: the result is one of the arguments and at least both |
| `Margin.Min` | backend/app/pricing_engine.py:28 | Python's two-argument `min`: the result is one of the arguments and at most both |
| `Margin.CapThenRaise` | backend/app/routes.py:23 | for a non-negative base the clamped price lies in the band; a price already in the band is unchanged, one below lands on the floor, one above on the ceiling; for a negative base the floor wins |
| `Margin.RaiseThenCap` | backend/app/pricing_engine.py:27-28 | the same band guarantees for `max` then `min`; for a negative base the ceiling wins |
| `Margin.ClampsIdempotent` | backend/app/pricing_engine.py:27-28 | clamping an already clamped price changes nothing, for either clamp |
| `Margin.ClampsAgreeIffNonNegativeBase` | backend/app/routes.py:23 | the two engines' clamps give the same price for every input price exactly when the base is not negative |
| `Batch.Traverse` | backend/app/routes.py:6-35 | a successful walk over a batch has one result per record |
| `Batch.TraverseSucceeds` | backend/app/routes.py:6-37 | a batch succeeds exactly when every record does, and then result `i` is record `i`'s result (length and order kept) |
| `Batch.TraverseFailsFirst` | backend/app/pricing_engine.py:9-31 | a failing batch reports the error of a record all of whose predecessors succeed, i.e. the first one that raises |
| `Batch.TraverseSnoc` | backend/app/routes.py:35 | handling one more successful record appends its result |
| `Batch.TraverseStopsAt` | backend/app/routes.py:6-10 | after a successful prefix, a record that raises ends the whole batch with its error |
| `SimpleEngine.DecideMeaning` | backend/app/routes.py:7-28 | a record is priced exactly when base price, inventory and sales are present and numeric and the base is non-zero; the first missing key in read order, and then each non-numeric operand or the zero base in the order the branch taken evaluates them (inventory; then base price, division, sales under low inventory; sales, base price, division otherwise), gives its own error; low inventory wins whatever the sales, then sales over 100, then standard; for a positive base the price is in the band, at +20% under low inventory and at +10% otherwise (the standard +5% is lifted to the floor); for a negative base every rule ends at the floor |
| `SimpleEngine.PercentChangeBand` | backend/app/routes.py:28 | for a positive base the reported percent change lies in [10, 50]: it is 20 under low inventory and 10 otherwise |
| `SimpleEngine.ImpactNonNegative` | backend/app/routes.py:29 | with a positive base and non-negative sales the revenue impact is never negative |
| `SimpleEngine.EnrichMeaning` | backend/app/routes.py:25-34 | the copy has the record's keys plus the seven metric keys, keeps every other value. Its metric values are the rounded price, percent change and impact, the rule label, sales × 0.95 rounded to one place, `None`, and 1.0 |
| `SimpleEngine.SimpleBatchMeaning` | backend/app/routes.py:5-37 | the batch succeeds exactly when every record can be priced, and then holds, in input order and one per record, each record's enriched copy; otherwise it reports the error of the first record that raises |
| `SimpleEngine.DecideRecord` | backend/app/routes.py:7-29 | the step-by-step reads, rule choice, clamp and the operations that can still raise compute exactly the specified decision or error |
| `SimpleEngine.PriceProduct` | backend/app/routes.py:7-34 | one pass of the loop body: on success a new dictionary, made by `copy()` then `update(...)`, holding the record's enriched copy; otherwise the error the record raises, both as the per-record specification gives them |
| `SimpleEngine.SimpleGetAdjustedPrices` | backend/app/routes.py:3-37 | the inputs are not modified; the returned dictionaries hold exactly the batch specification's records (or the call fails with its error); each is a new object, never one of the inputs, and no dictionary appears twice in the result |
| `PricingEngine.RulePriceMeaning` | backend/app/pricing_engine.py:18-28 | for a non-negative base the final price is in the band: exactly +30% under low inventory, and exactly +10% otherwise, whatever the predicted sales; for a negative base the ceiling wins |
| `PricingEngine.PriceMeaning` | backend/app/pricing_engine.py:10-28 | a record is priced exactly when the four read keys are present and base price and inventory are numeric; each missing key, in read order, and each non-numeric operand gives its own error; the price is in the band with the values above |
| `PricingEngine.DemandModelIrrelevant` | backend/app/pricing_engine.py:16-28 | any two demand models give every record the same outcome |
| `PricingEngine.SalesAndRatingIgnored` | backend/app/pricing_engine.py:12-13 | changing the sales or rating values leaves the outcome unchanged |
| `PricingEngine.PricedMeaning` | backend/app/pricing_engine.py:30 | pricing adds or overwrites only `adjusted_price`, with the rounded price, and keeps every other key and value; it fails exactly when the price does, with its error |
| `PricingEngine.PricedIsStable` | backend/app/pricing_engine.py:10-30 | pricing an already priced record gives the same price and the same record |
| `PricingEngine.EngineBatchMeaning` | backend/app/pricing_engine.py:8-32 | the batch succeeds exactly when every record can be priced, and then holds, in input order, each record priced on its own; otherwise it reports the first failing record's error |
| `PricingEngine.CurrentPricesAsBefore` | backend/app/pricing_engine.py:9-13 | a dictionary met a second time in the list (an alias) prices exactly as it did the first time |
| `PricingEngine.HandleNext` | backend/app/pricing_engine.py:30-31 | writing a record's price into its dictionary extends the handled prefix by one, for the dictionary and all its aliases |
| `PricingEngine.FailsAt` | backend/app/pricing_engine.py:9-16 | a record that raises after a handled prefix is the batch's first failure, and its error is the batch's |
| `PricingEngine.HandledAll` | backend/app/pricing_engine.py:32 | once every dictionary is handled, the contents are exactly the batch specification's records |
| `PricingEngine.PriceRecord` | backend/app/pricing_engine.py:10-28 | the step-by-step reads, prediction, rules and the two clamp statements compute exactly the specified price or error |
| `PricingEngine.GetAdjustedPrices` | backend/app/pricing_engine.py:7-32 | only the input dictionaries change. On success the result is a new list holding the input dictionaries themselves, in order, and the dictionaries hold exactly the batch specification's priced records, aliases included. On failure the error is the batch's: the dictionaries before the first failing record are priced and the rest keep their contents |
| `Scenarios.EnginesAgreeIffStocked` | backend/app/routes.py:39-45 | on a record both engines can price, with a positive base, their prices agree exactly when inventory is at least 10; below that the advanced engine charges more |
| `Scenarios.ProductPrice` | backend/app/pricing_engine.py:21-28 | a record with numeric fields and a non-negative base is priced at +30% or +10% by inventory |
| `Scenarios.ProductDecision` | backend/app/routes.py:12-23 | a record with numeric fields and a positive base gets the rule its inventory and sales select, at +20% or +10% |
| `Scenarios.AdvancedEngineTest` | tests/test_pricing_engine.py:3-14 | the test record (base 100, inventory 5) is priced at 130, which is inside the tested range [110, 150], whatever the demand model; its `adjusted_price` is the rounding of 130, and when `round` leaves 130 unchanged the stored `adjusted_price` passes the test's two assertions |
| `Scenarios.ApiTestFallback` | tests/test_routes.py:4-17 | served by the fallback engine, the posted record (inventory 15, sales 120) gets the high-demand rule at 110 and the response record carries `adjusted_price` |
| `Scenarios.ApiTestAdvanced` | tests/test_routes.py:4-17 | served by the advanced engine, the posted record is priced at 110 and the response record carries `adjusted_price` |
| `Scenarios.DemoFallback` | backend/app/routes.py:68-74 | on the five demo products the fallback engine fires high demand, standard, low inventory, standard, low inventory, at 110, 220, 60, 82.5 and 180 |
| `Scenarios.DemoAdvanced` | backend/app/routes.py:68-74 | on the five demo products the advanced engine prices 110, 220, 65, 82.5 and 195, whatever the demand model |

## Left out

- The Flask blueprint, its handlers, JSON and HTTP status handling (backend/app/routes.py:47-118): these are web plumbing. The demo and competitor lists enter only as concrete inputs.
- The import-time choice between the engines (backend/app/routes.py:39-45): this is deployment wiring. Each engine is modelled separately, and `Scenarios` compares them.
- Loading the pickled model (backend/app/pricing_engine.py:4-5), training and evaluation (backend/ml/): this is I/O and floating-point learning. The model's `predict` is the `Predictor` parameter. A non-numeric base price is taken to make it raise.
- PricingEngine.Predictor: `model.predict` is assumed to return a number for every numeric base price and never to raise. Every statement that the advanced engine prices a record holds only under that assumption, from the success condition of `PricingEngine.PriceMeaning` through `PricingEngine.GetAdjustedPrices` to the scenarios. The training script fits its model on four features (backend/ml/train_model.py:68) and saves it as `model.pkl` (backend/ml/train_model.py:107). The engine passes one feature, the base price alone (backend/app/pricing_engine.py:16). If that saved model is the one loaded, the call would be rejected for the wrong feature count on every record, and every non-empty batch would fail. The model does not capture this.
- Input shape: both engines are modelled as receiving a list of dictionaries with string keys. The route passes the request's JSON body on unchecked (backend/app/routes.py:88-92). A list element that is not a dictionary, or a JSON object (iterated by its keys), makes the first `product["base_price"]` raise a type error; the model does not capture these inputs.
- Lists are modelled as sequence values, so list identity is not captured: `get_adjusted_prices` returns a new list (backend/app/pricing_engine.py:8) whose elements are the input dictionaries, and the model states only the elements.
- Python's `round` on binary floats: it is the `Rounding` parameter. The band properties are stated on the unrounded price, because rounding to cents can move a price with more than two decimals across a band edge.
- Floating-point representation, NaN and infinities: prices are exact reals.
- The app factories, startup scripts and frontend: these are framework wiring and UI.
- Category multipliers, competitor response, rating adjustment and scarcity or overstock slopes: no file of the repository implements them. The model follows the code: two engines, two clamp orders, and the rules above.
