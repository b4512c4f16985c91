/**
 * Product records as the two pricing engines see them: JSON-like dictionaries
 * from string keys to dynamically typed values, read with Python's
 * `record[key]` semantics (a missing key raises, a non-number used in
 * arithmetic or a comparison raises).
 */
module Records {
  import opened Wrappers

  /** A value stored under a key. Python ints and floats are both `Num`. */
  datatype Value = Num(x: real) | Bool(b: bool) | Str(s: string) | Null | Other

  type Record = map<string, Value>

  /** Why processing a record raised. */
  datatype Error =
    | MissingKey(key: string)   // `record[key]` on an absent key (KeyError)
    | NotANumber(key: string)   // the value under `key` took part in arithmetic or a comparison
    | DivisionByZero            // `/ base_price` with a zero base price

  // Keys read by the engines.
  const BasePrice: string := "base_price"
  const Inventory: string := "inventory"
  const Sales: string := "sales_last_30_days"
  const Rating: string := "average_rating"

  // Keys written by the engines.
  const AdjustedPrice: string := "adjusted_price"
  const PriceChangePercent: string := "price_change_percent"
  const RevenueImpact: string := "revenue_impact"
  const RuleApplied: string := "rule_applied"
  const PredictedSales: string := "predicted_sales"
  const CompetitorPrice: string := "competitor_price"
  const DemandMultiplier: string := "demand_multiplier"

  /** Python's `round(x, ndigits)` on floats, left abstract. */
  type Rounding = (real, nat) -> real

  /** `record[key]`. */
  function Lookup(r: Record, key: string): (v: Result<Value, Error>)
    ensures v.Success? <==> key in r
    ensures v.Success? ==> v.value == r[key]
    ensures v.Failure? ==> v.error == MissingKey(key)
  {
    if key in r then Success(r[key]) else Failure(MissingKey(key))
  }

  /** Values Python accepts in arithmetic and numeric comparisons (bool is an int subclass). */
  predicate IsNumeric(v: Value) {
    v.Num? || v.Bool?
  }

  /** The number a value stands for when used in arithmetic; `key` names it in the error. */
  function AsNumber(v: Value, key: string): (x: Result<real, Error>)
    ensures x.Success? <==> IsNumeric(v)
    ensures v.Num? ==> x == Success(v.x)
    ensures v.Bool? ==> x == Success(if v.b then 1.0 else 0.0)
    ensures x.Failure? ==> x.error == NotANumber(key)
  {
    match v
    case Num(n) => Success(n)
    case Bool(b) => Success(if b then 1.0 else 0.0)
    case _ => Failure(NotANumber(key))
  }

  /** `key` is present and holds a number. */
  predicate HasNumber(r: Record, key: string) {
    key in r && IsNumeric(r[key])
  }

  /** The number under `key`. */
  function NumberAt(r: Record, key: string): real
    requires HasNumber(r, key)
  {
    AsNumber(r[key], key).value
  }

  /** The contents of a list of dictionaries, in order. */
  ghost function Snapshot(ds: seq<Dict>): (s: seq<Record>)
    reads ds
    ensures |s| == |ds| && forall i :: 0 <= i < |ds| ==> s[i] == ds[i].entries
  {
    seq(|ds|, i requires 0 <= i < |ds| reads ds => ds[i].entries)
  }

  /** The contents of an engine's result: the records of the returned dictionaries, or its error. */
  ghost function Contents(res: Result<seq<Dict>, Error>): (c: Result<seq<Record>, Error>)
    reads if res.Success? then res.value else []
    ensures c.Success? <==> res.Success?
    ensures res.Failure? ==> c.error == res.error
    ensures res.Success? ==> c.value == Snapshot(res.value)
  {
    if res.Success? then Success(Snapshot(res.value)) else Failure(res.error)
  }

  /** No dictionary occurs twice in the list. */
  predicate Distinct(ds: seq<Dict>) {
    forall i, j :: 0 <= i < j < |ds| ==> ds[i] != ds[j]
  }

  /** A dictionary not yet in a list of distinct ones keeps it distinct when appended. */
  lemma DistinctSnoc(ds: seq<Dict>, d: Dict)
    requires Distinct(ds) && d !in ds
    ensures Distinct(ds + [d])
  {
  }

  /** A mutable Python dictionary; lists of these are what the engines receive. */
  class Dict {
    var entries: Record

    constructor (initial: Record)
      ensures entries == initial
    {
      entries := initial;
    }

    /** `d.copy()`: a new dictionary with the same entries. */
    method Copy() returns (c: Dict)
      ensures fresh(c) && c.entries == entries
    {
      c := new Dict(entries);
    }

    /** `d.update(other)`: keys of `other` are added or overwritten, the others kept. */
    method Update(other: Record)
      modifies this
      ensures entries == old(entries) + other
    {
      entries := entries + other;
    }

    /** `d[key] = v`. */
    method Set(key: string, v: Value)
      modifies this
      ensures entries == old(entries)[key := v]
    {
      entries := entries[key := v];
    }
  }
}
