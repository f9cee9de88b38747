/** `calculateCost` of packages/ai/src/models.ts: the rates of the highest tier below the input, over real numbers. */
module Cost {
  import opened Seqs

  datatype Rates = Rates(input: real, output: real, cacheRead: real, cacheWrite: real)

  datatype Tier = Tier(inputTokensAbove: real, rates: Rates)

  datatype Usage = Usage(input: real, output: real, cacheRead: real, cacheWrite: real, cacheWrite1h: Option<real>)

  datatype Costs = Costs(input: real, output: real, cacheRead: real, cacheWrite: real, total: real)

  function InputTokens(u: Usage): real {
    u.input + u.cacheRead + u.cacheWrite
  }

  /** Below the input, and above the -1 the search starts from. */
  predicate Applies(t: Tier, inputTokens: real) {
    inputTokens > t.inputTokensAbove > -1.0
  }

  /** The tier with the highest threshold of those that apply, the first of them if several share it. */
  ghost predicate IsSelected(tiers: seq<Tier>, inputTokens: real, k: Option<nat>) {
    match k
    case None => forall i | 0 <= i < |tiers| :: !Applies(tiers[i], inputTokens)
    case Some(best) =>
      && best < |tiers| && Applies(tiers[best], inputTokens)
      && forall i | 0 <= i < |tiers| && Applies(tiers[i], inputTokens) ::
          && tiers[i].inputTokensAbove <= tiers[best].inputTokensAbove
          && (i < best ==> tiers[i].inputTokensAbove < tiers[best].inputTokensAbove)
  }

  /** The index the scan over the tiers ends with. */
  function Select(tiers: seq<Tier>, inputTokens: real): (k: Option<nat>)
    ensures IsSelected(tiers, inputTokens, k)
  {
    if tiers == [] then None
    else
      var n := |tiers| - 1;
      var k := Select(tiers[..n], inputTokens);
      var threshold := if k.Some? then tiers[k.value].inputTokensAbove else -1.0;
      if inputTokens > tiers[n].inputTokensAbove && tiers[n].inputTokensAbove > threshold then Some(n) else k
  }

  function RatesFor(base: Rates, tiers: seq<Tier>, inputTokens: real): Rates {
    var k := Select(tiers, inputTokens);
    if k.Some? then tiers[k.value].rates else base
  }

  function LongWrite(u: Usage): real {
    if u.cacheWrite1h.Some? then u.cacheWrite1h.value else 0.0
  }

  function CostsAt(r: Rates, u: Usage): Costs {
    var input, output, cacheRead := r.input / 1000000.0 * u.input, r.output / 1000000.0 * u.output,
        r.cacheRead / 1000000.0 * u.cacheRead;
    var cacheWrite := (r.cacheWrite * (u.cacheWrite - LongWrite(u)) + r.input * 2.0 * LongWrite(u)) / 1000000.0;
    Costs(input, output, cacheRead, cacheWrite, input + output + cacheRead + cacheWrite)
  }

  lemma PriceOf(rate: real, tokens: real)
    ensures rate / 1000000.0 * tokens * 1000000.0 == tokens * rate
  {
    var each := rate / 1000000.0;
    assert tokens * rate == tokens * (each * 1000000.0) == each * tokens * 1000000.0;
  }

  /** Each amount is the price of its own tokens at its own rate per million, one-hour cache writes at twice the input
      rate, and the total is the price of them all. */
  lemma CostsArePrices(r: Rates, u: Usage)
    ensures var c, long := CostsAt(r, u), if u.cacheWrite1h.Some? then u.cacheWrite1h.value else 0.0;
      && c.input * 1000000.0 == u.input * r.input
      && c.output * 1000000.0 == u.output * r.output
      && c.cacheRead * 1000000.0 == u.cacheRead * r.cacheRead
      && c.cacheWrite * 1000000.0 == (u.cacheWrite - long) * r.cacheWrite + long * (2.0 * r.input)
      && c.total * 1000000.0 == u.input * r.input + u.output * r.output + u.cacheRead * r.cacheRead
                                + (u.cacheWrite - long) * r.cacheWrite + long * (2.0 * r.input)
  {
    PriceOf(r.input, u.input);
    PriceOf(r.output, u.output);
    PriceOf(r.cacheRead, u.cacheRead);
    assert r.input * 2.0 * LongWrite(u) == LongWrite(u) * (2.0 * r.input);
  }

  /** The object `usage.cost`, which the calculation fills in. */
  class CostRecord {
    var input: real
    var output: real
    var cacheRead: real
    var cacheWrite: real
    var total: real

    function View(): Costs
      reads this
    {
      Costs(input, output, cacheRead, cacheWrite, total)
    }

    constructor ()
    {
      input, output, cacheRead, cacheWrite, total := 0.0, 0.0, 0.0, 0.0, 0.0;
    }

    method CalculateCost(base: Rates, tiers: seq<Tier>, usage: Usage)
      modifies this
      ensures View() == CostsAt(RatesFor(base, tiers, InputTokens(usage)), usage)
      ensures exists k: Option<nat> ::
        IsSelected(tiers, usage.input + usage.cacheRead + usage.cacheWrite, k)
          && View() == CostsAt(if k.Some? then tiers[k.value].rates else base, usage)
    {
      var rates := MatchTier(base, tiers, usage.input + usage.cacheRead + usage.cacheWrite);
      var longWrite := 0.0;
      if usage.cacheWrite1h.Some? {
        longWrite := usage.cacheWrite1h.value;
      }
      var shortWrite := usage.cacheWrite - longWrite;
      input := rates.input / 1000000.0 * usage.input;
      output := rates.output / 1000000.0 * usage.output;
      cacheRead := rates.cacheRead / 1000000.0 * usage.cacheRead;
      cacheWrite := (rates.cacheWrite * shortWrite + rates.input * 2.0 * longWrite) / 1000000.0;
      total := input + output + cacheRead + cacheWrite;
    }
  }

  /** The loop over the tiers. */
  method MatchTier(base: Rates, tiers: seq<Tier>, inputTokens: real) returns (rates: Rates)
    ensures rates == RatesFor(base, tiers, inputTokens)
    ensures exists k: Option<nat> ::
      IsSelected(tiers, inputTokens, k) && rates == (if k.Some? then tiers[k.value].rates else base)
  {
    rates := base;
    var matchedThreshold := -1.0;
    var i := 0;
    while i < |tiers|
      invariant 0 <= i <= |tiers|
      invariant rates == RatesFor(base, tiers[..i], inputTokens)
      invariant matchedThreshold
             == (var k := Select(tiers[..i], inputTokens);
                 if k.Some? then tiers[k.value].inputTokensAbove else -1.0)
    {
      var tier := tiers[i];
      assert tiers[..i + 1][..i] == tiers[..i];
      if inputTokens > tier.inputTokensAbove && tier.inputTokensAbove > matchedThreshold {
        rates := tier.rates;
        matchedThreshold := tier.inputTokensAbove;
      }
      i := i + 1;
    }
    assert tiers[..i] == tiers;
    assert IsSelected(tiers, inputTokens, Select(tiers, inputTokens));
  }

  lemma SelectionIsUnique(tiers: seq<Tier>, inputTokens: real, k: Option<nat>, l: Option<nat>)
    requires IsSelected(tiers, inputTokens, k) && IsSelected(tiers, inputTokens, l)
    ensures k == l
  {
  }

  ghost predicate DistinctThresholds(tiers: seq<Tier>) {
    forall i, j | 0 <= i < j < |tiers| :: tiers[i].inputTokensAbove != tiers[j].inputTokensAbove
  }

  /** With distinct thresholds the order of the tiers does not matter. */
  lemma OrderDoesNotMatter(base: Rates, tiers: seq<Tier>, shuffled: seq<Tier>, inputTokens: real)
    requires DistinctThresholds(tiers) && (forall t :: t in tiers <==> t in shuffled)
    ensures RatesFor(base, shuffled, inputTokens) == RatesFor(base, tiers, inputTokens)
  {
    var k, l := Select(tiers, inputTokens), Select(shuffled, inputTokens);
    if k.Some? {
      assert tiers[k.value] in shuffled;
    }
    if l.Some? {
      assert shuffled[l.value] in tiers;
    }
  }

  predicate AtMost(r: Rates, s: Rates) {
    r.input <= s.input && r.output <= s.output && r.cacheRead <= s.cacheRead && r.cacheWrite <= s.cacheWrite
  }

  const FREE: Rates := Rates(0.0, 0.0, 0.0, 0.0)

  /** Rates are not negative and do not go down from one threshold to a higher one, the base counting as the lowest. */
  ghost predicate Progressive(base: Rates, tiers: seq<Tier>) {
    && AtMost(FREE, base)
    && (forall i | 0 <= i < |tiers| :: AtMost(base, tiers[i].rates))
    && (forall i, j | 0 <= i < |tiers| && 0 <= j < |tiers| && tiers[i].inputTokensAbove <= tiers[j].inputTokensAbove ::
          AtMost(tiers[i].rates, tiers[j].rates))
  }

  lemma MoreInputHigherRates(base: Rates, tiers: seq<Tier>, m: real, n: real)
    requires Progressive(base, tiers) && m <= n
    ensures AtMost(FREE, RatesFor(base, tiers, m)) && AtMost(RatesFor(base, tiers, m), RatesFor(base, tiers, n))
  {
    var k, l := Select(tiers, m), Select(tiers, n);
    if k.Some? {
      assert Applies(tiers[k.value], n);
    }
  }

  lemma Product(a: real, x: real, b: real, y: real)
    requires 0.0 <= a <= b && 0.0 <= x <= y
    ensures 0.0 <= a * x <= b * y
  {
    assert a * x <= b * x;
    assert b * x <= b * y;
  }

  lemma TwoProducts(a: real, x: real, b: real, y: real, c: real, z: real, d: real, w: real)
    requires 0.0 <= a <= b && 0.0 <= x <= y && 0.0 <= c <= d && 0.0 <= z <= w
    ensures 0.0 <= (a * x + c * z) / 1000000.0 <= (b * y + d * w) / 1000000.0
  {
    Product(a, x, b, y);
    Product(c, z, d, w);
  }

  /** Token counts, with short and one-hour cache writes apart. */
  predicate Counted(u: Usage) {
    u.input >= 0.0 && u.output >= 0.0 && u.cacheRead >= 0.0 && 0.0 <= LongWrite(u) <= u.cacheWrite
  }

  predicate UsesNoMore(u: Usage, v: Usage) {
    && u.input <= v.input && u.output <= v.output && u.cacheRead <= v.cacheRead
    && LongWrite(u) <= LongWrite(v) && u.cacheWrite - LongWrite(u) <= v.cacheWrite - LongWrite(v)
  }

  /** Each component goes up with its rates and its tokens. */
  lemma ComponentsAreMonotone(r: Rates, s: Rates, u: Usage, v: Usage)
    requires AtMost(FREE, r) && AtMost(r, s) && Counted(u) && Counted(v) && UsesNoMore(u, v)
    ensures 0.0 <= CostsAt(r, u).input <= CostsAt(s, v).input
    ensures 0.0 <= CostsAt(r, u).output <= CostsAt(s, v).output
    ensures 0.0 <= CostsAt(r, u).cacheRead <= CostsAt(s, v).cacheRead
  {
    Product(r.input / 1000000.0, u.input, s.input / 1000000.0, v.input);
    Product(r.output / 1000000.0, u.output, s.output / 1000000.0, v.output);
    Product(r.cacheRead / 1000000.0, u.cacheRead, s.cacheRead / 1000000.0, v.cacheRead);
  }

  lemma CacheWritesAreMonotone(r: Rates, s: Rates, u: Usage, v: Usage)
    requires AtMost(FREE, r) && AtMost(r, s) && Counted(u) && Counted(v) && UsesNoMore(u, v)
    ensures 0.0 <= CostsAt(r, u).cacheWrite <= CostsAt(s, v).cacheWrite
  {
    TwoProducts(r.cacheWrite, u.cacheWrite - LongWrite(u), s.cacheWrite, v.cacheWrite - LongWrite(v),
                r.input * 2.0, LongWrite(u), s.input * 2.0, LongWrite(v));
    hide LongWrite;
  }

  lemma TotalIsSum(r: Rates, u: Usage)
    ensures var c := CostsAt(r, u); c.total == c.input + c.output + c.cacheRead + c.cacheWrite
  {
  }

  /** Using more never costs less: in every component and in total, across tiers too. */
  lemma CostIsMonotone(base: Rates, tiers: seq<Tier>, u: Usage, v: Usage)
    requires Progressive(base, tiers) && Counted(u) && Counted(v) && UsesNoMore(u, v)
    ensures var c, d := CostsAt(RatesFor(base, tiers, InputTokens(u)), u),
        CostsAt(RatesFor(base, tiers, InputTokens(v)), v);
      && 0.0 <= c.input <= d.input && 0.0 <= c.output <= d.output && 0.0 <= c.cacheRead <= d.cacheRead
      && 0.0 <= c.cacheWrite <= d.cacheWrite && 0.0 <= c.total <= d.total
  {
    MoreInputHigherRates(base, tiers, InputTokens(u), InputTokens(v));
    var r, s := RatesFor(base, tiers, InputTokens(u)), RatesFor(base, tiers, InputTokens(v));
    ComponentsAreMonotone(r, s, u, v);
    CacheWritesAreMonotone(r, s, u, v);
    TotalIsSum(r, u);
    TotalIsSum(s, v);
    hide RatesFor, Progressive, CostsAt;
  }

  /** Counting some of the cache writes as one-hour writes, the rest being equal, never costs less exactly when the
      one-hour rate, twice the input rate, is at least the short one. */
  lemma LongWritesCostMoreIff(r: Rates, u: Usage)
    ensures r.cacheWrite <= 2.0 * r.input <==>
      forall x: real, y: real | 0.0 <= x <= y ::
        CostsAt(r, u.(cacheWrite1h := Some(x))).total <= CostsAt(r, u.(cacheWrite1h := Some(y))).total
  {
    forall x: real, y: real
      ensures CostsAt(r, u.(cacheWrite1h := Some(y))).total - CostsAt(r, u.(cacheWrite1h := Some(x))).total
           == (2.0 * r.input - r.cacheWrite) * (y - x) / 1000000.0
    {
      LongWriteDifference(r, u, x, y);
    }
    if r.cacheWrite <= 2.0 * r.input {
      forall x: real, y: real | 0.0 <= x <= y
        ensures CostsAt(r, u.(cacheWrite1h := Some(x))).total <= CostsAt(r, u.(cacheWrite1h := Some(y))).total
      {
        Product(0.0, 0.0, 2.0 * r.input - r.cacheWrite, y - x);
      }
    } else {
      var none, one := CostsAt(r, u.(cacheWrite1h := Some(0.0))).total, CostsAt(r, u.(cacheWrite1h := Some(1.0))).total;
      assert one - none == (2.0 * r.input - r.cacheWrite) * (1.0 - 0.0) / 1000000.0;
      assert one < none;
    }
  }

  lemma LongWriteDifference(r: Rates, u: Usage, x: real, y: real)
    ensures CostsAt(r, u.(cacheWrite1h := Some(y))).total - CostsAt(r, u.(cacheWrite1h := Some(x))).total
         == (2.0 * r.input - r.cacheWrite) * (y - x) / 1000000.0
  {
    assert r.cacheWrite * (u.cacheWrite - y) == r.cacheWrite * u.cacheWrite - r.cacheWrite * y;
    assert r.cacheWrite * (u.cacheWrite - x) == r.cacheWrite * u.cacheWrite - r.cacheWrite * x;
    assert (2.0 * r.input - r.cacheWrite) * (y - x)
        == r.input * 2.0 * y - r.input * 2.0 * x - (r.cacheWrite * y - r.cacheWrite * x);
  }
}
