/** Measured execution cost: four nested ceilings, in exact integer arithmetic. */
module Pricing {
  import opened Basics

  const MICROCREDITS_PER_CREDIT := 1_000_000

  datatype PricingError = RateNotConfigured | UsageInvalid

  datatype Rate = Rate(inputPerMillion: nat, outputPerMillion: nat, computePerHour: nat, marginBps: nat)
  datatype Usage = Usage(provider: string, model: string, inputTokens: int, outputTokens: int, computeMs: int)

  // The least integer at or above n / d.
  function CeilDiv(n: nat, d: nat): (q: nat)
    requires d > 0
    ensures (q - 1) * d < n <= q * d
  {
    var q := (n + d - 1) / d;
    assert q * d + (n + d - 1) % d == n + d - 1;
    q
  }

  predicate Measured(u: Usage) {
    u.inputTokens >= 0 && u.outputTokens >= 0 && u.computeMs >= 0
  }

  function UsdMicros(r: Rate, u: Usage): nat
    requires Measured(u)
  {
    CeilDiv(u.inputTokens * r.inputPerMillion + u.outputTokens * r.outputPerMillion, 1_000_000)
    + CeilDiv(u.computeMs * r.computePerHour, 3_600_000)
  }

  function Billable(r: Rate, usd: nat): nat {
    CeilDiv(usd * (10_000 + r.marginBps), 10_000)
  }

  function Microcredits(usdPerCredit: nat, billable: nat): nat
    requires usdPerCredit > 0
  {
    CeilDiv(billable * MICROCREDITS_PER_CREDIT, usdPerCredit)
  }

  function Cost(r: Rate, usdPerCredit: nat, u: Usage): nat
    requires usdPerCredit > 0 && Measured(u)
  {
    Microcredits(usdPerCredit, Billable(r, UsdMicros(r, u)))
  }

  function MeasuredCost(rates: map<(string, string), Rate>, usdPerCredit: nat, u: Usage): Result<nat, PricingError>
    requires usdPerCredit > 0
  {
    if (u.provider, u.model) !in rates then Err(RateNotConfigured)
    else if !Measured(u) then Err(UsageInvalid)
    else Ok(Cost(rates[(u.provider, u.model)], usdPerCredit, u))
  }

  // The least multiple of d at or above n, counted in d.
  predicate Covers(q: nat, n: nat, d: nat) {
    (q - 1) * d < n <= q * d
  }

  lemma CoversOnce(q: nat, n: nat, d: nat)
    requires d > 0 && Covers(q, n, d)
    ensures CeilDiv(n, d) == q
  {
    var c: int := CeilDiv(n, d);
    CancelInt(q - 1, c, d);
    CancelInt(c - 1, q, d);
  }

  // Usage is priced exactly when its rate is configured and nothing in it is negative.
  lemma PricedExactlyWhen(rates: map<(string, string), Rate>, usdPerCredit: nat, u: Usage)
    requires usdPerCredit > 0
    ensures MeasuredCost(rates, usdPerCredit, u).Ok? <==>
      (u.provider, u.model) in rates && 0 <= u.inputTokens && 0 <= u.outputTokens && 0 <= u.computeMs
  {
  }

  // Its price: tokens and compute rounded up to a US micro each, then the margin, rounded up,
  // and then the credits, rounded up.
  lemma PricedExactly(rates: map<(string, string), Rate>, usdPerCredit: nat, u: Usage, tokens: nat, compute: nat, billable: nat, cost: nat)
    requires usdPerCredit > 0 && (u.provider, u.model) in rates && 0 <= u.inputTokens && 0 <= u.outputTokens && 0 <= u.computeMs
    requires var rate := rates[(u.provider, u.model)];
      && Covers(tokens, u.inputTokens * rate.inputPerMillion + u.outputTokens * rate.outputPerMillion, 1_000_000)
      && Covers(compute, u.computeMs * rate.computePerHour, 3_600_000)
      && Covers(billable, (tokens + compute) * (10_000 + rate.marginBps), 10_000)
    requires Covers(cost, billable * 1_000_000, usdPerCredit)
    ensures MeasuredCost(rates, usdPerCredit, u) == Ok(cost)
  {
    hide CeilDiv, Covers;
    var rate := rates[(u.provider, u.model)];
    CoversOnce(tokens, u.inputTokens * rate.inputPerMillion + u.outputTokens * rate.outputPerMillion, 1_000_000);
    CoversOnce(compute, u.computeMs * rate.computePerHour, 3_600_000);
    CoversOnce(billable, (tokens + compute) * (10_000 + rate.marginBps), 10_000);
    CoversOnce(cost, billable * 1_000_000, usdPerCredit);
  }

  // ---------- The rational price the ceilings approximate ----------

  function ExactUsd(r: Rate, u: Usage): real {
    (u.inputTokens * r.inputPerMillion + u.outputTokens * r.outputPerMillion) as real / 1_000_000.0
    + (u.computeMs * r.computePerHour) as real / 3_600_000.0
  }

  function Margin(r: Rate): real {
    (10_000 + r.marginBps) as real / 10_000.0
  }

  function PerUsdMicro(usdPerCredit: nat): real
    requires usdPerCredit > 0
  {
    1_000_000.0 / usdPerCredit as real
  }

  function ExactPrice(r: Rate, usdPerCredit: nat, u: Usage): real
    requires usdPerCredit > 0
  {
    Scaled(ExactUsd(r, u), Margin(r), PerUsdMicro(usdPerCredit))
  }

  function Scaled(usd: real, margin: real, perUsdMicro: real): real {
    usd * margin * perUsdMicro
  }

  // The charge is never below the price, and exceeds it by less than two margins and a unit
  // per US micro, plus one.
  ghost predicate Brackets(price: real, margin: real, perUsdMicro: real, cost: nat) {
    price <= cost as real < price + (2.0 * margin + 1.0) * perUsdMicro + 1.0
  }

  lemma CancelInt(a: int, b: int, d: int)
    requires d > 0 && a * d < b * d
    ensures a < b
  {
    assert a * d - b * d == (a - b) * d;
  }

  lemma CancelReal(a: real, b: real, d: real)
    requires d > 0.0 && a * d < b * d
    ensures a < b
  {
    assert (b - a) * d > 0.0;
  }

  lemma CeilBounds(n: nat, d: nat)
    requires d > 0
    ensures n as real / d as real <= CeilDiv(n, d) as real < n as real / d as real + 1.0
  {
    var q: int := CeilDiv(n, d);
    var x := n as real / d as real;
    RealImage(q, d);
    RealImage(q - 1, d);
    assert x * d as real == n as real;
    CancelReal(q as real - 1.0, x, d as real);
    if q as real < x {
      GrowReal(q as real, x, d as real);
    }
  }

  lemma RealImage(a: int, b: int)
    ensures (a * b) as real == a as real * b as real
  {
  }

  lemma GrowReal(a: real, b: real, d: real)
    requires a < b && d > 0.0
    ensures a * d < b * d
  {
    assert (b - a) * d > 0.0;
  }

  lemma ScaledBounds(lo: real, hi: real, scale: real, width: real)
    requires lo <= hi < lo + width && scale > 0.0
    ensures lo * scale <= hi * scale < lo * scale + width * scale
  {
    assert (hi - lo) * scale >= 0.0;
    assert (lo + width - hi) * scale > 0.0;
  }

  // The charge is never below the exact price, and exceeds it by less than
  // (2k + 1) * 10^6 / u + 1 microcredits, k being the margin factor and u the value of a credit.
  lemma CostBracketsThePrice(r: Rate, usdPerCredit: nat, u: Usage)
    requires usdPerCredit > 0 && Measured(u)
    ensures Brackets(ExactPrice(r, usdPerCredit, u), Margin(r), PerUsdMicro(usdPerCredit), Cost(r, usdPerCredit, u))
  {
    hide ExactUsd, Margin, PerUsdMicro, UsdMicros, Billable, Microcredits;
    UsdBounds(r, u);
    MarginBounds(r, ExactUsd(r, u), UsdMicros(r, u), Margin(r));
    CreditBounds(usdPerCredit, ExactUsd(r, u) * Margin(r), Billable(r, UsdMicros(r, u)), 2.0 * Margin(r) + 1.0,
                 PerUsdMicro(usdPerCredit));
  }

  lemma MarginBounds(r: Rate, exact: real, usd: nat, k: real)
    requires k == Margin(r) && exact <= usd as real < exact + 2.0
    ensures exact * k <= Billable(r, usd) as real < exact * k + (2.0 * k + 1.0)
  {
    CeilAfterScaling(exact, usd, 2.0, 10_000 + r.marginBps, 10_000, k);
  }

  lemma CreditBounds(usdPerCredit: nat, exact: real, billable: nat, width: real, p: real)
    requires usdPerCredit > 0 && p == PerUsdMicro(usdPerCredit) && exact <= billable as real < exact + width
    ensures exact * p <= Microcredits(usdPerCredit, billable) as real < exact * p + width * p + 1.0
  {
    CeilAfterScaling(exact, billable, width, MICROCREDITS_PER_CREDIT, usdPerCredit, p);
  }

  lemma UsdBounds(r: Rate, u: Usage)
    requires Measured(u)
    ensures ExactUsd(r, u) <= UsdMicros(r, u) as real < ExactUsd(r, u) + 2.0
  {
    CeilBounds(u.inputTokens * r.inputPerMillion + u.outputTokens * r.outputPerMillion, 1_000_000);
    CeilBounds(u.computeMs * r.computePerHour, 3_600_000);
  }

  // One more ceiling widens the bracket by exactly one unit.
  lemma CeilAfterScaling(exact: real, n: nat, width: real, num: nat, den: nat, factor: real)
    requires den > 0 && num > 0 && factor == num as real / den as real
    requires exact <= n as real < exact + width
    ensures exact * factor <= CeilDiv(n * num, den) as real < exact * factor + (width * factor + 1.0)
  {
    ScaleOut(n, num, den);
    CeilBounds(n * num, den);
    ScaledBounds(exact, n as real, factor, width);
  }

  lemma ScaleOut(a: nat, b: nat, d: nat)
    requires d > 0
    ensures (a * b) as real / d as real == a as real * (b as real / d as real)
  {
    assert (a * b) as real == a as real * b as real;
  }

  // ---------- Monotone and subadditive ----------

  lemma CeilGrows(n: nat, m: nat, d: nat)
    requires d > 0 && n <= m
    ensures CeilDiv(n, d) <= CeilDiv(m, d)
  {
    var p: int := CeilDiv(n, d);
    var q: int := CeilDiv(m, d);
    CancelInt(p - 1, q, d);
  }

  lemma CeilSplits(n: nat, m: nat, d: nat)
    requires d > 0
    ensures CeilDiv(n + m, d) <= CeilDiv(n, d) + CeilDiv(m, d)
  {
    var p, q := CeilDiv(n, d), CeilDiv(m, d);
    var s: int := CeilDiv(n + m, d);
    assert (p + q) * d == p * d + q * d;
    CancelInt(s - 1, p + q, d);
  }

  ghost predicate NoMoreThan(u: Usage, v: Usage) {
    u.inputTokens <= v.inputTokens && u.outputTokens <= v.outputTokens && u.computeMs <= v.computeMs
  }

  // More measured use never costs less.
  lemma CostIsMonotone(r: Rate, usdPerCredit: nat, u: Usage, v: Usage)
    requires usdPerCredit > 0 && Measured(u) && Measured(v) && NoMoreThan(u, v)
    ensures Cost(r, usdPerCredit, u) <= Cost(r, usdPerCredit, v)
  {
    ProductGrows(u.inputTokens, v.inputTokens, r.inputPerMillion);
    ProductGrows(u.outputTokens, v.outputTokens, r.outputPerMillion);
    ProductGrows(u.computeMs, v.computeMs, r.computePerHour);
    CeilGrows(u.inputTokens * r.inputPerMillion + u.outputTokens * r.outputPerMillion,
              v.inputTokens * r.inputPerMillion + v.outputTokens * r.outputPerMillion, 1_000_000);
    CeilGrows(u.computeMs * r.computePerHour, v.computeMs * r.computePerHour, 3_600_000);
    ChargeGrows(r, usdPerCredit, UsdMicros(r, u), UsdMicros(r, v));
  }

  lemma ProductGrows(a: nat, b: nat, c: nat)
    requires a <= b
    ensures a * c <= b * c
  {
    assert (b - a) * c >= 0;
  }

  lemma ChargeGrows(r: Rate, usdPerCredit: nat, usd: nat, usd': nat)
    requires usdPerCredit > 0 && usd <= usd'
    ensures Microcredits(usdPerCredit, Billable(r, usd)) <= Microcredits(usdPerCredit, Billable(r, usd'))
  {
    ProductGrows(usd, usd', 10_000 + r.marginBps);
    CeilGrows(usd * (10_000 + r.marginBps), usd' * (10_000 + r.marginBps), 10_000);
    CeilGrows(Billable(r, usd) * MICROCREDITS_PER_CREDIT, Billable(r, usd') * MICROCREDITS_PER_CREDIT, usdPerCredit);
  }

  function Joined(u: Usage, v: Usage): Usage {
    u.(inputTokens := u.inputTokens + v.inputTokens,
       outputTokens := u.outputTokens + v.outputTokens,
       computeMs := u.computeMs + v.computeMs)
  }

  // Splitting one report of use into two never lowers the charge.
  lemma SplittingNeverSaves(r: Rate, usdPerCredit: nat, u: Usage, v: Usage)
    requires usdPerCredit > 0 && Measured(u) && Measured(v)
    ensures Cost(r, usdPerCredit, Joined(u, v)) <= Cost(r, usdPerCredit, u) + Cost(r, usdPerCredit, v)
  {
    var tokens := u.inputTokens * r.inputPerMillion + u.outputTokens * r.outputPerMillion;
    var tokens' := v.inputTokens * r.inputPerMillion + v.outputTokens * r.outputPerMillion;
    var w := Joined(u, v);
    assert w.inputTokens * r.inputPerMillion + w.outputTokens * r.outputPerMillion == tokens + tokens';
    assert w.computeMs * r.computePerHour == u.computeMs * r.computePerHour + v.computeMs * r.computePerHour;
    CeilSplits(tokens, tokens', 1_000_000);
    CeilSplits(u.computeMs * r.computePerHour, v.computeMs * r.computePerHour, 3_600_000);
    ChargeGrows(r, usdPerCredit, UsdMicros(r, w), UsdMicros(r, u) + UsdMicros(r, v));
    ChargeSplits(r, usdPerCredit, UsdMicros(r, u), UsdMicros(r, v));
  }

  lemma ChargeSplits(r: Rate, usdPerCredit: nat, a: nat, b: nat)
    requires usdPerCredit > 0
    ensures Microcredits(usdPerCredit, Billable(r, a + b))
         <= Microcredits(usdPerCredit, Billable(r, a)) + Microcredits(usdPerCredit, Billable(r, b))
  {
    var k := 10_000 + r.marginBps;
    assert (a + b) * k == a * k + b * k;
    CeilSplits(a * k, b * k, 10_000);
    var x, y := Billable(r, a), Billable(r, b);
    CeilGrows(Billable(r, a + b) * MICROCREDITS_PER_CREDIT, (x + y) * MICROCREDITS_PER_CREDIT, usdPerCredit);
    CeilSplits(x * MICROCREDITS_PER_CREDIT, y * MICROCREDITS_PER_CREDIT, usdPerCredit);
  }
}
