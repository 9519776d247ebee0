/** Spending limits of the credit ledger, and what a misused idempotency key does to it. */
module CreditLimits {
  import opened Basics
  import opened Credits
  import opened CreditProofs
  import Pricing

  // Spend of the period plus open holds stay within the limit, the balance stays above zero and
  // holds stay within the concurrency limit, all but for what settlements cost over estimate.
  ghost predicate Within(b: Books, limit: int, concurrency: int) {
    && b.account.spend >= 0
    && b.account.spend + b.account.reserved <= limit + Sum(b.holds, Overage)
    && b.account.available >= -Sum(b.holds, Overage)
    && Sum(b.holds, HeldCount) <= concurrency
  }

  // The plan the account is on allows no more than this.
  ghost predicate PlanAllows(cat: Catalog, b: Books, limit: int, concurrency: int) {
    b.account.plan in cat.plans ==>
      && Micro(cat.plans[b.account.plan].monthlyLimitCredits) <= limit
      && cat.plans[b.account.plan].concurrencyLimit <= concurrency
  }

  lemma {:induction false} OverageNeverNegative(holds: seq<Hold>)
    ensures Sum(holds, Overage) >= 0
    decreases |holds|
  {
    if holds != [] {
      OverageNeverNegative(holds[..|holds| - 1]);
    }
  }

  lemma GrantWithin(cat: Catalog, b: Books, clock: Clock, limit: int, concurrency: int)
    requires Within(b, limit, concurrency)
    ensures var r := WithGrant(cat, b, clock);
      r.Ok? ==> Within(r.value, limit, concurrency) && r.value.account.plan == b.account.plan
  {
  }

  lemma PlacedWithin(cat: Catalog, g: Books, objective: string, key: string, now: int, limit: int, concurrency: int)
    requires Within(g, limit, concurrency) && PlanAllows(cat, g, limit, concurrency) && g.account.plan in cat.plans
    ensures var r := Placed(cat, g, objective, key, now); r.Ok? ==> Within(r.value.0, limit, concurrency)
  {
    var r := Placed(cat, g, objective, key, now);
    if r.Ok? && r.value.0 != g {
      SumAppend(g.holds, r.value.1, HeldCount);
      SumAppend(g.holds, r.value.1, Overage);
      OverageNeverNegative(g.holds);
    }
  }

  lemma CloseWithin(b: Books, b': Books, i: nat, closed: Hold, limit: int, concurrency: int)
    requires Within(b, limit, concurrency)
    requires i < |b.holds| && b.holds[i].status.Held? && !closed.status.Held? && closed.estimate == b.holds[i].estimate
    requires b'.holds == b.holds[i := closed]
    requires b'.account.reserved == b.account.reserved - closed.estimate
    requires b'.account.spend == b.account.spend + SettledActual(closed)
    requires b'.account.available == b.account.available + closed.estimate - SettledActual(closed)
    ensures Within(b', limit, concurrency)
  {
    SumUpdate(b.holds, i, closed, HeldCount);
    SumUpdate(b.holds, i, closed, Overage);
  }

  lemma SettleWithin(cat: Catalog, b: Books, objective: string, usage: Pricing.Usage, event: string, limit: int, concurrency: int)
    requires cat.usdPerCredit > 0 && Within(b, limit, concurrency)
    ensures var r := SettleObjective(cat, b, objective, usage, event); r.Ok? ==> Within(r.value.0, limit, concurrency)
  {
    var r := SettleObjective(cat, b, objective, usage, event);
    if r.Ok? && r.value.0 != b {
      var i := HoldFor(b.holds, objective);
      CloseWithin(b, r.value.0, i, r.value.0.holds[i], limit, concurrency);
    }
  }

  lemma ReleaseWithin(b: Books, objective: string, limit: int, concurrency: int)
    requires Within(b, limit, concurrency)
    ensures Within(ReleaseObjective(b, objective).0, limit, concurrency)
  {
    var b', i := ReleaseObjective(b, objective).0, HoldFor(b.holds, objective);
    if b' != b {
      CloseWithin(b, b', i, b'.holds[i], limit, concurrency);
    }
  }

  lemma WebhookWithin(cat: Catalog, b: Books, e: Event, clock: Clock, limit: int, concurrency: int)
    requires Within(b, limit, concurrency)
    ensures var r := ProcessWebhook(cat, b, e, clock); r.Ok? ==> Within(r.value.0, limit, concurrency)
  {
    var noted := b.(webhooks := b.webhooks[e.id := e.digest]);
    match e.notice
    case PaidCheckout(session) => CheckoutWithin(cat, noted, e.id, session, clock, limit, concurrency);
    case SubscriptionChange(c) => ChangeWithin(cat, noted, c, e.created, clock, limit, concurrency);
    case Invoice(_, _, _, _) => InvoiceWithin(cat, noted, e.notice, e.created, clock, limit, concurrency);
    case Unhandled =>
  }

  lemma CheckoutWithin(cat: Catalog, b: Books, id: string, session: Option<(bool, string)>, clock: Clock, limit: int, concurrency: int)
    requires Within(b, limit, concurrency)
    ensures var r := CheckoutPaid(cat, b, id, session, clock); r.Ok? ==> Within(r.value, limit, concurrency)
  {
    GrantWithin(cat, b, clock, limit, concurrency);
  }

  lemma ChangeWithin(cat: Catalog, b: Books, c: Change, created: int, clock: Clock, limit: int, concurrency: int)
    requires Within(b, limit, concurrency)
    ensures var r := SubscriptionChanged(cat, b, c, created, clock); r.Ok? ==> Within(r.value, limit, concurrency)
  {
    GrantWithin(cat, b, clock, limit, concurrency);
  }

  lemma InvoiceWithin(cat: Catalog, b: Books, n: Notice, created: int, clock: Clock, limit: int, concurrency: int)
    requires Within(b, limit, concurrency) && n.Invoice?
    ensures var r := InvoiceReceived(cat, b, n, created, clock); r.Ok? ==> Within(r.value, limit, concurrency)
  {
  }

  lemma StepWithin(cat: Catalog, b: Books, op: Op, limit: int, concurrency: int)
    requires cat.usdPerCredit > 0 && Within(b, limit, concurrency) && PlanAllows(cat, b, limit, concurrency)
    ensures Within(Applied(cat, b, op), limit, concurrency)
  {
    match op
    case ReadSummary(clock) => GrantWithin(cat, b, clock, limit, concurrency);
    case ReserveOp(o, k, clock) =>
      GrantWithin(cat, b, clock, limit, concurrency);
      var g := WithGrant(cat, b, clock);
      if g.Ok? {
        PlacedWithin(cat, g.value, o, k, clock.now, limit, concurrency);
      }
    case ReleaseOp(o) => ReleaseWithin(b, o, limit, concurrency);
    case SettleOp(o, u, e) => SettleWithin(cat, b, o, u, e, limit, concurrency);
    case RefundOp(o, n, k) =>
    case AddOp(n, k, s, clock) => GrantWithin(cat, b, clock, limit, concurrency);
    case WebhookOp(e, clock) => WebhookWithin(cat, b, e, clock, limit, concurrency);
  }

  // Over any run on plans that allow no more than the limits, whatever keys callers use.
  lemma {:induction false} LimitsHold(cat: Catalog, owner: string, customer: Option<string>, ops: seq<Op>, limit: nat, concurrency: nat)
    requires cat.usdPerCredit > 0
    requires forall n | 0 <= n <= |ops| :: PlanAllows(cat, After(cat, Opened(cat, owner, customer), ops[..n]), limit, concurrency)
    ensures Within(After(cat, Opened(cat, owner, customer), ops), limit, concurrency)
    decreases |ops|
  {
    if ops != [] {
      var last := |ops| - 1;
      var b := Opened(cat, owner, customer);
      forall n | 0 <= n <= last
        ensures PlanAllows(cat, After(cat, b, ops[..last][..n]), limit, concurrency)
      {
        assert ops[..last][..n] == ops[..n];
      }
      LimitsHold(cat, owner, customer, ops[..last], limit, concurrency);
      StepWithin(cat, After(cat, b, ops[..last]), ops[last], limit, concurrency);
    }
  }

  // No plan of the catalog allows more than this.
  predicate CatalogAllows(cat: Catalog, limit: int, concurrency: int) {
    forall id <- cat.plans ::
      Micro(cat.plans[id].monthlyLimitCredits) <= limit && cat.plans[id].concurrencyLimit <= concurrency
  }

  // With the most generous limits of the catalog the bounds hold over any run at all, whatever
  // plans the account goes through.
  lemma CatalogLimitsHold(cat: Catalog, owner: string, customer: Option<string>, ops: seq<Op>, limit: nat, concurrency: nat)
    requires cat.usdPerCredit > 0 && CatalogAllows(cat, limit, concurrency)
    ensures Within(After(cat, Opened(cat, owner, customer), ops), limit, concurrency)
  {
    hide Within;
    forall n | 0 <= n <= |ops|
      ensures PlanAllows(cat, After(cat, Opened(cat, owner, customer), ops[..n]), limit, concurrency)
    {
    }
    LimitsHold(cat, owner, customer, ops, limit, concurrency);
  }

  // ---------- Reserved prefixes in caller keys ----------

  // A reservation posts its row, and so keeps the ledger running, exactly when no earlier row
  // took its key (or there is nothing to reserve).
  lemma ReservationPostsExactlyWhen(cat: Catalog, g: Books, objective: string, key: string, now: int)
    requires LedgerOk(g.entries, g.account.available)
    requires g.account.plan in cat.plans
    requires var r := Placed(cat, g, objective, key, now); r.Ok? && r.value.0 != g
    ensures
      var b' := Placed(cat, g, objective, key, now).value.0;
      LedgerOk(b'.entries, b'.account.available) <==>
        (!HasKey(g.entries, Reserve(key)) || cat.plans[g.account.plan].reserveCredits == 0)
  {
    var r := Placed(cat, g, objective, key, now);
    var hold := r.value.1;
    if !HasKey(g.entries, Reserve(key)) {
      RowKeepsLedger(g.entries, g.account.available, Entry(Reserve(key), Reservation, -(hold.estimate as int),
                                                           r.value.0.account.available, Some(objective), FromExecution));
    }
  }

  // A row that moves the balance keeps the ledger running exactly when its key was free, or
  // it moves nothing.
  lemma RowPostsExactlyWhen(entries: seq<Entry>, available: int, e: Entry)
    requires LedgerOk(entries, available) && e.balanceAfter == available + e.amount
    ensures LedgerOk(Recorded(entries, e), e.balanceAfter) <==> !HasKey(entries, e.key) || e.amount == 0
  {
    if !HasKey(entries, e.key) {
      RowKeepsLedger(entries, available, e);
    }
  }

  lemma ReleasePostsExactlyWhen(b: Books, objective: string)
    requires LedgerOk(b.entries, b.account.available) && ReleaseObjective(b, objective).1
    ensures
      var b' := ReleaseObjective(b, objective).0;
      LedgerOk(b'.entries, b'.account.available) <==>
        (!HasKey(b.entries, Release(objective)) || b.holds[HoldFor(b.holds, objective)].estimate == 0)
  {
    hide LedgerOk, HasKey;
    var h := b.holds[HoldFor(b.holds, objective)];
    RowPostsExactlyWhen(b.entries, b.account.available,
      Entry(Release(objective), ReleaseEntry, h.estimate, b.account.available + h.estimate, Some(objective), FromExecution));
  }

  lemma {:induction false} SettlementPostsExactlyWhen(cat: Catalog, b: Books, objective: string, usage: Pricing.Usage, event: string)
    requires cat.usdPerCredit > 0 && LedgerOk(b.entries, b.account.available)
    requires var r := SettleObjective(cat, b, objective, usage, event); r.Ok? && r.value.0 != b
    ensures
      var b' := SettleObjective(cat, b, objective, usage, event).value.0;
      var h := SettleObjective(cat, b, objective, usage, event).value.1;
      LedgerOk(b'.entries, b'.account.available) <==> (!HasKey(b.entries, Settle(event)) || h.estimate == h.actual)
  {
    hide LedgerOk, HasKey;
    var h := SettleObjective(cat, b, objective, usage, event).value.1;
    RowPostsExactlyWhen(b.entries, b.account.available,
      Entry(Settle(event), Settlement, h.estimate - h.actual, b.account.available + h.estimate - h.actual, Some(objective), FromExecution));
  }

  // A paid checkout, on the books its monthly grant leaves.
  lemma CheckoutPostsExactlyWhen(cat: Catalog, b: Books, id: string, pack: string, clock: Clock)
    requires pack in cat.packs && WithGrant(cat, b, clock).Ok?
    requires var g := WithGrant(cat, b, clock).value; LedgerOk(g.entries, g.account.available)
    ensures
      var g, r := WithGrant(cat, b, clock).value, CheckoutPaid(cat, b, id, Some((true, pack)), clock);
      && r.Ok?
      && (LedgerOk(r.value.entries, r.value.account.available) <==> (!HasKey(g.entries, Stripe(id)) || cat.packs[pack] == 0))
  {
    hide LedgerOk, HasKey, WithGrant;
    var g, amount := WithGrant(cat, b, clock).value, Micro(cat.packs[pack]);
    RowPostsExactlyWhen(g.entries, g.account.available,
      Entry(Stripe(id), TopUp, amount, g.account.available + amount, None, Named("stripe")));
  }

  // ---------- Each of the four prefixes can be taken ----------

  const HAZARD_PLAN := Plan("p", Free, 0, 1, 1, 1, 0, true)
  const HAZARD_CATALOG := Catalog(map["p" := HAZARD_PLAN], map["pk" := 1], map[], "p", 1, map[("p", "m") := Pricing.Rate(0, 0, 0, 0)])
  const HAZARD_CLOCK := Clock(0, "m")
  const HAZARD_GRANT := Entry(PeriodKey("p", "m"), IncludedGrant, 0, 0, None, FromCatalog)

  function HazardTopUp(key: Key): Entry {
    Entry(key, TopUp, 1_000_000, 1_000_000, None, Named("s"))
  }

  // The books after a top-up whose caller key reads as a reserved one.
  function HazardBooks(key: Key): Books {
    Opened(HAZARD_CATALOG, "u", None).(
      account := NewAccount(HAZARD_CATALOG).(available := 1_000_000, period := Some("m")),
      entries := [HAZARD_GRANT, HazardTopUp(key)])
  }

  lemma HazardTopsUp(key: Key)
    requires !key.Raw? && !key.Included?
    ensures Applied(HAZARD_CATALOG, Opened(HAZARD_CATALOG, "u", None), AddOp(1, Text(key), "s", HAZARD_CLOCK)) == HazardBooks(key)
  {
    KeyOfText(key);
  }

  lemma HazardBooksAreSound(key: Key)
    requires !key.Included?
    ensures LedgerOk(HazardBooks(key).entries, HazardBooks(key).account.available)
  {
    RowKeepsLedger([], 0, HAZARD_GRANT);
    RowKeepsLedger([HAZARD_GRANT], 0, HazardTopUp(key));
    assert [] + [HAZARD_GRANT] == [HAZARD_GRANT] && [HAZARD_GRANT] + [HazardTopUp(key)] == HazardBooks(key).entries;
  }

  lemma HazardGrants(key: Key)
    ensures WithGrant(HAZARD_CATALOG, HazardBooks(key), HAZARD_CLOCK) == Ok(HazardBooks(key))
  {
  }

  lemma HazardPlaces(key: Key)
    ensures
      var r := Placed(HAZARD_CATALOG, HazardBooks(key), "o", "k", 0);
      && r.Ok? && r.value.1 == Hold("o", "k", 1_000_000, Held, 0, None)
      && r.value.0.holds == [r.value.1] && r.value.0.usageEvents == map[]
      && r.value.0.entries == Recorded(HazardBooks(key).entries, Entry(Reserve("k"), Reservation, -1_000_000, 0, Some("o"), FromExecution))
  {
  }

  lemma HazardReserves(key: Key)
    requires !key.Raw? && !key.Included?
    ensures
      var b := Applied(HAZARD_CATALOG, HazardBooks(key), ReserveOp("o", "k", HAZARD_CLOCK));
      && b.holds == [Hold("o", "k", 1_000_000, Held, 0, None)] && b.usageEvents == map[] && HasKey(b.entries, key)
      && (LedgerOk(b.entries, b.account.available) <==> key != Reserve("k"))
  {
    hide LedgerOk, Placed, WithGrant;
    HazardBooksAreSound(key);
    HazardGrants(key);
    HazardPlaces(key);
    ReservationPostsExactlyWhen(HAZARD_CATALOG, HazardBooks(key), "o", "k", 0);
    var entries := HazardBooks(key).entries;
    assert entries[1].key == key && entries[0].key == HAZARD_GRANT.key;
    assert forall e <- entries :: e == entries[0] || e == entries[1];
  }

  const HAZARD_USAGE := Pricing.Usage("p", "m", 0, 0, 0)
  const HAZARD_PAYMENT := Event("id", "digest", 1, PaidCheckout(Some((true, "pk"))))

  // The run that goes wrong with a key, after a top-up took it.
  function HazardRun(key: Key): seq<Op> {
    match key
    case Reserve(_) => [ReserveOp("o", "k", HAZARD_CLOCK)]
    case Release(_) => [ReserveOp("o", "k", HAZARD_CLOCK), ReleaseOp("o")]
    case Settle(_) => [ReserveOp("o", "k", HAZARD_CLOCK), SettleOp("o", HAZARD_USAGE, "event")]
    case _ => [WebhookOp(HAZARD_PAYMENT, HAZARD_CLOCK)]
  }

  lemma HazardReleases(b: Books)
    requires b.holds == [Hold("o", "k", 1_000_000, Held, 0, None)] && HasKey(b.entries, Release("o"))
    requires LedgerOk(b.entries, b.account.available)
    ensures var b' := Applied(HAZARD_CATALOG, b, ReleaseOp("o")); !LedgerOk(b'.entries, b'.account.available)
  {
    hide LedgerOk, HasKey;
    ReleasePostsExactlyWhen(b, "o");
  }

  lemma ZeroCeiling(d: nat)
    requires d > 0
    ensures Pricing.CeilDiv(0, d) == 0
  {
    var q := Pricing.CeilDiv(0, d);
    assert (q - 1) * d < 0;
  }

  // No usage costs nothing, at any rate.
  lemma NoUsageIsFree(r: Pricing.Rate, usdPerCredit: nat, u: Pricing.Usage)
    requires usdPerCredit > 0 && u.inputTokens == u.outputTokens == u.computeMs == 0
    ensures Pricing.Cost(r, usdPerCredit, u) == 0
  {
    hide Pricing.CeilDiv;
    ZeroCeiling(1_000_000);
    ZeroCeiling(3_600_000);
    ZeroCeiling(10_000);
    ZeroCeiling(usdPerCredit);
    assert u.inputTokens * r.inputPerMillion == u.outputTokens * r.outputPerMillion == u.computeMs * r.computePerHour == 0;
  }

  lemma HazardCostsNothing()
    ensures Pricing.MeasuredCost(HAZARD_CATALOG.rates, 1, HAZARD_USAGE) == Ok(0)
  {
    hide Pricing.Cost;
    NoUsageIsFree(Pricing.Rate(0, 0, 0, 0), 1, HAZARD_USAGE);
  }

  lemma HazardSettles(b: Books)
    requires b.holds == [Hold("o", "k", 1_000_000, Held, 0, None)] && HasKey(b.entries, Settle("event")) && b.usageEvents == map[]
    requires LedgerOk(b.entries, b.account.available)
    ensures var b' := Applied(HAZARD_CATALOG, b, SettleOp("o", HAZARD_USAGE, "event")); !LedgerOk(b'.entries, b'.account.available)
  {
    hide LedgerOk, HasKey, Recorded, Pricing.MeasuredCost;
    HazardCostsNothing();
    SettlementPostsExactlyWhen(HAZARD_CATALOG, b, "o", HAZARD_USAGE, "event");
  }

  lemma HazardPays()
    ensures
      var b' := Applied(HAZARD_CATALOG, HazardBooks(Stripe("id")), WebhookOp(HAZARD_PAYMENT, HAZARD_CLOCK));
      !LedgerOk(b'.entries, b'.account.available)
  {
    hide LedgerOk, WithGrant;
    var b := HazardBooks(Stripe("id"));
    var noted := b.(webhooks := map["id" := "digest"]);
    assert b.webhooks["id" := "digest"] == noted.webhooks;
    HazardGrantsNoted(noted);
    HazardBooksAreSound(Stripe("id"));
    assert b.entries[1].key == Stripe("id");
    CheckoutPostsExactlyWhen(HAZARD_CATALOG, noted, "id", "pk", HAZARD_CLOCK);
  }

  lemma HazardGrantsNoted(b: Books)
    requires b == HazardBooks(Stripe("id")).(webhooks := b.webhooks)
    ensures WithGrant(HAZARD_CATALOG, b, HAZARD_CLOCK) == Ok(b)
  {
  }

  // From a new account, with a top-up whose caller key reads as the key of a later reservation,
  // release, settlement or webhook: the balance leaves the ledger.
  lemma ReservedPrefixBreaksTheLedger(key: Key)
    requires key in {Reserve("k"), Release("o"), Settle("event"), Stripe("id")}
    ensures HAZARD_CATALOG.Valid()
    ensures
      var ops := [AddOp(1, Text(key), "s", HAZARD_CLOCK)] + HazardRun(key);
      var b := After(HAZARD_CATALOG, Opened(HAZARD_CATALOG, "u", None), ops);
      !LedgerOk(b.entries, b.account.available)
  {
    hide LedgerOk, Applied, HasKey, Text, Opened, HazardBooks;
    var b0, add := Opened(HAZARD_CATALOG, "u", None), AddOp(1, Text(key), "s", HAZARD_CLOCK);
    HazardTopsUp(key);
    AfterEach(b0, [add], HazardRun(key));
    match key
    case Reserve(_) => HazardReserves(key);
    case Release(_) =>
      HazardReserves(key);
      HazardReleases(Applied(HAZARD_CATALOG, HazardBooks(key), HazardRun(key)[0]));
    case Settle(_) =>
      HazardReserves(key);
      HazardSettles(Applied(HAZARD_CATALOG, HazardBooks(key), HazardRun(key)[0]));
    case Stripe(_) => HazardPays();
  }

  // A run of one operation and then one or two more, unrolled.
  lemma AfterEach(b: Books, first: seq<Op>, rest: seq<Op>)
    requires |first| == 1 && 1 <= |rest| <= 2
    ensures
      var one := Applied(HAZARD_CATALOG, Applied(HAZARD_CATALOG, b, first[0]), rest[0]);
      After(HAZARD_CATALOG, b, first + rest) == if |rest| == 1 then one else Applied(HAZARD_CATALOG, one, rest[1])
  {
    hide Applied;
    var ops := first + rest;
    assert ops[..2][..1] == ops[..1] && ops[..1][..0] == [];
    assert After(HAZARD_CATALOG, b, ops[..1]) == Applied(HAZARD_CATALOG, b, first[0]);
    assert After(HAZARD_CATALOG, b, ops[..2]) == Applied(HAZARD_CATALOG, After(HAZARD_CATALOG, b, ops[..1]), rest[0]);
    if |rest| == 1 {
      assert ops == ops[..2];
    } else {
      assert ops[..|ops| - 1] == ops[..2];
    }
  }
}
