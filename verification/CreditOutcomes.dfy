/** What each credit transaction posts, and exactly when. */
module CreditOutcomes {
  import opened Basics
  import opened Credits
  import CreditLimits
  import Pricing

  // The hold of an objective.
  predicate HoldOf(holds: seq<Hold>, objective: string, i: nat) {
    i < |holds| && holds[i].objective == objective && forall j | 0 <= j < i :: holds[j].objective != objective
  }

  predicate NoHold(holds: seq<Hold>, objective: string) {
    forall h <- holds :: h.objective != objective
  }

  lemma HoldIsFound(holds: seq<Hold>, objective: string)
    ensures HoldFor(holds, objective) == |holds| <==> NoHold(holds, objective)
    ensures forall i: nat | HoldOf(holds, objective, i) :: HoldFor(holds, objective) == i && !NoHold(holds, objective)
    ensures HoldFor(holds, objective) < |holds| ==> HoldOf(holds, objective, HoldFor(holds, objective))
  {
    var i := HoldFor(holds, objective);
    if i < |holds| {
      assert holds[i] in holds;
    }
  }

  predicate Free(entries: seq<Entry>, key: Key) {
    forall e <- entries :: e.key != key
  }

  // One more row, unless its key is taken.
  predicate Posts(entries: seq<Entry>, entries': seq<Entry>, e: Entry) {
    entries' == if Free(entries, e.key) then entries + [e] else entries
  }

  // ---------- Grants ----------

  // The month's grant is due: a plan that grants by the month, and the month is new.
  predicate GrantDue(cat: Catalog, b: Books, month: string) {
    && b.account.plan in cat.plans && !cat.plans[b.account.plan].kind.Subscription? && b.account.period != Some(month)
    && Free(b.entries, Included(cat.plans[b.account.plan].id + ":" + month))
  }

  // Access to an account posts exactly the grant that is due, of what the plan includes, and
  // starts a new month's spend with it; otherwise it changes nothing.
  lemma GrantedExactlyWhen(cat: Catalog, b: Books, clock: Clock)
    ensures WithGrant(cat, b, clock).Ok? <==> b.account.plan in cat.plans
    ensures
      var r := WithGrant(cat, b, clock);
      r.Ok? ==>
        if GrantDue(cat, b, clock.month) then
          var plan := cat.plans[b.account.plan];
          var grant := 1_000_000 * plan.includedCredits;
          r.value == b.(
            account := b.account.(available := b.account.available + grant, spend := 0, period := Some(clock.month)),
            entries := b.entries + [Entry(Included(plan.id + ":" + clock.month), IncludedGrant, grant, b.account.available + grant, None, FromCatalog)])
        else r.value == b
  {
  }

  // ---------- Reservations ----------

  // The account may run work now.
  predicate MayRun(plan: Plan, a: Account, now: int) {
    && plan.execution
    && (a.status == Active || a.status == Trialing
        || (a.status == PastDue && a.graceEndsAt.Some? && a.graceEndsAt.value != 0 && now < a.graceEndsAt.value))
  }

  function OpenHolds(holds: seq<Hold>): nat {
    |set i: nat | i < |holds| && holds[i].status.Held?|
  }

  lemma {:induction false} OpenHoldsAreCounted(holds: seq<Hold>)
    ensures Sum(holds, HeldCount) == OpenHolds(holds)
    decreases |holds|
  {
    if holds == [] {
      assert (set i: nat | i < |holds| && holds[i].status.Held?) == {};
    } else {
      var last := |holds| - 1;
      OpenHoldsAreCounted(holds[..last]);
      var before := set i: nat | i < last && holds[..last][i].status.Held?;
      var all := set i: nat | i < |holds| && holds[i].status.Held?;
      assert all == before + if holds[last].status.Held? then {last} else {};
    }
  }

  // A new reservation is placed exactly when its key and its objective are new, the account may
  // run work, and the plan's concurrency, the balance and the spend limit leave room for what
  // the plan reserves. It moves that from the balance to the reserved credits.
  lemma ReservedExactlyWhen(cat: Catalog, g: Books, objective: string, key: string, now: int)
    requires g.account.plan in cat.plans && forall h <- g.holds :: h.key != key
    ensures
      var plan, a, r := cat.plans[g.account.plan], g.account, Placed(cat, g, objective, key, now);
      var estimate := 1_000_000 * plan.reserveCredits;
      && (r.Ok? <==>
            && NoHold(g.holds, objective) && MayRun(plan, a, now) && OpenHolds(g.holds) < plan.concurrencyLimit
            && estimate <= a.available && a.spend + a.reserved + estimate <= 1_000_000 * plan.monthlyLimitCredits)
      && (r.Ok? ==>
            && r.value.1 == Hold(objective, key, estimate, Held, 0, None)
            && r.value.0 == g.(holds := g.holds + [r.value.1], entries := r.value.0.entries,
                               account := a.(available := a.available - estimate, reserved := a.reserved + estimate))
            && Posts(g.entries, r.value.0.entries, Entry(Reserve(key), Reservation, -estimate, a.available - estimate, Some(objective), FromExecution)))
  {
    HoldIsFound(g.holds, objective);
    KeyIsNew(g.holds, key);
    OpenHoldsAreCounted(g.holds);
  }

  lemma KeyIsNew(holds: seq<Hold>, key: string)
    requires forall h <- holds :: h.key != key
    ensures HoldKeyed(holds, key) == |holds|
  {
    assert forall i | 0 <= i < |holds| :: holds[i] in holds;
  }

  // A key that was used before is answered with its hold, for the same objective.
  lemma ReservedAgain(cat: Catalog, g: Books, objective: string, key: string, now: int, i: nat)
    requires g.account.plan in cat.plans && i < |g.holds| && g.holds[i].key == key && forall j | 0 <= j < i :: g.holds[j].key != key
    ensures Placed(cat, g, objective, key, now) == if g.holds[i].objective == objective then Ok((g, g.holds[i])) else Err(IdempotencyConflict)
  {
  }

  // A release gives the whole estimate of an open hold back; it does nothing otherwise.
  lemma ReleasedExactly(b: Books, objective: string)
    ensures
      var (b', done) := ReleaseObjective(b, objective);
      && (done <==> exists i: nat :: HoldOf(b.holds, objective, i) && b.holds[i].status.Held?)
      && (!done ==> b' == b)
      && forall i: nat | HoldOf(b.holds, objective, i) && b.holds[i].status.Held? ::
           var h, a := b.holds[i], b.account;
           && b' == b.(holds := b.holds[i := h.(status := Released)], entries := b'.entries,
                       account := a.(available := a.available + h.estimate, reserved := a.reserved - h.estimate))
           && Posts(b.entries, b'.entries, Entry(Release(objective), ReleaseEntry, h.estimate, a.available + h.estimate, Some(objective), FromExecution))
  {
    HoldIsFound(b.holds, objective);
  }

  // ---------- Settlements ----------

  // A settlement changes the books exactly when the usage has a cost, the objective's hold is
  // open and the event is new. It charges that cost: the hold gives its estimate back and
  // pays the cost, which counts as spend.
  lemma SettledExactlyWhen(cat: Catalog, b: Books, objective: string, usage: Pricing.Usage, event: string)
    requires cat.usdPerCredit > 0
    ensures
      var r, cost := SettleObjective(cat, b, objective, usage, event), Pricing.MeasuredCost(cat.rates, cat.usdPerCredit, usage);
      && (r.Ok? && r.value.0 != b <==>
            cost.Ok? && event !in b.usageEvents && exists i: nat :: HoldOf(b.holds, objective, i) && b.holds[i].status.Held?)
      && forall i: nat | r.Ok? && r.value.0 != b && HoldOf(b.holds, objective, i) ::
           var n, h, a := cost.value, b.holds[i], b.account;
           && r.value.1 == h.(status := Settled, actual := n, usage := Some(usage))
           && r.value.0 == b.(holds := b.holds[i := r.value.1], usageEvents := b.usageEvents[event := objective], entries := r.value.0.entries,
                              account := a.(available := a.available + h.estimate - n, reserved := a.reserved - h.estimate, spend := a.spend + n))
           && Posts(b.entries, r.value.0.entries,
                    Entry(Settle(event), Settlement, h.estimate - n, a.available + h.estimate - n, Some(objective), FromExecution))
  {
    hide Pricing.MeasuredCost, HoldFor, NoHold;
    HoldIsFound(b.holds, objective);
    var i := HoldFor(b.holds, objective);
    if i < |b.holds| && b.holds[i].status.Held? && event !in b.usageEvents {
      var r := SettleObjective(cat, b, objective, usage, event);
      assert r.Ok? ==> event in r.value.0.usageEvents;
    }
  }

  // A hold that was settled is settled again only by the same event with the same usage at the
  // same cost, and that changes nothing.
  lemma SettledAgain(cat: Catalog, b: Books, objective: string, usage: Pricing.Usage, event: string, i: nat)
    requires cat.usdPerCredit > 0 && HoldOf(b.holds, objective, i) && b.holds[i].status.Settled?
    ensures
      var r := SettleObjective(cat, b, objective, usage, event);
      if Pricing.MeasuredCost(cat.rates, cat.usdPerCredit, usage) == Ok(b.holds[i].actual) && b.holds[i].usage == Some(usage)
         && event in b.usageEvents && b.usageEvents[event] == objective
      then r == Ok((b, b.holds[i])) else r.Err?
  {
    hide Pricing.MeasuredCost;
    HoldIsFound(b.holds, objective);
  }

  // ---------- Refunds and top-ups ----------

  // What an objective got back so far.
  function RefundsOf(entries: seq<Entry>, objective: string): int {
    Sum(entries, (e: Entry) => if e.kind == Refund && e.objective == Some(objective) then e.amount else 0)
  }

  lemma {:induction false} RefundsAreSummed(entries: seq<Entry>, objective: string)
    ensures Refunded(entries, objective) == RefundsOf(entries, objective)
    decreases |entries|
  {
    if entries != [] {
      RefundsAreSummed(entries[..|entries| - 1], objective);
    }
  }

  predicate RowOf(entries: seq<Entry>, key: Key, k: nat) {
    k < |entries| && entries[k].key == key && forall j | 0 <= j < k :: entries[j].key != key
  }

  lemma {:induction false} RowIsFound(entries: seq<Entry>, key: Key, k: nat)
    requires RowOf(entries, key, k)
    ensures HasKey(entries, key) && EntryWith(entries, key) == entries[k]
    decreases k
  {
    assert entries[k] in entries;
    if k > 0 {
      RowIsFound(entries[1..], key, k - 1);
    }
  }

  // A refund under a new key is posted exactly when it is positive and, with what the objective
  // got back before, within what its settlement charged. It comes off the spend, down to zero.
  lemma RefundedExactlyWhen(b: Books, objective: string, amount: int, key: string)
    requires Free(b.entries, KeyOf(key))
    ensures
      var r := RefundObjective(b, objective, amount, key);
      && (r.Ok? <==> amount > 0 && exists i: nat ::
            HoldOf(b.holds, objective, i) && b.holds[i].status.Settled? && amount <= b.holds[i].actual
            && RefundsOf(b.entries, objective) + amount <= b.holds[i].actual)
      && (r.Ok? ==>
            var a := b.account;
            && r.value.1
            && r.value.0 == b.(
                 account := a.(available := a.available + amount, spend := if amount < a.spend then a.spend - amount else 0),
                 entries := b.entries + [Entry(KeyOf(key), Refund, amount, a.available + amount, Some(objective), FromExecution)]))
  {
    HoldIsFound(b.holds, objective);
    RefundsAreSummed(b.entries, objective);
  }

  // Under a key that has a row, only a repetition of that refund is accepted, and does nothing.
  lemma RefundedAgain(b: Books, objective: string, amount: int, key: string, k: nat)
    requires RowOf(b.entries, KeyOf(key), k)
    ensures
      var r, e := RefundObjective(b, objective, amount, key), b.entries[k];
      && (r.Ok? <==>
            && amount > 0 && e.kind == Refund && e.amount == amount && e.objective == Some(objective)
            && exists i: nat :: HoldOf(b.holds, objective, i) && b.holds[i].status.Settled? && amount <= b.holds[i].actual)
      && (r.Ok? ==> r.value == (b, false))
  {
    HoldIsFound(b.holds, objective);
    RowIsFound(b.entries, KeyOf(key), k);
  }

  // A top-up, on the books its month's grant leaves: posted once under a new key; under a key
  // that has a row, only its repetition is accepted, and does nothing.
  lemma ToppedUpExactly(g: Books, amount: nat, key: string, source: string)
    ensures
      var r, balance := ToppedUp(g, amount, key, source), g.account.available + amount;
      if Free(g.entries, KeyOf(key)) then
        r == Ok((g.(account := g.account.(available := balance),
                    entries := g.entries + [Entry(KeyOf(key), TopUp, amount, balance, None, Named(source))]), true))
      else
        forall k: nat | RowOf(g.entries, KeyOf(key), k) ::
          var e := g.entries[k];
          if e.kind == TopUp && e.amount == amount && e.source == Named(source) then r == Ok((g, false)) else r == Err(IdempotencyConflict)
  {
    forall k: nat | RowOf(g.entries, KeyOf(key), k)
      ensures HasKey(g.entries, KeyOf(key)) && EntryWith(g.entries, KeyOf(key)) == g.entries[k]
    {
      RowIsFound(g.entries, KeyOf(key), k);
    }
  }

  lemma CreditsAddedExactly(cat: Catalog, b: Books, credits: int, key: string, source: string, clock: Clock)
    ensures
      var r := AddCredits(cat, b, credits, key, source, clock);
      if credits <= 0 || b.account.plan !in cat.plans then r.Err?
      else r == ToppedUp(WithGrant(cat, b, clock).value, 1_000_000 * credits, key, source)
  {
  }

  // ---------- Webhooks ----------

  // A paid checkout of a known pack posts its credits once per event; no other one is accepted.
  lemma CheckoutExactly(cat: Catalog, b: Books, id: string, session: Option<(bool, string)>, clock: Clock)
    ensures
      var r := CheckoutPaid(cat, b, id, session, clock);
      && (r.Ok? <==> session.Some? && session.value.0 && session.value.1 in cat.packs && b.account.plan in cat.plans)
      && (r.Ok? ==>
            var g := WithGrant(cat, b, clock).value;
            var amount := 1_000_000 * cat.packs[session.value.1];
            && r.value == g.(account := g.account.(available := g.account.available + amount), entries := r.value.entries)
            && Posts(g.entries, r.value.entries, Entry(Stripe(id), TopUp, amount, g.account.available + amount, None, Named("stripe"))))
  {
    hide WithGrant;
    GrantedExactlyWhen(cat, b, clock);
  }

  // The plan a subscription change is for: ours, by customer and, where they are given, by
  // owner and plan; and a subscription plan, by its price.
  predicate ChangeIsFor(cat: Catalog, owner: string, customer: Option<string>, c: Change, plan: string) {
    && c.customer.Some? && c.customer == customer && (c.metadataOwner.Some? ==> c.metadataOwner.value == owner)
    && c.subscription.Some? && c.price.Some? && c.price.value in cat.prices && cat.prices[c.price.value] == plan
    && (c.metadataPlan.Some? ==> c.metadataPlan.value == plan)
    && plan in cat.plans && cat.plans[plan].kind.Subscription?
  }

  lemma ChangePlanExactly(cat: Catalog, owner: string, customer: Option<string>, c: Change)
    ensures forall plan: string :: ChangePlan(cat, owner, customer, c) == Ok(plan) <==> ChangeIsFor(cat, owner, customer, c, plan)
  {
  }

  // A change is accepted exactly when it is for some plan. One older than the account's last
  // change leaves the account to its grant. A cancelled subscription falls back to the default
  // plan; any other takes the plan and its status; and an unpaid one keeps or starts its grace.
  lemma SubscriptionChangedExactly(cat: Catalog, b: Books, c: Change, created: int, clock: Clock)
    ensures
      var r := SubscriptionChanged(cat, b, c, created, clock);
      && (r.Ok? <==> b.account.plan in cat.plans && exists plan: string :: ChangeIsFor(cat, b.owner, b.account.customer, c, plan))
      && forall plan: string | r.Ok? && ChangeIsFor(cat, b.owner, b.account.customer, c, plan) ::
           var g := WithGrant(cat, b, clock).value;
           var a := g.account;
           if a.providerCreated.Some? && created < a.providerCreated.value then r.value == g
           else
             var ended := c.deleted || c.status.None? || c.status.value == Canceled;
             var unpaid := !ended && (c.status.value == PastDue || c.status.value == Unpaid);
             r.value == g.(account := a.(
               plan := if ended then cat.defaultPlan else plan,
               status := if ended then Active else c.status.value,
               subscription := if ended then None else c.subscription,
               periodStart := c.periodStart, periodEnd := c.periodEnd, cancelAtPeriodEnd := c.cancelAtPeriodEnd,
               graceEndsAt := if !unpaid then None else if a.graceEndsAt.Some? then a.graceEndsAt
                              else Some(clock.now + 86400 * cat.plans[plan].graceDays),
               providerCreated := Some(created)))
  {
    hide WithGrant, ChangePlan, ChangeIsFor;
    GrantedExactlyWhen(cat, b, clock);
    ChangePlanExactly(cat, b.owner, b.account.customer, c);
    ChangedPlanIsKnown(cat, b.owner, b.account.customer, c);
  }

  lemma ChangedPlanIsKnown(cat: Catalog, owner: string, customer: Option<string>, c: Change)
    ensures forall plan: string | ChangeIsFor(cat, owner, customer, c, plan) :: plan in cat.plans
  {
  }

  // An invoice of the account's subscription, no older than its last change: paid, it starts
  // a new period with the plan's included credits, once per period; unpaid, it starts grace.
  lemma InvoiceExactly(cat: Catalog, b: Books, n: Notice, created: int, clock: Clock)
    requires n.Invoice?
    ensures
      var r, a := InvoiceReceived(cat, b, n, created, clock), b.account;
      if n.subscription.None? then r == Ok(b)
      else if a.subscription != n.subscription then r == Err(SubscriptionUnknown)
      else if a.providerCreated.Some? && created < a.providerCreated.value then r == Ok(b)
      else
        && (r.Ok? <==> a.plan in cat.plans && cat.plans[a.plan].kind.Subscription?)
        && (r.Ok? && !n.paid ==>
              r.value == b.(account := a.(status := PastDue, providerCreated := Some(created),
                graceEndsAt := if a.graceEndsAt.Some? then a.graceEndsAt else Some(clock.now + 86400 * cat.plans[a.plan].graceDays))))
        && (r.Ok? && n.paid ==>
              var grant := 1_000_000 * cat.plans[a.plan].includedCredits;
              var start := if n.periodStart.Some? then n.periodStart.value else clock.now;
              var key := Included(n.subscription.value + ":" + Decimal(start));
              && Posts(b.entries, r.value.entries, Entry(key, IncludedGrant, grant, a.available + grant, None, Named("stripe")))
              && r.value == b.(entries := r.value.entries, account := a.(
                   available := a.available + (if Free(b.entries, key) then grant else 0), spend := 0, period := Some(Decimal(start)),
                   status := Active, graceEndsAt := None, periodStart := Some(start),
                   periodEnd := if n.periodEnd.Some? then n.periodEnd else a.periodEnd, providerCreated := Some(created))))
  {
  }

  // An event is noted and handled once; the same event again does nothing, and another one
  // under its id is refused.
  lemma WebhookHandledOnce(cat: Catalog, b: Books, e: Event, clock: Clock)
    ensures
      var r, noted := ProcessWebhook(cat, b, e, clock), b.(webhooks := b.webhooks[e.id := e.digest]);
      if e.created <= 0 then r == Err(WebhookInvalid)
      else if e.id in b.webhooks then r == if b.webhooks[e.id] == e.digest then Ok((b, true)) else Err(WebhookConflict)
      else
        && (e.notice.Unhandled? ==> r == Ok((noted, false)))
        && (r.Ok? ==> !r.value.1 && r.value.0.webhooks == noted.webhooks)
        && (e.notice.PaidCheckout? ==> Handled(r, CheckoutPaid(cat, noted, e.id, e.notice.session, clock)))
        && (e.notice.SubscriptionChange? ==> Handled(r, SubscriptionChanged(cat, noted, e.notice.change, e.created, clock)))
        && (e.notice.Invoice? ==> Handled(r, InvoiceReceived(cat, noted, e.notice, e.created, clock)))
  {
  }

  predicate Handled(r: Result<(Books, bool), BillingError>, outcome: Result<Books, BillingError>) {
    if outcome.Ok? then r == Ok((outcome.value, false)) else r == Err(outcome.error)
  }

  // Reads a decimal number back.
  function Read(digits: string): int {
    if digits == "" then 0 else 10 * Read(digits[..|digits| - 1]) + (digits[|digits| - 1] as int - '0' as int)
  }

  lemma {:induction false} DigitsAreRead(n: nat)
    ensures Digits(n) != "" && Digits(n)[0] != '-' && Read(Digits(n)) == n
    decreases n
  {
    if n < 10 {
      assert Digits(n)[..0] == "";
    } else {
      DigitsAreRead(n / 10);
      assert Digits(n)[..|Digits(n)| - 1] == Digits(n / 10);
    }
  }

  // Different period starts never share the key text of a grant.
  lemma PeriodsAreToldApart(a: int, b: int)
    requires Decimal(a) == Decimal(b)
    ensures a == b
  {
    DigitsAreRead(if a < 0 then -a else a);
    DigitsAreRead(if b < 0 then -b else b);
    if a < 0 && b < 0 {
      assert Decimal(a)[1..] == Digits(-a) && Decimal(b)[1..] == Digits(-b);
    }
  }

  // ---------- Every run: what holds charge ----------

  // A settled hold charges what its usage costs, and a hold reserves what some plan reserves.
  predicate ChargesItsUsage(cat: Catalog, h: Hold)
    requires cat.usdPerCredit > 0
  {
    && (h.status.Settled? ==> h.usage.Some? && Pricing.MeasuredCost(cat.rates, cat.usdPerCredit, h.usage.value) == Ok(h.actual))
    && exists id <- cat.plans :: h.estimate == 1_000_000 * cat.plans[id].reserveCredits
  }

  ghost predicate AllCharge(cat: Catalog, b: Books)
    requires cat.usdPerCredit > 0
  {
    forall h <- b.holds :: ChargesItsUsage(cat, h)
  }

  lemma PlacedCharges(cat: Catalog, g: Books, objective: string, key: string, now: int)
    requires cat.usdPerCredit > 0 && AllCharge(cat, g) && g.account.plan in cat.plans
    ensures var r := Placed(cat, g, objective, key, now); r.Ok? ==> AllCharge(cat, r.value.0)
  {
    hide Pricing.MeasuredCost;
    if forall h <- g.holds :: h.key != key {
      ReservedExactlyWhen(cat, g, objective, key, now);
    }
  }

  lemma SettleCharges(cat: Catalog, b: Books, objective: string, usage: Pricing.Usage, event: string)
    requires cat.usdPerCredit > 0 && AllCharge(cat, b)
    ensures var r := SettleObjective(cat, b, objective, usage, event); r.Ok? ==> AllCharge(cat, r.value.0)
  {
    hide Pricing.MeasuredCost;
    var r := SettleObjective(cat, b, objective, usage, event);
    if r.Ok? && r.value.0 != b {
      var i := HoldFor(b.holds, objective);
      assert b.holds[i] in b.holds;
      forall h | h in r.value.0.holds
        ensures ChargesItsUsage(cat, h)
      {
        assert h in b.holds || h == r.value.1;
      }
    }
  }

  lemma ReleaseCharges(cat: Catalog, b: Books, objective: string)
    requires cat.usdPerCredit > 0 && AllCharge(cat, b)
    ensures AllCharge(cat, ReleaseObjective(b, objective).0)
  {
    hide Pricing.MeasuredCost;
    var i := HoldFor(b.holds, objective);
    if i < |b.holds| && b.holds[i].status.Held? {
      assert b.holds[i] in b.holds;
      forall h | h in ReleaseObjective(b, objective).0.holds
        ensures ChargesItsUsage(cat, h)
      {
        assert h in b.holds || h == b.holds[i].(status := Released);
      }
    }
  }

  lemma StepCharges(cat: Catalog, b: Books, op: Op)
    requires cat.usdPerCredit > 0 && AllCharge(cat, b)
    ensures AllCharge(cat, Applied(cat, b, op))
  {
    hide Pricing.MeasuredCost, AllCharge;
    match op
    case ReserveOp(o, k, clock) =>
      var g := WithGrant(cat, b, clock);
      if g.Ok? {
        SameHoldsCharge(cat, b, g.value);
        PlacedCharges(cat, g.value, o, k, clock.now);
      }
    case ReleaseOp(o) => ReleaseCharges(cat, b, o);
    case SettleOp(o, u, e) => SettleCharges(cat, b, o, u, e);
    case ReadSummary(_) => SameHoldsCharge(cat, b, Applied(cat, b, op));
    case RefundOp(_, _, _) => SameHoldsCharge(cat, b, Applied(cat, b, op));
    case AddOp(_, _, _, _) => SameHoldsCharge(cat, b, Applied(cat, b, op));
    case WebhookOp(_, _) => SameHoldsCharge(cat, b, Applied(cat, b, op));
  }

  lemma SameHoldsCharge(cat: Catalog, b: Books, b': Books)
    requires cat.usdPerCredit > 0 && AllCharge(cat, b) && b'.holds == b.holds
    ensures AllCharge(cat, b')
  {
  }

  // Over every run, whatever keys callers use, every settled hold charges the measured cost of
  // the usage it keeps, and every hold was reserved at the rate of a plan of the catalog.
  lemma {:induction false} SettledHoldsChargeTheirUsage(cat: Catalog, owner: string, customer: Option<string>, ops: seq<Op>)
    requires cat.usdPerCredit > 0
    ensures forall h <- After(cat, Opened(cat, owner, customer), ops).holds ::
      && (h.status.Settled? ==> h.usage.Some? && Pricing.MeasuredCost(cat.rates, cat.usdPerCredit, h.usage.value) == Ok(h.actual))
      && exists id <- cat.plans :: h.estimate == 1_000_000 * cat.plans[id].reserveCredits
    decreases |ops|
  {
    hide Pricing.MeasuredCost, Applied;
    if ops != [] {
      var b := After(cat, Opened(cat, owner, customer), ops[..|ops| - 1]);
      SettledHoldsChargeTheirUsage(cat, owner, customer, ops[..|ops| - 1]);
      assert AllCharge(cat, b);
      StepCharges(cat, b, ops[|ops| - 1]);
    }
  }

  // ---------- Every run: what grants give ----------

  // A grant of what some plan includes: from the catalog to a plan without a subscription,
  // under that plan and month; from a paid invoice to a subscription plan.
  ghost predicate GrantsAsPlanned(cat: Catalog, e: Entry) {
    e.kind == IncludedGrant ==> exists id <- cat.plans ::
      && e.amount == 1_000_000 * cat.plans[id].includedCredits
      && if cat.plans[id].kind.Subscription? then e.source == Named("stripe")
         else e.source == FromCatalog && exists month: string :: e.key == Included(cat.plans[id].id + ":" + month)
  }

  lemma OtherRowsGrantNothing(cat: Catalog, b: Books, b': Books, e: Entry)
    requires (forall x <- b.entries :: GrantsAsPlanned(cat, x)) && b'.entries in {b.entries, b.entries + [e]} && GrantsAsPlanned(cat, e)
    ensures forall x <- b'.entries :: GrantsAsPlanned(cat, x)
  {
  }

  lemma GrantIsPlanned(cat: Catalog, b: Books, clock: Clock)
    requires forall x <- b.entries :: GrantsAsPlanned(cat, x)
    ensures var r := WithGrant(cat, b, clock); r.Ok? ==> forall x <- r.value.entries :: GrantsAsPlanned(cat, x)
  {
    hide GrantsAsPlanned;
    var r := WithGrant(cat, b, clock);
    if r.Ok? && r.value != b {
      var e := r.value.entries[|b.entries|];
      MonthlyGrantIsPlanned(cat, b.account.plan, clock.month, e);
      OtherRowsGrantNothing(cat, b, r.value, e);
    }
  }

  lemma MonthlyGrantIsPlanned(cat: Catalog, id: string, month: string, e: Entry)
    requires id in cat.plans && !cat.plans[id].kind.Subscription?
    requires e.amount == 1_000_000 * cat.plans[id].includedCredits && e.source == FromCatalog && e.key == Included(cat.plans[id].id + ":" + month)
    ensures GrantsAsPlanned(cat, e)
  {
  }

  lemma InvoiceIsPlanned(cat: Catalog, b: Books, n: Notice, created: int, clock: Clock)
    requires n.Invoice? && forall x <- b.entries :: GrantsAsPlanned(cat, x)
    ensures var r := InvoiceReceived(cat, b, n, created, clock); r.Ok? ==> forall x <- r.value.entries :: GrantsAsPlanned(cat, x)
  {
    hide GrantsAsPlanned;
    InvoiceExactly(cat, b, n, created, clock);
    var r := InvoiceReceived(cat, b, n, created, clock);
    if r.Ok? && r.value.entries != b.entries {
      var e := r.value.entries[|b.entries|];
      InvoiceGrantIsPlanned(cat, b.account.plan, e);
      OtherRowsGrantNothing(cat, b, r.value, e);
    }
  }

  lemma InvoiceGrantIsPlanned(cat: Catalog, id: string, e: Entry)
    requires id in cat.plans && cat.plans[id].kind.Subscription?
    requires e.amount == 1_000_000 * cat.plans[id].includedCredits && e.source == Named("stripe")
    ensures GrantsAsPlanned(cat, e)
  {
  }

  // An operation after the month's grant: one row more, which grants nothing.
  lemma StepIsPlanned(cat: Catalog, b: Books, op: Op)
    requires cat.usdPerCredit > 0 && forall x <- b.entries :: GrantsAsPlanned(cat, x)
    ensures forall x <- Applied(cat, b, op).entries :: GrantsAsPlanned(cat, x)
  {
    hide GrantsAsPlanned, WithGrant, Pricing.MeasuredCost, InvoiceReceived, ChangePlan;
    var b' := Applied(cat, b, op);
    match op
    case ReadSummary(clock) => GrantIsPlanned(cat, b, clock);
    case ReserveOp(_, _, clock) => AfterGrantIsPlanned(cat, b, clock, b');
    case AddOp(_, _, _, clock) => AfterGrantIsPlanned(cat, b, clock, b');
    case WebhookOp(e, clock) =>
      var noted := b.(webhooks := b.webhooks[e.id := e.digest]);
      if e.notice.Invoice? {
        InvoiceIsPlanned(cat, noted, e.notice, e.created, clock);
      } else {
        AfterGrantIsPlanned(cat, noted, clock, b');
      }
    case _ => AddedRowIsPlanned(cat, b, b');
  }

  // One row more, and no grant.
  ghost predicate AddsNoGrant(b: Books, b': Books) {
    b'.entries == b.entries || (|b'.entries| == |b.entries| + 1 && b'.entries[..|b.entries|] == b.entries && b'.entries[|b.entries|].kind != IncludedGrant)
  }

  lemma AddedRowIsPlanned(cat: Catalog, b: Books, b': Books)
    requires (forall x <- b.entries :: GrantsAsPlanned(cat, x)) && AddsNoGrant(b, b')
    ensures forall x <- b'.entries :: GrantsAsPlanned(cat, x)
  {
    if b'.entries != b.entries {
      assert b'.entries == b.entries + [b'.entries[|b.entries|]];
    }
  }

  lemma AfterGrantIsPlanned(cat: Catalog, b: Books, clock: Clock, b': Books)
    requires forall x <- b.entries :: GrantsAsPlanned(cat, x)
    requires b'.entries == b.entries || (WithGrant(cat, b, clock).Ok? && AddsNoGrant(WithGrant(cat, b, clock).value, b'))
    ensures forall x <- b'.entries :: GrantsAsPlanned(cat, x)
  {
    hide GrantsAsPlanned, WithGrant, AddsNoGrant;
    GrantIsPlanned(cat, b, clock);
    if b'.entries != b.entries {
      AddedRowIsPlanned(cat, WithGrant(cat, b, clock).value, b');
    }
  }

  // Over every run, every included grant gives what a plan of the catalog includes.
  lemma {:induction false} GrantsGiveWhatPlansInclude(cat: Catalog, owner: string, customer: Option<string>, ops: seq<Op>)
    requires cat.usdPerCredit > 0
    ensures forall e <- After(cat, Opened(cat, owner, customer), ops).entries :: GrantsAsPlanned(cat, e)
    decreases |ops|
  {
    hide GrantsAsPlanned, Applied;
    if ops != [] {
      GrantsGiveWhatPlansInclude(cat, owner, customer, ops[..|ops| - 1]);
      StepIsPlanned(cat, After(cat, Opened(cat, owner, customer), ops[..|ops| - 1]), ops[|ops| - 1]);
    }
  }

  // ---------- Every run: what is in use ----------

  // What settlements cost above their estimates.
  function OverEstimates(holds: seq<Hold>): int {
    if holds == [] then 0
    else
      var h := holds[|holds| - 1];
      OverEstimates(holds[..|holds| - 1]) + if h.status == Settled && h.estimate < h.actual then h.actual - h.estimate else 0
  }

  lemma {:induction false} OverEstimatesAreSummed(holds: seq<Hold>)
    ensures Sum(holds, Overage) == OverEstimates(holds)
    decreases |holds|
  {
    if holds != [] {
      OverEstimatesAreSummed(holds[..|holds| - 1]);
    }
  }

  // Over every run, whatever keys callers use: no more holds are open than some plan allows at
  // once, and spend, reserved credits and debt stay within the most generous limit, but for
  // what settlements cost above their estimates.
  lemma UseStaysWithinPlans(cat: Catalog, owner: string, customer: Option<string>, ops: seq<Op>, limit: nat, concurrency: nat)
    requires cat.usdPerCredit > 0
    requires forall id <- cat.plans :: 1_000_000 * cat.plans[id].monthlyLimitCredits <= limit && cat.plans[id].concurrencyLimit <= concurrency
    ensures
      var b := After(cat, Opened(cat, owner, customer), ops);
      && |set i: nat | i < |b.holds| && b.holds[i].status.Held?| <= concurrency
      && 0 <= b.account.spend && b.account.spend + b.account.reserved <= limit + OverEstimates(b.holds)
      && b.account.available >= -OverEstimates(b.holds)
  {
    hide After, Sum;
    var b := After(cat, Opened(cat, owner, customer), ops);
    CreditLimits.CatalogLimitsHold(cat, owner, customer, ops, limit, concurrency);
    OpenHoldsAreCounted(b.holds);
    OverEstimatesAreSummed(b.holds);
  }
}
