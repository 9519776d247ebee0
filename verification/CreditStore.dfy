/** The credit ledger as the gateway keeps it: one owner's rows, changed in place inside
    transactions that either commit or leave every row as it was. */
module CreditStore {
  import opened Basics
  import opened Credits
  import Pricing

  class Ledger {
    const cat: Catalog
    const owner: string
    var account: Account
    var holds: seq<Hold>
    var usageEvents: map<string, string>
    var entries: seq<Entry>
    var webhooks: map<string, string>

    constructor (cat: Catalog, owner: string, customer: Option<string>)
      ensures this.cat == cat && State() == Opened(cat, owner, customer)
    {
      this.cat, this.owner := cat, owner;
      account := NewAccount(cat).(customer := customer);
      holds, usageEvents, entries, webhooks := [], map[], [], map[];
    }

    function State(): Books
      reads this
    {
      Books(owner, account, holds, usageEvents, entries, webhooks)
    }

    method Rollback(b: Books)
      requires b.owner == owner
      modifies this
      ensures State() == b
    {
      account, holds, usageEvents, entries, webhooks := b.account, b.holds, b.usageEvents, b.entries, b.webhooks;
    }

    // Adds a ledger row and says whether it is new.
    method InsertLedger(e: Entry) returns (inserted: bool)
      modifies `entries
      ensures inserted == !HasKey(old(entries), e.key)
      ensures entries == Recorded(old(entries), e)
    {
      if HasKey(entries, e.key) {
        return false;
      }
      entries := entries + [e];
      return true;
    }

    method EnsureGrant(clock: Clock) returns (error: Option<BillingError>)
      modifies this
      ensures match WithGrant(cat, old(State()), clock)
        case Ok(b) => error == None && State() == b
        case Err(e) => error == Some(e) && State() == old(State())
    {
      if account.plan !in cat.plans {
        return Some(AccountPlanInvalid);
      }
      var plan := cat.plans[account.plan];
      if plan.kind.Subscription? || account.period == Some(clock.month) {
        return None;
      }
      var grant := Micro(plan.includedCredits);
      var balance := account.available + grant;
      var inserted := InsertLedger(Entry(PeriodKey(plan.id, clock.month), IncludedGrant, grant, balance, None, FromCatalog));
      if inserted {
        account := account.(available := balance, spend := 0, period := Some(clock.month));
      }
      return None;
    }

    method ReserveHold(objective: string, key: string, clock: Clock) returns (r: Result<Hold, BillingError>)
      modifies this
      ensures match ReserveObjective(cat, old(State()), objective, key, clock)
        case Ok(done) => State() == done.0 && r == Ok(done.1)
        case Err(e) => State() == old(State()) && r == Err(e)
    {
      var before := State();
      var failed := EnsureGrant(clock);
      if failed.Some? {
        return Err(failed.value);
      }
      var error := PlaceHold(objective, key, clock.now);
      if error.Err? {
        Rollback(before);
      }
      return error;
    }

    method PlaceHold(objective: string, key: string, now: int) returns (r: Result<Hold, BillingError>)
      requires account.plan in cat.plans
      modifies this
      ensures match Placed(cat, old(State()), objective, key, now)
        case Ok(done) => State() == done.0 && r == Ok(done.1)
        case Err(e) => r == Err(e)
    {
      var plan := cat.plans[account.plan];
      var prior := HoldKeyed(holds, key);
      if prior < |holds| {
        if holds[prior].objective != objective {
          return Err(IdempotencyConflict);
        }
        return Ok(holds[prior]);
      }
      if !Entitled(plan, account, now) {
        return Err(ExecutionNotEntitled);
      }
      if Sum(holds, HeldCount) >= plan.concurrencyLimit {
        return Err(ConcurrencyLimit);
      }
      var estimate := Micro(plan.reserveCredits);
      if account.available < estimate {
        return Err(InsufficientCredits);
      }
      if account.spend + account.reserved + estimate > Micro(plan.monthlyLimitCredits) {
        return Err(SpendLimit);
      }
      if HoldFor(holds, objective) < |holds| {
        return Err(ConstraintViolation);
      }
      var hold := Hold(objective, key, estimate, Held, 0, None);
      holds := holds + [hold];
      account := account.(available := account.available - estimate, reserved := account.reserved + estimate);
      var _ := InsertLedger(Entry(Reserve(key), Reservation, -(estimate as int), account.available, Some(objective), FromExecution));
      return Ok(hold);
    }

    method ReleaseHold(objective: string) returns (released: bool)
      modifies this
      ensures (State(), released) == ReleaseObjective(old(State()), objective)
    {
      var i := HoldFor(holds, objective);
      if i == |holds| || !holds[i].status.Held? {
        return false;
      }
      var h := holds[i];
      holds := holds[i := h.(status := Released)];
      account := account.(available := account.available + h.estimate, reserved := account.reserved - h.estimate);
      var _ := InsertLedger(Entry(Release(objective), ReleaseEntry, h.estimate, account.available, Some(objective), FromExecution));
      return true;
    }

    method SettleHold(objective: string, usage: Pricing.Usage, event: string) returns (r: Result<Hold, BillingError>)
      requires cat.usdPerCredit > 0
      modifies this
      ensures match SettleObjective(cat, old(State()), objective, usage, event)
        case Ok(done) => State() == done.0 && r == Ok(done.1)
        case Err(e) => State() == old(State()) && r == Err(e)
    {
      var cost := Pricing.MeasuredCost(cat.rates, cat.usdPerCredit, usage);
      if cost.Err? {
        return Err(Unpriced(cost.error));
      }
      var i := HoldFor(holds, objective);
      if i == |holds| {
        return Err(ReservationNotFound);
      }
      var h, actual := holds[i], cost.value;
      if h.status.Settled? {
        if h.actual != actual || h.usage != Some(usage) || event !in usageEvents || usageEvents[event] != objective {
          return Err(SettlementConflict);
        }
        return Ok(h);
      }
      if !h.status.Held? {
        return Err(ReservationReleased);
      }
      if event in usageEvents {
        return Err(ConstraintViolation);
      }
      usageEvents := usageEvents[event := objective];
      holds := holds[i := h.(status := Settled, actual := actual, usage := Some(usage))];
      account := account.(available := account.available + h.estimate - actual,
                          reserved := account.reserved - h.estimate,
                          spend := account.spend + actual);
      var _ := InsertLedger(Entry(Settle(event), Settlement, h.estimate - actual, account.available, Some(objective), FromExecution));
      return Ok(holds[i]);
    }

    method RefundSettled(objective: string, amount: int, key: string) returns (r: Result<bool, BillingError>)
      modifies this
      ensures match RefundObjective(old(State()), objective, amount, key)
        case Ok(done) => State() == done.0 && r == Ok(done.1)
        case Err(e) => State() == old(State()) && r == Err(e)
    {
      var i := HoldFor(holds, objective);
      if amount <= 0 || i == |holds| || !holds[i].status.Settled? || amount > holds[i].actual {
        return Err(RefundInvalid);
      }
      if HasKey(entries, KeyOf(key)) {
        var prior := EntryWith(entries, KeyOf(key));
        if !prior.kind.Refund? || prior.amount != amount || prior.objective != Some(objective) {
          return Err(IdempotencyConflict);
        }
        return Ok(false);
      }
      if Refunded(entries, objective) + amount > holds[i].actual {
        return Err(RefundInvalid);
      }
      account := account.(available := account.available + amount,
                          spend := if account.spend > amount then account.spend - amount else 0);
      var _ := InsertLedger(Entry(KeyOf(key), Refund, amount, account.available, Some(objective), FromExecution));
      return Ok(true);
    }

    method TopUpAccount(credits: int, key: string, source: string, clock: Clock) returns (r: Result<bool, BillingError>)
      modifies this
      ensures match AddCredits(cat, old(State()), credits, key, source, clock)
        case Ok(done) => State() == done.0 && r == Ok(done.1)
        case Err(e) => State() == old(State()) && r == Err(e)
    {
      if credits <= 0 {
        return Err(CreditsInvalid);
      }
      var before := State();
      var failed := EnsureGrant(clock);
      if failed.Some? {
        return Err(failed.value);
      }
      var amount: nat := Micro(credits);
      if HasKey(entries, KeyOf(key)) {
        var prior := EntryWith(entries, KeyOf(key));
        if !prior.kind.TopUp? || prior.amount != amount || prior.source != Named(source) {
          Rollback(before);
          return Err(IdempotencyConflict);
        }
        return Ok(false);
      }
      account := account.(available := account.available + amount);
      var _ := InsertLedger(Entry(KeyOf(key), TopUp, amount, account.available, None, Named(source)));
      return Ok(true);
    }

    method Process(e: Event, clock: Clock) returns (r: Result<bool, BillingError>)
      modifies this
      ensures match ProcessWebhook(cat, old(State()), e, clock)
        case Ok(done) => State() == done.0 && r == Ok(done.1)
        case Err(error) => State() == old(State()) && r == Err(error)
    {
      if e.created <= 0 {
        return Err(WebhookInvalid);
      }
      if e.id in webhooks {
        if webhooks[e.id] != e.digest {
          return Err(WebhookConflict);
        }
        return Ok(true);
      }
      var before := State();
      webhooks := webhooks[e.id := e.digest];
      var failed := None;
      match e.notice {
        case PaidCheckout(session) => failed := Checkout(e.id, session, clock);
        case SubscriptionChange(c) => failed := ChangeSubscription(c, e.created, clock);
        case Invoice(_, _, _, _) => failed := ReceiveInvoice(e.notice, e.created, clock);
        case Unhandled =>
      }
      if failed.Some? {
        Rollback(before);
        return Err(failed.value);
      }
      return Ok(false);
    }

    method Checkout(id: string, session: Option<(bool, string)>, clock: Clock) returns (error: Option<BillingError>)
      modifies this
      ensures match CheckoutPaid(cat, old(State()), id, session, clock)
        case Ok(b) => error == None && State() == b
        case Err(e) => error == Some(e)
    {
      if session.None? || !session.value.0 {
        return Some(CheckoutUnknown);
      }
      if session.value.1 !in cat.packs {
        return Some(CatalogItemNotFound);
      }
      error := EnsureGrant(clock);
      if error.None? {
        var amount := Micro(cat.packs[session.value.1]);
        account := account.(available := account.available + amount);
        var _ := InsertLedger(Entry(Stripe(id), TopUp, amount, account.available, None, Named("stripe")));
      }
    }

    method ChangeSubscription(c: Change, created: int, clock: Clock) returns (error: Option<BillingError>)
      modifies this
      ensures match SubscriptionChanged(cat, old(State()), c, created, clock)
        case Ok(b) => error == None && State() == b
        case Err(e) => error == Some(e)
    {
      var chosen := ChangePlan(cat, owner, account.customer, c);
      if chosen.Err? {
        return Some(chosen.error);
      }
      error := EnsureGrant(clock);
      if error.Some? || Newer(account, created) {
        return;
      }
      var status := ChangeStatus(c);
      var grace := if status in {PastDue, Unpaid} then Some(GraceFrom(account, cat.plans[chosen.value], clock.now)) else None;
      if status.Canceled? {
        account := account.(plan := cat.defaultPlan, status := Active, subscription := None);
      } else {
        account := account.(plan := chosen.value, status := status, subscription := c.subscription);
      }
      account := account.(periodStart := c.periodStart, periodEnd := c.periodEnd,
                          cancelAtPeriodEnd := c.cancelAtPeriodEnd, graceEndsAt := grace,
                          providerCreated := Some(created));
    }

    method ReceiveInvoice(n: Notice, created: int, clock: Clock) returns (error: Option<BillingError>)
      requires n.Invoice?
      modifies this
      ensures match InvoiceReceived(cat, old(State()), n, created, clock)
        case Ok(b) => error == None && State() == b
        case Err(e) => error == Some(e)
    {
      if n.subscription.None? {
        return None;
      }
      if account.subscription != n.subscription {
        return Some(SubscriptionUnknown);
      }
      if Newer(account, created) {
        return None;
      }
      if account.plan !in cat.plans || !cat.plans[account.plan].kind.Subscription? {
        return Some(SubscriptionPriceUnknown);
      }
      var plan := cat.plans[account.plan];
      if !n.paid {
        account := account.(status := PastDue, graceEndsAt := Some(GraceFrom(account, plan, clock.now)),
                            providerCreated := Some(created));
        return None;
      }
      var start := if n.periodStart.Some? then n.periodStart.value else clock.now;
      var grant := Micro(plan.includedCredits);
      var inserted := InsertLedger(Entry(PeriodKey(n.subscription.value, Decimal(start)), IncludedGrant, grant,
                                         account.available + grant, None, Named("stripe")));
      account := account.(status := Active, graceEndsAt := None, periodStart := Some(start),
                          periodEnd := if n.periodEnd.Some? then n.periodEnd else account.periodEnd,
                          period := Some(Decimal(start)), spend := 0,
                          available := account.available + if inserted then grant else 0,
                          providerCreated := Some(created));
      return None;
    }
  }
}
