/** The credit ledger of one billing account: reservations, settlements, refunds, grants and
    Stripe webhooks, each as one transaction on the account's rows. */
module Credits {
  import opened Basics
  import Pricing

  datatype BillingError =
    | Unpriced(reason: Pricing.PricingError)
    | AccountPlanInvalid | CatalogItemNotFound | CheckoutUnknown | ConcurrencyLimit | ConstraintViolation | CreditsInvalid | ExecutionNotEntitled | IdempotencyConflict | InsufficientCredits | RefundInvalid | ReservationNotFound | ReservationReleased | SettlementConflict | SpendLimit | SubscriptionOwnerConflict | SubscriptionPriceConflict | SubscriptionPriceUnknown | SubscriptionUnknown | WebhookConflict | WebhookInvalid

  // ---------- Catalog ----------

  datatype PlanKind = Free | Demo | Subscription

  datatype Plan = Plan(
    id: string,
    kind: PlanKind,
    includedCredits: nat,
    reserveCredits: nat,
    monthlyLimitCredits: nat,
    concurrencyLimit: nat,
    graceDays: nat,
    execution: bool)

  datatype Catalog = Catalog(
    plans: map<string, Plan>,
    packs: map<string, nat>,
    prices: map<string, string>,
    defaultPlan: string,
    usdPerCredit: nat,
    rates: map<(string, string), Pricing.Rate>)
  {
    // What the catalog loader guarantees.
    predicate Valid() {
      && usdPerCredit > 0
      && defaultPlan in plans && !plans[defaultPlan].kind.Subscription?
      && (forall id <- plans :: plans[id].id == id && plans[id].reserveCredits <= plans[id].monthlyLimitCredits)
      && (forall id <- packs :: packs[id] > 0)
    }
  }

  function Micro(credits: nat): nat {
    credits * Pricing.MICROCREDITS_PER_CREDIT
  }

  // ---------- Idempotency keys ----------

  // A ledger key is text; its prefix says which operation owns it.
  datatype Key =
    | Reserve(name: string)
    | Release(name: string)
    | Settle(name: string)
    | Stripe(name: string)
    | Included(name: string)
    | Raw(name: string)

  function PeriodKey(scope: string, period: string): Key {
    Included(scope + ":" + period)
  }

  function Text(k: Key): string {
    match k
    case Reserve(n) => "reserve:" + n
    case Release(n) => "release:" + n
    case Settle(n) => "settle:" + n
    case Stripe(n) => "stripe:" + n
    case Included(n) => "included:" + n
    case Raw(n) => n
  }

  function KeyOf(text: string): Key {
    if "reserve:" <= text then Reserve(text[8..])
    else if "release:" <= text then Release(text[8..])
    else if "settle:" <= text then Settle(text[7..])
    else if "stripe:" <= text then Stripe(text[7..])
    else if "included:" <= text then Included(text[9..])
    else Raw(text)
  }

  // ---------- Rows ----------

  // Stripe's subscription status, as far as the gateway tells statuses apart.
  datatype Status = Active | Trialing | PastDue | Unpaid | Canceled | OtherStatus(name: string)

  datatype Account = Account(
    plan: string,
    status: Status,
    available: int,
    reserved: int,
    spend: int,
    period: Option<string>,
    graceEndsAt: Option<int>,
    subscription: Option<string>,
    periodStart: Option<int>,
    periodEnd: Option<int>,
    cancelAtPeriodEnd: bool,
    providerCreated: Option<int>,
    customer: Option<string>)

  datatype EntryKind = IncludedGrant | TopUp | Reservation | ReleaseEntry | Settlement | Refund

  datatype Source = FromCatalog | FromExecution | Named(name: string)

  datatype Entry = Entry(
    key: Key,
    kind: EntryKind,
    amount: int,
    balanceAfter: int,
    objective: Option<string>,
    source: Source)

  datatype HoldStatus = Held | Settled | Released

  // A reservation row. Its id is a hash of owner and objective, so the objective names it.
  datatype Hold = Hold(
    objective: string,
    key: string,
    estimate: nat,
    status: HoldStatus,
    actual: nat,
    usage: Option<Pricing.Usage>)

  datatype Books = Books(
    owner: string,
    account: Account,
    holds: seq<Hold>,
    usageEvents: map<string, string>,
    entries: seq<Entry>,
    webhooks: map<string, string>)

  // An owner without a row behaves as one with this row: every operation that could tell
  // creates it first.
  function NewAccount(cat: Catalog): Account {
    Account(cat.defaultPlan, Active, 0, 0, 0, None, None, None, None, None, false, None, None)
  }

  function Opened(cat: Catalog, owner: string, customer: Option<string>): Books {
    Books(owner, NewAccount(cat).(customer := customer), [], map[], [], map[])
  }

  function HasKey(entries: seq<Entry>, key: Key): bool {
    exists e <- entries :: e.key == key
  }

  function EntryWith(entries: seq<Entry>, key: Key): (e: Entry)
    requires HasKey(entries, key)
    ensures e in entries && e.key == key
  {
    if entries[0].key == key then entries[0] else EntryWith(entries[1..], key)
  }

  // The row a query on a unique column finds, or the number of rows.
  function HoldFor(holds: seq<Hold>, objective: string): (i: nat)
    ensures i <= |holds|
    ensures i < |holds| ==> holds[i].objective == objective
    ensures forall j | 0 <= j < i :: holds[j].objective != objective
  {
    if holds == [] then 0
    else if holds[0].objective == objective then 0
    else 1 + HoldFor(holds[1..], objective)
  }

  function HoldKeyed(holds: seq<Hold>, key: string): (i: nat)
    ensures i <= |holds|
    ensures i < |holds| ==> holds[i].key == key
    ensures forall j | 0 <= j < i :: holds[j].key != key
  {
    if holds == [] then 0
    else if holds[0].key == key then 0
    else 1 + HoldKeyed(holds[1..], key)
  }

  // Insert-or-ignore: an existing key leaves the ledger as it is.
  function Recorded(entries: seq<Entry>, e: Entry): seq<Entry> {
    if HasKey(entries, e.key) then entries else entries + [e]
  }

  // ---------- Sums ----------

  function Sum<T>(rows: seq<T>, weight: T -> int): int {
    if rows == [] then 0 else Sum(rows[..|rows| - 1], weight) + weight(rows[|rows| - 1])
  }

  function Amount(e: Entry): int {
    e.amount
  }

  // Credits that entered the account: grants, top-ups and refunds.
  function Funding(e: Entry): int {
    if e.kind in {IncludedGrant, TopUp, Refund} then e.amount else 0
  }

  function HeldEstimate(h: Hold): int {
    if h.status.Held? then h.estimate else 0
  }

  function SettledActual(h: Hold): int {
    if h.status.Settled? then h.actual else 0
  }

  function Overage(h: Hold): int {
    if h.status.Settled? && h.actual > h.estimate then h.actual - h.estimate else 0
  }

  function HeldCount(h: Hold): int {
    if h.status.Held? then 1 else 0
  }

  function Refunded(entries: seq<Entry>, objective: string): int {
    if entries == [] then 0
    else
      var e := entries[|entries| - 1];
      Refunded(entries[..|entries| - 1], objective)
      + if e.kind.Refund? && e.objective == Some(objective) then e.amount else 0
  }

  // ---------- Account access and the monthly grant ----------

  datatype Clock = Clock(now: int, month: string)

  function WithGrant(cat: Catalog, b: Books, clock: Clock): Result<Books, BillingError> {
    var a := b.account;
    if a.plan !in cat.plans then Err(AccountPlanInvalid)
    else
      var plan := cat.plans[a.plan];
      if plan.kind.Subscription? || a.period == Some(clock.month) then Ok(b)
      else
        var grant := Micro(plan.includedCredits);
        var key := PeriodKey(plan.id, clock.month);
        if HasKey(b.entries, key) then Ok(b)
        else
          var balance := a.available + grant;
          Ok(b.(account := a.(available := balance, spend := 0, period := Some(clock.month)),
                entries := b.entries + [Entry(key, IncludedGrant, grant, balance, None, FromCatalog)]))
  }

  // ---------- Ledger operations ----------

  predicate InGrace(a: Account, now: int) {
    a.status.PastDue? && a.graceEndsAt.Some? && a.graceEndsAt.value != 0 && a.graceEndsAt.value > now
  }

  predicate Entitled(plan: Plan, a: Account, now: int) {
    plan.execution && (a.status in {Active, Trialing} || InGrace(a, now))
  }

  function ReserveObjective(cat: Catalog, b: Books, objective: string, key: string, clock: Clock): Result<(Books, Hold), BillingError> {
    match WithGrant(cat, b, clock)
    case Err(e) => Err(e)
    case Ok(g) => Placed(cat, g, objective, key, clock.now)
  }

  function Placed(cat: Catalog, g: Books, objective: string, key: string, now: int): Result<(Books, Hold), BillingError>
    requires g.account.plan in cat.plans
  {
    var a := g.account;
    var plan := cat.plans[a.plan];
    var prior := HoldKeyed(g.holds, key);
    if prior < |g.holds| then
      if g.holds[prior].objective != objective then Err(IdempotencyConflict) else Ok((g, g.holds[prior]))
    else if !Entitled(plan, a, now) then Err(ExecutionNotEntitled)
    else if Sum(g.holds, HeldCount) >= plan.concurrencyLimit then Err(ConcurrencyLimit)
    else
      var estimate := Micro(plan.reserveCredits);
      if a.available < estimate then Err(InsufficientCredits)
      else if a.spend + a.reserved + estimate > Micro(plan.monthlyLimitCredits) then Err(SpendLimit)
      else if HoldFor(g.holds, objective) < |g.holds| then Err(ConstraintViolation)
      else
        var balance := a.available - estimate;
        var hold := Hold(objective, key, estimate, Held, 0, None);
        Ok((g.(holds := g.holds + [hold],
               account := a.(available := balance, reserved := a.reserved + estimate),
               entries := Recorded(g.entries, Entry(Reserve(key), Reservation, -(estimate as int), balance, Some(objective), FromExecution))),
            hold))
  }

  function ReleaseObjective(b: Books, objective: string): (Books, bool) {
    var i := HoldFor(b.holds, objective);
    if i == |b.holds| || !b.holds[i].status.Held? then (b, false)
    else
      var a, h := b.account, b.holds[i];
      var balance := a.available + h.estimate;
      (b.(holds := b.holds[i := h.(status := Released)],
          account := a.(available := balance, reserved := a.reserved - h.estimate),
          entries := Recorded(b.entries, Entry(Release(objective), ReleaseEntry, h.estimate, balance, Some(objective), FromExecution))),
       true)
  }

  function SettleObjective(cat: Catalog, b: Books, objective: string, usage: Pricing.Usage, event: string): Result<(Books, Hold), BillingError>
    requires cat.usdPerCredit > 0
  {
    match Pricing.MeasuredCost(cat.rates, cat.usdPerCredit, usage)
    case Err(e) => Err(Unpriced(e))
    case Ok(actual) =>
      var i := HoldFor(b.holds, objective);
      if i == |b.holds| then Err(ReservationNotFound)
      else
        var a, h := b.account, b.holds[i];
        if h.status.Settled? then
          if h.actual != actual || h.usage != Some(usage) || event !in b.usageEvents || b.usageEvents[event] != objective
          then Err(SettlementConflict)
          else Ok((b, h))
        else if !h.status.Held? then Err(ReservationReleased)
        else if event in b.usageEvents then Err(ConstraintViolation)
        else
          var balance := a.available + h.estimate - actual;
          var settled := h.(status := Settled, actual := actual, usage := Some(usage));
          Ok((b.(holds := b.holds[i := settled],
                 usageEvents := b.usageEvents[event := objective],
                 account := a.(available := balance, reserved := a.reserved - h.estimate, spend := a.spend + actual),
                 entries := Recorded(b.entries, Entry(Settle(event), Settlement, h.estimate - actual, balance, Some(objective), FromExecution))),
              settled))
  }

  function RefundObjective(b: Books, objective: string, amount: int, key: string): Result<(Books, bool), BillingError> {
    if amount <= 0 then Err(RefundInvalid)
    else
      var i := HoldFor(b.holds, objective);
      if i == |b.holds| || !b.holds[i].status.Settled? || amount > b.holds[i].actual then Err(RefundInvalid)
      else if HasKey(b.entries, KeyOf(key)) then
        var prior := EntryWith(b.entries, KeyOf(key));
        if !prior.kind.Refund? || prior.amount != amount || prior.objective != Some(objective)
        then Err(IdempotencyConflict)
        else Ok((b, false))
      else if Refunded(b.entries, objective) + amount > b.holds[i].actual then Err(RefundInvalid)
      else
        var a := b.account;
        var balance := a.available + amount;
        Ok((b.(entries := Recorded(b.entries, Entry(KeyOf(key), Refund, amount, balance, Some(objective), FromExecution)),
               account := a.(available := balance, spend := if a.spend > amount then a.spend - amount else 0)),
            true))
  }

  function AddCredits(cat: Catalog, b: Books, credits: int, key: string, source: string, clock: Clock): Result<(Books, bool), BillingError> {
    if credits <= 0 then Err(CreditsInvalid)
    else
      match WithGrant(cat, b, clock)
      case Err(e) => Err(e)
      case Ok(g) => ToppedUp(g, Micro(credits), key, source)
  }

  function ToppedUp(g: Books, amount: nat, key: string, source: string): Result<(Books, bool), BillingError> {
    if HasKey(g.entries, KeyOf(key)) then
      var prior := EntryWith(g.entries, KeyOf(key));
      if !prior.kind.TopUp? || prior.amount != amount || prior.source != Named(source)
      then Err(IdempotencyConflict)
      else Ok((g, false))
    else
      var balance := g.account.available + amount;
      Ok((g.(entries := Recorded(g.entries, Entry(KeyOf(key), TopUp, amount, balance, None, Named(source))),
             account := g.account.(available := balance)),
          true))
  }

  // ---------- Stripe webhooks ----------

  datatype Change = Change(
    deleted: bool,
    customer: Option<string>,
    metadataOwner: Option<string>,
    metadataPlan: Option<string>,
    subscription: Option<string>,
    price: Option<string>,
    status: Option<Status>,
    periodStart: Option<int>,
    periodEnd: Option<int>,
    cancelAtPeriodEnd: bool)

  datatype Notice =
    | PaidCheckout(session: Option<(bool, string)>)  // is it a credit pack, and which
    | SubscriptionChange(change: Change)
    | Invoice(paid: bool, subscription: Option<string>, periodStart: Option<int>, periodEnd: Option<int>)
    | Unhandled

  datatype Event = Event(id: string, digest: string, created: int, notice: Notice)

  function CheckoutPaid(cat: Catalog, b: Books, id: string, session: Option<(bool, string)>, clock: Clock): Result<Books, BillingError> {
    if session.None? || !session.value.0 then Err(CheckoutUnknown)
    else if session.value.1 !in cat.packs then Err(CatalogItemNotFound)
    else
      match WithGrant(cat, b, clock)
      case Err(e) => Err(e)
      case Ok(g) =>
        var amount := Micro(cat.packs[session.value.1]);
        var balance := g.account.available + amount;
        Ok(g.(entries := Recorded(g.entries, Entry(Stripe(id), TopUp, amount, balance, None, Named("stripe"))),
              account := g.account.(available := balance)))
  }

  // The subscription plan a change is for, or why it cannot be applied to this account. None
  // of this depends on anything but the account's owner and Stripe customer.
  function ChangePlan(cat: Catalog, owner: string, customer: Option<string>, c: Change): Result<string, BillingError> {
    var ours := c.customer.Some? && c.customer == customer;
    if c.metadataOwner.Some? && ours && c.metadataOwner.value != owner then Err(SubscriptionOwnerConflict)
    else if !ours || c.subscription.None? then Err(SubscriptionUnknown)
    else
      var plan := if c.price.Some? && c.price.value in cat.prices then Some(cat.prices[c.price.value]) else None;
      if c.metadataPlan.Some? && plan.Some? && c.metadataPlan != plan then Err(SubscriptionPriceConflict)
      else if plan.None? || plan.value !in cat.plans || !cat.plans[plan.value].kind.Subscription? then Err(SubscriptionPriceUnknown)
      else Ok(plan.value)
  }

  function GraceFrom(a: Account, plan: Plan, now: int): int {
    if a.graceEndsAt.Some? then a.graceEndsAt.value else now + plan.graceDays * 86400
  }

  predicate Newer(a: Account, created: int) {
    a.providerCreated.Some? && a.providerCreated.value > created
  }

  function ChangeStatus(c: Change): Status {
    if c.deleted || c.status.None? then Canceled else c.status.value
  }

  function SubscriptionChanged(cat: Catalog, b: Books, c: Change, created: int, clock: Clock): Result<Books, BillingError> {
    match ChangePlan(cat, b.owner, b.account.customer, c)
    case Err(e) => Err(e)
    case Ok(planId) =>
      match WithGrant(cat, b, clock)
      case Err(e) => Err(e)
      case Ok(g) =>
        var a := g.account;
        if Newer(a, created) then Ok(g)
        else
          var status := ChangeStatus(c);
          var grace := if status in {PastDue, Unpaid} then Some(GraceFrom(a, cat.plans[planId], clock.now)) else None;
          Ok(g.(account := a.(
            plan := if status.Canceled? then cat.defaultPlan else planId,
            status := if status.Canceled? then Active else status,
            subscription := if status.Canceled? then None else c.subscription,
            periodStart := c.periodStart, periodEnd := c.periodEnd,
            cancelAtPeriodEnd := c.cancelAtPeriodEnd, graceEndsAt := grace,
            providerCreated := Some(created))))
  }

  function Digits(n: nat): string {
    var last := ['0' + (n % 10) as char];
    if n < 10 then last else Digits(n / 10) + last
  }

  function Decimal(n: int): string {
    if n < 0 then "-" + Digits(-n) else Digits(n)
  }

  function InvoiceReceived(cat: Catalog, b: Books, n: Notice, created: int, clock: Clock): Result<Books, BillingError>
    requires n.Invoice?
  {
    var a := b.account;
    if n.subscription.None? then Ok(b)
    else if a.subscription != n.subscription then Err(SubscriptionUnknown)
    else if Newer(a, created) then Ok(b)
    else if a.plan !in cat.plans || !cat.plans[a.plan].kind.Subscription? then Err(SubscriptionPriceUnknown)
    else
      var plan := cat.plans[a.plan];
      if !n.paid then
        Ok(b.(account := a.(status := PastDue, graceEndsAt := Some(GraceFrom(a, plan, clock.now)),
                            providerCreated := Some(created))))
      else
        var start := if n.periodStart.Some? then n.periodStart.value else clock.now;
        var grant := Micro(plan.includedCredits);
        var key := PeriodKey(n.subscription.value, Decimal(start));
        var balance := a.available + (if HasKey(b.entries, key) then 0 else grant);
        Ok(b.(entries := Recorded(b.entries, Entry(key, IncludedGrant, grant, a.available + grant, None, Named("stripe"))),
              account := a.(status := Active, graceEndsAt := None, periodStart := Some(start),
                            periodEnd := if n.periodEnd.Some? then n.periodEnd else a.periodEnd,
                            period := Some(Decimal(start)), spend := 0, available := balance,
                            providerCreated := Some(created))))
  }

  // True in the result means the event was already processed.
  function ProcessWebhook(cat: Catalog, b: Books, e: Event, clock: Clock): Result<(Books, bool), BillingError> {
    if e.created <= 0 then Err(WebhookInvalid)
    else if e.id in b.webhooks then
      if b.webhooks[e.id] != e.digest then Err(WebhookConflict) else Ok((b, true))
    else
      var noted := b.(webhooks := b.webhooks[e.id := e.digest]);
      var outcome :=
        match e.notice
        case PaidCheckout(session) => CheckoutPaid(cat, noted, e.id, session, clock)
        case SubscriptionChange(c) => SubscriptionChanged(cat, noted, c, e.created, clock)
        case Invoice(_, _, _, _) => InvoiceReceived(cat, noted, e.notice, e.created, clock)
        case Unhandled => Ok(noted);
      match outcome
      case Err(e) => Err(e)
      case Ok(b') => Ok((b', false))
  }

  // ---------- Runs ----------

  datatype Op =
    | ReadSummary(clock: Clock)
    | ReserveOp(objective: string, key: string, clock: Clock)
    | ReleaseOp(objective: string)
    | SettleOp(objective: string, usage: Pricing.Usage, event: string)
    | RefundOp(objective: string, amount: int, key: string)
    | AddOp(credits: int, key: string, source: string, clock: Clock)
    | WebhookOp(notice: Event, clock: Clock)

  // A refused operation rolls its transaction back.
  function Applied(cat: Catalog, b: Books, op: Op): Books
    requires cat.usdPerCredit > 0
  {
    match op
    case ReadSummary(clock) => (match WithGrant(cat, b, clock) case Ok(b') => b' case Err(_) => b)
    case ReserveOp(o, k, clock) => (match ReserveObjective(cat, b, o, k, clock) case Ok(r) => r.0 case Err(_) => b)
    case ReleaseOp(o) => ReleaseObjective(b, o).0
    case SettleOp(o, u, e) => (match SettleObjective(cat, b, o, u, e) case Ok(r) => r.0 case Err(_) => b)
    case RefundOp(o, n, k) => (match RefundObjective(b, o, n, k) case Ok(r) => r.0 case Err(_) => b)
    case AddOp(n, k, s, clock) => (match AddCredits(cat, b, n, k, s, clock) case Ok(r) => r.0 case Err(_) => b)
    case WebhookOp(e, clock) => (match ProcessWebhook(cat, b, e, clock) case Ok(r) => r.0 case Err(_) => b)
  }

  function After(cat: Catalog, b: Books, ops: seq<Op>): Books
    requires cat.usdPerCredit > 0
    decreases |ops|
  {
    if ops == [] then b else Applied(cat, After(cat, b, ops[..|ops| - 1]), ops[|ops| - 1])
  }
}
