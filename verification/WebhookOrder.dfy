/** Subscription webhooks converge: the newest valid change decides, in any delivery order. */
module WebhookOrder {
  import opened Basics
  import opened Credits
  import Pricing

  // What a subscription change sets, leaving out the grace period and balances.
  datatype View = View(
    plan: string,
    status: Status,
    subscription: Option<string>,
    periodStart: Option<int>,
    periodEnd: Option<int>,
    cancelAtPeriodEnd: bool)

  function Seen(a: Account): View {
    View(a.plan, a.status, a.subscription, a.periodStart, a.periodEnd, a.cancelAtPeriodEnd)
  }

  predicate ValidChange(cat: Catalog, owner: string, customer: Option<string>, e: Event) {
    e.created > 0 && e.notice.SubscriptionChange? && ChangePlan(cat, owner, customer, e.notice.change).Ok?
  }

  function Wanted(cat: Catalog, owner: string, customer: Option<string>, e: Event): View
    requires ValidChange(cat, owner, customer, e)
  {
    var c := e.notice.change;
    if c.deleted || c.status.None? || c.status.value.Canceled?
    then View(cat.defaultPlan, Active, None, c.periodStart, c.periodEnd, c.cancelAtPeriodEnd)
    else View(cat.prices[c.price.value], c.status.value, c.subscription, c.periodStart, c.periodEnd, c.cancelAtPeriodEnd)
  }

  // Anything may be interleaved except invoice events: reservations, settlements, refunds,
  // top-ups, checkouts and reads leave the view alone.
  predicate NoInvoice(op: Op) {
    op.WebhookOp? ==> !op.notice.notice.Invoice?
  }

  // The valid changes among the delivered events.
  function Changes(cat: Catalog, owner: string, customer: Option<string>, ops: seq<Op>): set<Event> {
    set op | op in ops && op.WebhookOp? && ValidChange(cat, owner, customer, op.notice) :: op.notice
  }

  // Stripe gives every event one id and one payload, and (here) its own creation time.
  ghost predicate DistinctEvents(ops: seq<Op>) {
    forall p, q | p in ops && q in ops && p.WebhookOp? && q.WebhookOp? ::
      p.notice != q.notice ==> p.notice.id != q.notice.id && p.notice.created != q.notice.created
  }

  ghost predicate Newest(e: Event, events: set<Event>) {
    e in events && forall f <- events :: f.created <= e.created
  }

  // The account's plan is always one the catalog still has.
  ghost predicate OnKnownPlan(cat: Catalog, b: Books) {
    b.account.plan in cat.plans
  }

  // Nothing a subscription change is judged by, or sets, has moved.
  ghost predicate Untouched(b: Books, b': Books) {
    && b'.owner == b.owner && b'.account.customer == b.account.customer
    && Seen(b'.account) == Seen(b.account) && b'.account.providerCreated == b.account.providerCreated
  }

  lemma GrantLeavesView(cat: Catalog, b: Books, clock: Clock)
    ensures OnKnownPlan(cat, b) ==> WithGrant(cat, b, clock).Ok?
    ensures var r := WithGrant(cat, b, clock); r.Ok? ==> Untouched(b, r.value) && r.value.webhooks == b.webhooks
  {
  }

  lemma HoldLeavesView(cat: Catalog, b: Books, op: Op)
    requires cat.usdPerCredit > 0 && (op.ReserveOp? || op.ReleaseOp? || op.SettleOp?)
    ensures Untouched(b, Applied(cat, b, op)) && Applied(cat, b, op).webhooks == b.webhooks
  {
    if op.ReserveOp? {
      GrantLeavesView(cat, b, op.clock);
    }
  }

  lemma OperationLeavesView(cat: Catalog, b: Books, op: Op)
    requires cat.usdPerCredit > 0 && !op.WebhookOp?
    ensures Untouched(b, Applied(cat, b, op)) && Applied(cat, b, op).webhooks == b.webhooks
  {
    if op.ReserveOp? || op.ReleaseOp? || op.SettleOp? {
      HoldLeavesView(cat, b, op);
    } else if op.ReadSummary? || op.AddOp? {
      hide ReserveObjective, ReleaseObjective, SettleObjective, RefundObjective;
      GrantLeavesView(cat, b, op.clock);
    }
  }

  // A valid change is applied unless a newer one came before it.
  lemma ValidChangeSetsView(cat: Catalog, b: Books, e: Event, clock: Clock)
    requires cat.Valid() && OnKnownPlan(cat, b) && e.id !in b.webhooks
    requires ValidChange(cat, b.owner, b.account.customer, e)
    ensures
      var b' := Applied(cat, b, WebhookOp(e, clock));
      && b'.owner == b.owner && b'.account.customer == b.account.customer
      && OnKnownPlan(cat, b') && b'.webhooks.Keys == b.webhooks.Keys + {e.id}
      && if Newer(b.account, e.created) then Untouched(b, b')
         else Seen(b'.account) == Wanted(cat, b.owner, b.account.customer, e) && b'.account.providerCreated == Some(e.created)
  {
    GrantLeavesView(cat, b.(webhooks := b.webhooks[e.id := e.digest]), clock);
  }

  // Any other notice but an invoice leaves the view alone.
  lemma OtherNoticeLeavesView(cat: Catalog, b: Books, e: Event, clock: Clock)
    requires cat.usdPerCredit > 0 && !e.notice.Invoice?
    requires e.id in b.webhooks || !ValidChange(cat, b.owner, b.account.customer, e)
    ensures
      var b' := Applied(cat, b, WebhookOp(e, clock));
      Untouched(b, b') && b.webhooks.Keys <= b'.webhooks.Keys <= b.webhooks.Keys + {e.id}
  {
    GrantLeavesView(cat, b.(webhooks := b.webhooks[e.id := e.digest]), clock);
  }

  // ---------- Runs ----------

  // The account shows the newest of the changes, unless all of them are older than what it
  // showed before.
  ghost predicate Converged(cat: Catalog, b: Books, changes: set<Event>, b': Books) {
    || (exists e <- changes ::
          && ValidChange(cat, b.owner, b.account.customer, e)
          && Newest(e, changes) && !Newer(b.account, e.created)
          && Seen(b'.account) == Wanted(cat, b.owner, b.account.customer, e)
          && b'.account.providerCreated == Some(e.created))
    || ((forall e <- changes :: Newer(b.account, e.created)) && Untouched(b, b'))
  }

  function DeliveredIds(ops: seq<Op>): set<string> {
    set op | op in ops && op.WebhookOp? :: op.notice.id
  }

  ghost predicate RunState(cat: Catalog, b: Books, ops: seq<Op>, b': Books) {
    && b'.owner == b.owner && b'.account.customer == b.account.customer && OnKnownPlan(cat, b')
    && b'.webhooks.Keys <= b.webhooks.Keys + DeliveredIds(ops)
    && (forall e <- Changes(cat, b.owner, b.account.customer, ops) :: e.id in b'.webhooks)
    && Converged(cat, b, Changes(cat, b.owner, b.account.customer, ops), b')
  }

  lemma ChangesGrow(cat: Catalog, owner: string, customer: Option<string>, ops: seq<Op>, op: Op)
    ensures
      Changes(cat, owner, customer, ops + [op]) == Changes(cat, owner, customer, ops)
        + if op.WebhookOp? && ValidChange(cat, owner, customer, op.notice) then {op.notice} else {}
    ensures DeliveredIds(ops + [op]) == DeliveredIds(ops) + if op.WebhookOp? then {op.notice.id} else {}
  {
    assert forall p :: p in ops + [op] <==> p in ops || p == op;
  }

  lemma QuietStep(cat: Catalog, b: Books, ops: seq<Op>, op: Op, mid: Books, b': Books)
    requires RunState(cat, b, ops, mid)
    requires Untouched(mid, b') && OnKnownPlan(cat, b') && mid.webhooks.Keys <= b'.webhooks.Keys
    requires b'.webhooks.Keys <= mid.webhooks.Keys + if op.WebhookOp? then {op.notice.id} else {}
    requires Changes(cat, b.owner, b.account.customer, ops + [op]) == Changes(cat, b.owner, b.account.customer, ops)
    ensures RunState(cat, b, ops + [op], b')
  {
    ChangesGrow(cat, b.owner, b.account.customer, ops, op);
  }

  lemma ChangeStep(cat: Catalog, b: Books, ops: seq<Op>, op: Op, mid: Books)
    requires cat.Valid() && RunState(cat, b, ops, mid)
    requires op.WebhookOp? && op.notice.id !in mid.webhooks && ValidChange(cat, b.owner, b.account.customer, op.notice)
    ensures RunState(cat, b, ops + [op], Applied(cat, mid, op))
  {
    ChangesGrow(cat, b.owner, b.account.customer, ops, op);
    ValidChangeSetsView(cat, mid, op.notice, op.clock);
    ChangeConverges(cat, b, Changes(cat, b.owner, b.account.customer, ops), op.notice, mid, Applied(cat, mid, op));
  }

  lemma StepConverges(cat: Catalog, b: Books, ops: seq<Op>, op: Op, mid: Books)
    requires cat.Valid() && NoInvoice(op)
    requires DistinctEvents(ops + [op]) && DeliveredIds(ops + [op]) !! b.webhooks.Keys
    requires RunState(cat, b, ops, mid)
    ensures RunState(cat, b, ops + [op], Applied(cat, mid, op))
  {
    if op.WebhookOp? && ValidChange(cat, b.owner, b.account.customer, op.notice) && op.notice.id !in mid.webhooks {
      ChangeStep(cat, b, ops, op, mid);
    } else {
      ChangesGrow(cat, b.owner, b.account.customer, ops, op);
      if op.WebhookOp? {
        OtherNoticeLeavesView(cat, mid, op.notice, op.clock);
        DuplicateIsKnown(cat, b, ops, op, mid);
      } else {
        OperationLeavesView(cat, mid, op);
      }
      QuietStep(cat, b, ops, op, mid, Applied(cat, mid, op));
    }
  }

  lemma ChangeConverges(cat: Catalog, b: Books, before: set<Event>, e: Event, mid: Books, b': Books)
    requires Converged(cat, b, before, mid) && ValidChange(cat, b.owner, b.account.customer, e)
    requires if Newer(mid.account, e.created) then Untouched(mid, b')
             else Seen(b'.account) == Wanted(cat, b.owner, b.account.customer, e) && b'.account.providerCreated == Some(e.created)
    ensures Converged(cat, b, before + {e}, b')
  {
    if Newer(mid.account, e.created) {
      if Untouched(b, mid) && forall f <- before :: Newer(b.account, f.created) {
      } else {
        var f :| f in before && Newest(f, before) && ValidChange(cat, b.owner, b.account.customer, f) && !Newer(b.account, f.created)
          && Seen(mid.account) == Wanted(cat, b.owner, b.account.customer, f) && mid.account.providerCreated == Some(f.created);
        assert Newest(f, before + {e});
      }
    } else {
      assert Newest(e, before + {e});
    }
  }

  // A delivery whose id is on record is one of the changes already counted.
  lemma DuplicateIsKnown(cat: Catalog, b: Books, ops: seq<Op>, op: Op, mid: Books)
    requires op.WebhookOp? && DistinctEvents(ops + [op]) && DeliveredIds(ops + [op]) !! b.webhooks.Keys
    requires mid.webhooks.Keys <= b.webhooks.Keys + DeliveredIds(ops)
    requires ValidChange(cat, b.owner, b.account.customer, op.notice) ==> op.notice.id in mid.webhooks
    ensures ValidChange(cat, b.owner, b.account.customer, op.notice) ==> op.notice in Changes(cat, b.owner, b.account.customer, ops)
  {
    assert op in ops + [op];
    assert op.notice.id in DeliveredIds(ops + [op]);
    if op.notice.id in mid.webhooks {
      var p :| p in ops && p.WebhookOp? && p.notice.id == op.notice.id;
      assert p in ops + [op];
    }
  }

  lemma {:induction false} RunConverges(cat: Catalog, b: Books, ops: seq<Op>)
    requires cat.Valid() && OnKnownPlan(cat, b) && (forall op <- ops :: NoInvoice(op))
    requires DistinctEvents(ops) && DeliveredIds(ops) !! b.webhooks.Keys
    ensures RunState(cat, b, ops, After(cat, b, ops))
    decreases |ops|
  {
    if ops != [] {
      var last := |ops| - 1;
      assert ops == ops[..last] + [ops[last]];
      RunConverges(cat, b, ops[..last]);
      StepConverges(cat, b, ops[..last], ops[last], After(cat, b, ops[..last]));
    }
  }

  // Two deliveries of the same valid changes, in any orders and with any repeats and other
  // work between them, leave the same plan, status, subscription, period and cancel flag.
  lemma DeliveryOrderDoesNotMatter(cat: Catalog, b: Books, ops: seq<Op>, ops': seq<Op>)
    requires cat.Valid() && OnKnownPlan(cat, b)
    requires forall op <- ops + ops' :: NoInvoice(op)
    requires DistinctEvents(ops) && DeliveredIds(ops) !! b.webhooks.Keys
    requires DistinctEvents(ops') && DeliveredIds(ops') !! b.webhooks.Keys
    requires Changes(cat, b.owner, b.account.customer, ops) == Changes(cat, b.owner, b.account.customer, ops')
    ensures Seen(After(cat, b, ops).account) == Seen(After(cat, b, ops').account)
  {
    assert forall op :: op in ops || op in ops' ==> op in ops + ops';
    RunConverges(cat, b, ops);
    RunConverges(cat, b, ops');
    NewestIsOne(cat, b, ops);
  }

  lemma NewestIsOne(cat: Catalog, b: Books, ops: seq<Op>)
    requires DistinctEvents(ops)
    ensures
      var changes := Changes(cat, b.owner, b.account.customer, ops);
      forall e, f :: Newest(e, changes) && Newest(f, changes) ==> e == f
  {
  }
}
