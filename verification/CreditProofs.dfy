/** Conservation of the credit ledger over every run of operations. */
module CreditProofs {
  import opened Basics
  import opened Credits
  import Pricing

  // ---------- Sums ----------

  lemma SumAppend<T>(rows: seq<T>, row: T, weight: T -> int)
    ensures Sum(rows + [row], weight) == Sum(rows, weight) + weight(row)
  {
    assert (rows + [row])[..|rows|] == rows;
  }

  lemma {:induction false} SumUpdate<T>(rows: seq<T>, i: nat, row: T, weight: T -> int)
    requires i < |rows|
    ensures Sum(rows[i := row], weight) == Sum(rows, weight) - weight(rows[i]) + weight(row)
    decreases |rows|
  {
    var last := |rows| - 1;
    var updated := rows[i := row];
    if i < last {
      assert updated[..last] == rows[..last][i := row];
      SumUpdate(rows[..last], i, row, weight);
    } else {
      assert updated[..last] == rows[..last];
    }
  }

  lemma RefundedAppend(entries: seq<Entry>, e: Entry, objective: string)
    ensures Refunded(entries + [e], objective)
         == Refunded(entries, objective) + if e.kind.Refund? && e.objective == Some(objective) then e.amount else 0
  {
    assert (entries + [e])[..|entries|] == entries;
  }

  lemma {:induction false} NeverRefunded(entries: seq<Entry>, objective: string)
    requires forall e <- entries :: e.kind.Refund? ==> e.objective != Some(objective)
    ensures Refunded(entries, objective) == 0
    decreases |entries|
  {
    if entries != [] {
      NeverRefunded(entries[..|entries| - 1], objective);
    }
  }

  // ---------- The invariant ----------

  function BalanceBefore(entries: seq<Entry>, i: nat): int
    requires i <= |entries|
  {
    if i == 0 then 0 else entries[i - 1].balanceAfter
  }

  ghost predicate Linked(entries: seq<Entry>, i: nat)
    requires i < |entries|
  {
    entries[i].balanceAfter == BalanceBefore(entries, i) + entries[i].amount
  }

  // Every row carries on from the balance before it, the account carries on from the last
  // row, and no key is used twice.
  ghost predicate LedgerOk(entries: seq<Entry>, available: int) {
    && (forall i, j | 0 <= i < j < |entries| :: entries[i].key != entries[j].key)
    && (forall i | 0 <= i < |entries| :: Linked(entries, i))
    && available == BalanceBefore(entries, |entries|)
  }

  ghost predicate HoldsOk(holds: seq<Hold>) {
    forall i, j | 0 <= i < j < |holds| :: holds[i].objective != holds[j].objective && holds[i].key != holds[j].key
  }

  // What the account holds, has on hold and has paid for is what came in.
  ghost predicate Balanced(available: int, reserved: int, holds: seq<Hold>, entries: seq<Entry>) {
    && reserved == Sum(holds, HeldEstimate)
    && available + reserved + Sum(holds, SettledActual) == Sum(entries, Funding)
  }

  ghost predicate Keyed(holds: seq<Hold>, key: string) {
    exists h <- holds :: h.key == key
  }

  ghost predicate ReleasedFor(holds: seq<Hold>, objective: string) {
    exists h <- holds :: h.objective == objective && h.status.Released?
  }

  ghost predicate Has(holds: seq<Hold>, objective: string) {
    exists h <- holds :: h.objective == objective
  }

  // Reserved key prefixes are used only by the operation they belong to.
  ghost predicate Owned(key: Key, holds: seq<Hold>, settlements: set<string>, webhooks: set<string>) {
    match key
    case Reserve(k) => Keyed(holds, k)
    case Release(o) => ReleasedFor(holds, o)
    case Settle(e) => e in settlements
    case Stripe(id) => id in webhooks
    case Included(_) => true
    case Raw(_) => true
  }

  ghost predicate KeysOwned(entries: seq<Entry>, holds: seq<Hold>, settlements: set<string>, webhooks: set<string>) {
    forall e <- entries :: Owned(e.key, holds, settlements, webhooks)
  }

  ghost predicate RefundsBounded(entries: seq<Entry>, holds: seq<Hold>) {
    && (forall h <- holds :: Refunded(entries, h.objective) <= SettledActual(h))
    && (forall e <- entries :: e.kind.Refund? ==> e.objective.Some? && Has(holds, e.objective.value))
  }

  ghost predicate Inv(b: Books) {
    && LedgerOk(b.entries, b.account.available)
    && HoldsOk(b.holds)
    && Balanced(b.account.available, b.account.reserved, b.holds, b.entries)
    && KeysOwned(b.entries, b.holds, b.usageEvents.Keys, b.webhooks.Keys)
    && RefundsBounded(b.entries, b.holds)
    && b.account.spend >= 0
  }

  lemma LedgerPrefix(entries: seq<Entry>, available: int, n: nat)
    requires LedgerOk(entries, available) && n <= |entries|
    ensures LedgerOk(entries[..n], BalanceBefore(entries, n))
  {
    forall i | 0 <= i < n
      ensures Linked(entries[..n], i)
    {
      assert Linked(entries, i);
    }
  }

  lemma {:induction false} BalanceIsSum(entries: seq<Entry>, available: int)
    requires LedgerOk(entries, available)
    ensures available == Sum(entries, Amount)
    decreases |entries|
  {
    if entries != [] {
      var last := |entries| - 1;
      LedgerPrefix(entries, available, last);
      BalanceIsSum(entries[..last], BalanceBefore(entries, last));
      assert Linked(entries, last);
    }
  }

  // The balance a row shows is the sum of all amounts up to and including its own.
  lemma BalanceAfterIsSum(entries: seq<Entry>, available: int, i: nat)
    requires LedgerOk(entries, available) && i < |entries|
    ensures entries[i].balanceAfter == Sum(entries[..i + 1], Amount)
  {
    LedgerPrefix(entries, available, i + 1);
    BalanceIsSum(entries[..i + 1], entries[i].balanceAfter);
  }

  // ---------- Reserved keys ----------

  // Caller-supplied keys must leave the reserved prefixes alone. The included: prefix is not
  // among them: both grant paths look at what the insert did.
  predicate Unreserved(key: string) {
    KeyOf(key).Raw? || KeyOf(key).Included?
  }

  predicate Careful(op: Op) {
    match op
    case RefundOp(_, _, key) => Unreserved(key)
    case AddOp(_, key, _, _) => Unreserved(key)
    case _ => true
  }

  // Key classes stand for texts one to one.
  lemma KeysAreTexts(a: string, b: string, k: Key)
    ensures Text(KeyOf(a)) == a
    ensures KeyOf(a) == KeyOf(b) <==> a == b
    ensures !k.Raw? ==> KeyOf(Text(k)) == k
  {
    TextOfKey(a);
    TextOfKey(b);
    if !k.Raw? {
      KeyOfText(k);
    }
  }

  lemma TextOfKey(a: string)
    ensures Text(KeyOf(a)) == a
  {
    assert "reserve:" <= a ==> a == "reserve:" + a[8..];
    assert "release:" <= a ==> a == "release:" + a[8..];
    assert "settle:" <= a ==> a == "settle:" + a[7..];
    assert "stripe:" <= a ==> a == "stripe:" + a[7..];
    assert "included:" <= a ==> a == "included:" + a[9..];
  }

  lemma KeyOfText(k: Key)
    requires !k.Raw?
    ensures KeyOf(Text(k)) == k
  {
    var t := Text(k);
    match k
    case Reserve(n) => assert t[8..] == n;
    case Release(n) => assert t[2] == 'l' && t[8..] == n;
    case Settle(n) => assert t[0] == 's' && t[7..] == n;
    case Stripe(n) => assert t[0] == 's' && t[1] == 't' && t[7..] == n;
    case Included(n) => assert t[0] == 'i' && t[9..] == n;
  }

  // ---------- One new row ----------

  lemma RowKeepsLedger(entries: seq<Entry>, available: int, e: Entry)
    requires LedgerOk(entries, available)
    requires !HasKey(entries, e.key) && e.balanceAfter == available + e.amount
    ensures LedgerOk(entries + [e], e.balanceAfter)
  {
    var entries' := entries + [e];
    forall i, j | 0 <= i < j < |entries'|
      ensures entries'[i].key != entries'[j].key
    {
      assert entries[i] in entries;
    }
    forall i | 0 <= i < |entries'|
      ensures Linked(entries', i)
    {
      if i < |entries| {
        assert Linked(entries, i);
      }
    }
  }

  lemma RowKeepsRefunds(entries: seq<Entry>, holds: seq<Hold>, e: Entry)
    requires RefundsBounded(entries, holds) && !e.kind.Refund?
    ensures RefundsBounded(entries + [e], holds)
  {
    forall h <- holds {
      RefundedAppend(entries, e, h.objective);
    }
  }

  // A reserved key nobody owns yet is not in the ledger.
  lemma Unused(b: Books, key: Key)
    requires KeysOwned(b.entries, b.holds, b.usageEvents.Keys, b.webhooks.Keys)
    requires !Owned(key, b.holds, b.usageEvents.Keys, b.webhooks.Keys)
    ensures !HasKey(b.entries, key)
  {
    forall e <- b.entries
      ensures e.key != key
    {
      assert Owned(e.key, b.holds, b.usageEvents.Keys, b.webhooks.Keys);
    }
  }

  // Funds come in: a grant or a top-up.
  lemma FundsIn(b: Books, b': Books, e: Entry)
    requires Inv(b)
    requires !HasKey(b.entries, e.key) && Owned(e.key, b.holds, b.usageEvents.Keys, b.webhooks.Keys)
    requires e.kind in {IncludedGrant, TopUp} && e.balanceAfter == b.account.available + e.amount
    requires b'.entries == b.entries + [e] && b'.holds == b.holds
    requires b'.usageEvents == b.usageEvents && b'.webhooks == b.webhooks
    requires b'.account.available == e.balanceAfter && b'.account.reserved == b.account.reserved && b'.account.spend >= 0
    ensures Inv(b')
  {
    RowKeepsLedger(b.entries, b.account.available, e);
    RowKeepsRefunds(b.entries, b.holds, e);
    SumAppend(b.entries, e, Funding);
  }

  // ---------- Reservations open and close ----------

  lemma OwnedStays(key: Key, holds: seq<Hold>, holds': seq<Hold>, s: set<string>, s': set<string>, w: set<string>)
    requires Owned(key, holds, s, w) && s <= s'
    requires |holds| <= |holds'|
    requires forall i | 0 <= i < |holds| :: SameHold(holds[i], holds'[i])
    ensures Owned(key, holds', s', w)
  {
    forall h | h in holds
      ensures exists h' <- holds' :: SameHold(h, h')
    {
      var i :| 0 <= i < |holds| && holds[i] == h;
      assert holds'[i] in holds';
    }
  }

  // A row keeps its identity, and a release is final.
  ghost predicate SameHold(h: Hold, h': Hold) {
    h'.objective == h.objective && h'.key == h.key && (h.status.Released? ==> h'.status.Released?)
  }

  lemma KeysStay(entries: seq<Entry>, holds: seq<Hold>, holds': seq<Hold>, s: set<string>, s': set<string>, w: set<string>)
    requires KeysOwned(entries, holds, s, w) && s <= s'
    requires |holds| <= |holds'|
    requires forall i | 0 <= i < |holds| :: SameHold(holds[i], holds'[i])
    ensures KeysOwned(entries, holds', s', w)
  {
    forall e <- entries {
      OwnedStays(e.key, holds, holds', s, s', w);
    }
  }

  lemma KeysGrow(entries: seq<Entry>, e: Entry, holds: seq<Hold>, s: set<string>, w: set<string>)
    requires KeysOwned(entries, holds, s, w) && Owned(e.key, holds, s, w)
    ensures KeysOwned(entries + [e], holds, s, w)
  {
  }

  lemma OpeningKeepsHolds(holds: seq<Hold>, hold: Hold)
    requires HoldsOk(holds) && !Has(holds, hold.objective) && !Keyed(holds, hold.key)
    ensures HoldsOk(holds + [hold])
  {
    assert forall i | 0 <= i < |holds| :: holds[i] in holds;
  }

  lemma OpeningKeepsRefunds(entries: seq<Entry>, holds: seq<Hold>, hold: Hold)
    requires RefundsBounded(entries, holds) && !Has(holds, hold.objective) && hold.status.Held?
    ensures RefundsBounded(entries, holds + [hold])
  {
    NeverRefunded(entries, hold.objective);
    forall o | Has(holds, o)
      ensures Has(holds + [hold], o)
    {
      var h :| h in holds && h.objective == o;
      assert h in holds + [hold];
    }
  }

  lemma SumsMove(b: Books, e: Entry, holds': seq<Hold>, available: int, reserved: int)
    requires Balanced(b.account.available, b.account.reserved, b.holds, b.entries)
    requires e.kind !in {IncludedGrant, TopUp, Refund}
    requires reserved - b.account.reserved == Sum(holds', HeldEstimate) - Sum(b.holds, HeldEstimate)
    requires available - b.account.available + reserved - b.account.reserved == Sum(b.holds, SettledActual) - Sum(holds', SettledActual)
    ensures Balanced(available, reserved, holds', b.entries + [e])
  {
    SumAppend(b.entries, e, Funding);
  }

  lemma HoldsOpen(b: Books, b': Books, hold: Hold, e: Entry)
    requires Inv(b)
    requires hold.status.Held? && !Has(b.holds, hold.objective) && !Keyed(b.holds, hold.key)
    requires e.key == Reserve(hold.key) && e.kind.Reservation? && e.amount == -(hold.estimate as int)
    requires e.balanceAfter == b.account.available + e.amount
    requires b'.entries == Recorded(b.entries, e) && b'.holds == b.holds + [hold]
    requires b'.usageEvents == b.usageEvents && b'.webhooks == b.webhooks
    requires b'.account.available == e.balanceAfter && b'.account.reserved == b.account.reserved + hold.estimate
    requires b'.account.spend >= 0
    ensures Inv(b')
  {
    hide LedgerOk, HoldsOk, Balanced, KeysOwned, RefundsBounded;
    Unused(b, e.key);
    assert hold in b'.holds;
    assert Owned(e.key, b'.holds, b.usageEvents.Keys, b.webhooks.Keys);
    RowKeepsLedger(b.entries, b.account.available, e);
    RowKeepsRefunds(b.entries, b.holds, e);
    OpeningKeepsRefunds(b.entries + [e], b.holds, hold);
    OpeningKeepsHolds(b.holds, hold);
    KeysStay(b.entries, b.holds, b'.holds, b.usageEvents.Keys, b.usageEvents.Keys, b.webhooks.Keys);
    KeysGrow(b.entries, e, b'.holds, b.usageEvents.Keys, b.webhooks.Keys);
    SumAppend(b.holds, hold, HeldEstimate);
    SumAppend(b.holds, hold, SettledActual);
    SumsMove(b, e, b'.holds, b'.account.available, b'.account.reserved);
  }

  lemma ClosingKeepsHolds(holds: seq<Hold>, i: nat, closed: Hold)
    requires HoldsOk(holds) && i < |holds| && SameHold(holds[i], closed)
    ensures HoldsOk(holds[i := closed])
  {
  }

  lemma HoldCloses(b: Books, b': Books, i: nat, closed: Hold, e: Entry)
    requires Inv(b)
    requires i < |b.holds| && b.holds[i].status.Held? && !closed.status.Held? && SameHold(b.holds[i], closed)
    requires !HasKey(b.entries, e.key) && e.kind in {ReleaseEntry, Settlement}
    requires e.amount == b.holds[i].estimate - SettledActual(closed) && e.balanceAfter == b.account.available + e.amount
    requires b'.entries == b.entries + [e] && b'.holds == b.holds[i := closed]
    requires Owned(e.key, b'.holds, b'.usageEvents.Keys, b'.webhooks.Keys)
    requires b.usageEvents.Keys <= b'.usageEvents.Keys && b.webhooks == b'.webhooks
    requires b'.account.available == e.balanceAfter && b'.account.reserved == b.account.reserved - b.holds[i].estimate
    requires b'.account.spend >= 0
    ensures Inv(b')
  {
    hide LedgerOk, HoldsOk, Balanced, KeysOwned, RefundsBounded;
    RowKeepsLedger(b.entries, b.account.available, e);
    RowKeepsRefunds(b.entries, b.holds, e);
    ClosingKeepsRefunds(b'.entries, b.holds, i, closed);
    ClosingKeepsHolds(b.holds, i, closed);
    KeysStay(b.entries, b.holds, b'.holds, b.usageEvents.Keys, b'.usageEvents.Keys, b.webhooks.Keys);
    KeysGrow(b.entries, e, b'.holds, b'.usageEvents.Keys, b'.webhooks.Keys);
    SumUpdate(b.holds, i, closed, HeldEstimate);
    SumUpdate(b.holds, i, closed, SettledActual);
    SumsMove(b, e, b'.holds, b'.account.available, b'.account.reserved);
  }

  lemma ClosingKeepsRefunds(entries: seq<Entry>, holds: seq<Hold>, i: nat, closed: Hold)
    requires RefundsBounded(entries, holds)
    requires i < |holds| && holds[i].status.Held? && SameHold(holds[i], closed)
    ensures RefundsBounded(entries, holds[i := closed])
  {
    var holds' := holds[i := closed];
    assert holds[i] in holds;
    forall h <- holds'
      ensures Refunded(entries, h.objective) <= SettledActual(h)
    {
      if h != closed {
        assert h in holds;
      }
    }
    forall o | Has(holds, o)
      ensures Has(holds', o)
    {
      var j :| 0 <= j < |holds| && holds[j].objective == o;
      assert holds'[j] in holds';
    }
  }

  // ---------- The operations ----------

  lemma GrantKeeps(cat: Catalog, b: Books, clock: Clock)
    requires Inv(b)
    ensures WithGrant(cat, b, clock).Ok? ==> Inv(WithGrant(cat, b, clock).value)
  {
    var r := WithGrant(cat, b, clock);
    if r.Ok? && r.value != b {
      FundsIn(b, r.value, r.value.entries[|b.entries|]);
    }
  }

  lemma GrantTakesNoOtherKey(cat: Catalog, b: Books, clock: Clock, key: Key)
    requires !HasKey(b.entries, key) && !key.Included?
    ensures var r := WithGrant(cat, b, clock); r.Ok? ==> !HasKey(r.value.entries, key)
  {
  }

  lemma ReserveKeeps(cat: Catalog, b: Books, objective: string, key: string, clock: Clock)
    requires Inv(b)
    ensures var r := ReserveObjective(cat, b, objective, key, clock); r.Ok? ==> Inv(r.value.0)
  {
    GrantKeeps(cat, b, clock);
    var granted := WithGrant(cat, b, clock);
    if granted.Ok? {
      PlacedKeeps(cat, granted.value, objective, key, clock.now);
    }
  }

  lemma PlacedKeeps(cat: Catalog, g: Books, objective: string, key: string, now: int)
    requires Inv(g) && g.account.plan in cat.plans
    ensures var r := Placed(cat, g, objective, key, now); r.Ok? ==> Inv(r.value.0)
  {
    var r := Placed(cat, g, objective, key, now);
    if r.Ok? && r.value.0 != g {
      var hold := r.value.1;
      ReserveOpens(g, r.value.0, hold, Entry(Reserve(key), Reservation, -(hold.estimate as int),
                                             r.value.0.account.available, Some(objective), FromExecution));
    }
  }

  lemma ReserveOpens(g: Books, b': Books, hold: Hold, e: Entry)
    requires Inv(g)
    requires HoldFor(g.holds, hold.objective) == |g.holds| && HoldKeyed(g.holds, hold.key) == |g.holds|
    requires hold.status.Held?
    requires e == Entry(Reserve(hold.key), Reservation, -(hold.estimate as int), b'.account.available, Some(hold.objective), FromExecution)
    requires b' == g.(holds := g.holds + [hold],
                      account := g.account.(available := g.account.available - hold.estimate, reserved := g.account.reserved + hold.estimate),
                      entries := Recorded(g.entries, e))
    ensures Inv(b')
  {
    HoldsOpen(g, b', hold, e);
  }

  lemma ReleaseKeeps(b: Books, objective: string)
    requires Inv(b)
    ensures Inv(ReleaseObjective(b, objective).0)
  {
    var b' := ReleaseObjective(b, objective).0;
    var i := HoldFor(b.holds, objective);
    if i < |b.holds| && b.holds[i].status.Held? {
      var e := Entry(Release(objective), ReleaseEntry, b.holds[i].estimate, b'.account.available, Some(objective), FromExecution);
      forall j | 0 <= j < |b.holds| && b.holds[j].objective == objective
        ensures j == i
      {
      }
      Unused(b, e.key);
      assert b'.holds[i] in b'.holds;
      HoldCloses(b, b', i, b'.holds[i], e);
    }
  }

  lemma SettleKeeps(cat: Catalog, b: Books, objective: string, usage: Pricing.Usage, event: string)
    requires Inv(b) && cat.usdPerCredit > 0
    ensures var r := SettleObjective(cat, b, objective, usage, event); r.Ok? ==> Inv(r.value.0)
  {
    var r := SettleObjective(cat, b, objective, usage, event);
    if r.Ok? && r.value.0 != b {
      var b', i := r.value.0, HoldFor(b.holds, objective);
      var e := Entry(Settle(event), Settlement, b.holds[i].estimate - b'.holds[i].actual, b'.account.available, Some(objective), FromExecution);
      Unused(b, e.key);
      HoldCloses(b, b', i, b'.holds[i], e);
    }
  }

  lemma RefundKeeps(b: Books, objective: string, amount: int, key: string)
    requires Inv(b) && Unreserved(key)
    ensures var r := RefundObjective(b, objective, amount, key); r.Ok? ==> Inv(r.value.0)
  {
    var r := RefundObjective(b, objective, amount, key);
    if r.Ok? && r.value.0 != b {
      var b', i := r.value.0, HoldFor(b.holds, objective);
      RefundPosts(b, b', b.holds[i], Entry(KeyOf(key), Refund, amount, b'.account.available, Some(objective), FromExecution));
    }
  }

  lemma RefundPosts(b: Books, b': Books, h: Hold, e: Entry)
    requires Inv(b)
    requires h in b.holds && h.status.Settled?
    requires e.kind.Refund? && e.objective == Some(h.objective) && !HasKey(b.entries, e.key) && (e.key.Raw? || e.key.Included?)
    requires Refunded(b.entries, h.objective) + e.amount <= h.actual
    requires e.balanceAfter == b.account.available + e.amount
    requires b' == b.(entries := b.entries + [e], account := b'.account)
    requires b'.account.available == e.balanceAfter && b'.account.reserved == b.account.reserved && b'.account.spend >= 0
    ensures Inv(b')
  {
    SumAppend(b.entries, e, Funding);
    RefundStaysBounded(b.entries, b.holds, h, e);
    RowKeepsLedger(b.entries, b.account.available, e);
    KeysGrow(b.entries, e, b.holds, b.usageEvents.Keys, b.webhooks.Keys);
  }

  lemma RefundStaysBounded(entries: seq<Entry>, holds: seq<Hold>, h: Hold, e: Entry)
    requires RefundsBounded(entries, holds) && HoldsOk(holds)
    requires h in holds && h.status.Settled? && e.kind.Refund? && e.objective == Some(h.objective)
    requires Refunded(entries, h.objective) + e.amount <= h.actual
    ensures RefundsBounded(entries + [e], holds)
  {
    forall x <- holds {
      RefundedAppend(entries, e, x.objective);
    }
  }

  lemma AddKeeps(cat: Catalog, b: Books, credits: int, key: string, source: string, clock: Clock)
    requires Inv(b) && Unreserved(key)
    ensures var r := AddCredits(cat, b, credits, key, source, clock); r.Ok? ==> Inv(r.value.0)
  {
    GrantKeeps(cat, b, clock);
    var granted := WithGrant(cat, b, clock);
    if credits > 0 && granted.Ok? {
      ToppedUpKeeps(granted.value, Micro(credits), key, source);
    }
  }

  lemma ToppedUpKeeps(g: Books, amount: nat, key: string, source: string)
    requires Inv(g) && Unreserved(key)
    ensures var r := ToppedUp(g, amount, key, source); r.Ok? ==> Inv(r.value.0)
  {
    var r := ToppedUp(g, amount, key, source);
    if r.Ok? && r.value.0 != g {
      TopUpKeeps(g, r.value.0, Entry(KeyOf(key), TopUp, amount, r.value.0.account.available, None, Named(source)));
    }
  }

  lemma TopUpKeeps(g: Books, b': Books, e: Entry)
    requires Inv(g)
    requires e.kind.TopUp? && !HasKey(g.entries, e.key) && Owned(e.key, g.holds, g.usageEvents.Keys, g.webhooks.Keys)
    requires e.balanceAfter == g.account.available + e.amount
    requires b' == g.(entries := g.entries + [e], account := g.account.(available := e.balanceAfter))
    ensures Inv(b')
  {
    FundsIn(g, b', e);
  }

  lemma WebhookKeeps(cat: Catalog, b: Books, e: Event, clock: Clock)
    requires Inv(b)
    ensures var r := ProcessWebhook(cat, b, e, clock); r.Ok? ==> Inv(r.value.0)
  {
    if e.created > 0 && e.id !in b.webhooks {
      var noted := b.(webhooks := b.webhooks[e.id := e.digest]);
      NotedKeeps(b, e.id, e.digest);
      match e.notice
      case PaidCheckout(session) => CheckoutKeeps(cat, b, noted, e.id, e.digest, session, clock);
      case SubscriptionChange(c) => SubscriptionKeeps(cat, noted, c, e.created, clock);
      case Invoice(_, _, _, _) => InvoiceKeeps(cat, noted, e.notice, e.created, clock);
      case Unhandled =>
    }
  }

  lemma NotedKeeps(b: Books, id: string, digest: string)
    requires Inv(b)
    ensures Inv(b.(webhooks := b.webhooks[id := digest]))
  {
    var b' := b.(webhooks := b.webhooks[id := digest]);
    assert KeysOwned(b'.entries, b'.holds, b'.usageEvents.Keys, b'.webhooks.Keys);
  }

  lemma CheckoutKeeps(cat: Catalog, b: Books, noted: Books, id: string, digest: string, session: Option<(bool, string)>, clock: Clock)
    requires Inv(b) && Inv(noted) && id !in b.webhooks && noted == b.(webhooks := b.webhooks[id := digest])
    ensures var r := CheckoutPaid(cat, noted, id, session, clock); r.Ok? ==> Inv(r.value)
  {
    hide LedgerOk, HoldsOk, Balanced, KeysOwned, RefundsBounded;
    GrantKeeps(cat, noted, clock);
    Unused(b, Stripe(id));
    GrantTakesNoOtherKey(cat, noted, clock, Stripe(id));
    var r := CheckoutPaid(cat, noted, id, session, clock);
    if r.Ok? {
      TopUpKeeps(WithGrant(cat, noted, clock).value, r.value,
                 Entry(Stripe(id), TopUp, Micro(cat.packs[session.value.1]), r.value.account.available, None, Named("stripe")));
    }
  }

  lemma SubscriptionKeeps(cat: Catalog, b: Books, c: Change, created: int, clock: Clock)
    requires Inv(b)
    ensures var r := SubscriptionChanged(cat, b, c, created, clock); r.Ok? ==> Inv(r.value)
  {
    GrantKeeps(cat, b, clock);
  }

  lemma InvoiceKeeps(cat: Catalog, b: Books, n: Notice, created: int, clock: Clock)
    requires Inv(b) && n.Invoice?
    ensures var r := InvoiceReceived(cat, b, n, created, clock); r.Ok? ==> Inv(r.value)
  {
    var r := InvoiceReceived(cat, b, n, created, clock);
    if r.Ok? && r.value.entries != b.entries {
      FundsIn(b, r.value, r.value.entries[|b.entries|]);
    }
  }

  lemma StepKeeps(cat: Catalog, b: Books, op: Op)
    requires cat.usdPerCredit > 0 && Inv(b) && Careful(op)
    ensures Inv(Applied(cat, b, op))
  {
    match op
    case ReadSummary(clock) => GrantKeeps(cat, b, clock);
    case ReserveOp(o, k, clock) => ReserveKeeps(cat, b, o, k, clock);
    case ReleaseOp(o) => ReleaseKeeps(b, o);
    case SettleOp(o, u, e) => SettleKeeps(cat, b, o, u, e);
    case RefundOp(o, n, k) => RefundKeeps(b, o, n, k);
    case AddOp(n, k, s, clock) => AddKeeps(cat, b, n, k, s, clock);
    case WebhookOp(e, clock) => WebhookKeeps(cat, b, e, clock);
  }

  // Conservation over every run: whatever the operations, their order and their replays, the
  // books balance, as long as refund and top-up callers keep off the reserved key prefixes.
  lemma {:induction false} BooksAlwaysBalance(cat: Catalog, owner: string, customer: Option<string>, ops: seq<Op>)
    requires cat.usdPerCredit > 0
    requires forall op <- ops :: Careful(op)
    ensures Inv(After(cat, Opened(cat, owner, customer), ops))
    decreases |ops|
  {
    if ops != [] {
      var last := |ops| - 1;
      BooksAlwaysBalance(cat, owner, customer, ops[..last]);
      StepKeeps(cat, After(cat, Opened(cat, owner, customer), ops[..last]), ops[last]);
    }
  }

  // What that means for the rows: nothing is created or lost between funding, holds and paid
  // work; the balance is the sum of the ledger, row by row; and no reservation is refunded
  // beyond what it cost.
  lemma CreditsAreConserved(cat: Catalog, owner: string, customer: Option<string>, ops: seq<Op>)
    requires cat.usdPerCredit > 0 && forall op <- ops :: Careful(op)
    ensures
      var b := After(cat, Opened(cat, owner, customer), ops);
      && b.account.available + b.account.reserved + Sum(b.holds, SettledActual) == Sum(b.entries, Funding)
      && b.account.reserved == Sum(b.holds, HeldEstimate)
      && b.account.available == Sum(b.entries, Amount)
      && (forall i | 0 <= i < |b.entries| :: b.entries[i].balanceAfter == Sum(b.entries[..i + 1], Amount))
      && (forall h <- b.holds :: Refunded(b.entries, h.objective) <= if h.status.Settled? then h.actual else 0)
  {
    BooksAlwaysBalance(cat, owner, customer, ops);
    var b := After(cat, Opened(cat, owner, customer), ops);
    BalanceIsSum(b.entries, b.account.available);
    forall i | 0 <= i < |b.entries|
      ensures b.entries[i].balanceAfter == Sum(b.entries[..i + 1], Amount)
    {
      BalanceAfterIsSum(b.entries, b.account.available, i);
    }
  }
}
