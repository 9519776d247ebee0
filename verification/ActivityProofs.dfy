/** The change ledger's invariant over every run of writes, and why its readers never fail. */
module ActivityProofs {
  import opened Basics
  import opened Activity

  // ---------- The invariant ----------

  ghost predicate Numbered(changes: seq<Change>) {
    forall i | 0 <= i < |changes| :: changes[i].number == i + 1
  }

  ghost predicate Dense(rows: seq<Record>) {
    forall i | 0 <= i < |rows| :: rows[i].sequence == i + 1
  }

  ghost predicate DistinctKeys(rows: seq<Record>) {
    forall i, j | 0 <= i < j < |rows| :: rows[i].key != rows[j].key
  }

  ghost predicate ValidRows(rows: seq<Record>) {
    forall r <- rows :: Valid(r.content) && r.revision >= 1
  }

  // The revisions a record's changes announce, in log order.
  function History(changes: seq<Change>, key: Key): seq<nat> {
    if changes == [] then []
    else
      var last := changes[|changes| - 1];
      History(changes[..|changes| - 1], key) + if last.key == key then [last.revision] else []
  }

  function Upto(n: nat): seq<nat> {
    if n == 0 then [] else Upto(n - 1) + [n]
  }

  function RevisionOf(rows: seq<Record>, key: Key): nat {
    var i := Find(rows, key);
    if i < |rows| then rows[i].revision else 0
  }

  // Every record's changes are its revisions 1 to the current one, once each, in order.
  ghost predicate Told(rows: seq<Record>, changes: seq<Change>) {
    forall key: Key :: History(changes, key) == Upto(RevisionOf(rows, key))
  }

  ghost predicate Inv(l: Ledger) {
    Dense(l.rows) && DistinctKeys(l.rows) && ValidRows(l.rows) && Numbered(l.changes) && Told(l.rows, l.changes)
  }

  lemma TopOfDense(rows: seq<Record>)
    requires Dense(rows)
    ensures Top(Sequences(rows)) == |rows|
  {
    if rows != [] {
      assert rows[|rows| - 1] in rows;
      assert rows[|rows| - 1].sequence in Sequences(rows);
    }
  }

  lemma TopOfNumbered(changes: seq<Change>)
    requires Numbered(changes)
    ensures Top(Numbers(changes)) == |changes|
  {
    if changes != [] {
      assert changes[|changes| - 1] in changes;
      assert changes[|changes| - 1].number in Numbers(changes);
    }
  }

  lemma FindOnly(rows: seq<Record>, i: nat)
    requires DistinctKeys(rows) && i < |rows|
    ensures Find(rows, rows[i].key) == i
  {
  }

  lemma NotedTells(rows: seq<Record>, changes: seq<Change>, rows': seq<Record>, r: Record)
    requires Told(rows, changes)
    requires r.revision == RevisionOf(rows, r.key) + 1
    requires forall key: Key :: RevisionOf(rows', key) == if key == r.key then r.revision else RevisionOf(rows, key)
    ensures Told(rows', Noted(changes, r))
  {
    forall key: Key
      ensures History(Noted(changes, r), key) == Upto(RevisionOf(rows', key))
    {
      assert Noted(changes, r)[..|changes|] == changes;
      assert History(changes, key) == Upto(RevisionOf(rows, key));
    }
  }

  lemma NotedNumbers(changes: seq<Change>, r: Record)
    requires Numbered(changes)
    ensures Numbered(Noted(changes, r)) && |Noted(changes, r)| == |changes| + 1
  {
    TopOfNumbered(changes);
  }

  lemma InsertKeeps(l: Ledger, r: Record)
    requires Inv(l) && Find(l.rows, r.key) == |l.rows|
    requires r.sequence == |l.rows| + 1 && r.revision == 1 && Valid(r.content)
    ensures Inv(Ledger(l.rows + [r], Noted(l.changes, r)))
  {
    var rows := l.rows + [r];
    forall key: Key
      ensures RevisionOf(rows, key) == if key == r.key then 1 else RevisionOf(l.rows, key)
    {
      if key == r.key {
        FindOnly(rows, |l.rows|);
      } else if Find(l.rows, key) < |l.rows| {
        FindOnly(rows, Find(l.rows, key));
      }
    }
    NotedTells(l.rows, l.changes, rows, r);
    NotedNumbers(l.changes, r);
  }

  lemma ReviseKeeps(l: Ledger, i: nat, r: Record)
    requires Inv(l) && i < |l.rows| && l.rows[i].key == r.key
    requires r.sequence == l.rows[i].sequence && r.revision == l.rows[i].revision + 1 && Valid(r.content)
    ensures Inv(Ledger(l.rows[i := r], Noted(l.changes, r)))
  {
    var rows := l.rows[i := r];
    FindOnly(l.rows, i);
    forall key: Key
      ensures RevisionOf(rows, key) == if key == r.key then r.revision else RevisionOf(l.rows, key)
    {
      if Find(l.rows, key) < |l.rows| {
        FindOnly(rows, Find(l.rows, key));
      } else if Find(rows, key) < |rows| {
        FindOnly(l.rows, Find(rows, key));
      }
    }
    NotedTells(l.rows, l.changes, rows, r);
    NotedNumbers(l.changes, r);
  }

  // ---------- One write ----------

  ghost predicate Announced(changes: seq<Change>, from: nat, key: Key) {
    exists i :: from <= i < |changes| && changes[i].key == key
  }

  // How a write may move the ledger: records keep their identity and place, and every new
  // record and every change of one is announced by a new entry at the end of the log.
  ghost predicate Extends(l: Ledger, l': Ledger) {
    && |l.rows| <= |l'.rows| && |l.changes| <= |l'.changes| && l.changes == l'.changes[..|l.changes|]
    && (forall i | 0 <= i < |l.rows| ::
          && l'.rows[i].key == l.rows[i].key && l'.rows[i].sequence == l.rows[i].sequence
          && (l'.rows[i] == l.rows[i]
              || (l'.rows[i].revision > l.rows[i].revision && Announced(l'.changes, |l.changes|, l.rows[i].key))))
    && (forall i | |l.rows| <= i < |l'.rows| :: Announced(l'.changes, |l.changes|, l'.rows[i].key))
  }

  lemma ExtendsOn(a: Ledger, b: Ledger, c: Ledger)
    requires Extends(a, b) && Extends(b, c)
    ensures Extends(a, c)
  {
    forall key: Key
      ensures Announced(b.changes, |a.changes|, key) || Announced(c.changes, |b.changes|, key) ==> Announced(c.changes, |a.changes|, key)
    {
      if Announced(b.changes, |a.changes|, key) {
        var i :| |a.changes| <= i < |b.changes| && b.changes[i].key == key;
        assert c.changes[i] == c.changes[..|b.changes|][i];
      }
    }
  }

  lemma NotedExtends(l: Ledger, rows: seq<Record>, r: Record)
    requires |l.rows| <= |rows| <= |l.rows| + 1 && (|rows| > |l.rows| ==> rows[|l.rows|] == r)
    requires forall i | 0 <= i < |l.rows| ::
      rows[i] == l.rows[i] || (rows[i] == r && r.key == l.rows[i].key && r.sequence == l.rows[i].sequence && r.revision > l.rows[i].revision)
    ensures Extends(l, Ledger(rows, Noted(l.changes, r)))
  {
    assert Noted(l.changes, r)[|l.changes|].key == r.key;
    assert Noted(l.changes, r)[..|l.changes|] == l.changes;
  }

  lemma UpsertKeeps(l: Ledger, key: Key, c: Content, screened: bool, observedAt: int)
    requires Inv(l)
    ensures var r := Upsert(l, key, c, screened, observedAt);
      r.Ok? ==> Inv(r.value.0) && Extends(l, r.value.0)
  {
    var r := Upsert(l, key, c, screened, observedAt);
    TopOfDense(l.rows);
    if r.Ok? && r.value.0 != l {
      if Find(l.rows, key) == |l.rows| {
        InsertKeeps(l, r.value.1);
      } else {
        ReviseKeeps(l, Find(l.rows, key), r.value.1);
      }
      NotedExtends(l, r.value.0.rows, r.value.1);
    }
  }

  // ---------- Snapshots and runs ----------

  lemma {:induction false} UpsertAllKeeps(l: Ledger, snap: Snapshot, drafts: seq<Draft>)
    requires Inv(l)
    ensures var r := UpsertAll(l, snap, drafts); r.Ok? ==> Inv(r.value) && Extends(l, r.value)
    decreases |drafts|
  {
    if drafts != [] {
      var d := drafts[|drafts| - 1];
      UpsertAllKeeps(l, snap, drafts[..|drafts| - 1]);
      var mid := UpsertAll(l, snap, drafts[..|drafts| - 1]);
      if mid.Ok? {
        var r := Upsert(mid.value, Key(snap.source, d.name), d.content, d.screened, snap.observedAt);
        UpsertKeeps(mid.value, Key(snap.source, d.name), d.content, d.screened, snap.observedAt);
        if r.Ok? {
          ExtendsOn(l, mid.value, r.value.0);
        }
      }
    }
  }

  // Closing a stored decision is always valid, so it never fails.
  lemma {:induction false} CloseGoneKeeps(l: Ledger, snap: Snapshot, gone: seq<Record>)
    requires Inv(l) && forall r <- gone :: Gone(r, snap) && Valid(r.content)
    ensures CloseGone(l, snap, gone).Ok?
    ensures Inv(CloseGone(l, snap, gone).value) && Extends(l, CloseGone(l, snap, gone).value)
    decreases |gone|
  {
    if gone != [] {
      var r := gone[|gone| - 1];
      CloseGoneKeeps(l, snap, gone[..|gone| - 1]);
      var mid := CloseGone(l, snap, gone[..|gone| - 1]).value;
      UpsertKeeps(mid, r.key, ClosedContent(r.content, snap.sha), true, snap.observedAt);
      ExtendsOn(l, mid, CloseGone(l, snap, gone).value);
    }
  }

  lemma {:induction false} GoneRowsAre(rows: seq<Record>, snap: Snapshot)
    ensures forall r :: r in GoneRows(rows, snap) <==> r in rows && Gone(r, snap)
    decreases |rows|
  {
    if rows != [] {
      GoneRowsAre(rows[..|rows| - 1], snap);
      assert rows == rows[..|rows| - 1] + [rows[|rows| - 1]];
    }
  }

  lemma ReconcileKeeps(f: Feed, snap: Snapshot)
    requires Inv(f.ledger)
    ensures var r := Reconcile(f, snap); r.Ok? ==> Inv(r.value.ledger) && Extends(f.ledger, r.value.ledger)
  {
    UpsertAllKeeps(f.ledger, snap, snap.drafts);
    var mid := UpsertAll(f.ledger, snap, snap.drafts);
    if mid.Ok? {
      GoneRowsAre(mid.value.rows, snap);
      CloseGoneKeeps(mid.value, snap, GoneRows(mid.value.rows, snap));
      ExtendsOn(f.ledger, mid.value, CloseGone(mid.value, snap, GoneRows(mid.value.rows, snap)).value);
    }
  }

  datatype Write =
    | UpsertWrite(key: Key, content: Content, screened: bool, observedAt: int)
    | SnapshotWrite(snap: Snapshot)

  // A refused write rolls its transaction back.
  function Written(f: Feed, w: Write): Feed {
    match w
    case UpsertWrite(key, c, screened, at) =>
      (match Upsert(f.ledger, key, c, screened, at) case Ok(r) => f.(ledger := r.0) case Err(_) => f)
    case SnapshotWrite(snap) => (match Reconcile(f, snap) case Ok(f') => f' case Err(_) => f)
  }

  lemma WriteKeeps(f: Feed, w: Write)
    requires Inv(f.ledger)
    ensures Inv(Written(f, w).ledger) && Extends(f.ledger, Written(f, w).ledger)
  {
    match w
    case UpsertWrite(key, c, screened, at) => UpsertKeeps(f.ledger, key, c, screened, at);
    case SnapshotWrite(snap) => ReconcileKeeps(f, snap);
  }

  function WrittenAll(f: Feed, ws: seq<Write>): Feed {
    if ws == [] then f else Written(WrittenAll(f, ws[..|ws| - 1]), ws[|ws| - 1])
  }

  // From an empty store, changes stay numbered 1 to n, every record's changes stay its
  // revisions in order, and sequences stay dense and stable.
  lemma {:induction false} LedgerStaysConsistent(ws: seq<Write>)
    ensures Inv(WrittenAll(Feed(Ledger([], []), map[]), ws).ledger)
    decreases |ws|
  {
    if ws != [] {
      LedgerStaysConsistent(ws[..|ws| - 1]);
      WriteKeeps(WrittenAll(Feed(Ledger([], []), map[]), ws[..|ws| - 1]), ws[|ws| - 1]);
    }
  }

  lemma {:induction false} LedgerOnlyExtends(f: Feed, ws: seq<Write>)
    requires Inv(f.ledger)
    ensures Inv(WrittenAll(f, ws).ledger) && Extends(f.ledger, WrittenAll(f, ws).ledger)
    decreases |ws|
  {
    if ws != [] {
      LedgerOnlyExtends(f, ws[..|ws| - 1]);
      WriteKeeps(WrittenAll(f, ws[..|ws| - 1]), ws[|ws| - 1]);
      ExtendsOn(f.ledger, WrittenAll(f, ws[..|ws| - 1]).ledger, WrittenAll(f, ws).ledger);
    }
  }

  // ---------- Readers never fail ----------

  // How many rows lie below a sequence.
  function Under(rows: seq<Record>, before: nat): nat {
    if before > |rows| then |rows| else if before == 0 then 0 else before - 1
  }

  lemma {:induction false} NewestAre(rows: seq<Record>, before: nat, limit: nat)
    requires Dense(rows)
    ensures
      var found, m := Newest(rows, before, limit), Under(rows, before);
      && |found| == (if limit < m then limit else m)
      && forall i | 0 <= i < |found| :: found[i] == rows[m - 1 - i]
    decreases |rows|
  {
    if rows != [] && limit > 0 {
      var last := |rows| - 1;
      NewestAre(rows[..last], before, if rows[last].sequence < before then limit - 1 else limit);
    }
  }

  lemma {:induction false} ToldIsFound(changes: seq<Change>, key: Key)
    requires Numbered(changes) && History(changes, key) != []
    ensures Delivery(changes, key) > 0
    decreases |changes|
  {
    var last := |changes| - 1;
    if changes[last].key == key {
      assert changes[last].number in NumbersOf(changes, key);
    } else {
      ToldIsFound(changes[..last], key);
      assert NumbersOf(changes[..last], key) <= NumbersOf(changes, key);
    }
  }

  lemma RowsAreDelivered(l: Ledger, i: nat)
    requires Inv(l) && i < |l.rows|
    ensures Delivery(l.changes, l.rows[i].key) > 0
  {
    FindOnly(l.rows, i);
    assert l.rows[i] in l.rows;
    assert History(l.changes, l.rows[i].key) == Upto(l.rows[i].revision);
    ToldIsFound(l.changes, l.rows[i].key);
  }

  // The newest n rows under a bound, newest first.
  ghost predicate NewestUnder(rows: seq<Record>, m: nat, n: nat, records: seq<Record>)
    requires m <= |rows|
  {
    && |records| == (if n < m then n else m)
    && forall i | 0 <= i < |records| :: records[i] == rows[m - 1 - i]
  }

  lemma NewestAreDelivered(l: Ledger, m: nat, n: nat, records: seq<Record>)
    requires Inv(l) && m <= |l.rows| && NewestUnder(l.rows, m, n, records)
    ensures forall r <- records :: Delivery(l.changes, r.key) > 0
  {
    forall r <- records
      ensures Delivery(l.changes, r.key) > 0
    {
      var i :| 0 <= i < |records| && records[i] == r;
      RowsAreDelivered(l, m - 1 - i);
    }
  }

  ghost predicate PageHolds(l: Ledger, m: nat, n: nat, p: Page)
    requires m <= |l.rows|
  {
    && p.cursor == |l.changes| && p.latest == |l.rows|
    && NewestUnder(l.rows, m, n, p.records)
    && p.more == (n < m)
    && p.nextBefore == (if n < m then Some(m - n + 1) else None)
  }

  lemma PageIsServed(l: Ledger, m: nat, n: nat, rows: seq<Record>)
    requires Inv(l) && m <= |l.rows| && n >= 1 && NewestUnder(l.rows, m, n + 1, rows)
    ensures PageOf(l, rows, n).Ok? && PageHolds(l, m, n, PageOf(l, rows, n).value)
  {
    assert NewestUnder(l.rows, m, n, Limited(rows, n));
    NewestAreDelivered(l, m, n, Limited(rows, n));
    TopOfNumbered(l.changes);
    TopOfDense(l.rows);
  }

  // A page holds the newest rows below its bound, newest first, and is never refused.
  lemma PagesAreServed(l: Ledger, before: Option<nat>, limit: int)
    requires Inv(l)
    ensures SnapshotPage(l, before, limit).Ok?
    ensures PageHolds(l, Under(l.rows, Bound(l.rows, before)), Clamp(limit), SnapshotPage(l, before, limit).value)
  {
    hide PageOf, Newest, ValidRows, Told;
    var before', n := Bound(l.rows, before), Clamp(limit);
    NewestAre(l.rows, before', n + 1);
    PageIsServed(l, Under(l.rows, before'), n, Newest(l.rows, before', n + 1));
  }

  lemma {:induction false} ChangesAfterAre(changes: seq<Change>, after: nat)
    requires Numbered(changes)
    ensures ChangesAfter(changes, after) == if after <= |changes| then changes[after..] else []
    decreases |changes|
  {
    if changes != [] {
      var last := |changes| - 1;
      ChangesAfterAre(changes[..last], after);
      if after <= last {
        assert changes[..last][after..] + [changes[last]] == changes[after..];
      }
    }
  }

  lemma {:induction false} HistoryHolds(changes: seq<Change>, i: nat)
    requires i < |changes|
    ensures changes[i].revision in History(changes, changes[i].key)
    decreases |changes|
  {
    if i < |changes| - 1 {
      HistoryHolds(changes[..|changes| - 1], i);
    }
  }

  lemma {:induction false} UptoHolds(n: nat, x: nat)
    requires x in Upto(n)
    ensures 1 <= x <= n
  {
    if x != n {
      UptoHolds(n - 1, x);
    }
  }

  lemma ChangesAreKnown(l: Ledger, i: nat)
    requires Inv(l) && i < |l.changes|
    ensures Known(l.rows, l.changes[i])
  {
    var c := l.changes[i];
    HistoryHolds(l.changes, i);
    assert History(l.changes, c.key) == Upto(RevisionOf(l.rows, c.key));
    UptoHolds(RevisionOf(l.rows, c.key), c.revision);
  }

  // The next at most n changes after a cursor.
  function NextChanges(changes: seq<Change>, after: nat, n: nat): seq<Change>
    requires after <= |changes|
  {
    changes[after..if |changes| - after > n then after + n else |changes|]
  }

  lemma NextChangesAreNext(changes: seq<Change>, after: nat, n: nat)
    requires Numbered(changes) && after <= |changes|
    ensures NextChanges(changes, after, n) == Limited(ChangesAfter(changes, after), n) && Contiguous(NextChanges(changes, after, n), after)
  {
    ChangesAfterAre(changes, after);
  }

  lemma NextChangesAreKnown(l: Ledger, after: nat, n: nat)
    requires Inv(l) && after <= |l.changes|
    ensures AllKnown(l.rows, NextChanges(l.changes, after, n))
  {
    var page := NextChanges(l.changes, after, n);
    forall i | 0 <= i < |page|
      ensures Known(l.rows, page[i])
    {
      hide Known, Inv;
      ChangesAreKnown(l, after + i);
    }
  }

  ghost predicate ReplayHolds(l: Ledger, after: nat, n: nat, p: Replay)
    requires after <= |l.changes|
  {
    var page := NextChanges(l.changes, after, n);
    && AllKnown(l.rows, page) && p.records == CurrentRows(l.rows, page)
    && p.next == after + |page| && p.more == (p.next < |l.changes|)
  }

  // A replay from a cursor inside the log gives the current row of each of the next changes,
  // and is never refused; a cursor beyond the log always is.
  lemma ReplaysAreServed(l: Ledger, after: nat, limit: int)
    requires Inv(l)
    ensures ReplayAfter(l, after, limit).Ok? <==> after <= |l.changes|
    ensures after <= |l.changes| ==> ReplayHolds(l, after, Clamp(limit), ReplayAfter(l, after, limit).value)
  {
    TopOfNumbered(l.changes);
    if after <= |l.changes| {
      NextChangesAreNext(l.changes, after, Clamp(limit));
      NextChangesAreKnown(l, after, Clamp(limit));
      ChangesAfterAre(l.changes, after);
    }
  }
}
