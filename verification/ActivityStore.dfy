/** The activity ledger as the gateway keeps it: one user's tables, changed in place inside
    transactions that either commit or leave every row as it was. */
module ActivityStore {
  import opened Basics
  import opened Activity

  // An upsert that fails a batch fails it whatever follows.
  lemma {:induction false} FailureSticks(l: Ledger, snap: Snapshot, drafts: seq<Draft>, n: nat)
    requires n <= |drafts| && UpsertAll(l, snap, drafts[..n]).Err?
    ensures UpsertAll(l, snap, drafts) == UpsertAll(l, snap, drafts[..n])
    decreases |drafts|
  {
    if n < |drafts| {
      assert drafts[..|drafts| - 1][..n] == drafts[..n];
      FailureSticks(l, snap, drafts[..|drafts| - 1], n);
    } else {
      assert drafts[..n] == drafts;
    }
  }

  lemma {:induction false} ClosingFailureSticks(l: Ledger, snap: Snapshot, gone: seq<Record>, n: nat)
    requires n <= |gone| && CloseGone(l, snap, gone[..n]).Err?
    ensures CloseGone(l, snap, gone) == CloseGone(l, snap, gone[..n])
    decreases |gone|
  {
    if n < |gone| {
      assert gone[..|gone| - 1][..n] == gone[..n];
      ClosingFailureSticks(l, snap, gone[..|gone| - 1], n);
    } else {
      assert gone[..n] == gone;
    }
  }

  class Store {
    var rows: seq<Record>
    var changes: seq<Change>
    var snapshots: map<string, (int, string)>

    constructor ()
      ensures Tables() == Feed(Ledger([], []), map[])
    {
      rows, changes, snapshots := [], [], map[];
    }

    function Tables(): Feed
      reads this
    {
      Feed(Ledger(rows, changes), snapshots)
    }

    method RecordChange(r: Record)
      modifies `changes
      ensures changes == Noted(old(changes), r)
    {
      var latest := Top(Numbers(changes));
      changes := changes + [Change(latest + 1, r.key, r.revision)];
    }

    method UpsertActivity(key: Key, c: Content, screened: bool, observedAt: int) returns (r: Result<Record, ActivityError>)
      modifies `rows, `changes
      ensures match Upsert(Ledger(old(rows), old(changes)), key, c, screened, observedAt)
        case Ok(done) => Ledger(rows, changes) == done.0 && r == Ok(done.1)
        case Err(e) => rows == old(rows) && changes == old(changes) && r == Err(e)
    {
      if !Valid(c) || !screened {
        return Err(Invalid);
      }
      var i := Find(rows, key);
      if i < |rows| {
        var existing := rows[i];
        if existing.content == c {
          return Ok(existing);
        }
        rows := rows[i := existing.(revision := existing.revision + 1, content := c, observedAt := observedAt)];
        RecordChange(rows[i]);
        return Ok(rows[i]);
      }
      var inserted := Record(key, Top(Sequences(rows)) + 1, 1, c, observedAt);
      rows := rows + [inserted];
      RecordChange(inserted);
      return Ok(inserted);
    }

    method UpsertDrafts(snap: Snapshot) returns (error: Option<ActivityError>)
      modifies `rows, `changes
      ensures match UpsertAll(Ledger(old(rows), old(changes)), snap, snap.drafts)
        case Ok(l) => error == None && Ledger(rows, changes) == l
        case Err(e) => error == Some(e)
    {
      ghost var start := Ledger(rows, changes);
      for i := 0 to |snap.drafts|
        invariant UpsertAll(start, snap, snap.drafts[..i]) == Ok(Ledger(rows, changes))
      {
        var d := snap.drafts[i];
        var r := UpsertActivity(Key(snap.source, d.name), d.content, d.screened, snap.observedAt);
        assert snap.drafts[..i + 1][..i] == snap.drafts[..i];
        if r.Err? {
          FailureSticks(start, snap, snap.drafts, i + 1);
          return Some(r.error);
        }
      }
      assert snap.drafts[..|snap.drafts|] == snap.drafts;
      return None;
    }

    method CloseDecisions(snap: Snapshot) returns (error: Option<ActivityError>)
      modifies `rows, `changes
      ensures match CloseGone(Ledger(old(rows), old(changes)), snap, GoneRows(old(rows), snap))
        case Ok(l) => error == None && Ledger(rows, changes) == l
        case Err(e) => error == Some(e)
    {
      ghost var start := Ledger(rows, changes);
      var gone := GoneRows(rows, snap);
      for i := 0 to |gone|
        invariant CloseGone(start, snap, gone[..i]) == Ok(Ledger(rows, changes))
      {
        var r := gone[i];
        var closed := UpsertActivity(r.key, ClosedContent(r.content, snap.sha), true, snap.observedAt);
        assert gone[..i + 1][..i] == gone[..i];
        if closed.Err? {
          ClosingFailureSticks(start, snap, gone, i + 1);
          return Some(closed.error);
        }
      }
      assert gone[..|gone|] == gone;
      return None;
    }

    method ReconcileSnapshot(snap: Snapshot) returns (error: Option<ActivityError>)
      modifies this
      ensures match Reconcile(old(Tables()), snap)
        case Ok(f) => error == None && Tables() == f
        case Err(e) => error == Some(e) && Tables() == old(Tables())
    {
      if |snap.drafts| > MAX_SNAPSHOT_ACTIVITY_RECORDS || |snap.open| > MAX_SNAPSHOT_ACTIVITY_RECORDS
         || !DistinctNames(snap.drafts) {
        return Some(Invalid);
      }
      if snap.source in snapshots {
        var previous := snapshots[snap.source];
        if snap.observedAt < previous.0 {
          return None;
        }
        if snap.observedAt == previous.0 && snap.sha != previous.1 {
          return Some(SnapshotConflict);
        }
      }
      var rows0, changes0 := rows, changes;
      error := UpsertDrafts(snap);
      if error.None? {
        error := CloseDecisions(snap);
      }
      if error.Some? {
        rows, changes := rows0, changes0;
        return;
      }
      snapshots := snapshots[snap.source := (snap.observedAt, snap.sha)];
    }

    method SnapshotActivity(before: Option<nat>, limit: int) returns (r: Result<Page, ActivityError>)
      ensures r == SnapshotPage(Ledger(rows, changes), before, limit)
    {
      var n := Clamp(limit);
      var latest := Top(Sequences(rows));
      var found := Newest(rows, if before.Some? then before.value else latest + 1, n + 1);
      var page := Limited(found, n);
      var i := 0;
      while i < |page|
        invariant 0 <= i <= |page|
        invariant forall k | 0 <= k < i :: Delivery(changes, page[k].key) != 0
      {
        if Delivery(changes, page[i].key) == 0 {
          return Err(Inconsistent);
        }
        i := i + 1;
      }
      return Ok(Page(page, Top(Numbers(changes)), latest, if |found| > n then Some(page[|page| - 1].sequence) else None, |found| > n));
    }

    method ListActivity(after: nat, limit: int) returns (r: Result<Replay, ActivityError>)
      ensures r == ReplayAfter(Ledger(rows, changes), after, limit)
    {
      hide ChangesAfter, Contiguous, Top, Numbers;
      var n := Clamp(limit);
      var found := ChangesAfter(changes, after);
      var latest := Top(Numbers(changes));
      if after > latest {
        return Err(AheadOfLedger);
      }
      var page := Limited(found, n);
      if !Contiguous(page, after) {
        return Err(NotContiguous);
      }
      var records := [];
      for i := 0 to |page|
        invariant AllKnown(rows, page[..i])
        invariant records == CurrentRows(rows, page[..i])
      {
        var j := Find(rows, page[i].key);
        if j == |rows| || rows[j].revision < page[i].revision {
          assert !Known(rows, page[i]);
          return Err(Inconsistent);
        }
        assert page[..i + 1][..i] == page[..i];
        records := records + [rows[j]];
      }
      assert page[..|page|] == page;
      return Ok(Replay(records, if page == [] then after else page[|page| - 1].number, latest, |found| > n));
    }
  }
}
