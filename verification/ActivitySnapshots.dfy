/** What an accepted complete activity snapshot leaves, and when applying it again is silent. */
module ActivitySnapshots {
  import opened Basics
  import opened Activity
  import opened ActivityProofs

  function ContentOf(rows: seq<Record>, key: Key): Option<Content> {
    var i := Find(rows, key);
    if i < |rows| then Some(rows[i].content) else None
  }

  lemma UpsertSets(l: Ledger, key: Key, c: Content, screened: bool, observedAt: int, other: Key)
    requires Inv(l) && Upsert(l, key, c, screened, observedAt).Ok?
    ensures
      var l' := Upsert(l, key, c, screened, observedAt).value.0;
      ContentOf(l'.rows, other) == if other == key then Some(c) else ContentOf(l.rows, other)
  {
    UpsertKeeps(l, key, c, screened, observedAt);
    var l' := Upsert(l, key, c, screened, observedAt).value.0;
    if Find(l.rows, other) < |l.rows| {
      FindOnly(l'.rows, Find(l.rows, other));
    } else if other == key {
      FindOnly(l'.rows, |l.rows|);
    }
  }

  lemma {:induction false} UpsertAllSets(l: Ledger, snap: Snapshot, drafts: seq<Draft>, i: nat)
    requires Inv(l) && UpsertAll(l, snap, drafts).Ok? && DistinctNames(drafts) && i < |drafts|
    ensures ContentOf(UpsertAll(l, snap, drafts).value.rows, Key(snap.source, drafts[i].name)) == Some(drafts[i].content)
    decreases |drafts|
  {
    var last := |drafts| - 1;
    var d := drafts[last];
    UpsertAllKeeps(l, snap, drafts[..last]);
    UpsertSets(UpsertAll(l, snap, drafts[..last]).value, Key(snap.source, d.name), d.content, d.screened, snap.observedAt,
               Key(snap.source, drafts[i].name));
    if i < last {
      UpsertAllSets(l, snap, drafts[..last], i);
    }
  }

  function ClosedAt(gone: seq<Record>, snap: Snapshot, key: Key): Option<Content> {
    var i := Find(gone, key);
    if i < |gone| then Some(ClosedContent(gone[i].content, snap.sha)) else None
  }

  lemma ClosedAtGrows(gone: seq<Record>, snap: Snapshot, key: Key)
    requires DistinctKeys(gone) && gone != []
    ensures
      var last := |gone| - 1;
      ClosedAt(gone, snap, key)
      == if key == gone[last].key then Some(ClosedContent(gone[last].content, snap.sha)) else ClosedAt(gone[..last], snap, key)
  {
    var last := |gone| - 1;
    if key == gone[last].key {
      FindOnly(gone, last);
    } else if Find(gone[..last], key) < last {
      FindOnly(gone, Find(gone[..last], key));
    }
  }

  lemma {:induction false} CloseGoneSets(l: Ledger, snap: Snapshot, gone: seq<Record>, key: Key)
    requires Inv(l) && DistinctKeys(gone) && forall r <- gone :: Gone(r, snap) && Valid(r.content)
    ensures CloseGone(l, snap, gone).Ok?
    ensures
      ContentOf(CloseGone(l, snap, gone).value.rows, key)
      == if ClosedAt(gone, snap, key).Some? then ClosedAt(gone, snap, key) else ContentOf(l.rows, key)
    decreases |gone|
  {
    CloseGoneKeeps(l, snap, gone);
    if gone != [] {
      var last := |gone| - 1;
      CloseGoneSets(l, snap, gone[..last], key);
      CloseGoneKeeps(l, snap, gone[..last]);
      UpsertSets(CloseGone(l, snap, gone[..last]).value, gone[last].key, ClosedContent(gone[last].content, snap.sha), true,
                 snap.observedAt, key);
      ClosedAtGrows(gone, snap, key);
      if key == gone[last].key {
        assert ClosedAt(gone, snap, key).Some?;
      }
    }
  }

  lemma {:induction false} GoneRowsAreDistinct(rows: seq<Record>, snap: Snapshot)
    requires DistinctKeys(rows)
    ensures DistinctKeys(GoneRows(rows, snap))
    decreases |rows|
  {
    if rows != [] {
      var last := |rows| - 1;
      GoneRowsAreDistinct(rows[..last], snap);
      GoneRowsAre(rows[..last], snap);
      forall r <- rows[..last]
        ensures r.key != rows[last].key
      {
      }
      assert forall i | 0 <= i < |GoneRows(rows[..last], snap)| :: GoneRows(rows[..last], snap)[i] in rows[..last];
    }
  }

  ghost predicate Accepted(f: Feed, snap: Snapshot) {
    && Reconcile(f, snap).Ok?
    && (snap.source in f.snapshots ==> f.snapshots[snap.source].0 <= snap.observedAt)
  }

  predicate GoneContent(source: string, c: Content, snap: Snapshot) {
    Gone(Record(Key(source, ""), 0, 0, c, 0), snap)
  }

  lemma GoneAtKey(rows: seq<Record>, snap: Snapshot, key: Key)
    requires DistinctKeys(rows)
    ensures
      var c := ContentOf(rows, key);
      ClosedAt(GoneRows(rows, snap), snap, key)
      == if c.Some? && GoneContent(key.source, c.value, snap) then Some(ClosedContent(c.value, snap.sha)) else None
  {
    var gone := GoneRows(rows, snap);
    GoneRowsAre(rows, snap);
    GoneRowsAreDistinct(rows, snap);
    var i, k := Find(rows, key), Find(gone, key);
    if i < |rows| && Gone(rows[i], snap) {
      var j :| 0 <= j < |gone| && gone[j] == rows[i];
      FindOnly(gone, j);
    } else if k < |gone| {
      assert gone[k] in gone;
      var j :| 0 <= j < |rows| && rows[j] == gone[k];
      FindOnly(rows, j);
    }
  }

  // Closing the gone rows of a table closes exactly them.
  lemma ClosingIsExact(l: Ledger, snap: Snapshot, key: Key)
    requires Inv(l)
    ensures CloseGone(l, snap, GoneRows(l.rows, snap)).Ok?
    ensures
      var c, c' := ContentOf(l.rows, key), ContentOf(CloseGone(l, snap, GoneRows(l.rows, snap)).value.rows, key);
      c' == if c.Some? && GoneContent(key.source, c.value, snap) then Some(ClosedContent(c.value, snap.sha)) else c
  {
    hide ContentOf, ClosedAt, GoneContent, CloseGone;
    GoneRowsAre(l.rows, snap);
    GoneRowsAreDistinct(l.rows, snap);
    CloseGoneSets(l, snap, GoneRows(l.rows, snap), key);
    GoneAtKey(l.rows, snap, key);
  }

  // An accepted snapshot leaves every record it lists as it lists it, but for listed decisions
  // its own open set omits, and no decision waits that the open set omits.
  lemma AcceptedSnapshotShows(f: Feed, snap: Snapshot)
    requires Inv(f.ledger) && Accepted(f, snap)
    ensures
      var rows := Reconcile(f, snap).value.ledger.rows;
      && (forall key: Key :: ContentOf(rows, key).Some? ==> !GoneContent(key.source, ContentOf(rows, key).value, snap))
      && (forall i | 0 <= i < |snap.drafts| ::
            var c := snap.drafts[i].content;
            ContentOf(rows, Key(snap.source, snap.drafts[i].name))
            == Some(if GoneContent(snap.source, c, snap) then ClosedContent(c, snap.sha) else c))
  {
    UpsertAllKeeps(f.ledger, snap, snap.drafts);
    var mid := UpsertAll(f.ledger, snap, snap.drafts).value;
    var rows := Reconcile(f, snap).value.ledger.rows;
    forall key: Key
      ensures ContentOf(rows, key).Some? ==> !GoneContent(key.source, ContentOf(rows, key).value, snap)
    {
      ClosingIsExact(mid, snap, key);
    }
    forall i | 0 <= i < |snap.drafts|
      ensures
        var c := snap.drafts[i].content;
        ContentOf(rows, Key(snap.source, snap.drafts[i].name)) == Some(if GoneContent(snap.source, c, snap) then ClosedContent(c, snap.sha) else c)
    {
      UpsertAllSets(f.ledger, snap, snap.drafts, i);
      ClosingIsExact(mid, snap, Key(snap.source, snap.drafts[i].name));
    }
  }

  // ---------- Applying a snapshot again ----------

  lemma SilentUpsert(l: Ledger, key: Key, c: Content, screened: bool, observedAt: int)
    requires Upsert(l, key, c, screened, observedAt).Ok?
    ensures
      var l' := Upsert(l, key, c, screened, observedAt).value.0;
      |l.changes| <= |l'.changes| && (|l'.changes| == |l.changes| ==> l' == l && ContentOf(l.rows, key) == Some(c))
  {
  }

  // Upserts that add no change found every record as listed.
  lemma {:induction false} SilentUpserts(l: Ledger, snap: Snapshot, drafts: seq<Draft>)
    requires UpsertAll(l, snap, drafts).Ok?
    ensures |l.changes| <= |UpsertAll(l, snap, drafts).value.changes|
    ensures |UpsertAll(l, snap, drafts).value.changes| == |l.changes| ==>
      && UpsertAll(l, snap, drafts).value == l
      && forall d <- drafts :: ContentOf(l.rows, Key(snap.source, d.name)) == Some(d.content)
    decreases |drafts|
  {
    if drafts != [] {
      var last := |drafts| - 1;
      var d := drafts[last];
      hide Upsert, ContentOf;
      SilentUpserts(l, snap, drafts[..last]);
      SilentUpsert(UpsertAll(l, snap, drafts[..last]).value, Key(snap.source, d.name), d.content, d.screened, snap.observedAt);
    }
  }

  lemma {:induction false} RepeatedUpserts(l: Ledger, snap: Snapshot, drafts: seq<Draft>)
    requires forall d <- drafts :: Valid(d.content) && d.screened && ContentOf(l.rows, Key(snap.source, d.name)) == Some(d.content)
    ensures UpsertAll(l, snap, drafts) == Ok(l)
    decreases |drafts|
  {
    if drafts != [] {
      RepeatedUpserts(l, snap, drafts[..|drafts| - 1]);
    }
  }

  lemma {:induction false} UpsertsWereValid(l: Ledger, snap: Snapshot, drafts: seq<Draft>)
    requires UpsertAll(l, snap, drafts).Ok?
    ensures forall d <- drafts :: Valid(d.content) && d.screened
    decreases |drafts|
  {
    if drafts != [] {
      UpsertsWereValid(l, snap, drafts[..|drafts| - 1]);
      assert drafts == drafts[..|drafts| - 1] + [drafts[|drafts| - 1]];
    }
  }

  lemma NothingGone(rows: seq<Record>, snap: Snapshot)
    requires DistinctKeys(rows)
    requires forall key: Key :: ContentOf(rows, key).Some? ==> !GoneContent(key.source, ContentOf(rows, key).value, snap)
    ensures GoneRows(rows, snap) == []
  {
    GoneRowsAre(rows, snap);
    forall r <- rows
      ensures !Gone(r, snap)
    {
      var i :| 0 <= i < |rows| && rows[i] == r;
      FindOnly(rows, i);
      assert ContentOf(rows, r.key) == Some(r.content);
    }
  }

  lemma SilentReconcile(f: Feed, snap: Snapshot)
    requires |snap.drafts| <= MAX_SNAPSHOT_ACTIVITY_RECORDS && |snap.open| <= MAX_SNAPSHOT_ACTIVITY_RECORDS && DistinctNames(snap.drafts)
    requires snap.source in f.snapshots && f.snapshots[snap.source] == (snap.observedAt, snap.sha)
    requires UpsertAll(f.ledger, snap, snap.drafts) == Ok(f.ledger) && GoneRows(f.ledger.rows, snap) == []
    ensures Reconcile(f, snap) == Ok(f)
  {
    assert f.snapshots[snap.source := (snap.observedAt, snap.sha)] == f.snapshots;
  }

  lemma ReapplyingIsSilent(f: Feed, snap: Snapshot)
    requires Inv(f.ledger) && Accepted(f, snap) && forall d <- snap.drafts :: !GoneContent(snap.source, d.content, snap)
    ensures var f' := Reconcile(f, snap).value; Reconcile(f', snap) == Ok(f')
  {
    hide Inv, UpsertAll, CloseGone;
    var f' := Reconcile(f, snap).value;
    AcceptedSnapshotShows(f, snap);
    ReconcileKeeps(f, snap);
    UpsertsWereValid(f.ledger, snap, snap.drafts);
    RepeatedUpserts(f'.ledger, snap, snap.drafts);
    NothingGone(f'.ledger.rows, snap);
    SilentReconcile(f', snap);
  }

  lemma ReapplyingRevises(f: Feed, snap: Snapshot, d: Draft)
    requires Inv(f.ledger) && Accepted(f, snap) && d in snap.drafts && GoneContent(snap.source, d.content, snap)
    ensures var f' := Reconcile(f, snap).value; Reconcile(f', snap) != Ok(f')
  {
    var f' := Reconcile(f, snap).value;
    AcceptedSnapshotShows(f, snap);
    ReconcileKeeps(f, snap);
    if UpsertAll(f'.ledger, snap, snap.drafts).Ok? {
      RevisedAgain(f', snap);
    }
  }

  // Applying an accepted snapshot again changes nothing, unless it lists a waiting decision
  // that its own open set omits; that record is then revised on every application.
  lemma ReapplyingIsSilentExactlyWhen(f: Feed, snap: Snapshot)
    requires Inv(f.ledger) && Accepted(f, snap)
    ensures
      var f' := Reconcile(f, snap).value;
      Reconcile(f', snap) == Ok(f') <==> forall d <- snap.drafts :: !GoneContent(snap.source, d.content, snap)
  {
    hide Inv, GoneContent, UpsertAll, CloseGone;
    if forall d <- snap.drafts :: !GoneContent(snap.source, d.content, snap) {
      ReapplyingIsSilent(f, snap);
    } else {
      var d :| d in snap.drafts && GoneContent(snap.source, d.content, snap);
      ReapplyingRevises(f, snap, d);
    }
  }

  lemma RevisedAgain(f: Feed, snap: Snapshot)
    requires Inv(f.ledger) && UpsertAll(f.ledger, snap, snap.drafts).Ok?
    requires exists d <- snap.drafts :: ContentOf(f.ledger.rows, Key(snap.source, d.name)) != Some(d.content)
    ensures Reconcile(f, snap).Ok? && Accepted(f, snap) ==> |Reconcile(f, snap).value.ledger.changes| > |f.ledger.changes|
  {
    SilentUpserts(f.ledger, snap, snap.drafts);
    UpsertAllKeeps(f.ledger, snap, snap.drafts);
    var mid := UpsertAll(f.ledger, snap, snap.drafts).value;
    GoneRowsAre(mid.rows, snap);
    CloseGoneKeeps(mid, snap, GoneRows(mid.rows, snap));
  }

  // ---------- A snapshot that lists a decision and omits it from its open set ----------

  const EMPTY_FEED := Feed(Ledger([], []), map[])

  function OmittingSnapshot(source: string, observedAt: int, sha: string, name: string, c: Content): Snapshot {
    Snapshot(source, observedAt, sha, [Draft(name, c, true)], {})
  }

  // A feed after a snapshot was applied n times; a refused one leaves it as it is.
  function Polled(f: Feed, snap: Snapshot, n: nat): Feed {
    if n == 0 then f
    else
      var before := Polled(f, snap, n - 1);
      match Reconcile(before, snap) case Ok(after) => after case Err(_) => before
  }

  // The only row of the table after n applications: requested and closed each time.
  predicate ClosedTimes(f: Feed, snap: Snapshot, n: nat)
    requires |snap.drafts| == 1
  {
    var d := snap.drafts[0];
    && |f.ledger.changes| == 2 * n
    && f.ledger.rows == (if n == 0 then [] else
         [Record(Key(snap.source, d.name), 1, 2 * n, ClosedContent(d.content, snap.sha), snap.observedAt)])
    && f.snapshots == (if n == 0 then map[] else map[snap.source := (snap.observedAt, snap.sha)])
  }

  // The draft is inserted, or revises the record that was closed before.
  lemma ListsAgain(f: Feed, snap: Snapshot, n: nat)
    requires |snap.drafts| == 1 && ClosedTimes(f, snap, n)
    requires Valid(snap.drafts[0].content) && snap.drafts[0].screened && snap.drafts[0].content.kind.DecisionRequested?
    ensures
      var d := snap.drafts[0];
      var r := UpsertAll(f.ledger, snap, snap.drafts);
      && r.Ok? && |r.value.changes| == 2 * n + 1
      && r.value.rows == [Record(Key(snap.source, d.name), 1, 2 * n + 1, d.content, snap.observedAt)]
  {
    hide Valid;
    var d := snap.drafts[0];
    assert snap.drafts[..0] == [];
    assert UpsertAll(f.ledger, snap, snap.drafts[..0]) == Ok(f.ledger);
    if n == 0 {
      assert f.ledger.rows == [] && Sequences(f.ledger.rows) == {};
    } else {
      assert Find(f.ledger.rows, Key(snap.source, d.name)) == 0;
    }
  }

  lemma ClosesAgain(l: Ledger, snap: Snapshot, r: Record)
    requires l.rows == [r] && Gone(r, snap) && Valid(r.content)
    ensures
      var done := CloseGone(l, snap, GoneRows(l.rows, snap));
      && done.Ok? && |done.value.changes| == |l.changes| + 1
      && done.value.rows == [Record(r.key, r.sequence, r.revision + 1, ClosedContent(r.content, snap.sha), snap.observedAt)]
  {
    assert [r][..0] == [];
    assert GoneRows(l.rows, snap) == [r];
    assert CloseGone(l, snap, []) == Ok(l);
    assert Find(l.rows, r.key) == 0;
  }

  lemma ListsThenCloses(f: Feed, source: string, observedAt: int, sha: string, name: string, c: Content, n: nat)
    requires Valid(c) && c.kind.DecisionRequested?
    requires ClosedTimes(f, OmittingSnapshot(source, observedAt, sha, name, c), n)
    ensures
      var snap := OmittingSnapshot(source, observedAt, sha, name, c);
      Reconcile(f, snap).Ok? && ClosedTimes(Reconcile(f, snap).value, snap, n + 1)
  {
    hide UpsertAll, CloseGone, GoneRows;
    var snap := OmittingSnapshot(source, observedAt, sha, name, c);
    ListsAgain(f, snap, n);
    ClosesAgain(UpsertAll(f.ledger, snap, snap.drafts).value, snap, Record(Key(source, name), 1, 2 * n + 1, c, observedAt));
  }

  // Such a snapshot is taken on every application, and the ledger never comes to rest: after n
  // applications the record has had 2n revisions, each of them announced to the clients.
  lemma {:induction false} OmittedDecisionKeepsChanging(source: string, observedAt: int, sha: string, name: string, c: Content, n: nat)
    requires Valid(c) && c.kind.DecisionRequested?
    ensures
      var snap := OmittingSnapshot(source, observedAt, sha, name, c);
      Reconcile(Polled(EMPTY_FEED, snap, n), snap).Ok? && ClosedTimes(Polled(EMPTY_FEED, snap, n), snap, n)
    decreases n
  {
    hide Reconcile;
    if n > 0 {
      OmittedDecisionKeepsChanging(source, observedAt, sha, name, c, n - 1);
      ListsThenCloses(Polled(EMPTY_FEED, OmittingSnapshot(source, observedAt, sha, name, c), n - 1), source, observedAt, sha, name, c, n - 1);
    }
    ListsThenCloses(Polled(EMPTY_FEED, OmittingSnapshot(source, observedAt, sha, name, c), n), source, observedAt, sha, name, c, n);
  }
}
