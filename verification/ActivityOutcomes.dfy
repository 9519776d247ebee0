/** What each activity transaction leaves in the ledger, record by record. */
module ActivityOutcomes {
  import opened Basics
  import opened Activity
  import opened ActivityProofs
  import opened ActivitySnapshots

  function RowOf(rows: seq<Record>, key: Key): Option<Record> {
    var i := Find(rows, key);
    if i < |rows| then Some(rows[i]) else None
  }

  // ---------- One record ----------

  // A record written with some content: as it was if it showed that already, else under the
  // next revision in its old place, or as a new record at the end.
  predicate WrittenAs(before: Option<Record>, after: Option<Record>, key: Key, c: Content, observedAt: int, end: nat) {
    && after.Some? && after.value.key == key && after.value.content == c
    && if before.Some? then
         && after.value.sequence == before.value.sequence
         && if before.value.content == c then after == before
            else after.value.revision == before.value.revision + 1 && after.value.observedAt == observedAt
       else after.value.sequence == end + 1 && after.value.revision == 1 && after.value.observedAt == observedAt
  }

  // The kinds of record that may show a phase.
  function KindsIn(phase: Phase): set<Kind> {
    match phase
    case Active => {ObjectiveStarted, ObjectiveProgress, ObjectiveAccepted, WorkerStarted, ImplementationStarted, TestsStarted, ReviewStarted}
    case AwaitingUser => {ObjectiveProgress, DecisionRequested}
    case Completed => {TestsPassed, ObjectiveCompleted, SupervisionOutcome, PrimaryMessage, PrimaryFinal, WorkerMessage, WorkerFinal}
    case Failed => {TestsFailed, ObjectiveFailed}
    case Cancelled => {ObjectiveCancelled}
    case Resolved => {DecisionResolved}
  }

  // A record is taken exactly when its texts pass, its kind may show its phase, and it names
  // an objective, a task unless it is the primary's, and a decision key if it is a decision.
  lemma UpsertTakenExactlyWhen(l: Ledger, key: Key, c: Content, screened: bool, observedAt: int)
    ensures Upsert(l, key, c, screened, observedAt).Ok? <==>
      && screened && c.kind in KindsIn(c.phase) && c.objective.Some?
      && (c.task.Some? <==> c.kind !in {PrimaryMessage, PrimaryFinal})
      && (c.decisionKey.Some? <==> c.kind in {DecisionRequested, DecisionResolved})
  {
  }

  // Page sizes asked for are kept between one and two hundred.
  lemma PageSizeIs(limit: int)
    ensures Clamp(limit) == if limit < 1 then 1 else if 200 < limit then 200 else limit
  {
  }

  // An upsert writes exactly its record; any other is untouched.
  lemma UpsertWrites(l: Ledger, key: Key, c: Content, screened: bool, observedAt: int, other: Key)
    requires Inv(l) && Upsert(l, key, c, screened, observedAt).Ok?
    ensures
      var (l', r) := Upsert(l, key, c, screened, observedAt).value;
      && WrittenAs(RowOf(l.rows, key), RowOf(l'.rows, key), key, c, observedAt, |l.rows|) && RowOf(l'.rows, key) == Some(r)
      && (other != key ==> RowOf(l'.rows, other) == RowOf(l.rows, other))
  {
    UpsertKeeps(l, key, c, screened, observedAt);
    TopOfDense(l.rows);
    var l' := Upsert(l, key, c, screened, observedAt).value.0;
    if Find(l.rows, other) < |l.rows| {
      FindOnly(l'.rows, Find(l.rows, other));
    }
    if Find(l.rows, key) < |l.rows| {
      FindOnly(l'.rows, Find(l.rows, key));
    } else {
      FindOnly(l'.rows, |l.rows|);
    }
  }

  // ---------- Snapshots ----------

  // What a snapshot lists for a record, or what the record showed before.
  function Listed(snap: Snapshot, drafts: seq<Draft>, key: Key, before: Option<Content>): Option<Content> {
    if drafts == [] then before
    else if key == Key(snap.source, drafts[|drafts| - 1].name) then Some(drafts[|drafts| - 1].content)
    else Listed(snap, drafts[..|drafts| - 1], key, before)
  }

  lemma {:induction false} UpsertAllLists(l: Ledger, snap: Snapshot, drafts: seq<Draft>, key: Key)
    requires Inv(l) && UpsertAll(l, snap, drafts).Ok?
    ensures ContentOf(UpsertAll(l, snap, drafts).value.rows, key) == Listed(snap, drafts, key, ContentOf(l.rows, key))
    decreases |drafts|
  {
    hide Inv, Upsert, ContentOf;
    if drafts != [] {
      var last := |drafts| - 1;
      var d, mid := drafts[last], UpsertAll(l, snap, drafts[..last]).value;
      UpsertAllKeeps(l, snap, drafts[..last]);
      UpsertAllLists(l, snap, drafts[..last], key);
      UpsertSets(mid, Key(snap.source, d.name), d.content, d.screened, snap.observedAt, key);
    }
  }

  lemma {:induction false} ListedIs(snap: Snapshot, drafts: seq<Draft>, key: Key, before: Option<Content>)
    requires DistinctNames(drafts)
    ensures forall i | 0 <= i < |drafts| && key == Key(snap.source, drafts[i].name) :: Listed(snap, drafts, key, before) == Some(drafts[i].content)
    ensures (forall d <- drafts :: key != Key(snap.source, d.name)) ==> Listed(snap, drafts, key, before) == before
    decreases |drafts|
  {
    if drafts != [] {
      var last := |drafts| - 1;
      assert drafts[last] in drafts;
      ListedIs(snap, drafts[..last], key, before);
    }
  }

  // A decision of the source that waits, though the snapshot does not name it as open.
  predicate Forgotten(snap: Snapshot, key: Key, c: Content) {
    && key.source == snap.source && c.kind.DecisionRequested? && c.phase.AwaitingUser?
    && c.task.Some? && c.decisionKey.Some? && (c.task.value, c.decisionKey.value) !in snap.open
  }

  const NO_LONGER_OPEN := "Decision is no longer open in the authoritative Firstmate snapshot."

  // A decision shown as closed: resolved, without attention, under the closing text.
  predicate ShownClosed(c: Content, c': Content, sha: string) {
    && c'.kind.DecisionResolved? && c'.phase.Resolved? && !c'.attention && c'.summary == NO_LONGER_OPEN && !c'.truncated
    && c'.occurredAt.None? && c'.event.None? && c'.sha == Closing(c.task, c.decisionKey, sha)
    && c'.title == c.title && c'.task == c.task && c'.decisionKey == c.decisionKey && c'.objective == c.objective
    && c'.run == c.run && c'.project == c.project && c'.refs == c.refs
  }

  // What an accepted snapshot leaves at any key of the ledger: what it lists there, or what was
  // there; closed, if that is a waiting decision of its own source that it does not name as open.
  lemma AcceptedSnapshotLeaves(f: Feed, snap: Snapshot, key: Key)
    requires Inv(f.ledger) && Accepted(f, snap)
    ensures
      var before, after := ContentOf(f.ledger.rows, key), ContentOf(Reconcile(f, snap).value.ledger.rows, key);
      && (forall i | 0 <= i < |snap.drafts| && key == Key(snap.source, snap.drafts[i].name) :: Becomes(snap, key, Some(snap.drafts[i].content), after))
      && ((forall d <- snap.drafts :: key != Key(snap.source, d.name)) ==> Becomes(snap, key, before, after))
  {
    hide Inv, ContentOf, GoneRows, CloseGone;
    var before := ContentOf(f.ledger.rows, key);
    var mid := UpsertAll(f.ledger, snap, snap.drafts).value;
    UpsertAllKeeps(f.ledger, snap, snap.drafts);
    UpsertAllLists(f.ledger, snap, snap.drafts, key);
    ListedIs(snap, snap.drafts, key, before);
    ClosingIsExact(mid, snap, key);
    BecomesIs(snap, key, ContentOf(mid.rows, key));
  }

  predicate Becomes(snap: Snapshot, key: Key, standing: Option<Content>, after: Option<Content>) {
    if standing.Some? && Forgotten(snap, key, standing.value) then after.Some? && ShownClosed(standing.value, after.value, snap.sha)
    else after == standing
  }

  lemma BecomesIs(snap: Snapshot, key: Key, c: Option<Content>)
    ensures Becomes(snap, key, c, if c.Some? && GoneContent(key.source, c.value, snap) then Some(ClosedContent(c.value, snap.sha)) else c)
  {
  }

  // ---------- Records a snapshot does not concern ----------

  lemma {:induction false} UpsertAllSpares(l: Ledger, snap: Snapshot, drafts: seq<Draft>, key: Key)
    requires Inv(l) && UpsertAll(l, snap, drafts).Ok? && forall d <- drafts :: key != Key(snap.source, d.name)
    ensures RowOf(UpsertAll(l, snap, drafts).value.rows, key) == RowOf(l.rows, key)
    decreases |drafts|
  {
    hide Inv, Upsert, RowOf;
    if drafts != [] {
      var last := |drafts| - 1;
      var d, mid := drafts[last], UpsertAll(l, snap, drafts[..last]).value;
      assert d in drafts;
      UpsertAllKeeps(l, snap, drafts[..last]);
      UpsertAllSpares(l, snap, drafts[..last], key);
      UpsertWrites(mid, Key(snap.source, d.name), d.content, d.screened, snap.observedAt, key);
    }
  }

  lemma {:induction false} CloseGoneSpares(l: Ledger, snap: Snapshot, gone: seq<Record>, key: Key)
    requires Inv(l) && (forall r <- gone :: Gone(r, snap) && Valid(r.content) && r.key != key)
    ensures CloseGone(l, snap, gone).Ok? && RowOf(CloseGone(l, snap, gone).value.rows, key) == RowOf(l.rows, key)
    decreases |gone|
  {
    hide Inv, Upsert, RowOf, Gone, Valid, ClosedContent;
    CloseGoneKeeps(l, snap, gone);
    if gone != [] {
      var last := |gone| - 1;
      var mid := CloseGone(l, snap, gone[..last]).value;
      assert gone[last] in gone;
      CloseGoneKeeps(l, snap, gone[..last]);
      CloseGoneSpares(l, snap, gone[..last], key);
      UpsertWrites(mid, gone[last].key, ClosedContent(gone[last].content, snap.sha), true, snap.observedAt, key);
    }
  }

  // A record of another source, and an unlisted one of this source that does not wait or is
  // named as open, is untouched: content, revision, place and time.
  lemma AcceptedSnapshotSpares(f: Feed, snap: Snapshot, key: Key)
    requires Inv(f.ledger) && Accepted(f, snap) && forall d <- snap.drafts :: key != Key(snap.source, d.name)
    requires RowOf(f.ledger.rows, key).None? || !Forgotten(snap, key, RowOf(f.ledger.rows, key).value.content)
    ensures RowOf(Reconcile(f, snap).value.ledger.rows, key) == RowOf(f.ledger.rows, key)
  {
    hide Inv, CloseGone, UpsertAll, GoneRows;
    var mid := UpsertAll(f.ledger, snap, snap.drafts).value;
    UpsertAllKeeps(f.ledger, snap, snap.drafts);
    UpsertAllSpares(f.ledger, snap, snap.drafts, key);
    GoneRowsAre(mid.rows, snap);
    SparedIsNotGone(mid, snap, key);
    CloseGoneSpares(mid, snap, GoneRows(mid.rows, snap), key);
  }

  lemma SparedIsNotGone(l: Ledger, snap: Snapshot, key: Key)
    requires Inv(l) && (RowOf(l.rows, key).None? || !Forgotten(snap, key, RowOf(l.rows, key).value.content))
    ensures forall r <- l.rows :: (Gone(r, snap) ==> r.key != key) && Valid(r.content)
  {
    forall r <- l.rows
      ensures (Gone(r, snap) ==> r.key != key) && Valid(r.content)
    {
      var i :| 0 <= i < |l.rows| && l.rows[i] == r;
      FindOnly(l.rows, i);
    }
  }

  // A snapshot older than the last of its source changes nothing.
  lemma LateSnapshotChangesNothing(f: Feed, snap: Snapshot)
    requires snap.source in f.snapshots && snap.observedAt < f.snapshots[snap.source].0
    ensures Written(f, SnapshotWrite(snap)) == f
  {
  }

  // Over every run of writes the time of a source never goes back, and one time has one content.
  lemma {:induction false} SourcesNeverGoBack(f: Feed, ws: seq<Write>, source: string)
    requires source in f.snapshots
    ensures source in WrittenAll(f, ws).snapshots && f.snapshots[source].0 <= WrittenAll(f, ws).snapshots[source].0
    ensures WrittenAll(f, ws).snapshots[source].0 == f.snapshots[source].0 ==> WrittenAll(f, ws).snapshots[source] == f.snapshots[source]
    decreases |ws|
  {
    hide UpsertAll, CloseGone, Upsert;
    if ws != [] {
      SourcesNeverGoBack(f, ws[..|ws| - 1], source);
    }
  }
}
