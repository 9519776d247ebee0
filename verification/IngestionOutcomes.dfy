/** What ingestion leaves in the activity ledger: every event shows as the adapter projects it. */
module IngestionOutcomes {
  import opened Basics
  import opened Activity
  import opened Ingestion
  import opened IngestionProofs
  import ActivityProofs
  import opened ActivitySnapshots
  import opened ActivityOutcomes

  // ---------- One batch ----------

  predicate ShowsAt(item: Item, name: string, key: Key) {
    item.projection.Some? && key == Key(name, item.projection.value.name)
  }

  // What the items of a batch show at a key: the last of them that shows there, or what was
  // there before.
  function ShownBy(items: seq<Item>, name: string, key: Key, before: Option<Content>): Option<Content> {
    if items == [] then before
    else if ShowsAt(items[|items| - 1], name, key) then Some(items[|items| - 1].projection.value.content)
    else ShownBy(items[..|items| - 1], name, key, before)
  }

  lemma {:induction false} LastIsShown(items: seq<Item>, name: string, key: Key, before: Option<Content>, i: nat)
    requires i < |items| && ShowsAt(items[i], name, key) && forall j | i < j < |items| :: !ShowsAt(items[j], name, key)
    ensures ShownBy(items, name, key, before) == Some(items[i].projection.value.content)
    decreases |items|
  {
    if i < |items| - 1 {
      LastIsShown(items[..|items| - 1], name, key, before, i);
    }
  }

  lemma {:induction false} ShownByJoins(a: seq<Item>, b: seq<Item>, name: string, key: Key, before: Option<Content>)
    ensures ShownBy(a + b, name, key, before) == ShownBy(b, name, key, ShownBy(a, name, key, before))
    decreases |b|
  {
    if b == [] {
      assert a + b == a;
    } else {
      assert (a + b)[..|a + b| - 1] == a + b[..|b| - 1];
      ShownByJoins(a, b[..|b| - 1], name, key, before);
    }
  }

  // Events the store has not seen, each with an id of its own.
  predicate NewRows(events: seq<Stored>, items: seq<Item>) {
    && (forall e <- events, i | 0 <= i < |items| :: e.row.id != items[i].row.id)
    && (forall i, j | 0 <= i < j < |items| :: items[i].row.id != items[j].row.id)
  }

  function StoredFrom(items: seq<Item>, expected: nat): (stored: seq<Stored>)
    ensures |stored| == |items| && forall i | 0 <= i < |items| :: stored[i] == Stored(expected + i + 1, items[i].row)
  {
    seq(|items|, i requires 0 <= i < |items| => Stored(expected + i + 1, items[i].row))
  }

  lemma IdIsNew(events: seq<Stored>, id: string)
    requires forall e <- events :: e.row.id != id
    ensures WithId(events, id) == |events|
  {
    assert forall k | 0 <= k < |events| :: events[k] in events;
  }

  lemma NewItemShows(b: Batch, name: string, item: Item, cursor: nat, key: Key)
    requires ActivityProofs.Inv(b.ledger) && StoreOne(b, name, item, cursor).Ok? && forall e <- b.events :: e.row.id != item.row.id
    ensures
      var b' := StoreOne(b, name, item, cursor).value;
      && ActivityProofs.Inv(b'.ledger) && b'.events == b.events + [Stored(cursor, item.row)] && b'.accepted == b.accepted + 1
      && ContentOf(b'.ledger.rows, key) == (if ShowsAt(item, name, key) then Some(item.projection.value.content) else ContentOf(b.ledger.rows, key))
      && (!ShowsAt(item, name, key) ==> RowOf(b'.ledger.rows, key) == RowOf(b.ledger.rows, key))
  {
    hide ActivityProofs.Inv, Upsert, ContentOf, RowOf;
    IdIsNew(b.events, item.row.id);
    if item.projection.Some? {
      var p := item.projection.value;
      ActivityProofs.UpsertKeeps(b.ledger, Key(name, p.name), p.content, p.screened, p.observedAt);
      UpsertSets(b.ledger, Key(name, p.name), p.content, p.screened, p.observedAt, key);
      UpsertWrites(b.ledger, Key(name, p.name), p.content, p.screened, p.observedAt, key);
    }
  }

  lemma {:induction false} NewItemsShow(b: Batch, name: string, items: seq<Item>, expected: nat, key: Key)
    requires ActivityProofs.Inv(b.ledger) && StoreAll(b, name, items, expected).Ok? && NewRows(b.events, items)
    ensures
      var b' := StoreAll(b, name, items, expected).value;
      && ActivityProofs.Inv(b'.ledger) && b'.events == b.events + StoredFrom(items, expected) && b'.accepted == b.accepted + |items|
      && ContentOf(b'.ledger.rows, key) == ShownBy(items, name, key, ContentOf(b.ledger.rows, key))
      && ((forall item <- items :: !ShowsAt(item, name, key)) ==> RowOf(b'.ledger.rows, key) == RowOf(b.ledger.rows, key))
    decreases |items|
  {
    hide ActivityProofs.Inv, StoreOne, ContentOf, RowOf, ShowsAt;
    if items != [] {
      var last := |items| - 1;
      NewItemsShow(b, name, items[..last], expected, key);
      var mid := StoreAll(b, name, items[..last], expected).value;
      LastIsNew(b.events, items, expected);
      NewItemShows(mid, name, items[last], expected + |items|, key);
      assert items[last] in items;
      assert StoredFrom(items, expected) == StoredFrom(items[..last], expected) + [Stored(expected + |items|, items[last].row)];
    }
  }

  lemma LastIsNew(events: seq<Stored>, items: seq<Item>, expected: nat)
    requires NewRows(events, items) && items != []
    ensures forall e <- events + StoredFrom(items[..|items| - 1], expected) :: e.row.id != items[|items| - 1].row.id
  {
  }

  // A batch of new events that is taken stores each of them in order and moves the cursor.
  lemma BatchIsStored(t: Tables, name: string, expected: nat, items: seq<Item>, newCursor: nat, prefix: Ingestion.Digest, tail: nat)
    requires ActivityProofs.Inv(t.ledger) && NewRows(t.events, items)
    requires ApplyBatch(t, name, expected, items, newCursor, prefix, tail).Ok?
    ensures t.source.Some?
    ensures
      var t', s := ApplyBatch(t, name, expected, items, newCursor, prefix, tail).value, t.source.value;
      && t'.events == t.events + StoredFrom(items, expected) && t'.source.Some?
      && t'.source == Some(s.(cursor := newCursor, prefix := prefix, tail := tail, fault := false,
                              accepted := s.accepted + |items|, duplicates := t'.source.value.duplicates))
  {
    hide ActivityProofs.Inv, StoreAll, ContentOf, RowOf, ShownBy, ShowsAt, NewRows;
    NewItemsShow(Batch(t.events, t.ledger, 0, 0), name, items, expected, Key(name, ""));
  }

  // It leaves at each key of the ledger what the last of them shows there. Where none shows,
  // the record is untouched.
  lemma BatchIsShown(t: Tables, name: string, expected: nat, items: seq<Item>, newCursor: nat, prefix: Ingestion.Digest, tail: nat, key: Key)
    requires ActivityProofs.Inv(t.ledger) && NewRows(t.events, items)
    requires ApplyBatch(t, name, expected, items, newCursor, prefix, tail).Ok?
    ensures
      var t' := ApplyBatch(t, name, expected, items, newCursor, prefix, tail).value;
      && (forall i | 0 <= i < |items| && ShowsAt(items[i], name, key) && (forall j | i < j < |items| :: !ShowsAt(items[j], name, key)) ::
            ContentOf(t'.ledger.rows, key) == Some(items[i].projection.value.content))
      && ((forall item <- items :: !ShowsAt(item, name, key)) ==> RowOf(t'.ledger.rows, key) == RowOf(t.ledger.rows, key))
  {
    hide ActivityProofs.Inv, StoreAll, ContentOf, RowOf, NewRows;
    NewItemsShow(Batch(t.events, t.ledger, 0, 0), name, items, expected, key);
    forall i | 0 <= i < |items| && ShowsAt(items[i], name, key) && (forall j | i < j < |items| :: !ShowsAt(items[j], name, key))
      ensures ShownBy(items, name, key, ContentOf(t.ledger.rows, key)) == Some(items[i].projection.value.content)
    {
      LastIsShown(items, name, key, ContentOf(t.ledger.rows, key), i);
    }
  }

  // Whatever a caller offers, a batch that is taken holds consecutive positions.
  lemma {:induction false} TakenBatchIsConsecutive(b: Batch, name: string, items: seq<Item>, expected: nat)
    requires StoreAll(b, name, items, expected).Ok?
    ensures forall i | 0 <= i < |items| :: items[i].row.position == expected + i + 1
    ensures b.events <= StoreAll(b, name, items, expected).value.events
    decreases |items|
  {
    if items != [] {
      TakenBatchIsConsecutive(b, name, items[..|items| - 1], expected);
    }
  }

  // And an event stored before comes in it only with the same content at the same position.
  lemma {:induction false} TakenBatchRepeats(b: Batch, name: string, items: seq<Item>, expected: nat, i: nat, e: Stored)
    requires StoreAll(b, name, items, expected).Ok? && i < |items|
    requires e in b.events && StoredOnce(b.events, e) && e.row.id == items[i].row.id
    ensures e == Stored(expected + i + 1, items[i].row)
    decreases |items|
  {
    hide StoredOnce, WithId;
    var last := |items| - 1;
    if i < last {
      TakenBatchRepeats(b, name, items[..last], expected, i, e);
    } else {
      TakenBatchIsConsecutive(b, name, items[..last], expected);
      FirstStays(b.events, StoreAll(b, name, items[..last], expected).value.events, e);
    }
  }

  // No other stored event has its id.
  predicate StoredOnce(events: seq<Stored>, e: Stored) {
    forall x <- events :: x.row.id == e.row.id ==> x == e
  }

  lemma FirstStays(events: seq<Stored>, more: seq<Stored>, e: Stored)
    requires events <= more && e in events && StoredOnce(events, e)
    ensures var i := WithId(more, e.row.id); i < |more| && more[i] == e
  {
    var k :| 0 <= k < |events| && events[k] == e;
    var i := WithId(more, e.row.id);
    assert more[k] == e;
    assert i <= k && more[i] == events[i];
  }

  // ---------- When a commit goes through ----------

  predicate Showable(item: Item) {
    item.projection.Some? ==> Valid(item.projection.value.content) && item.projection.value.screened
  }

  lemma {:induction false} NewItemsGoThroughExactlyWhen(b: Batch, name: string, items: seq<Item>, expected: nat)
    requires ActivityProofs.Inv(b.ledger) && NewRows(b.events, items) && (forall e <- b.events :: e.cursor <= expected)
    requires forall i | 0 <= i < |items| :: items[i].row.position == expected + i + 1
    ensures StoreAll(b, name, items, expected).Ok? <==> forall item <- items :: Showable(item)
    decreases |items|
  {
    hide ActivityProofs.Inv, StoreOne, Showable;
    if items != [] {
      var rest, item := items[..|items| - 1], items[|items| - 1];
      assert items == rest + [item];
      NewItemsGoThroughExactlyWhen(b, name, rest, expected);
      if StoreAll(b, name, rest, expected).Ok? {
        var mid := StoreAll(b, name, rest, expected).value;
        NewItemsShow(b, name, rest, expected, Key(name, ""));
        LastIsNew(b.events, items, expected);
        NewItemGoesThroughExactlyWhen(mid, name, item, expected + |items|);
      }
    }
  }

  lemma NewItemGoesThroughExactlyWhen(b: Batch, name: string, item: Item, cursor: nat)
    requires forall e <- b.events :: e.row.id != item.row.id && e.cursor < cursor
    requires item.row.position == cursor
    ensures StoreOne(b, name, item, cursor).Ok? <==> Showable(item)
  {
    IdIsNew(b.events, item.row.id);
  }

  // The items of a commit: the next rows of the journal with their projections.
  function Taking(rows: seq<Row>, cursor: nat, projections: seq<Option<Projection>>): (items: seq<Item>)
    requires cursor + |projections| <= |rows|
    ensures |items| == |projections|
    ensures forall i | 0 <= i < |items| :: items[i] == Item(rows[cursor + i], projections[i])
  {
    seq(|projections|, i requires 0 <= i < |projections| => Item(rows[cursor + i], projections[i]))
  }

  lemma NextRowsAreNew(t: Tables, rows: seq<Row>, projections: seq<Option<Projection>>)
    requires Sound(t) && t.source.Some? && ValidJournal(rows) && Taken(t) <= rows && |Taken(t)| + |projections| <= |rows|
    ensures NewRows(t.events, Taking(rows, |Taken(t)|, projections)) && forall e <- t.events :: e.cursor <= |Taken(t)|
  {
    hide ActivityProofs.Inv;
    var s := t.source.value;
    EventsAre(Taken(t), s.cursor - s.accepted, s.cursor);
    forall e | e in t.events
      ensures e.cursor <= |Taken(t)| && e.cursor >= 1 && e.row == rows[e.cursor - 1]
    {
      var k :| 0 <= k < |t.events| && t.events[k] == e;
    }
  }

  // A worker that checked its journal commits the next stretch of it exactly when nobody else
  // moved the cursor meanwhile and the ledger takes every record it projects.
  lemma CommitsExactlyWhen(c: Config, t: Tables, rows: seq<Row>, cursor: nat, projections: seq<Option<Projection>>)
    requires Sound(t) && ValidJournal(rows) && cursor <= |rows| && rows[..cursor] <= Taken(t)
    requires |projections| == (if |rows| - cursor < 500 then |rows| - cursor else 500)
    ensures Commit(c, t, rows, cursor, projections).Ok? <==>
      && t.source.Some? && t.source.value.cursor == cursor
      && forall p <- projections :: p.Some? ==> Valid(p.value.content) && p.value.screened
  {
    hide ActivityProofs.Inv, StoreAll, Valid, Showable;
    if t.source.Some? && t.source.value.cursor == cursor {
      assert Taken(t) == rows[..cursor];
      var items := Items(rows, cursor, projections);
      assert items == Taking(rows, cursor, projections);
      NextRowsAreNew(t, rows, projections);
      SoundLedger(t);
      NewItemsGoThroughExactlyWhen(Batch(t.events, t.ledger, 0, 0), c.name, items, cursor);
      ShowableIs(rows, cursor, projections);
    }
  }

  lemma ShowableIs(rows: seq<Row>, cursor: nat, projections: seq<Option<Projection>>)
    requires cursor + |projections| <= |rows|
    ensures (forall item <- Taking(rows, cursor, projections) :: Showable(item)) <==>
      forall p <- projections :: p.Some? ==> Valid(p.value.content) && p.value.screened
  {
    hide Valid;
    var items := Taking(rows, cursor, projections);
    forall i | 0 <= i < |items|
      ensures items[i].projection == projections[i] && items[i] in items && projections[i] in projections
    {
    }
  }

  lemma SoundLedger(t: Tables)
    requires Sound(t)
    ensures ActivityProofs.Inv(t.ledger)
  {
  }

  // ---------- Every run ----------

  // What one move takes in.
  function TakenIn(c: Config, s: System, m: Move): seq<Item> {
    if !m.Commits? || !PlaceOf(s, m.w).Checked? then []
    else
      var p := PlaceOf(s, m.w);
      if p.cursor + |m.projections| <= |p.rows| && Commit(c, s.tables, p.rows, p.cursor, m.projections).Ok?
      then Taking(p.rows, p.cursor, m.projections) else []
  }

  function AllTakenIn(c: Config, s: System, moves: seq<Move>): seq<Item> {
    if moves == [] then []
    else AllTakenIn(c, s, moves[..|moves| - 1]) + TakenIn(c, Run(c, s, moves[..|moves| - 1]), moves[|moves| - 1])
  }

  lemma MoveShows(c: Config, s: System, m: Move, key: Key)
    requires IngestionProofs.Inv(s)
    ensures
      var items, t, t' := TakenIn(c, s, m), s.tables, Moved(c, s, m).tables;
      && |t'.events| == |t.events| + |items| && t.events <= t'.events
      && (forall i | 0 <= i < |items| :: t'.events[|t.events| + i].row == items[i].row)
      && ContentOf(t'.ledger.rows, key) == ShownBy(items, c.name, key, ContentOf(t.ledger.rows, key))
  {
    hide ActivityProofs.Inv, Commit, ContentOf, Sound;
    if m.Commits? {
      PlaceHeld(s, m.w);
      var p := PlaceOf(s, m.w);
      if p.Checked? && Commit(c, s.tables, p.rows, p.cursor, m.projections).Ok? {
        CommitShows(c, s.tables, p.rows, p.cursor, m.projections, key);
      }
    } else {
      OtherMovesShowNothing(c, s, m);
    }
  }

  lemma OtherMovesShowNothing(c: Config, s: System, m: Move)
    requires !m.Commits?
    ensures Moved(c, s, m).tables.events == s.tables.events && Moved(c, s, m).tables.ledger == s.tables.ledger
  {
  }

  lemma CommitShows(c: Config, t: Tables, rows: seq<Row>, cursor: nat, projections: seq<Option<Projection>>, key: Key)
    requires Sound(t) && ValidJournal(rows) && cursor <= |rows| && rows[..cursor] <= Taken(t) && Commit(c, t, rows, cursor, projections).Ok?
    ensures cursor + |projections| <= |rows|
    ensures
      var items, t' := Taking(rows, cursor, projections), Commit(c, t, rows, cursor, projections).value;
      && t'.events == t.events + StoredFrom(items, cursor)
      && ContentOf(t'.ledger.rows, key) == ShownBy(items, c.name, key, ContentOf(t.ledger.rows, key))
  {
    hide ActivityProofs.Inv, StoreAll, ContentOf;
    assert Taken(t) == rows[..cursor];
    assert Items(rows, cursor, projections) == Taking(rows, cursor, projections);
    NextRowsAreNew(t, rows, projections);
    SoundLedger(t);
    NewItemsShow(Batch(t.events, t.ledger, 0, 0), c.name, Taking(rows, cursor, projections), cursor, key);
  }

  // Whatever workers race, crash or are refused: the stored events are, in order, those of
  // the commits that went through, and every key of the ledger shows what the last of them
  // shows there, and nothing if none does.
  lemma {:induction false} EventsReachTheLedger(c: Config, moves: seq<Move>, key: Key)
    ensures
      var t, items := Run(c, FRESH, moves).tables, AllTakenIn(c, FRESH, moves);
      && |t.events| == |items| && (forall i | 0 <= i < |items| :: t.events[i].row == items[i].row)
      && ContentOf(t.ledger.rows, key) == ShownBy(items, c.name, key, None)
    decreases |moves|
  {
    hide ContentOf, Moved, TakenIn, IngestionProofs.Inv, ShownBy;
    if moves == [] {
      NothingShows(c.name, key);
    } else {
      var rest, m := moves[..|moves| - 1], moves[|moves| - 1];
      var s := Run(c, FRESH, rest);
      EventsReachTheLedger(c, rest, key);
      EveryRunIngestsOnce(c, rest);
      MoveShows(c, s, m, key);
      ShownByJoins(AllTakenIn(c, FRESH, rest), TakenIn(c, s, m), c.name, key, None);
      RowsJoin(s.tables.events, Run(c, FRESH, moves).tables.events, AllTakenIn(c, FRESH, rest), TakenIn(c, s, m));
    }
  }

  lemma RowsJoin(events: seq<Stored>, more: seq<Stored>, a: seq<Item>, b: seq<Item>)
    requires |events| == |a| && (forall i | 0 <= i < |a| :: events[i].row == a[i].row)
    requires events <= more && |more| == |events| + |b| && forall i | 0 <= i < |b| :: more[|events| + i].row == b[i].row
    ensures |more| == |a + b| && forall i | 0 <= i < |a + b| :: more[i].row == (a + b)[i].row
  {
    forall i | 0 <= i < |a + b|
      ensures more[i].row == (a + b)[i].row
    {
      if i >= |a| {
        assert more[|events| + (i - |a|)].row == b[i - |a|].row;
      }
    }
  }

  lemma NothingShows(name: string, key: Key)
    ensures ContentOf(FRESH.tables.ledger.rows, key) == None == ShownBy([], name, key, None)
  {
  }

  // ---------- A worker nobody disturbs ----------

  // How far one reconcile gets: to the end of the journal, or five hundred records on.
  function Reach(cursor: nat, rows: seq<Row>): nat {
    if |rows| <= cursor then cursor else if |rows| - cursor <= 500 then |rows| else cursor + 500
  }

  // A source that was bound, and a journal that still begins with what was taken.
  ghost predicate Continues(t: Tables, rows: seq<Row>) {
    && Sound(t) && ValidJournal(rows) && t.source.Some? && Taken(t) <= rows
    && !(t.source.value.fault && t.source.value.cursor == 0 && t.source.value.tail == 0 && t.source.value.accepted == 0)
  }

  predicate AllShowable(projections: seq<Option<Projection>>) {
    forall p <- projections :: p.Some? ==> Valid(p.value.content) && p.value.screened
  }

  lemma CheckedGoesOn(t: Tables, rows: seq<Row>)
    requires Continues(t, rows)
    ensures !Unbound(t.source) && AfterChecking(rows, t.source.value) == Checked(rows, t.source.value.cursor)
    ensures t.source.value.cursor == |Taken(t)| && rows[..t.source.value.cursor] == Taken(t)
  {
    hide ActivityProofs.Inv, ValidJournal, EventsOf;
    PrefixCheckIsExact(t.source.value, rows);
  }

  // A checked worker commits the next stretch, acknowledges where that ends, and is done.
  lemma CheckedCommitsAndAcknowledges(c: Config, s: System, w: nat, rows: seq<Row>, projections: seq<Option<Projection>>)
    requires Continues(s.tables, rows) && PlaceOf(s, w) == Checked(rows, |Taken(s.tables)|)
    requires |projections| == Reach(|Taken(s.tables)|, rows) - |Taken(s.tables)| && AllShowable(projections)
    ensures
      var end := Reach(|Taken(s.tables)|, rows);
      var s1 := Moved(c, s, Commits(w, projections));
      var s2 := Moved(c, s1, Acknowledges(w));
      && Taken(s1.tables) == rows[..end] && s1.acks == s.acks
      && s2.tables == s1.tables && PlaceOf(s2, w) == Idle
      && s2.acks == s.acks + (if end > 0 then [Ack(end, rows[end - 1].id)] else [])
  {
    hide Commit, Sound, ValidJournal, AllShowable;
    var cursor := |Taken(s.tables)|;
    assert rows[..cursor] == Taken(s.tables);
    ContinuesIs(s.tables, rows);
    ShowableAll(projections);
    CommitsExactlyWhen(c, s.tables, rows, cursor, projections);
    CommitTakesNext(c, s.tables, rows, cursor, projections);
    assert s.acks + [] == s.acks;
  }

  lemma ContinuesIs(t: Tables, rows: seq<Row>)
    requires Continues(t, rows)
    ensures Sound(t) && ValidJournal(rows) && t.source.value.cursor == |Taken(t)| <= |rows|
  {
  }

  lemma ShowableAll(projections: seq<Option<Projection>>)
    requires AllShowable(projections)
    ensures forall p <- projections :: p.Some? ==> Valid(p.value.content) && p.value.screened
  {
  }

  // A branch worker that reads a journal which goes on from what was taken, alone from its
  // first step to its last, takes it in.
  lemma BranchWorkerTakesJournal(c: Config, s: System, w: nat, rows: seq<Row>, projections: seq<Option<Projection>>)
    requires Continues(s.tables, rows) && PlaceOf(s, w) == Idle
    requires |projections| == Reach(|Taken(s.tables)|, rows) - |Taken(s.tables)| && AllShowable(projections)
    ensures
      var s' := Moved(c, Moved(c, Moved(c, Moved(c, s, BranchReads(w, rows)), BranchLooks(w)), Checks(w)), Commits(w, projections));
      Taken(s'.tables) == rows[..Reach(|Taken(s.tables)|, rows)]
  {
    hide Commit, Sound, ValidJournal, AllShowable, AfterChecking, Unbound, Continues, Committing;
    ContinuesIs(s.tables, rows);
    CheckedGoesOn(s.tables, rows);
    var s1 := Moved(c, s, BranchReads(w, rows));
    var s2 := Moved(c, s1, BranchLooks(w));
    var s3 := Moved(c, s2, Checks(w));
    assert s3.tables == s.tables && PlaceOf(s3, w) == Checked(rows, |Taken(s.tables)|);
    CheckedCommitsAndAcknowledges(c, s3, w, rows, projections);
  }

  // The first worker of a source binds it as its policy says, and takes in what comes after.
  lemma FirstWorkerBindsAndTakes(c: Config, s: System, w: nat, rows: seq<Row>, projections: seq<Option<Projection>>)
    requires Sound(s.tables) && s.tables.source.None? && ValidJournal(rows) && rows != [] && PlaceOf(s, w) == Idle
    requires c.policy.After? ==> c.policy.position <= |rows|
    requires |projections| == Reach(BoundCursor(c.policy, rows), rows) - BoundCursor(c.policy, rows) && AllShowable(projections)
    ensures
      var s1 := Moved(c, Moved(c, Moved(c, Moved(c, s, BranchReads(w, rows)), BranchLooks(w)), Bootstraps(w)), Reloads(w));
      var s' := Moved(c, Moved(c, s1, Checks(w)), Commits(w, projections));
      && Taken(s1.tables) == rows[..BoundCursor(c.policy, rows)]
      && Taken(s'.tables) == rows[..Reach(BoundCursor(c.policy, rows), rows)]
  {
    hide Commit, Sound, ValidJournal, AllShowable, AfterChecking, Continues, Committing, Initialize;
    var cursor := BoundCursor(c.policy, rows);
    FirstBinding(s.tables, c.policy, rows);
    var s1 := Moved(c, s, BranchReads(w, rows));
    var s2 := Moved(c, s1, BranchLooks(w));
    var s3 := Moved(c, s2, Bootstraps(w));
    var s4 := Moved(c, s3, Reloads(w));
    CheckedGoesOn(s4.tables, rows);
    var s5 := Moved(c, s4, Checks(w));
    assert s5.tables == s4.tables && PlaceOf(s5, w) == Checked(rows, cursor);
    CheckedCommitsAndAcknowledges(c, s5, w, rows, projections);
  }

  // Where a policy starts.
  function BoundCursor(policy: Policy, rows: seq<Row>): nat {
    match policy case Tail => |rows| case FromStart => 0 case After(n) => n
  }

  lemma FirstBinding(t: Tables, policy: Policy, rows: seq<Row>)
    requires Sound(t) && t.source.None? && ValidJournal(rows) && rows != [] && (policy.After? ==> policy.position <= |rows|)
    ensures BootstrapCursor(policy, |rows|) == Ok(BoundCursor(policy, rows))
    ensures
      var cursor := BoundCursor(policy, rows);
      var r := Initialize(t, policy, cursor, PrefixHash(rows, cursor), |rows|);
      r.Ok? && r.value.source.Some? && Continues(r.value, rows) && Taken(r.value) == rows[..cursor]
  {
    hide ActivityProofs.Inv;
    InitializeKeeps(t, policy, rows);
  }

  // A captain worker does the same, asserts the acknowledgement it finds before it goes on and
  // acknowledges what it took at the end.
  lemma CaptainWorkerTakesAndAcknowledges(c: Config, s: System, w: nat, rows: seq<Row>, projections: seq<Option<Projection>>)
    requires Continues(s.tables, rows) && PlaceOf(s, w) == Idle
    requires |projections| == Reach(|Taken(s.tables)|, rows) - |Taken(s.tables)| && AllShowable(projections)
    ensures
      var was, end := |Taken(s.tables)|, Reach(|Taken(s.tables)|, rows);
      var s1 := Moved(c, Moved(c, Moved(c, s, CaptainLooks(w)), CaptainReads(w, rows)), Reasserts(w));
      var s' := Moved(c, Moved(c, Moved(c, s1, Checks(w)), Commits(w, projections)), Acknowledges(w));
      && Taken(s'.tables) == rows[..end] && PlaceOf(s', w) == Idle
      && s1.acks == s.acks + (if was > 0 then [Ack(was, rows[was - 1].id)] else [])
      && s'.acks == s1.acks + (if end > 0 then [Ack(end, rows[end - 1].id)] else [])
  {
    hide Commit, Sound, ValidJournal, AllShowable, Continues, Committing, Acknowledged;
    ContinuesIs(s.tables, rows);
    CheckedGoesOn(s.tables, rows);
    var s1 := Moved(c, s, CaptainLooks(w));
    var s2 := Moved(c, s1, CaptainReads(w, rows));
    var s3 := Moved(c, s2, Reasserts(w));
    var s4 := Moved(c, s3, Checks(w));
    assert s.acks + [] == s.acks;
    assert s4.tables == s.tables && PlaceOf(s4, w) == Checked(rows, |Taken(s.tables)|);
    CheckedCommitsAndAcknowledges(c, s4, w, rows, projections);
  }

  // ---------- Binding and marking ----------

  // Binding is accepted exactly for a cursor its policy allows within the journal and a digest
  // that goes with it. It takes effect on a source that is not there or was only ever marked
  // faulty, and leaves any other alone.
  lemma InitializedExactly(t: Tables, policy: Policy, cursor: nat, prefix: Ingestion.Digest, tail: nat)
    ensures
      var r := Initialize(t, policy, cursor, prefix, tail);
      && (r.Ok? <==>
            && cursor <= tail && (cursor == 0 <==> prefix == Nothing)
            && match policy case Tail => cursor == tail case FromStart => cursor == 0 case After(n) => cursor == n)
      && (r.Ok? ==>
            r.value == t.(source := Some(match t.source
              case None => Source(policy, cursor, prefix, tail, false, 0, 0, 0)
              case Some(s) =>
                if s.fault && s.cursor == 0 && s.prefix == Nothing && s.tail == 0 && s.accepted == 0
                then Source(policy, cursor, prefix, tail, false, 0, s.duplicates, s.conflicts) else s)))
  {
  }

  // A fault is noted, a conflict counted, and nothing else is touched.
  lemma FaultMarkedExactly(t: Tables, policy: Policy, conflict: bool)
    ensures
      var t', n := MarkFault(t, policy, conflict), if conflict then 1 else 0;
      t' == t.(source := Some(match t.source
        case None => Source(policy, 0, Nothing, 0, true, 0, 0, n)
        case Some(s) => Source(s.policy, s.cursor, s.prefix, s.tail, true, s.accepted, s.duplicates, s.conflicts + n)))
  {
  }
}
