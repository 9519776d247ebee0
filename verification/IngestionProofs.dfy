/** Exactly-once ingestion under journal rewrites, faults, crashes and racing workers. */
module IngestionProofs {
  import opened Basics
  import opened Activity
  import opened Ingestion
  import ActivityProofs

  // ---------- What the tables say was taken from the journal ----------

  function TakenBy(s: Source): seq<Row> {
    if s.prefix.Of? then s.prefix.rows else []
  }

  function Taken(t: Tables): seq<Row> {
    if t.source.Some? then TakenBy(t.source.value) else []
  }

  // Journal records from one position to another, as they are stored.
  function EventsOf(rows: seq<Row>, start: nat, end: nat): seq<Stored>
    requires start <= end <= |rows|
  {
    if start == end then [] else EventsOf(rows, start, end - 1) + [Stored(end, rows[end - 1])]
  }

  ghost predicate WellBound(s: Source) {
    |TakenBy(s)| == s.cursor && (s.cursor == 0 <==> s.prefix == Nothing)
  }

  // The stored events are exactly the records after the bootstrap position, once each; the
  // cursor is that position plus the number accepted, and there were no duplicates.
  ghost predicate Sound(t: Tables) {
    && ActivityProofs.Inv(t.ledger)
    && ValidJournal(Taken(t))
    && if t.source.None? then t.events == []
       else
         var s := t.source.value;
         && WellBound(s) && s.accepted <= s.cursor && s.duplicates == 0
         && t.events == EventsOf(Taken(t), s.cursor - s.accepted, s.cursor)
  }

  lemma {:induction false} EventsOfPrefix(rows: seq<Row>, more: seq<Row>, start: nat, end: nat)
    requires start <= end <= |rows| && rows <= more
    ensures EventsOf(more, start, end) == EventsOf(rows, start, end)
    decreases end
  {
    if start < end {
      EventsOfPrefix(rows, more, start, end - 1);
    }
  }

  lemma {:induction false} EventsAre(rows: seq<Row>, start: nat, end: nat)
    requires start <= end <= |rows|
    ensures |EventsOf(rows, start, end)| == end - start
    ensures forall i | 0 <= i < end - start :: EventsOf(rows, start, end)[i] == Stored(start + i + 1, rows[start + i])
    decreases end
  {
    if start < end {
      EventsAre(rows, start, end - 1);
    }
  }

  // ---------- One batch ----------

  // The next record of a valid journal is new, whatever was stored before it.
  lemma StoreNext(b: Batch, name: string, item: Item, rows: seq<Row>, start: nat, n: nat)
    requires ValidJournal(rows) && start <= n < |rows| && item.row == rows[n]
    requires b.events == EventsOf(rows, start, n) && ActivityProofs.Inv(b.ledger)
    ensures
      var r := StoreOne(b, name, item, n + 1);
      r.Ok? ==>
        && r.value.events == EventsOf(rows, start, n + 1)
        && r.value.accepted == b.accepted + 1 && r.value.duplicates == b.duplicates
        && ActivityProofs.Inv(r.value.ledger) && ActivityProofs.Extends(b.ledger, r.value.ledger)
  {
    EventsAre(rows, start, n);
    forall i | 0 <= i < |b.events|
      ensures b.events[i].row.id != rows[n].id && b.events[i].cursor != n + 1
    {
    }
    if item.projection.Some? {
      var p := item.projection.value;
      ActivityProofs.UpsertKeeps(b.ledger, Key(name, p.name), p.content, p.screened, p.observedAt);
    }
  }

  lemma {:induction false} StoreNextAll(b: Batch, name: string, items: seq<Item>, rows: seq<Row>, start: nat, from: nat)
    requires ValidJournal(rows) && start <= from && from + |items| <= |rows|
    requires forall i | 0 <= i < |items| :: items[i].row == rows[from + i]
    requires b.events == EventsOf(rows, start, from) && ActivityProofs.Inv(b.ledger)
    ensures
      var r := StoreAll(b, name, items, from);
      r.Ok? ==>
        && r.value.events == EventsOf(rows, start, from + |items|)
        && r.value.accepted == b.accepted + |items| && r.value.duplicates == b.duplicates
        && ActivityProofs.Inv(r.value.ledger) && ActivityProofs.Extends(b.ledger, r.value.ledger)
    decreases |items|
  {
    hide ActivityProofs.Inv, ActivityProofs.Extends, StoreOne, ValidJournal;
    LedgerStays(b.ledger);
    if items != [] {
      var last := |items| - 1;
      StoreNextAll(b, name, items[..last], rows, start, from);
      var mid := StoreAll(b, name, items[..last], from);
      if mid.Ok? {
        StoreNext(mid.value, name, items[last], rows, start, from + last);
        var r := StoreOne(mid.value, name, items[last], from + |items|);
        if r.Ok? {
          ActivityProofs.ExtendsOn(b.ledger, mid.value.ledger, r.value.ledger);
        }
      }
    }
  }

  // Where the source was bootstrapped.
  function Start(s: Source): int {
    s.cursor - s.accepted
  }

  ghost predicate Grows(t: Tables, t': Tables) {
    && Taken(t) <= Taken(t') && (t.source.Some? ==> t'.source.Some?)
    && t.events <= t'.events && ActivityProofs.Extends(t.ledger, t'.ledger)
  }

  // A commit by a worker whose rows begin with what was taken takes the next rows; no other
  // commit does anything.
  lemma CommitTakesNext(c: Config, t: Tables, rows: seq<Row>, cursor: nat, projections: seq<Option<Projection>>)
    requires Sound(t) && ValidJournal(rows) && cursor <= |rows| && rows[..cursor] <= Taken(t)
    ensures
      var r := Commit(c, t, rows, cursor, projections);
      r.Ok? ==>
        && t.source.Some? && t.source.value.cursor == cursor && Taken(t) == rows[..cursor]
        && Sound(r.value) && Grows(t, r.value) && Taken(r.value) == rows[..Target(cursor, |rows|)]
        && r.value.source.Some? && Start(r.value.source.value) == Start(t.source.value)
  {
    hide ActivityProofs.Inv;
    var r := Commit(c, t, rows, cursor, projections);
    if r.Ok? {
      assert Taken(t) == rows[..cursor];
      TakingNext(c, t, rows, projections);
    }
  }

  lemma BatchStoresNext(t: Tables, name: string, items: seq<Item>, rows: seq<Row>, target: nat)
    requires Sound(t) && t.source.Some? && ValidJournal(rows) && Taken(t) <= rows
    requires var s := t.source.value; s.cursor <= target <= |rows| && |items| == target - s.cursor
    requires forall i | 0 <= i < |items| :: items[i].row == rows[t.source.value.cursor + i]
    ensures
      var s := t.source.value;
      var r := StoreAll(Batch(t.events, t.ledger, 0, 0), name, items, s.cursor);
      r.Ok? ==>
        && r.value.events == EventsOf(rows[..target], s.cursor - s.accepted, target)
        && t.events <= r.value.events && r.value.accepted == target - s.cursor && r.value.duplicates == 0
        && ActivityProofs.Inv(r.value.ledger) && ActivityProofs.Extends(t.ledger, r.value.ledger)
  {
    hide ActivityProofs.Inv, ActivityProofs.Extends, StoreAll, ValidJournal;
    var s := t.source.value;
    var start := s.cursor - s.accepted;
    EventsOfPrefix(Taken(t), rows, start, s.cursor);
    StoreNextAll(Batch(t.events, t.ledger, 0, 0), name, items, rows, start, s.cursor);
    EventsOfPrefix(rows[..target], rows, start, target);
    EventsOfGrow(rows, start, s.cursor, target);
  }

  lemma BatchTakesNext(t: Tables, name: string, items: seq<Item>, rows: seq<Row>, target: nat)
    requires Sound(t) && t.source.Some? && ValidJournal(rows) && Taken(t) <= rows
    requires var s := t.source.value; s.cursor <= target <= |rows| && |items| == target - s.cursor
    requires forall i | 0 <= i < |items| :: items[i].row == rows[t.source.value.cursor + i]
    requires ApplyBatch(t, name, t.source.value.cursor, items, target, PrefixHash(rows, target), |rows|).Ok?
    ensures
      var t' := ApplyBatch(t, name, t.source.value.cursor, items, target, PrefixHash(rows, target), |rows|).value;
      && Sound(t') && Grows(t, t') && Taken(t') == rows[..target]
      && t'.source.Some? && Start(t'.source.value) == Start(t.source.value)
  {
    hide ActivityProofs.Inv, ActivityProofs.Extends, StoreAll;
    BatchStoresNext(t, name, items, rows, target);
    var t' := ApplyBatch(t, name, t.source.value.cursor, items, target, PrefixHash(rows, target), |rows|).value;
    assert Taken(t') == rows[..target];
  }

  lemma TakingNext(c: Config, t: Tables, rows: seq<Row>, projections: seq<Option<Projection>>)
    requires Sound(t) && t.source.Some? && ValidJournal(rows) && Taken(t) <= rows
    requires Commit(c, t, rows, |Taken(t)|, projections).Ok?
    ensures
      var t' := Commit(c, t, rows, |Taken(t)|, projections).value;
      && Sound(t') && Grows(t, t') && Taken(t') == rows[..Target(|Taken(t)|, |rows|)]
      && t'.source.Some? && Start(t'.source.value) == Start(t.source.value)
  {
    hide ActivityProofs.Inv;
    var cursor := t.source.value.cursor;
    BatchTakesNext(t, c.name, Items(rows, cursor, projections), rows, Target(cursor, |rows|));
  }

  lemma {:induction false} EventsOfGrow(rows: seq<Row>, start: nat, mid: nat, end: nat)
    requires start <= mid <= end <= |rows|
    ensures EventsOf(rows, start, mid) <= EventsOf(rows, start, end)
    decreases end
  {
    if mid < end {
      EventsOfGrow(rows, start, mid, end - 1);
    }
  }

  // ---------- Bootstrapping and faults ----------

  // What the bootstrap policy computes is always accepted.
  lemma BootstrapIsAccepted(t: Tables, policy: Policy, rows: seq<Row>)
    requires BootstrapCursor(policy, |rows|).Ok?
    ensures var cursor := BootstrapCursor(policy, |rows|).value;
      Initialize(t, policy, cursor, PrefixHash(rows, cursor), |rows|).Ok?
  {
  }

  lemma InitializeKeeps(t: Tables, policy: Policy, rows: seq<Row>)
    requires Sound(t) && ValidJournal(rows) && BootstrapCursor(policy, |rows|).Ok?
    ensures
      var cursor := BootstrapCursor(policy, |rows|).value;
      var t' := Initialize(t, policy, cursor, PrefixHash(rows, cursor), |rows|).value;
      && Sound(t') && Grows(t, t') && t'.source.Some?
      && (t.source.Some? && !Uninitialized(t.source.value) ==> t' == t)
  {
    hide ActivityProofs.Inv;
    var cursor := BootstrapCursor(policy, |rows|).value;
    var t' := Initialize(t, policy, cursor, PrefixHash(rows, cursor), |rows|).value;
    assert Taken(t') == Taken(t) || Taken(t') == rows[..cursor];
    LedgerStays(t.ledger);
  }

  lemma LedgerStays(l: Ledger)
    ensures ActivityProofs.Extends(l, l)
  {
  }

  lemma FaultKeeps(t: Tables, policy: Policy, conflict: bool)
    requires Sound(t)
    ensures var t' := MarkFault(t, policy, conflict);
      Sound(t') && Grows(t, t') && Taken(t') == Taken(t) && t'.events == t.events
  {
    hide ActivityProofs.Inv;
    LedgerStays(t.ledger);
  }

  // ---------- Workers ----------

  // A source seen earlier: what it had taken is a prefix of what is taken now.
  ghost predicate PastSource(s: Source, t: Tables) {
    t.source.Some? && WellBound(s) && TakenBy(s) <= Taken(t)
  }

  ghost predicate Past(seen: Option<Source>, t: Tables) {
    seen.Some? ==> PastSource(seen.value, t)
  }

  ghost predicate Agrees(rows: seq<Row>, cursor: nat, t: Tables) {
    cursor <= |rows| && rows[..cursor] <= Taken(t)
  }

  ghost predicate Held(t: Tables, p: Place) {
    match p
    case Idle => true
    case HasRows(rows) => ValidJournal(rows)
    case Looked(seen) => Past(seen, t)
    case Reasserting(rows, was) => ValidJournal(rows) && PastSource(was, t) && 0 < was.cursor && Agrees(rows, was.cursor, t)
    case Ready(rows, seen) => ValidJournal(rows) && Past(seen, t)
    case Reloading(rows) => ValidJournal(rows)
    case Bound(rows, was) => ValidJournal(rows) && PastSource(was, t)
    case Checked(rows, cursor) => ValidJournal(rows) && Agrees(rows, cursor, t)
    case Committed(rows, cursor) => ValidJournal(rows) && Agrees(rows, cursor, t)
  }

  // Every acknowledged position is committed, and names the record committed there.
  ghost predicate AcksCommitted(acks: seq<Ack>, t: Tables) {
    forall a <- acks :: 0 < a.through <= |Taken(t)| && a.id == Taken(t)[a.through - 1].id
  }

  ghost predicate Inv(s: System) {
    && Sound(s.tables) && AcksCommitted(s.acks, s.tables)
    && forall w <- s.workers :: Held(s.tables, s.workers[w])
  }

  lemma HeldStays(t: Tables, t': Tables, p: Place)
    requires Held(t, p) && Grows(t, t')
    ensures Held(t', p)
  {
  }

  // A step that grows the tables and leaves one worker holding what it should.
  lemma StepInv(s: System, t': Tables, w: nat, p: Place)
    requires Inv(s) && Sound(t') && Grows(s.tables, t') && Held(t', p)
    ensures Inv(To(s.(tables := t'), w, p))
  {
    hide ActivityProofs.Inv;
    var s' := To(s.(tables := t'), w, p);
    forall v | v in s'.workers
      ensures Held(t', s'.workers[v])
    {
      if v != w {
        HeldStays(s.tables, t', s.workers[v]);
      }
    }
  }

  lemma AckInv(s: System, rows: seq<Row>, through: nat, w: nat, p: Place)
    requires Inv(s) && Agrees(rows, through, s.tables) && 0 < through && Held(s.tables, p)
    ensures Inv(To(s.(acks := s.acks + [AckedAt(rows, through)]), w, p))
  {
    assert rows[..through][through - 1] == rows[through - 1];
  }

  lemma PlaceHeld(s: System, w: nat)
    requires Inv(s)
    ensures Held(s.tables, PlaceOf(s, w))
  {
  }

  // The prefix check passes exactly when the journal still begins with what was taken.
  lemma PrefixCheckIsExact(s: Source, rows: seq<Row>)
    requires WellBound(s)
    ensures PrefixHolds(s, rows) <==> TakenBy(s) <= rows
    ensures PrefixHolds(s, rows) ==> s.cursor <= |rows| && rows[..s.cursor] == TakenBy(s)
  {
  }

  lemma TablesStay(t: Tables)
    ensures Grows(t, t)
  {
    LedgerStays(t.ledger);
  }

  lemma CheckInv(s: System, w: nat, rows: seq<Row>, was: Source)
    requires Inv(s) && ValidJournal(rows) && PastSource(was, s.tables)
    ensures Inv(To(s, w, AfterChecking(rows, was)))
  {
    PrefixCheckIsExact(was, rows);
    TablesStay(s.tables);
    StepInv(s, s.tables, w, AfterChecking(rows, was));
  }

  lemma ReadInv(s: System, w: nat, rows: seq<Row>, seen: Option<Source>)
    requires Inv(s) && ValidJournal(rows) && Past(seen, s.tables)
    ensures Inv(To(s, w, AfterReading(rows, seen)))
  {
    if seen.Some? {
      PrefixCheckIsExact(seen.value, rows);
    }
    TablesStay(s.tables);
    StepInv(s, s.tables, w, AfterReading(rows, seen));
  }

  lemma BootstrapInv(c: Config, s: System, w: nat)
    requires Inv(s)
    ensures Inv(Bootstrapped(c, s, w))
  {
    hide ActivityProofs.Inv;
    var p := PlaceOf(s, w);
    PlaceHeld(s, w);
    TablesStay(s.tables);
    if p.Ready? && Unbound(p.seen) {
      if BootstrapCursor(c.policy, |p.rows|).Err? {
        StepInv(s, s.tables, w, Idle);
      } else {
        BootstrapIsAccepted(s.tables, c.policy, p.rows);
        InitializeKeeps(s.tables, c.policy, p.rows);
        StepInv(s, Bootstrapped(c, s, w).tables, w, Reloading(p.rows));
      }
    }
  }

  lemma CommitInv(c: Config, s: System, w: nat, projections: seq<Option<Projection>>)
    requires Inv(s)
    ensures Inv(Committing(c, s, w, projections))
  {
    hide Commit, Sound, Grows;
    var p := PlaceOf(s, w);
    PlaceHeld(s, w);
    TablesStay(s.tables);
    if p.Checked? {
      CommitTakesNext(c, s.tables, p.rows, p.cursor, projections);
      var r := Commit(c, s.tables, p.rows, p.cursor, projections);
      if r.Ok? {
        StepInv(s, r.value, w, Committed(p.rows, Target(p.cursor, |p.rows|)));
      } else {
        StepInv(s, s.tables, w, Idle);
      }
    }
  }

  lemma MoveKeeps(c: Config, s: System, m: Move)
    requires Inv(s)
    ensures Inv(Moved(c, s, m))
  {
    hide ActivityProofs.Inv;
    TablesStay(s.tables);
    match m
    case BranchReads(w, rows) => if ValidJournal(rows) { StepInv(s, s.tables, w, HasRows(rows)); }
    case BranchLooks(w) => LookInv(s, w);
    case CaptainLooks(w) => StepInv(s, s.tables, w, Looked(s.tables.source));
    case CaptainReads(w, rows) =>
      PlaceHeld(s, w);
      if PlaceOf(s, w).Looked? && ValidJournal(rows) {
        ReadInv(s, w, rows, PlaceOf(s, w).seen);
      }
    case Reasserts(w) =>
      PlaceHeld(s, w);
      var p := PlaceOf(s, w);
      if p.Reasserting? {
        AckInv(s, p.rows, p.was.cursor, w, Ready(p.rows, Some(p.was)));
      }
    case Bootstraps(w) => BootstrapInv(c, s, w);
    case Reloads(w) => LookInv(s, w);
    case Checks(w) =>
      PlaceHeld(s, w);
      var p := PlaceOf(s, w);
      if p.Bound? {
        CheckInv(s, w, p.rows, p.was);
      } else if p.Ready? && !Unbound(p.seen) {
        CheckInv(s, w, p.rows, p.seen.value);
      }
    case Commits(w, projections) => CommitInv(c, s, w, projections);
    case Acknowledges(w) => AcknowledgeInv(s, w);
    case Drops(w) => StepInv(s, s.tables, w, Idle);
    case Faults(conflict) =>
      FaultKeeps(s.tables, c.policy, conflict);
      FaultInv(s, MarkFault(s.tables, c.policy, conflict));
  }

  lemma LookInv(s: System, w: nat)
    requires Inv(s)
    ensures PlaceOf(s, w).HasRows? ==> Inv(To(s, w, Ready(PlaceOf(s, w).rows, s.tables.source)))
    ensures PlaceOf(s, w).Reloading? ==>
      Inv(To(s, w, if s.tables.source.None? then Idle else Bound(PlaceOf(s, w).rows, s.tables.source.value)))
  {
    var p := PlaceOf(s, w);
    PlaceHeld(s, w);
    TablesStay(s.tables);
    if p.HasRows? {
      StepInv(s, s.tables, w, Ready(p.rows, s.tables.source));
    } else if p.Reloading? && s.tables.source.Some? {
      StepInv(s, s.tables, w, Bound(p.rows, s.tables.source.value));
    } else {
      StepInv(s, s.tables, w, Idle);
    }
  }

  lemma AcknowledgeInv(s: System, w: nat)
    requires Inv(s)
    ensures Inv(Acknowledged(s, w))
  {
    var p := PlaceOf(s, w);
    PlaceHeld(s, w);
    TablesStay(s.tables);
    if p.Committed? {
      if p.cursor > 0 {
        AckInv(s, p.rows, p.cursor, w, Idle);
      } else {
        StepInv(s, s.tables, w, Idle);
      }
    }
  }

  lemma FaultInv(s: System, t': Tables)
    requires Inv(s) && Sound(t') && Grows(s.tables, t')
    ensures Inv(s.(tables := t'))
  {
    hide ActivityProofs.Inv;
    forall w | w in s.workers
      ensures Held(t', s.workers[w])
    {
      HeldStays(s.tables, t', s.workers[w]);
    }
  }

  // Whatever the journal reads return, wherever faults and crashes fall and however the
  // workers race: what is stored is exactly what was taken after the bootstrap position, once
  // each, and nothing is acknowledged before it is committed.
  lemma {:induction false} EveryRunIngestsOnce(c: Config, moves: seq<Move>)
    ensures Inv(Run(c, FRESH, moves))
    decreases |moves|
  {
    if moves != [] {
      EveryRunIngestsOnce(c, moves[..|moves| - 1]);
      MoveKeeps(c, Run(c, FRESH, moves[..|moves| - 1]), moves[|moves| - 1]);
    }
  }

  // Record by record: with b the bootstrap position, the stored events are the journal
  // records b+1 to the cursor, once each and in order, the cursor is b plus the number
  // accepted, and every acknowledged position is committed.
  lemma JournalIsIngestedOnce(c: Config, moves: seq<Move>)
    ensures
      var s := Run(c, FRESH, moves);
      s.tables.source.Some? ==>
        var source, taken := s.tables.source.value, Taken(s.tables);
        var b := source.cursor - source.accepted;
        && b >= 0 && |taken| == source.cursor && source.duplicates == 0
        && |s.tables.events| == source.accepted
        && (forall i | 0 <= i < source.accepted :: s.tables.events[i] == Stored(b + i + 1, taken[b + i]))
        && (forall a <- s.acks :: a.through <= source.cursor)
  {
    hide ActivityProofs.Inv, Run, Held, ValidJournal, EventsOf;
    EveryRunIngestsOnce(c, moves);
    var s := Run(c, FRESH, moves);
    if s.tables.source.Some? {
      var source := s.tables.source.value;
      EventsAre(Taken(s.tables), source.cursor - source.accepted, source.cursor);
    }
  }

  // ---------- What never changes ----------

  // What was taken and what is stored only grow at the end, and once anything but a fault
  // marker is there the bootstrap position stays where it is.
  lemma MoveGrows(c: Config, s: System, m: Move)
    requires Inv(s)
    ensures Grows(s.tables, Moved(c, s, m).tables)
    ensures s.tables.source.Some? && !Uninitialized(s.tables.source.value) ==>
      Start(Moved(c, s, m).tables.source.value) == Start(s.tables.source.value)
  {
    hide ActivityProofs.Inv;
    TablesStay(s.tables);
    match m
    case Bootstraps(w) =>
      PlaceHeld(s, w);
      var p := PlaceOf(s, w);
      if p.Ready? && BootstrapCursor(c.policy, |p.rows|).Ok? {
        InitializeKeeps(s.tables, c.policy, p.rows);
      }
    case Commits(w, projections) =>
      PlaceHeld(s, w);
      var p := PlaceOf(s, w);
      if p.Checked? {
        CommitTakesNext(c, s.tables, p.rows, p.cursor, projections);
      }
    case Faults(conflict) => FaultKeeps(s.tables, c.policy, conflict);
    case _ =>
  }

  // Stored events are never rewritten, reordered or dropped by any later run.
  lemma {:induction false} StoredEventsStay(c: Config, s: System, moves: seq<Move>)
    requires Inv(s)
    ensures Inv(Run(c, s, moves))
    ensures s.tables.events <= Run(c, s, moves).tables.events && Taken(s.tables) <= Taken(Run(c, s, moves).tables)
    decreases |moves|
  {
    if moves != [] {
      StoredEventsStay(c, s, moves[..|moves| - 1]);
      MoveKeeps(c, Run(c, s, moves[..|moves| - 1]), moves[|moves| - 1]);
      MoveGrows(c, Run(c, s, moves[..|moves| - 1]), moves[|moves| - 1]);
    }
  }

  // A worker whose journal does not begin with what was taken commits nothing, at any moment
  // and whatever it saw of the source before.
  lemma RewrittenPrefixIsRefused(c: Config, s: System, w: nat, projections: seq<Option<Projection>>)
    requires Inv(s)
    requires PlaceOf(s, w).Checked? && !(Taken(s.tables) <= PlaceOf(s, w).rows)
    ensures Moved(c, s, Commits(w, projections)).tables == s.tables
  {
    var p := PlaceOf(s, w);
    PlaceHeld(s, w);
    CommitTakesNext(c, s.tables, p.rows, p.cursor, projections);
  }

  // ---------- Binding again ----------

  // Binding a source again moves its bootstrap position exactly when it looks as if it had
  // only been marked faulty and the policy starts after some records.
  lemma RebindingMovesExactlyWhen(t: Tables, policy: Policy, rows: seq<Row>)
    requires Sound(t) && t.source.Some? && BootstrapCursor(policy, |rows|).Ok?
    ensures
      var cursor := BootstrapCursor(policy, |rows|).value;
      var r := Initialize(t, policy, cursor, PrefixHash(rows, cursor), |rows|);
      && r.Ok? && r.value.source.Some?
      && (Start(r.value.source.value) != Start(t.source.value) <==> Uninitialized(t.source.value) && cursor > 0)
  {
    BootstrapIsAccepted(t, policy, rows);
  }

  // A source bound to an empty journal at its tail looks like that after a fault. The records
  // that arrived in between are then skipped.
  lemma RecordAfterBindingIsSkipped(r: Row, ledger: Ledger)
    requires r.position == 1 && ActivityProofs.Inv(ledger)
    ensures
      var bound := Initialize(Tables(None, [], ledger), Tail, 0, PrefixHash([], 0), 0).value;
      var faulty := MarkFault(bound, Tail, false);
      var rebound := Initialize(faulty, Tail, 1, PrefixHash([r], 1), 1).value;
      && Sound(bound) && Start(bound.source.value) == 0
      && Sound(rebound) && Start(rebound.source.value) == 1 && rebound.events == []
  {
    hide ActivityProofs.Inv;
    var bound := Initialize(Tables(None, [], ledger), Tail, 0, PrefixHash([], 0), 0).value;
    FaultKeeps(bound, Tail, false);
    InitializeKeeps(MarkFault(bound, Tail, false), Tail, [r]);
  }
}
