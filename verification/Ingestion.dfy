/** Ingestion of one append-only producer journal into the gateway's tables. Every function is
    one transaction, or one step of a worker between two waits. */
module Ingestion {
  import opened Basics
  import opened Activity

  const MAX_EVENTS_PER_RECONCILE := 500

  datatype SourceError = Conflict | BadCursor | Unprojected

  // ---------- Journals and digests ----------

  // A validated journal record: its position, its event id and everything else it says.
  datatype Row = Row(position: nat, id: string, body: string)

  // What the journal readers validate: records numbered from 1, no event id twice.
  predicate ValidJournal(rows: seq<Row>) {
    && (forall i | 0 <= i < |rows| :: rows[i].position == i + 1)
    && (forall i, j | 0 <= i < j < |rows| :: rows[i].id != rows[j].id)
  }

  // A prefix digest, taken to be free of collisions, stands for the records it was made from.
  datatype Digest = Nothing | Of(rows: seq<Row>)

  function PrefixHash(rows: seq<Row>, through: nat): Digest {
    if through == 0 then Nothing else Of(if through <= |rows| then rows[..through] else rows)
  }

  datatype Policy = Tail | FromStart | After(position: nat)

  function BootstrapCursor(policy: Policy, tail: nat): Result<nat, SourceError> {
    match policy
    case Tail => Ok(tail)
    case FromStart => Ok(0)
    case After(n) => if n <= tail then Ok(n) else Err(Conflict)
  }

  // ---------- Tables ----------

  datatype Source = Source(
    policy: Policy,
    cursor: nat,
    prefix: Digest,
    tail: nat,
    fault: bool,
    accepted: nat,
    duplicates: nat,
    conflicts: nat)

  datatype Stored = Stored(cursor: nat, row: Row)

  datatype Tables = Tables(source: Option<Source>, events: seq<Stored>, ledger: Ledger)

  // A source that was only ever marked faulty may still be bootstrapped.
  predicate Uninitialized(s: Source) {
    s.fault && s.cursor == 0 && s.prefix == Nothing && s.tail == 0 && s.accepted == 0
  }

  function MarkFault(t: Tables, policy: Policy, conflict: bool): Tables {
    var one := if conflict then 1 else 0;
    t.(source := Some(
      if t.source.None? then Source(policy, 0, Nothing, 0, true, 0, 0, one)
      else t.source.value.(fault := true, conflicts := t.source.value.conflicts + one)))
  }

  function Initialize(t: Tables, policy: Policy, cursor: nat, prefix: Digest, tail: nat): Result<Tables, SourceError> {
    if cursor > tail || (policy == FromStart && cursor != 0) || (policy == Tail && cursor != tail)
       || (policy.After? && policy.position != cursor) then Err(BadCursor)
    else if (cursor == 0) != (prefix == Nothing) then Err(BadCursor)
    else if t.source.None? then Ok(t.(source := Some(Source(policy, cursor, prefix, tail, false, 0, 0, 0))))
    else if Uninitialized(t.source.value) then
      Ok(t.(source := Some(t.source.value.(policy := policy, cursor := cursor, prefix := prefix, tail := tail, fault := false))))
    else Ok(t)
  }

  // An event to store and, unless it is silent, the activity record it shows as.
  datatype Projection = Projection(name: string, content: Content, screened: bool, observedAt: int)
  datatype Item = Item(row: Row, projection: Option<Projection>)

  datatype Batch = Batch(events: seq<Stored>, ledger: Ledger, accepted: nat, duplicates: nat)

  function WithId(events: seq<Stored>, id: string): (i: nat)
    ensures i <= |events|
    ensures i < |events| ==> events[i].row.id == id
    ensures forall j | 0 <= j < i :: events[j].row.id != id
  {
    if events == [] then 0 else if events[0].row.id == id then 0 else 1 + WithId(events[1..], id)
  }

  predicate HasCursor(events: seq<Stored>, cursor: nat) {
    exists e <- events :: e.cursor == cursor
  }

  function Projected(l: Ledger, source: string, p: Option<Projection>): Result<Ledger, SourceError> {
    if p.None? then Ok(l)
    else
      match Upsert(l, Key(source, p.value.name), p.value.content, p.value.screened, p.value.observedAt)
      case Err(_) => Err(Unprojected)
      case Ok(done) => Ok(done.0)
  }

  function StoreOne(b: Batch, name: string, item: Item, cursor: nat): Result<Batch, SourceError> {
    var i := WithId(b.events, item.row.id);
    if item.row.position != cursor then Err(Conflict)
    else if i < |b.events| then
      if b.events[i] != Stored(cursor, item.row) then Err(Conflict) else Ok(b.(duplicates := b.duplicates + 1))
    else if HasCursor(b.events, cursor) then Err(Conflict)
    else
      match Projected(b.ledger, name, item.projection)
      case Err(e) => Err(e)
      case Ok(l) => Ok(Batch(b.events + [Stored(cursor, item.row)], l, b.accepted + 1, b.duplicates))
  }

  function StoreAll(b: Batch, name: string, items: seq<Item>, expected: nat): Result<Batch, SourceError> {
    if items == [] then Ok(b)
    else
      match StoreAll(b, name, items[..|items| - 1], expected)
      case Err(e) => Err(e)
      case Ok(mid) => StoreOne(mid, name, items[|items| - 1], expected + |items|)
  }

  function ApplyBatch(t: Tables, name: string, expected: nat, items: seq<Item>, newCursor: nat, prefix: Digest, tail: nat): Result<Tables, SourceError> {
    if newCursor < expected || newCursor > tail || |items| != newCursor - expected || (newCursor == 0) != (prefix == Nothing) then Err(Conflict)
    else if t.source.None? || t.source.value.cursor != expected then Err(Conflict)
    else
      match StoreAll(Batch(t.events, t.ledger, 0, 0), name, items, expected)
      case Err(e) => Err(e)
      case Ok(b) =>
        var s := t.source.value;
        Ok(Tables(Some(s.(cursor := newCursor, prefix := prefix, tail := tail, fault := false,
                          accepted := s.accepted + b.accepted, duplicates := s.duplicates + b.duplicates)),
                  b.events, b.ledger))
  }

  // ---------- Workers ----------

  // Where a worker stands between two waits. A branch worker reads the journal and then the
  // source; a captain worker the other way round, and it reasserts its acknowledgement between.
  datatype Place =
    | Idle
    | HasRows(rows: seq<Row>)
    | Looked(seen: Option<Source>)
    | Reasserting(rows: seq<Row>, was: Source)
    | Ready(rows: seq<Row>, seen: Option<Source>)
    | Reloading(rows: seq<Row>)
    | Bound(rows: seq<Row>, was: Source)
    | Checked(rows: seq<Row>, cursor: nat)
    | Committed(rows: seq<Row>, cursor: nat)

  datatype Ack = Ack(through: nat, id: string)

  datatype System = System(tables: Tables, acks: seq<Ack>, workers: map<nat, Place>)

  datatype Config = Config(name: string, policy: Policy)

  datatype Move =
    | BranchReads(w: nat, rows: seq<Row>)
    | BranchLooks(w: nat)
    | CaptainLooks(w: nat)
    | CaptainReads(w: nat, rows: seq<Row>)
    | Reasserts(w: nat)
    | Bootstraps(w: nat)
    | Reloads(w: nat)
    | Checks(w: nat)
    | Commits(w: nat, projections: seq<Option<Projection>>)
    | Acknowledges(w: nat)
    | Drops(w: nat)                 // an exception or a crash, anywhere
    | Faults(conflict: bool)

  // Nothing read yet, or only a fault marker: the source still has to be bootstrapped.
  predicate Unbound(seen: Option<Source>) {
    seen.None? || Uninitialized(seen.value)
  }

  // The checks every reconcile makes before it takes anything from a journal.
  predicate PrefixHolds(s: Source, rows: seq<Row>) {
    s.cursor <= |rows| && (s.cursor > 0 ==> s.prefix == PrefixHash(rows, s.cursor))
  }

  // How far one reconcile goes.
  function Target(cursor: nat, tail: nat): (end: nat)
    ensures cursor <= end <= cursor + MAX_EVENTS_PER_RECONCILE
    ensures cursor <= tail ==> end <= tail && (end == tail || end == cursor + MAX_EVENTS_PER_RECONCILE)
  {
    if cursor + MAX_EVENTS_PER_RECONCILE < tail then cursor + MAX_EVENTS_PER_RECONCILE
    else if cursor < tail then tail else cursor
  }

  function Items(rows: seq<Row>, cursor: nat, projections: seq<Option<Projection>>): seq<Item>
    requires cursor <= |rows| && |projections| == Target(cursor, |rows|) - cursor
  {
    seq(|projections|, i requires 0 <= i < |projections| => Item(rows[cursor + i], projections[i]))
  }

  function Commit(c: Config, t: Tables, rows: seq<Row>, cursor: nat, projections: seq<Option<Projection>>): Result<Tables, SourceError>
    requires cursor <= |rows|
  {
    var target := Target(cursor, |rows|);
    if |projections| != target - cursor then Err(Unprojected)
    else ApplyBatch(t, c.name, cursor, Items(rows, cursor, projections), target, PrefixHash(rows, target), |rows|)
  }

  function PlaceOf(s: System, w: nat): Place {
    if w in s.workers then s.workers[w] else Idle
  }

  function To(s: System, w: nat, p: Place): System {
    s.(workers := s.workers[w := p])
  }

  function AckedAt(rows: seq<Row>, through: nat): Ack
    requires 0 < through <= |rows|
  {
    Ack(through, rows[through - 1].id)
  }

  // What a captain worker makes of the rows it read, given the source it looked at before.
  function AfterReading(rows: seq<Row>, seen: Option<Source>): Place {
    if Unbound(seen) then Ready(rows, seen)
    else if !PrefixHolds(seen.value, rows) then Idle
    else if seen.value.cursor > 0 then Reasserting(rows, seen.value)
    else Ready(rows, seen)
  }

  function AfterChecking(rows: seq<Row>, s: Source): Place {
    if PrefixHolds(s, rows) then Checked(rows, s.cursor) else Idle
  }

  function Moved(c: Config, s: System, m: Move): System {
    match m
    case BranchReads(w, rows) => if PlaceOf(s, w).Idle? && ValidJournal(rows) then To(s, w, HasRows(rows)) else s
    case BranchLooks(w) => if PlaceOf(s, w).HasRows? then To(s, w, Ready(PlaceOf(s, w).rows, s.tables.source)) else s
    case CaptainLooks(w) => if PlaceOf(s, w).Idle? then To(s, w, Looked(s.tables.source)) else s
    case CaptainReads(w, rows) =>
      if PlaceOf(s, w).Looked? && ValidJournal(rows) then To(s, w, AfterReading(rows, PlaceOf(s, w).seen)) else s
    case Reasserts(w) => Reasserted(s, w)
    case Bootstraps(w) => Bootstrapped(c, s, w)
    case Reloads(w) =>
      if !PlaceOf(s, w).Reloading? then s
      else To(s, w, if s.tables.source.None? then Idle else Bound(PlaceOf(s, w).rows, s.tables.source.value))
    case Checks(w) =>
      var p := PlaceOf(s, w);
      if p.Bound? then To(s, w, AfterChecking(p.rows, p.was))
      else if p.Ready? && !Unbound(p.seen) then To(s, w, AfterChecking(p.rows, p.seen.value))
      else s
    case Commits(w, projections) => Committing(c, s, w, projections)
    case Acknowledges(w) => Acknowledged(s, w)
    case Drops(w) => To(s, w, Idle)
    case Faults(conflict) => s.(tables := MarkFault(s.tables, c.policy, conflict))
  }

  function Reasserted(s: System, w: nat): System {
    var p := PlaceOf(s, w);
    if p.Reasserting? && 0 < p.was.cursor <= |p.rows|
    then To(s.(acks := s.acks + [AckedAt(p.rows, p.was.cursor)]), w, Ready(p.rows, Some(p.was)))
    else s
  }

  function Bootstrapped(c: Config, s: System, w: nat): System {
    var p := PlaceOf(s, w);
    if !p.Ready? || !Unbound(p.seen) then s
    else
      match BootstrapCursor(c.policy, |p.rows|)
      case Err(_) => To(s, w, Idle)
      case Ok(cursor) =>
        match Initialize(s.tables, c.policy, cursor, PrefixHash(p.rows, cursor), |p.rows|)
        case Err(_) => To(s, w, Idle)
        case Ok(t) => To(s.(tables := t), w, Reloading(p.rows))
  }

  function Committing(c: Config, s: System, w: nat, projections: seq<Option<Projection>>): System {
    var p := PlaceOf(s, w);
    if !p.Checked? || p.cursor > |p.rows| then s
    else
      match Commit(c, s.tables, p.rows, p.cursor, projections)
      case Err(_) => To(s, w, Idle)
      case Ok(t) => To(s.(tables := t), w, Committed(p.rows, Target(p.cursor, |p.rows|)))
  }

  function Acknowledged(s: System, w: nat): System {
    var p := PlaceOf(s, w);
    if !p.Committed? then s
    else if 0 < p.cursor <= |p.rows| then To(s.(acks := s.acks + [AckedAt(p.rows, p.cursor)]), w, Idle)
    else To(s, w, Idle)
  }

  function Run(c: Config, s: System, moves: seq<Move>): System {
    if moves == [] then s else Moved(c, Run(c, s, moves[..|moves| - 1]), moves[|moves| - 1])
  }

  const FRESH := System(Tables(None, [], Ledger([], [])), [], map[])
}
