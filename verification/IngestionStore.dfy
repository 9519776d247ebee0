/** One source's tables as the gateway keeps them, and an undisturbed reconcile of each stream. */
module IngestionStore {
  import opened Basics
  import Activity
  import opened Ingestion
  import opened IngestionProofs

  // An item that fails a batch fails it whatever follows.
  lemma {:induction false} FailureSticks(b: Batch, name: string, items: seq<Item>, expected: nat, n: nat)
    requires n <= |items| && StoreAll(b, name, items[..n], expected).Err?
    ensures StoreAll(b, name, items, expected) == StoreAll(b, name, items[..n], expected)
    decreases |items|
  {
    if n < |items| {
      assert items[..|items| - 1][..n] == items[..n];
      FailureSticks(b, name, items[..|items| - 1], expected, n);
    } else {
      assert items[..n] == items;
    }
  }

  // The running digest over the first records of a journal.
  method PrefixDigest(rows: seq<Row>, through: nat) returns (d: Digest)
    ensures d == PrefixHash(rows, through)
  {
    if through == 0 {
      return Nothing;
    }
    var bound := if through <= |rows| then through else |rows|;
    var fed: seq<Row> := [];
    for i := 0 to bound
      invariant fed == rows[..i]
    {
      fed := fed + [rows[i]];
    }
    return Of(fed);
  }

  class SourceStore {
    const name: string
    const policy: Policy
    const explicitPath: bool
    var source: Option<Source>
    var events: seq<Stored>
    var ledger: Activity.Ledger
    var acks: seq<Ack>

    constructor (name: string, policy: Policy, explicitPath: bool)
      ensures this.name == name && this.policy == policy && this.explicitPath == explicitPath
      ensures State() == Tables(None, [], Activity.Ledger([], [])) && acks == []
    {
      this.name, this.policy, this.explicitPath := name, policy, explicitPath;
      source, events, ledger, acks := None, [], Activity.Ledger([], []), [];
    }

    function State(): Tables
      reads this
    {
      Tables(source, events, ledger)
    }

    method Mark(conflict: bool)
      modifies this
      ensures State() == MarkFault(old(State()), policy, conflict) && acks == old(acks)
    {
      var one := if conflict then 1 else 0;
      if source.None? {
        source := Some(Source(policy, 0, Nothing, 0, true, 0, 0, one));
      } else {
        source := Some(source.value.(fault := true, conflicts := source.value.conflicts + one));
      }
    }

    method InitializeSource(cursor: nat, prefix: Digest, tail: nat) returns (error: Option<SourceError>)
      modifies `source
      ensures match Initialize(Tables(old(source), events, ledger), policy, cursor, prefix, tail)
        case Ok(t) => error == None && State() == t
        case Err(e) => error == Some(e) && source == old(source)
    {
      if cursor > tail || (policy == FromStart && cursor != 0) || (policy == Tail && cursor != tail)
         || (policy.After? && policy.position != cursor) {
        return Some(BadCursor);
      }
      if (cursor == 0) != (prefix == Nothing) {
        return Some(BadCursor);
      }
      if source.None? {
        source := Some(Source(policy, cursor, prefix, tail, false, 0, 0, 0));
      } else if Uninitialized(source.value) {
        source := Some(source.value.(policy := policy, cursor := cursor, prefix := prefix, tail := tail, fault := false));
      }
      return None;
    }

    // Stores one event and its activity record, or counts a duplicate.
    method StoreEvent(item: Item, cursor: nat, accepted: nat, duplicates: nat)
      returns (error: Option<SourceError>, accepted': nat, duplicates': nat)
      modifies `events, `ledger
      ensures match StoreOne(Batch(old(events), old(ledger), accepted, duplicates), name, item, cursor)
        case Ok(b) => error == None && b == Batch(events, ledger, accepted', duplicates')
        case Err(e) => error == Some(e)
    {
      accepted', duplicates' := accepted, duplicates;
      var known := WithId(events, item.row.id);
      if item.row.position != cursor {
        error := Some(Conflict);
      } else if known < |events| {
        error := if events[known] == Stored(cursor, item.row) then None else Some(Conflict);
        duplicates' := duplicates + 1;
      } else if HasCursor(events, cursor) {
        error := Some(Conflict);
      } else {
        var projected := Projected(ledger, name, item.projection);
        if projected.Err? {
          return Some(projected.error), accepted, duplicates;
        }
        events, ledger, accepted' := events + [Stored(cursor, item.row)], projected.value, accepted + 1;
        error := None;
      }
    }

    method StoreEvents(items: seq<Item>, expected: nat) returns (error: Option<SourceError>, accepted: nat, duplicates: nat)
      modifies `events, `ledger
      ensures match StoreAll(Batch(old(events), old(ledger), 0, 0), name, items, expected)
        case Ok(b) => error == None && b == Batch(events, ledger, accepted, duplicates)
        case Err(e) => error == Some(e)
    {
      accepted, duplicates := 0, 0;
      ghost var start := Batch(events, ledger, 0, 0);
      for i := 0 to |items|
        invariant StoreAll(start, name, items[..i], expected) == Ok(Batch(events, ledger, accepted, duplicates))
      {
        error, accepted, duplicates := StoreEvent(items[i], expected + i + 1, accepted, duplicates);
        assert items[..i + 1][..i] == items[..i];
        if error.Some? {
          FailureSticks(start, name, items, expected, i + 1);
          return;
        }
      }
      assert items[..|items|] == items;
      error := None;
    }

    // Stores a batch of events with their activity records and moves the cursor, or nothing.
    method ApplySourceEvents(expected: nat, items: seq<Item>, newCursor: nat, prefix: Digest, tail: nat)
      returns (error: Option<SourceError>)
      modifies `source, `events, `ledger
      ensures match ApplyBatch(old(State()), name, expected, items, newCursor, prefix, tail)
        case Ok(t) => error == None && State() == t
        case Err(e) => error == Some(e) && State() == old(State())
    {
      if newCursor < expected || newCursor > tail || |items| != newCursor - expected || (newCursor == 0) != (prefix == Nothing) {
        return Some(Conflict);
      }
      if source.None? || source.value.cursor != expected {
        return Some(Conflict);
      }
      var events0, ledger0 := events, ledger;
      var accepted, duplicates;
      error, accepted, duplicates := StoreEvents(items, expected);
      if error.Some? {
        events, ledger := events0, ledger0;
        return;
      }
      source := Some(source.value.(cursor := newCursor, prefix := prefix, tail := tail, fault := false,
                                   accepted := source.value.accepted + accepted,
                                   duplicates := source.value.duplicates + duplicates));
    }

    // Binds the source if need be; on success there is a source to go on with.
    method Bind(rows: seq<Row>) returns (error: Option<SourceError>)
      requires Sound(State()) && ValidJournal(rows)
      modifies `source
      ensures Sound(State()) && Grows(old(State()), State())
      ensures error.None? ==> source.Some?
    {
      TablesStay(State());
      if !Unbound(source) {
        return None;
      }
      var cursor := BootstrapCursor(policy, |rows|);
      if cursor.Err? {
        return Some(cursor.error);
      }
      BootstrapIsAccepted(State(), policy, rows);
      InitializeKeeps(State(), policy, rows);
      var prefix := PrefixDigest(rows, cursor.value);
      error := InitializeSource(cursor.value, prefix, |rows|);
    }

    // Checks the journal against the bound source and stores its next events.
    method TakeNext(rows: seq<Row>, projections: seq<Option<Projection>>) returns (error: Option<SourceError>)
      requires Sound(State()) && ValidJournal(rows) && source.Some?
      modifies this
      ensures acks == old(acks)
      ensures Sound(State()) && Grows(old(State()), State()) && source.Some?
      ensures !(old(Taken(State())) <= rows) ==> error == Some(Conflict) && State() == old(State())
      ensures error == None ==>
        && source.value.cursor == Target(old(source.value.cursor), |rows|) <= |rows| && Taken(State()) == rows[..source.value.cursor]
      ensures error != None ==> State() == old(State())
    {
      TablesStay(State());
      var cursor := source.value.cursor;
      PrefixCheckIsExact(source.value, rows);
      if cursor > |rows| {
        return Some(Conflict);
      }
      var prefix := PrefixDigest(rows, cursor);
      if cursor > 0 && source.value.prefix != prefix {
        return Some(Conflict);
      }
      assert PrefixHolds(source.value, rows);
      var target := Target(cursor, |rows|);
      if |projections| != target - cursor {
        return Some(Unprojected);
      }
      CommitTakesNext(Config(name, policy), State(), rows, cursor, projections);
      prefix := PrefixDigest(rows, target);
      error := ApplySourceEvents(cursor, Items(rows, cursor, projections), target, prefix, |rows|);
    }

    method Acknowledge(rows: seq<Row>, through: nat)
      requires through <= |rows|
      modifies `acks
      ensures acks == old(acks) + if through > 0 && !explicitPath then [AckedAt(rows, through)] else []
    {
      if through == 0 || explicitPath {
        return;
      }
      acks := acks + [AckedAt(rows, through)];
    }

    method ReconcileBranch(rows: seq<Row>, projections: seq<Option<Projection>>) returns (error: Option<SourceError>)
      requires Sound(State()) && ValidJournal(rows)
      modifies this
      ensures Sound(State()) && old(events) <= events && old(Taken(State())) <= Taken(State())
      ensures error == None ==> source.Some? && source.value.cursor <= |rows| && Taken(State()) == rows[..source.value.cursor]
      ensures !(old(Taken(State())) <= rows) ==> error.Some? && events == old(events)
      ensures acks == old(acks)
    {
      error := Bind(rows);
      if error.None? {
        error := TakeNext(rows, projections);
      }
    }

    // Acknowledges again what the source already committed, if the journal still agrees.
    method Reassert(rows: seq<Row>) returns (error: Option<SourceError>)
      requires Sound(State()) && ValidJournal(rows) && AcksCommitted(acks, State())
      modifies `acks
      ensures AcksCommitted(acks, State())
      ensures !(Taken(State()) <= rows) ==> error.Some? && acks == old(acks)
    {
      if Unbound(source) {
        return None;
      }
      PrefixCheckIsExact(source.value, rows);
      var cursor := source.value.cursor;
      var prefix := PrefixDigest(rows, cursor);
      if cursor > |rows| || (cursor > 0 && prefix != source.value.prefix) {
        return Some(Conflict);
      }
      assert PrefixHolds(source.value, rows);
      AckedIsTaken(rows, cursor, State());
      Acknowledge(rows, cursor);
      return None;
    }

    // An undisturbed captain reconcile that succeeds leaves the producer acknowledged up to
    // the cursor, by the id of the record there, unless the path is explicit.
    method ReconcileCaptain(rows: seq<Row>, projections: seq<Option<Projection>>) returns (error: Option<SourceError>)
      requires Sound(State()) && ValidJournal(rows) && AcksCommitted(acks, State())
      modifies this
      ensures Sound(State()) && old(events) <= events && old(Taken(State())) <= Taken(State())
      ensures AcksCommitted(acks, State())
      ensures error == None ==> source.Some? && source.value.cursor <= |rows| && Taken(State()) == rows[..source.value.cursor]
      ensures error == None && source.value.cursor > 0 && !explicitPath ==>
        acks != [] && acks[|acks| - 1] == AckedAt(rows, source.value.cursor)
      ensures !(old(Taken(State())) <= rows) ==> error.Some? && events == old(events) && acks == old(acks)
    {
      hide Sound;
      error := Reassert(rows);
      if error.None? {
        error := ReconcileBranch(rows, projections);
        if error.None? {
          AckedIsTaken(rows, source.value.cursor, State());
          Acknowledge(rows, source.value.cursor);
        }
      }
    }
  }

  lemma AckedIsTaken(rows: seq<Row>, through: nat, t: Tables)
    requires through <= |rows| && rows[..through] <= Taken(t)
    ensures 0 < through ==> through <= |Taken(t)| && AckedAt(rows, through).id == Taken(t)[through - 1].id
  {
    if through > 0 {
      assert rows[..through][through - 1] == rows[through - 1];
    }
  }
}
