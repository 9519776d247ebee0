/** A client that pages through the current records while writers go on, then replays changes
    from its first page's cursor, ends with exactly the server's records. */
module ActivityClient {
  import opened Basics
  import opened Activity
  import opened ActivityProofs

  // Merging keeps the higher revision of each record.
  function Merged(view: map<Key, Record>, r: Record): map<Key, Record> {
    if r.key in view && view[r.key].revision >= r.revision then view else view[r.key := r]
  }

  function MergedAll(view: map<Key, Record>, rs: seq<Record>): map<Key, Record> {
    if rs == [] then view else Merged(MergedAll(view, rs[..|rs| - 1]), rs[|rs| - 1])
  }

  // Starting, paging below a bound with the first page's cursor at hand, replaying, or done.
  datatype Stage = Starting | Paging(before: nat, cursor: nat) | Replaying(after: nat) | CaughtUp

  datatype Client = Client(view: map<Key, Record>, stage: Stage)

  const FRESH := Client(map[], Starting)

  datatype Event =
    | ServerWrites(write: Write)
    | TakesPage(limit: int, focus: seq<Record>)  // plus whatever current rows the page focuses on
    | TakesReplay(limit: int)

  datatype World = World(feed: Feed, client: Client)

  function Paged(l: Ledger, c: Client, limit: int, focus: seq<Record>): Client {
    if !c.stage.Starting? && !c.stage.Paging? then c
    else
      match SnapshotPage(l, if c.stage.Paging? then Some(c.stage.before) else None, limit)
      case Err(_) => c
      case Ok(p) =>
        var cursor := if c.stage.Paging? then c.stage.cursor else p.cursor;
        Client(MergedAll(MergedAll(c.view, p.records), focus),
               if p.nextBefore.Some? then Paging(p.nextBefore.value, cursor) else Replaying(cursor))
  }

  function Replayed(l: Ledger, c: Client, limit: int): Client {
    if !c.stage.Replaying? then c
    else
      match ReplayAfter(l, c.stage.after, limit)
      case Err(_) => c
      case Ok(p) => Client(MergedAll(c.view, p.records), if p.more then Replaying(p.next) else CaughtUp)
  }

  function Next(w: World, e: Event): World {
    match e
    case ServerWrites(write) => w.(feed := Written(w.feed, write))
    case TakesPage(limit, focus) => w.(client := Paged(w.feed.ledger, w.client, limit, focus))
    case TakesReplay(limit) => w.(client := Replayed(w.feed.ledger, w.client, limit))
  }

  // ---------- What the client knows ----------

  ghost predicate HasRow(rows: seq<Record>, key: Key) {
    exists r <- rows :: r.key == key
  }

  // Everything in the view is, or was, a row of the server.
  ghost predicate Behind(rows: seq<Record>, view: map<Key, Record>) {
    && (forall k <- view :: HasRow(rows, k))
    && (forall i | 0 <= i < |rows| && rows[i].key in view ::
          view[rows[i].key] == rows[i] || view[rows[i].key].revision < rows[i].revision)
  }

  ghost predicate Shows(view: map<Key, Record>, r: Record) {
    r.key in view && view[r.key] == r
  }

  // Every row is shown, or its news is still ahead in the log, or it is still to be paged.
  ghost predicate Covered(l: Ledger, view: map<Key, Record>, cursor: nat, before: nat) {
    forall i | 0 <= i < |l.rows| ::
      Shows(view, l.rows[i]) || Announced(l.changes, cursor, l.rows[i].key) || l.rows[i].sequence < before
  }

  ghost predicate Informed(l: Ledger, c: Client) {
    && Behind(l.rows, c.view)
    && match c.stage
       case Starting => true
       case Paging(before, cursor) => cursor <= |l.changes| && Covered(l, c.view, cursor, before)
       case Replaying(after) => after <= |l.changes| && Covered(l, c.view, after, 0)
       case CaughtUp => true
  }

  // Merging current rows brings the view forward to them and loses nothing.
  lemma {:induction false} MergingShows(rows: seq<Record>, view: map<Key, Record>, rs: seq<Record>)
    requires DistinctKeys(rows) && Behind(rows, view) && forall r <- rs :: r in rows
    ensures Behind(rows, MergedAll(view, rs))
    ensures forall r <- rs :: Shows(MergedAll(view, rs), r)
    ensures forall r <- rows :: Shows(view, r) ==> Shows(MergedAll(view, rs), r)
    decreases |rs|
  {
    if rs != [] {
      var last := rs[|rs| - 1];
      MergingShows(rows, view, rs[..|rs| - 1]);
      MergingOneShows(rows, MergedAll(view, rs[..|rs| - 1]), last);
      assert rs == rs[..|rs| - 1] + [last];
    }
  }

  lemma MergingOneShows(rows: seq<Record>, view: map<Key, Record>, r: Record)
    requires DistinctKeys(rows) && Behind(rows, view) && r in rows
    ensures Behind(rows, Merged(view, r)) && Shows(Merged(view, r), r)
    ensures forall x <- rows :: Shows(view, x) ==> Shows(Merged(view, r), x)
  {
    var i :| 0 <= i < |rows| && rows[i] == r;
    forall j | 0 <= j < |rows| && rows[j].key == r.key
      ensures j == i
    {
    }
    assert HasRow(rows, r.key);
  }

  // Writes leave an informed client informed.
  lemma ExtendingKeepsRows(rows: seq<Record>, rows': seq<Record>, key: Key)
    requires |rows| <= |rows'| && (forall i | 0 <= i < |rows| :: rows'[i].key == rows[i].key) && DistinctKeys(rows')
    requires HasRow(rows, key)
    ensures HasRow(rows', key)
    ensures forall i | 0 <= i < |rows'| :: rows'[i].key == key ==> i < |rows|
  {
    var j :| 0 <= j < |rows| && rows[j].key == key;
    assert rows'[j].key == key && rows'[j] in rows';
  }

  lemma ExtendingKeepsBehind(l: Ledger, l': Ledger, view: map<Key, Record>)
    requires Inv(l') && Extends(l, l') && Behind(l.rows, view)
    ensures Behind(l'.rows, view)
  {
    forall k | k in view
      ensures HasRow(l'.rows, k) && forall i | 0 <= i < |l'.rows| :: l'.rows[i].key == k ==> i < |l.rows|
    {
      ExtendingKeepsRows(l.rows, l'.rows, k);
    }
  }

  lemma ExtendingKeepsCovered(l: Ledger, l': Ledger, view: map<Key, Record>, cursor: nat, before: nat)
    requires Extends(l, l') && cursor <= |l.changes| && Covered(l, view, cursor, before)
    ensures Covered(l', view, cursor, before)
  {
    forall key: Key | Announced(l.changes, cursor, key)
      ensures Announced(l'.changes, cursor, key)
    {
      var i :| cursor <= i < |l.changes| && l.changes[i].key == key;
      assert l'.changes[i] == l'.changes[..|l.changes|][i];
    }
    forall key: Key | Announced(l'.changes, |l.changes|, key)
      ensures Announced(l'.changes, cursor, key)
    {
    }
  }

  lemma WritingKeepsInformed(l: Ledger, l': Ledger, c: Client)
    requires Inv(l) && Inv(l') && Extends(l, l') && Informed(l, c)
    ensures Informed(l', c)
  {
    ExtendingKeepsBehind(l, l', c.view);
    match c.stage
    case Starting =>
    case Paging(before, cursor) => ExtendingKeepsCovered(l, l', c.view, cursor, before);
    case Replaying(after) => ExtendingKeepsCovered(l, l', c.view, after, 0);
    case CaughtUp =>
  }

  // A page shows all rows from its lower end up, so only the rows below stay to be paged.
  lemma PagingCovers(l: Ledger, view: map<Key, Record>, view': map<Key, Record>, m: nat, n: nat, records: seq<Record>, cursor: nat, before: nat)
    requires Inv(l) && m <= |l.rows| && NewestUnder(l.rows, m, n, records)
    requires before <= m + 1 && (before == m + 1 || m == |l.rows|)
    requires Covered(l, view, cursor, before) || (m == |l.rows|)
    requires forall r <- l.rows :: Shows(view, r) ==> Shows(view', r)
    requires forall r <- records :: Shows(view', r)
    ensures Covered(l, view', cursor, if n < m then m - n + 1 else 0)
  {
    forall i | 0 <= i < |l.rows|
      ensures Shows(view', l.rows[i]) || Announced(l.changes, cursor, l.rows[i].key) || l.rows[i].sequence < if n < m then m - n + 1 else 0
    {
      assert l.rows[i] in l.rows;
      if i < m && m - 1 - i < |records| {
        assert records[m - 1 - i] == l.rows[i];
        assert records[m - 1 - i] in records;
      }
    }
  }

  lemma PagesAreRows(rows: seq<Record>, m: nat, n: nat, records: seq<Record>)
    requires m <= |rows| && NewestUnder(rows, m, n, records)
    ensures forall r <- records :: r in rows
  {
  }

  lemma PageKeepsInformed(l: Ledger, c: Client, limit: int, focus: seq<Record>)
    requires Inv(l) && Informed(l, c) && forall r <- focus :: r in l.rows
    requires c.stage.Starting? || (c.stage.Paging? && 1 <= c.stage.before <= |l.rows|)
    ensures Informed(l, Paged(l, c, limit, focus))
    ensures var c' := Paged(l, c, limit, focus); c'.stage.Paging? ==> 1 <= c'.stage.before <= |l.rows|
  {
    var before := if c.stage.Paging? then Some(c.stage.before) else None;
    PagesAreServed(l, before, limit);
    TopOfDense(l.rows);
    var p, m, n := SnapshotPage(l, before, limit).value, Under(l.rows, Bound(l.rows, before)), Clamp(limit);
    PagesAreRows(l.rows, m, n, p.records);
    MergingShows(l.rows, c.view, p.records);
    MergingShows(l.rows, MergedAll(c.view, p.records), focus);
    var view' := MergedAll(MergedAll(c.view, p.records), focus);
    assert forall r <- p.records :: r in l.rows;
    PagingCovers(l, c.view, view', m, n, p.records, if c.stage.Paging? then c.stage.cursor else p.cursor, Bound(l.rows, before));
  }

  lemma CurrentRowsAreRows(rows: seq<Record>, page: seq<Change>)
    requires AllKnown(rows, page)
    ensures forall r <- CurrentRows(rows, page) :: r in rows
  {
    forall i | 0 <= i < |page|
      ensures CurrentRows(rows, page)[i] in rows
    {
      assert Known(rows, page[i]);
    }
  }

  lemma KeysDiffer(l: Ledger)
    requires Inv(l)
    ensures DistinctKeys(l.rows)
  {
  }

  // A replay shows every record whose news lies in it; the news of the others is still ahead.
  lemma ReplayShows(l: Ledger, view: map<Key, Record>, after: nat, n: nat, p: Replay)
    requires Inv(l) && after <= |l.changes| && ReplayHolds(l, after, n, p)
    requires Behind(l.rows, view) && Covered(l, view, after, 0)
    ensures Behind(l.rows, MergedAll(view, p.records)) && p.next <= |l.changes|
    ensures Covered(l, MergedAll(view, p.records), p.next, 0)
    ensures !p.more ==> forall r <- l.rows :: Shows(MergedAll(view, p.records), r)
  {
    hide Inv, Covered, MergedAll;
    var page := NextChanges(l.changes, after, n);
    KeysDiffer(l);
    CurrentRowsAreRows(l.rows, page);
    MergingShows(l.rows, view, p.records);
    ReplayCovers(l, view, MergedAll(view, p.records), after, page, p.records);
  }

  lemma ReplayKeepsInformed(l: Ledger, c: Client, limit: int)
    requires Inv(l) && Informed(l, c) && c.stage.Replaying?
    ensures Informed(l, Replayed(l, c, limit))
    ensures Replayed(l, c, limit).stage.CaughtUp? ==> forall r <- l.rows :: Shows(Replayed(l, c, limit).view, r)
  {
    ReplaysAreServed(l, c.stage.after, limit);
    ReplayShows(l, c.view, c.stage.after, Clamp(limit), ReplayAfter(l, c.stage.after, limit).value);
  }

  lemma ReplayCovers(l: Ledger, view: map<Key, Record>, view': map<Key, Record>, after: nat, page: seq<Change>, records: seq<Record>)
    requires Inv(l) && after + |page| <= |l.changes| && page == l.changes[after..after + |page|]
    requires AllKnown(l.rows, page) && records == CurrentRows(l.rows, page)
    requires Covered(l, view, after, 0)
    requires forall r <- l.rows :: Shows(view, r) ==> Shows(view', r)
    requires forall r <- records :: Shows(view', r)
    ensures Covered(l, view', after + |page|, 0)
    ensures after + |page| == |l.changes| ==> forall r <- l.rows :: Shows(view', r)
  {
    hide Told, Numbered, Dense, ValidRows, History, Upto;
    forall i | 0 <= i < |l.rows|
      ensures Shows(view', l.rows[i]) || Announced(l.changes, after + |page|, l.rows[i].key)
    {
      assert l.rows[i] in l.rows;
      if !Shows(view, l.rows[i]) {
        var j :| after <= j < |l.changes| && l.changes[j].key == l.rows[i].key;
        FindOnly(l.rows, i);
        if j < after + |page| {
          assert page[j - after] == l.changes[j];
          assert records[j - after] in records;
        }
      }
    }
  }

  // ---------- Runs ----------

  ghost predicate Sound(w: World) {
    && Inv(w.feed.ledger) && Informed(w.feed.ledger, w.client)
    && (w.client.stage.Paging? ==> 1 <= w.client.stage.before <= |w.feed.ledger.rows|)
  }

  // A page's focus rows are current rows.
  ghost predicate Honest(w: World, e: Event) {
    e.TakesPage? ==> forall r <- e.focus :: r in w.feed.ledger.rows
  }

  lemma NextKeepsSound(w: World, e: Event)
    requires Sound(w) && Honest(w, e)
    ensures Sound(Next(w, e))
  {
    match e
    case ServerWrites(write) =>
      WriteKeeps(w.feed, write);
      WritingKeepsInformed(w.feed.ledger, Written(w.feed, write).ledger, w.client);
    case TakesPage(limit, focus) =>
      if w.client.stage.Starting? || w.client.stage.Paging? {
        PageKeepsInformed(w.feed.ledger, w.client, limit, focus);
      }
    case TakesReplay(limit) =>
      if w.client.stage.Replaying? {
        ReplayKeepsInformed(w.feed.ledger, w.client, limit);
      }
  }

  function Played(w: World, events: seq<Event>): World {
    if events == [] then w else Next(Played(w, events[..|events| - 1]), events[|events| - 1])
  }

  ghost predicate AllHonest(w: World, events: seq<Event>) {
    forall i | 0 <= i < |events| :: Honest(Played(w, events[..i]), events[i])
  }

  lemma {:induction false} PlayedStaysSound(w: World, events: seq<Event>)
    requires Sound(w) && AllHonest(w, events)
    ensures Sound(Played(w, events))
    decreases |events|
  {
    if events != [] {
      var last := |events| - 1;
      forall i | 0 <= i < last
        ensures Honest(Played(w, events[..last][..i]), events[..last][i])
      {
        assert events[..last][..i] == events[..i];
      }
      PlayedStaysSound(w, events[..last]);
      NextKeepsSound(Played(w, events[..last]), events[last]);
    }
  }

  function Table(rows: seq<Record>): map<Key, Record> {
    map r | r in rows :: r.key := rows[Find(rows, r.key)]
  }

  // Whatever is written between a client's pages and replays: the replay that ends without
  // more leaves the client with exactly the server's records.
  lemma ClientEndsWithServerRecords(ws: seq<Write>, events: seq<Event>, limit: int)
    requires
      var w := World(WrittenAll(Feed(Ledger([], []), map[]), ws), FRESH);
      && AllHonest(w, events)
      && Played(w, events).client.stage.Replaying?
      && Next(Played(w, events), TakesReplay(limit)).client.stage.CaughtUp?
    ensures
      var w' := Next(Played(World(WrittenAll(Feed(Ledger([], []), map[]), ws), FRESH), events), TakesReplay(limit));
      w'.client.view == Table(w'.feed.ledger.rows)
  {
    LedgerStaysConsistent(ws);
    var w := World(WrittenAll(Feed(Ledger([], []), map[]), ws), FRESH);
    PlayedStaysSound(w, events);
    var mid := Played(w, events);
    ReplayKeepsInformed(mid.feed.ledger, mid.client, limit);
    ShownAllIsTable(mid.feed.ledger.rows, Replayed(mid.feed.ledger, mid.client, limit).view);
  }

  lemma ShownAllIsTable(rows: seq<Record>, view: map<Key, Record>)
    requires DistinctKeys(rows) && Behind(rows, view) && forall r <- rows :: Shows(view, r)
    ensures view == Table(rows)
  {
    forall i | 0 <= i < |rows|
      ensures rows[i].key in view && view[rows[i].key] == rows[Find(rows, rows[i].key)]
    {
      FindOnly(rows, i);
      assert rows[i] in rows;
    }
  }
}
