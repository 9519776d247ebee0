/** One user's activity ledger: records revised in place, and an append-only log that numbers
    every change so that clients can replay it. Each function is one transaction. */
module Activity {
  import opened Basics

  const MAX_ACTIVITY_PAGE := 200
  const MAX_SNAPSHOT_ACTIVITY_RECORDS := 5_000

  datatype ActivityError = Invalid | AheadOfLedger | NotContiguous | Inconsistent | SnapshotConflict

  // ---------- Records ----------

  datatype Kind =
    | ObjectiveStarted | ObjectiveProgress | ObjectiveAccepted | WorkerStarted | ImplementationStarted
    | TestsStarted | TestsPassed | TestsFailed | ReviewStarted | DecisionRequested | DecisionResolved
    | ObjectiveCompleted | ObjectiveFailed | ObjectiveCancelled | SupervisionOutcome
    | PrimaryMessage | PrimaryFinal | WorkerMessage | WorkerFinal

  datatype Phase = Active | AwaitingUser | Completed | Failed | Cancelled | Resolved

  predicate Allows(kind: Kind, phase: Phase) {
    match kind
    case ObjectiveProgress => phase in {Active, AwaitingUser}
    case ObjectiveStarted | ObjectiveAccepted | WorkerStarted | ImplementationStarted | TestsStarted | ReviewStarted => phase == Active
    case DecisionRequested => phase == AwaitingUser
    case DecisionResolved => phase == Resolved
    case TestsFailed | ObjectiveFailed => phase == Failed
    case ObjectiveCancelled => phase == Cancelled
    case TestsPassed | ObjectiveCompleted | SupervisionOutcome => phase == Completed
    case PrimaryMessage | PrimaryFinal | WorkerMessage | WorkerFinal => phase == Completed
  }

  // A record id is a hash of the user, the source and the record key.
  datatype Key = Key(source: string, name: string)

  // The hash of a producer's payload, or of the resolution a dropped decision gets.
  datatype Digest = Supplied(text: string) | Closing(task: Option<string>, decisionKey: Option<string>, sha: string)

  // What decides whether a record changed.
  datatype Content = Content(
    kind: Kind,
    phase: Phase,
    attention: bool,
    title: string,
    summary: string,
    truncated: bool,
    task: Option<string>,
    decisionKey: Option<string>,
    objective: Option<string>,
    run: Option<string>,
    project: Option<string>,
    occurredAt: Option<int>,
    refs: string,
    sha: Digest,
    event: Option<string>)

  predicate Valid(c: Content) {
    var decision := c.kind in {DecisionRequested, DecisionResolved};
    var primary := c.kind in {PrimaryMessage, PrimaryFinal};
    && Allows(c.kind, c.phase)
    && c.objective.Some?
    && (decision ==> c.task.Some? && c.decisionKey.Some?)
    && (!decision ==> c.decisionKey.None?)
    && (primary <==> c.task.None?)
  }

  datatype Record = Record(key: Key, sequence: nat, revision: nat, content: Content, observedAt: int)

  datatype Change = Change(number: nat, key: Key, revision: nat)

  // Both tables, rows in insertion order.
  datatype Ledger = Ledger(rows: seq<Record>, changes: seq<Change>)

  // SQL's MAX, with nothing counting as zero.
  function Top(s: set<nat>): (n: nat)
    ensures s != {} ==> n in s
    ensures s == {} ==> n == 0
    ensures forall x <- s :: x <= n
  {
    if s == {} then 0 else
      HasTop(s);
      var n :| n in s && forall x <- s :: x <= n;
      n
  }

  lemma {:induction false} HasTop(s: set<nat>)
    requires s != {}
    ensures exists n <- s :: forall x <- s :: x <= n
    decreases s
  {
    var m :| m in s;
    if s != {m} {
      HasTop(s - {m});
      var n :| n in s - {m} && forall x <- s - {m} :: x <= n;
      var top := if m <= n then n else m;
      assert top in s;
      forall x <- s
        ensures x <= top
      {
        assert x == m || x in s - {m};
      }
    }
  }

  function Sequences(rows: seq<Record>): set<nat> {
    set r | r in rows :: r.sequence
  }

  function Numbers(changes: seq<Change>): set<nat> {
    set c | c in changes :: c.number
  }

  // The row a query on the record identity finds, or the number of rows.
  function Find(rows: seq<Record>, key: Key): (i: nat)
    ensures i <= |rows|
    ensures i < |rows| ==> rows[i].key == key
    ensures forall j | 0 <= j < i :: rows[j].key != key
  {
    if rows == [] then 0 else if rows[0].key == key then 0 else 1 + Find(rows[1..], key)
  }

  // ---------- Writing ----------

  function Noted(changes: seq<Change>, r: Record): seq<Change> {
    changes + [Change(Top(Numbers(changes)) + 1, r.key, r.revision)]
  }

  // The screened flag says whether every text of the content passes the store's screening.
  function Upsert(l: Ledger, key: Key, c: Content, screened: bool, observedAt: int): Result<(Ledger, Record), ActivityError> {
    if !Valid(c) || !screened then Err(Invalid)
    else
      var i := Find(l.rows, key);
      if i == |l.rows| then
        var r := Record(key, Top(Sequences(l.rows)) + 1, 1, c, observedAt);
        Ok((Ledger(l.rows + [r], Noted(l.changes, r)), r))
      else if l.rows[i].content == c then Ok((l, l.rows[i]))
      else
        var r := Record(key, l.rows[i].sequence, l.rows[i].revision + 1, c, observedAt);
        Ok((Ledger(l.rows[i := r], Noted(l.changes, r)), r))
  }

  // ---------- Complete snapshots ----------

  datatype Draft = Draft(name: string, content: Content, screened: bool)

  datatype Snapshot = Snapshot(
    source: string,
    observedAt: int,
    sha: string,
    drafts: seq<Draft>,
    open: set<(string, string)>)

  datatype Feed = Feed(ledger: Ledger, snapshots: map<string, (int, string)>)

  predicate DistinctNames(drafts: seq<Draft>) {
    forall i, j | 0 <= i < j < |drafts| :: drafts[i].name != drafts[j].name
  }

  function UpsertAll(l: Ledger, snap: Snapshot, drafts: seq<Draft>): Result<Ledger, ActivityError> {
    if drafts == [] then Ok(l)
    else
      match UpsertAll(l, snap, drafts[..|drafts| - 1])
      case Err(e) => Err(e)
      case Ok(mid) =>
        var d := drafts[|drafts| - 1];
        match Upsert(mid, Key(snap.source, d.name), d.content, d.screened, snap.observedAt)
        case Err(e) => Err(e)
        case Ok(done) => Ok(done.0)
  }

  // A decision that waits for the user but that the snapshot no longer lists.
  predicate Gone(r: Record, snap: Snapshot) {
    && r.key.source == snap.source && r.content.kind.DecisionRequested? && r.content.phase.AwaitingUser?
    && r.content.task.Some? && r.content.decisionKey.Some?
    && (r.content.task.value, r.content.decisionKey.value) !in snap.open
  }

  const CLOSED_SUMMARY := "Decision is no longer open in the authoritative Firstmate snapshot."

  function ClosedContent(c: Content, sha: string): Content {
    c.(kind := DecisionResolved, phase := Resolved, attention := false, summary := CLOSED_SUMMARY, truncated := false,
       occurredAt := None, sha := Closing(c.task, c.decisionKey, sha), event := None)
  }

  // Closes the rows that were gone when the query ran, in table order.
  function CloseGone(l: Ledger, snap: Snapshot, gone: seq<Record>): Result<Ledger, ActivityError> {
    if gone == [] then Ok(l)
    else
      match CloseGone(l, snap, gone[..|gone| - 1])
      case Err(e) => Err(e)
      case Ok(mid) =>
        var r := gone[|gone| - 1];
        match Upsert(mid, r.key, ClosedContent(r.content, snap.sha), true, snap.observedAt)
        case Err(e) => Err(e)
        case Ok(done) => Ok(done.0)
  }

  function GoneRows(rows: seq<Record>, snap: Snapshot): seq<Record> {
    if rows == [] then []
    else
      var last := rows[|rows| - 1];
      GoneRows(rows[..|rows| - 1], snap) + if Gone(last, snap) then [last] else []
  }

  function Reconcile(f: Feed, snap: Snapshot): Result<Feed, ActivityError> {
    if |snap.drafts| > MAX_SNAPSHOT_ACTIVITY_RECORDS || |snap.open| > MAX_SNAPSHOT_ACTIVITY_RECORDS
       || !DistinctNames(snap.drafts) then Err(Invalid)
    else if snap.source in f.snapshots && snap.observedAt < f.snapshots[snap.source].0 then Ok(f)
    else if snap.source in f.snapshots && snap.observedAt == f.snapshots[snap.source].0
         && snap.sha != f.snapshots[snap.source].1 then Err(SnapshotConflict)
    else
      match UpsertAll(f.ledger, snap, snap.drafts)
      case Err(e) => Err(e)
      case Ok(mid) =>
        match CloseGone(mid, snap, GoneRows(mid.rows, snap))
        case Err(e) => Err(e)
        case Ok(l) => Ok(Feed(l, f.snapshots[snap.source := (snap.observedAt, snap.sha)]))
  }

  // ---------- Reading ----------

  function Clamp(limit: int): (n: nat)
    ensures 1 <= n <= MAX_ACTIVITY_PAGE
    ensures 1 <= limit <= MAX_ACTIVITY_PAGE ==> n == limit
  {
    if limit < 1 then 1 else if limit > MAX_ACTIVITY_PAGE then MAX_ACTIVITY_PAGE else limit
  }

  // SQL's LIMIT.
  function Limited<T>(rows: seq<T>, limit: nat): seq<T> {
    if |rows| > limit then rows[..limit] else rows
  }

  // The newest rows below a sequence, newest first. The table is in sequence order.
  function Newest(rows: seq<Record>, before: nat, limit: nat): seq<Record> {
    if rows == [] || limit == 0 then []
    else
      var last := rows[|rows| - 1];
      if last.sequence < before then [last] + Newest(rows[..|rows| - 1], before, limit - 1)
      else Newest(rows[..|rows| - 1], before, limit)
  }

  function NumbersOf(changes: seq<Change>, key: Key): set<nat> {
    set c | c in changes && c.key == key :: c.number
  }

  // The number of the latest change of a record.
  function Delivery(changes: seq<Change>, key: Key): nat {
    Top(NumbersOf(changes, key))
  }

  datatype Page = Page(records: seq<Record>, cursor: nat, latest: nat, nextBefore: Option<nat>, more: bool)

  function Bound(rows: seq<Record>, before: Option<nat>): nat {
    if before.Some? then before.value else Top(Sequences(rows)) + 1
  }

  // A page of at most n rows, given one row more if there are more.
  function PageOf(l: Ledger, rows: seq<Record>, n: nat): Result<Page, ActivityError>
    requires n >= 1
  {
    var page := Limited(rows, n);
    if exists r <- page :: Delivery(l.changes, r.key) == 0 then Err(Inconsistent)
    else Ok(Page(page, Top(Numbers(l.changes)), Top(Sequences(l.rows)),
                 if |rows| > n then Some(page[|page| - 1].sequence) else None, |rows| > n))
  }

  function SnapshotPage(l: Ledger, before: Option<nat>, limit: int): Result<Page, ActivityError> {
    PageOf(l, Newest(l.rows, Bound(l.rows, before), Clamp(limit) + 1), Clamp(limit))
  }

  // Changes above a cursor; the log is in number order.
  function ChangesAfter(changes: seq<Change>, after: nat): seq<Change> {
    if changes == [] then []
    else
      var last := changes[|changes| - 1];
      ChangesAfter(changes[..|changes| - 1], after) + if last.number > after then [last] else []
  }

  predicate Contiguous(page: seq<Change>, after: nat) {
    forall i | 0 <= i < |page| :: page[i].number == after + i + 1
  }

  predicate Known(rows: seq<Record>, c: Change) {
    var i := Find(rows, c.key);
    i < |rows| && rows[i].revision >= c.revision
  }

  predicate AllKnown(rows: seq<Record>, page: seq<Change>) {
    forall i | 0 <= i < |page| :: Known(rows, page[i])
  }

  function CurrentRows(rows: seq<Record>, page: seq<Change>): (rs: seq<Record>)
    requires AllKnown(rows, page)
    ensures |rs| == |page|
    ensures forall i | 0 <= i < |page| :: rs[i] == rows[Find(rows, page[i].key)]
  {
    if page == [] then []
    else
      CurrentRows(rows, page[..|page| - 1]) + [rows[Find(rows, page[|page| - 1].key)]]
  }

  datatype Replay = Replay(records: seq<Record>, next: nat, latest: nat, more: bool)

  function ReplayAfter(l: Ledger, after: nat, limit: int): Result<Replay, ActivityError> {
    var n := Clamp(limit);
    var changes := ChangesAfter(l.changes, after);
    var latest := Top(Numbers(l.changes));
    var page := Limited(changes, n);
    if after > latest then Err(AheadOfLedger)
    else if !Contiguous(page, after) then Err(NotContiguous)
    else if !AllKnown(l.rows, page) then Err(Inconsistent)
    else Ok(Replay(CurrentRows(l.rows, page), if page == [] then after else page[|page| - 1].number, latest, |changes| > n))
  }
}
