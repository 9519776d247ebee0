/** How the fleet adapter turns a fleet snapshot into activity records and a set of open decisions. */
module FleetSnapshots {
  import opened Basics
  import opened Activity
  import opened ActivityProofs
  import opened ActivitySnapshots

  const MAX_TASK_DECISIONS := 100
  const MAX_SNAPSHOT_DECISIONS := 1_000
  const MAX_ACTIVITY_FOCUS_RECORDS := 5_000

  // An open keyed decision. The screened flags are the ledger's own screening of the record's texts.
  datatype Ask = Ask(key: string, summary: string, sha: string, screened: bool)

  // A task merged with its backlog record.
  datatype Task = Task(
    id: string,
    title: string,
    objective: string,
    run: Option<string>,
    project: Option<string>,
    asks: seq<Ask>,
    record: Option<string>,
    provenance: string,
    state: string,
    verb: Option<string>,
    occurredAt: Option<int>,
    refs: string,
    sha: string,
    screened: bool)

  datatype Refusal = Refused

  // ---------- One task ----------

  const SEMANTIC_PROVENANCE := {"firstmate", "structured", "status", "status-endpoint", "task", "journal"}

  function Lifecycle(t: Task): (phase: Option<Phase>)
    ensures phase != Some(Resolved)
  {
    if t.asks != [] then Some(AwaitingUser)
    else if t.record == Some("done") then Some(Completed)
    else if t.provenance in SEMANTIC_PROVENANCE && t.state in {"working", "running", "busy", "idle", "queued", "pending", "blocked"} then Some(Active)
    else if t.provenance in SEMANTIC_PROVENANCE && t.state in {"done", "complete", "completed"} then Some(Completed)
    else if t.provenance in SEMANTIC_PROVENANCE && t.state in {"failed", "error"} then Some(Failed)
    else if t.provenance in SEMANTIC_PROVENANCE && t.state in {"cancelled", "canceled"} then Some(Cancelled)
    else if t.record == Some("queued") || t.record == Some("in_flight") then Some(Active)
    else None
  }

  function LifecycleKind(phase: Phase): Kind {
    match phase
    case Active => ObjectiveStarted
    case AwaitingUser => ObjectiveProgress
    case Completed => ObjectiveCompleted
    case Failed => ObjectiveFailed
    case _ => ObjectiveCancelled
  }

  function Summary(phase: Phase, verb: Option<string>): string {
    match phase
    case Completed =>
      if verb == Some("merged") then "Objective was recorded as merged by Firstmate."
      else if verb == Some("reported") then "Objective report was recorded as complete by Firstmate."
      else "Objective was recorded as completed by Firstmate."
    case AwaitingUser => "Objective is waiting on an explicit keyed captain decision."
    case Failed => "Objective is recorded as failed by Firstmate."
    case Cancelled => "Objective is recorded as cancelled by Firstmate."
    case _ => "Objective is active in Firstmate."
  }

  // Stands for the digest of the task and the decision key.
  function DecisionName(task: string, key: string): string {
    "decision:" + task + ['\0'] + key
  }

  function DecisionDraft(t: Task, a: Ask): Draft {
    Draft(DecisionName(t.id, a.key),
          Content(DecisionRequested, AwaitingUser, true, t.title, a.summary, false, Some(t.id), Some(a.key), Some(t.objective),
                  t.run, t.project, None, "[]", Supplied(a.sha), None),
          a.screened)
  }

  function LifecycleDraft(t: Task, phase: Phase): Draft {
    Draft("objective:" + t.id,
          Content(LifecycleKind(phase), phase, phase == AwaitingUser, t.title, Summary(phase, t.verb), false, Some(t.id), None,
                  Some(t.objective), t.run, t.project, t.occurredAt, t.refs, Supplied(t.sha), None),
          t.screened)
  }

  function DecisionDrafts(t: Task, asks: seq<Ask>): (ds: seq<Draft>)
    ensures |ds| == |asks| && forall i | 0 <= i < |asks| :: ds[i] == DecisionDraft(t, asks[i])
  {
    seq(|asks|, i requires 0 <= i < |asks| => DecisionDraft(t, asks[i]))
  }

  function TaskDrafts(t: Task): seq<Draft> {
    DecisionDrafts(t, t.asks) + match Lifecycle(t) case Some(phase) => [LifecycleDraft(t, phase)] case None => []
  }

  // ---------- The whole snapshot ----------

  function Drafts(tasks: seq<Task>): seq<Draft> {
    if tasks == [] then [] else Drafts(tasks[..|tasks| - 1]) + TaskDrafts(tasks[|tasks| - 1])
  }

  function AsksOf(t: Task): set<(string, string)> {
    set a | a in t.asks :: (t.id, a.key)
  }

  function Open(tasks: seq<Task>): set<(string, string)> {
    if tasks == [] then {} else Open(tasks[..|tasks| - 1]) + AsksOf(tasks[|tasks| - 1])
  }

  function DecisionCount(tasks: seq<Task>): nat {
    if tasks == [] then 0 else DecisionCount(tasks[..|tasks| - 1]) + |tasks[|tasks| - 1].asks|
  }

  predicate Focused(d: Draft) {
    || (d.content.kind in {ObjectiveStarted, ObjectiveProgress} && d.content.phase in {Active, AwaitingUser})
    || (d.content.kind.DecisionRequested? && d.content.phase.AwaitingUser?)
  }

  function FocusCount(drafts: seq<Draft>): nat {
    if drafts == [] then 0 else FocusCount(drafts[..|drafts| - 1]) + if Focused(drafts[|drafts| - 1]) then 1 else 0
  }

  // Identities hold no control character.
  predicate Canonical(text: string) {
    text != "" && '\0' !in text
  }

  predicate WellFormed(t: Task) {
    && Canonical(t.id) && |t.asks| <= MAX_TASK_DECISIONS
    && (forall a <- t.asks :: Canonical(a.key))
    && (forall i, j | 0 <= i < j < |t.asks| :: t.asks[i].key != t.asks[j].key)
  }

  predicate DistinctIds(tasks: seq<Task>) {
    forall i, j | 0 <= i < j < |tasks| :: tasks[i].id != tasks[j].id
  }

  function Normalized(source: string, observedAt: int, sha: string, tasks: seq<Task>): Result<Snapshot, Refusal> {
    if !DistinctIds(tasks) || (exists t <- tasks :: !WellFormed(t)) || DecisionCount(tasks) > MAX_SNAPSHOT_DECISIONS
       || FocusCount(Drafts(tasks)) > MAX_ACTIVITY_FOCUS_RECORDS then Err(Refused)
    else Ok(Snapshot(source, observedAt, sha, Drafts(tasks), Open(tasks)))
  }

  // ---------- What every normalised snapshot is like ----------

  // A decision names its task and key, and its identity is open; any other record names its task.
  predicate Shaped(d: Draft, open: set<(string, string)>) {
    var c := d.content;
    && Valid(c) && c.task.Some? && Canonical(c.task.value)
    && if c.kind.DecisionRequested? then
         d.name == DecisionName(c.task.value, c.decisionKey.value) && (c.task.value, c.decisionKey.value) in open
       else d.name == "objective:" + c.task.value && c.decisionKey.None?
  }

  lemma DecisionIsShaped(t: Task, a: Ask, open: set<(string, string)>)
    requires Canonical(t.id) && (t.id, a.key) in open
    ensures Shaped(DecisionDraft(t, a), open)
  {
  }

  lemma LifecycleIsShaped(t: Task, phase: Phase, open: set<(string, string)>)
    requires Canonical(t.id) && phase != Resolved
    ensures Shaped(LifecycleDraft(t, phase), open)
  {
    hide Summary, Lifecycle;
  }

  lemma TaskDraftsAreShaped(t: Task, open: set<(string, string)>)
    requires WellFormed(t) && AsksOf(t) <= open
    ensures forall d <- TaskDrafts(t) :: Shaped(d, open) && d.content.task == Some(t.id)
  {
    hide Shaped, Lifecycle, Summary, LifecycleKind, DecisionName, Canonical;
    forall a <- t.asks
      ensures Shaped(DecisionDraft(t, a), open)
    {
      assert (t.id, a.key) in AsksOf(t);
      DecisionIsShaped(t, a, open);
    }
    if Lifecycle(t).Some? {
      LifecycleIsShaped(t, Lifecycle(t).value, open);
    }
  }

  lemma {:induction false} DraftsAreShaped(tasks: seq<Task>, open: set<(string, string)>)
    requires (forall t <- tasks :: WellFormed(t)) && Open(tasks) <= open
    ensures forall d <- Drafts(tasks) :: Shaped(d, open) && exists t <- tasks :: d.content.task == Some(t.id)
    decreases |tasks|
  {
    hide Shaped, WellFormed, TaskDrafts, AsksOf;
    if tasks != [] {
      var last := tasks[|tasks| - 1];
      assert last in tasks;
      DraftsAreShaped(tasks[..|tasks| - 1], open);
      TaskDraftsAreShaped(last, open);
    }
  }

  lemma {:induction false} OpenIsBounded(tasks: seq<Task>)
    ensures |Open(tasks)| <= DecisionCount(tasks)
    decreases |tasks|
  {
    if tasks != [] {
      OpenIsBounded(tasks[..|tasks| - 1]);
      var t := tasks[|tasks| - 1];
      AsksAreBounded(t, t.asks);
    }
  }

  lemma {:induction false} AsksAreBounded(t: Task, asks: seq<Ask>)
    ensures |set a | a in asks :: (t.id, a.key)| <= |asks|
    decreases |asks|
  {
    if asks != [] {
      var rest, last := asks[..|asks| - 1], asks[|asks| - 1];
      AsksAreBounded(t, rest);
      assert asks == rest + [last];
      assert (set a | a in asks :: (t.id, a.key)) == (set a | a in rest :: (t.id, a.key)) + {(t.id, last.key)};
    }
  }

  lemma MarkAt(a: string, b: string)
    requires '\0' !in a
    ensures var s := a + ['\0'] + b; s[|a|] == '\0' && forall i | 0 <= i < |s| && s[i] == '\0' :: |a| <= i
  {
  }

  lemma SplitIsUnique(a: string, b: string, c: string, d: string)
    requires '\0' !in a && '\0' !in c && a + ['\0'] + b == c + ['\0'] + d
    ensures a == c && b == d
  {
    var s, s' := a + ['\0'] + b, c + ['\0'] + d;
    MarkAt(a, b);
    MarkAt(c, d);
    assert s[..|a|] == a && s'[..|c|] == c && s[|a| + 1..] == b && s'[|c| + 1..] == d;
  }

  lemma NameStarts(d: Draft, open: set<(string, string)>)
    requires Shaped(d, open)
    ensures d.name != "" && d.name[0] == if d.content.kind.DecisionRequested? then 'd' else 'o'
  {
  }

  // Equal names are equal identities.
  lemma NamesTell(a: Draft, b: Draft, open: set<(string, string)>)
    requires Shaped(a, open) && Shaped(b, open) && a.name == b.name
    ensures a.content.task == b.content.task && a.content.decisionKey == b.content.decisionKey
  {
    var c, e := a.content, b.content;
    NameStarts(a, open);
    NameStarts(b, open);
    if c.kind.DecisionRequested? {
      assert a.name[9..] == c.task.value + ['\0'] + c.decisionKey.value;
      assert b.name[9..] == e.task.value + ['\0'] + e.decisionKey.value;
      SplitIsUnique(c.task.value, c.decisionKey.value, e.task.value, e.decisionKey.value);
    } else {
      assert a.name[10..] == c.task.value && b.name[10..] == e.task.value;
    }
  }

  lemma DecisionKeysDiffer(t: Task)
    requires WellFormed(t)
    ensures var ds := TaskDrafts(t); forall i, j | 0 <= i < j < |ds| :: ds[i].content.decisionKey != ds[j].content.decisionKey
  {
    hide Lifecycle, DecisionName, Summary, LifecycleKind;
  }

  lemma TaskNamesAreDistinct(t: Task)
    requires WellFormed(t)
    ensures DistinctNames(TaskDrafts(t))
  {
    hide Shaped, TaskDrafts, DecisionDrafts;
    var ds, open := TaskDrafts(t), AsksOf(t);
    TaskDraftsAreShaped(t, open);
    DecisionKeysDiffer(t);
    forall i, j | 0 <= i < j < |ds|
      ensures ds[i].name != ds[j].name
    {
      assert ds[i] in ds && ds[j] in ds;
      if ds[i].name == ds[j].name {
        NamesTell(ds[i], ds[j], open);
      }
    }
  }

  lemma {:induction false} NamesAreDistinct(tasks: seq<Task>)
    requires DistinctIds(tasks) && forall t <- tasks :: WellFormed(t)
    ensures DistinctNames(Drafts(tasks))
    decreases |tasks|
  {
    hide WellFormed, TaskDrafts, Shaped, AsksOf;
    if tasks != [] {
      var rest, last, open := tasks[..|tasks| - 1], tasks[|tasks| - 1], Open(tasks);
      assert last in tasks;
      NamesAreDistinct(rest);
      TaskNamesAreDistinct(last);
      DraftsAreShaped(rest, open);
      TaskDraftsAreShaped(last, open);
      var a, b := Drafts(rest), TaskDrafts(last);
      forall i, j | 0 <= i < |a| && 0 <= j < |b|
        ensures a[i].name != b[j].name
      {
        assert a[i] in a && b[j] in b;
        if a[i].name == b[j].name {
          NamesTell(a[i], b[j], open);
        }
      }
    }
  }

  lemma NormalizedIsShaped(source: string, observedAt: int, sha: string, tasks: seq<Task>)
    requires Normalized(source, observedAt, sha, tasks).Ok?
    ensures
      var snap := Normalized(source, observedAt, sha, tasks).value;
      && DistinctNames(snap.drafts) && |snap.open| <= MAX_SNAPSHOT_DECISIONS
      && forall d <- snap.drafts :: Shaped(d, snap.open)
  {
    hide Shaped, WellFormed;
    DraftsAreShaped(tasks, Open(tasks));
    NamesAreDistinct(tasks);
    OpenIsBounded(tasks);
  }

  // ---------- What the records say ----------

  // The record of an open decision: it waits for the user's attention under its own summary.
  predicate ShowsAsk(t: Task, a: Ask, d: Draft) {
    var c := d.content;
    && c.kind.DecisionRequested? && c.phase.AwaitingUser? && c.attention && c.title == t.title && c.summary == a.summary && !c.truncated
    && c.task == Some(t.id) && c.decisionKey == Some(a.key) && c.objective == Some(t.objective) && c.run == t.run && c.project == t.project
    && c.occurredAt.None? && c.refs == "[]" && c.sha == Supplied(a.sha) && c.event.None? && d.screened == a.screened
  }

  // The record of a task: attention only while it waits.
  predicate ShowsTask(t: Task, phase: Phase, d: Draft) {
    var c := d.content;
    && c.phase == phase && c.attention == (phase == AwaitingUser) && c.title == t.title && !c.truncated
    && c.task == Some(t.id) && c.decisionKey.None? && c.objective == Some(t.objective) && c.run == t.run && c.project == t.project
    && c.occurredAt == t.occurredAt && c.refs == t.refs && c.sha == Supplied(t.sha) && c.event.None? && d.screened == t.screened
    && (c.kind == ObjectiveStarted <==> phase == Active) && (c.kind == ObjectiveProgress <==> phase == AwaitingUser)
    && (c.kind == ObjectiveCompleted <==> phase == Completed) && (c.kind == ObjectiveFailed <==> phase == Failed)
    && (c.kind == ObjectiveCancelled <==> phase == Cancelled)
  }

  // The adapter trusts the runtime state only from a source that means it.
  predicate Says(t: Task, states: set<string>) {
    t.provenance in {"firstmate", "structured", "status", "status-endpoint", "task", "journal"} && t.state in states
  }

  // Which phase a task shows: waiting exactly while a decision is open; done by its backlog
  // record before anything else; and what nobody says is not shown.
  predicate Shows(t: Task, phase: Phase) {
    var done := t.record == Some("done");
    match phase
    case AwaitingUser => t.asks != []
    case Completed => t.asks == [] && (done || Says(t, {"done", "complete", "completed"}))
    case Failed => t.asks == [] && !done && Says(t, {"failed", "error"})
    case Cancelled => t.asks == [] && !done && Says(t, {"cancelled", "canceled"})
    case Active =>
      && t.asks == [] && !done
      && (Says(t, {"working", "running", "busy", "idle", "queued", "pending", "blocked"})
          || (t.record in {Some("queued"), Some("in_flight")}
              && !Says(t, {"done", "complete", "completed", "failed", "error", "cancelled", "canceled"})))
    case Resolved => false
  }

  lemma ShownPhase(t: Task, phase: Phase)
    ensures Lifecycle(t) == Some(phase) <==> Shows(t, phase)
  {
    StatesDiffer(t.state);
  }

  lemma StatesDiffer(state: string)
    ensures state in {"working", "running", "busy", "idle", "queued", "pending", "blocked"} ==>
      state !in {"done", "complete", "completed", "failed", "error", "cancelled", "canceled"}
    ensures state in {"done", "complete", "completed"} ==> state !in {"failed", "error", "cancelled", "canceled"}
    ensures state in {"failed", "error"} ==> state !in {"cancelled", "canceled"}
  {
    assert "working"[0] == 'w' && "running"[0] == 'r' && "busy"[0] == 'b' && "idle"[0] == 'i' && "queued"[0] == 'q' && "pending"[0] == 'p';
    assert "blocked"[0] == 'b' && "done"[0] == 'd' && "complete"[0] == 'c' && "completed"[0] == 'c' && "failed"[0] == 'f' && "error"[0] == 'e';
    assert "cancelled"[0] == 'c' && "canceled"[0] == 'c' && "complete"[1] == 'o' && "completed"[1] == 'o' && "cancelled"[1] == 'a' && "canceled"[1] == 'a';
  }

  // The records of one task: one for each open decision, in order, and then one for the task,
  // if it shows a phase.
  lemma TaskIsShown(t: Task)
    ensures
      var ds := TaskDrafts(t);
      && |t.asks| <= |ds| <= |t.asks| + 1 && (forall i | 0 <= i < |t.asks| :: ShowsAsk(t, t.asks[i], ds[i]))
      && (|ds| == |t.asks| + 1 <==> exists phase: Phase :: Shows(t, phase))
      && forall phase: Phase | Shows(t, phase) :: |ds| == |t.asks| + 1 && ShowsTask(t, phase, ds[|t.asks|])
  {
    hide Summary, Shows, Lifecycle, DecisionName;
    forall phase: Phase
      ensures Lifecycle(t) == Some(phase) <==> Shows(t, phase)
    {
      ShownPhase(t, phase);
    }
  }

  // A snapshot's records are those of its tasks, and its open decisions are theirs.
  lemma {:induction false} SnapshotHoldsItsTasks(tasks: seq<Task>)
    ensures forall d :: d in Drafts(tasks) <==> exists t <- tasks :: d in TaskDrafts(t)
    ensures forall id :: id in Open(tasks) <==> exists t <- tasks, a <- t.asks :: id == (t.id, a.key)
    decreases |tasks|
  {
    hide TaskDrafts;
    if tasks != [] {
      var rest, last := tasks[..|tasks| - 1], tasks[|tasks| - 1];
      SnapshotHoldsItsTasks(rest);
      assert tasks == rest + [last];
    }
  }

  // ---------- What the ledger does with it ----------

  lemma {:induction false} ValidDraftsAreTaken(l: Ledger, snap: Snapshot, drafts: seq<Draft>)
    requires forall d <- drafts :: Valid(d.content)
    ensures UpsertAll(l, snap, drafts).Ok? <==> forall d <- drafts :: d.screened
    decreases |drafts|
  {
    hide Valid;
    if drafts != [] {
      var last := |drafts| - 1;
      assert drafts == drafts[..last] + [drafts[last]];
      ValidDraftsAreTaken(l, snap, drafts[..last]);
    }
  }

  // The ledger takes a normalised snapshot exactly when it is not oversized and is either late,
  // and so ignored, or screened throughout and not a second reading of the same moment.
  lemma NormalizedIsTakenExactlyWhen(f: Feed, source: string, observedAt: int, sha: string, tasks: seq<Task>)
    requires Inv(f.ledger) && Normalized(source, observedAt, sha, tasks).Ok?
    ensures
      var snap := Normalized(source, observedAt, sha, tasks).value;
      Reconcile(f, snap).Ok? <==>
        && |snap.drafts| <= MAX_SNAPSHOT_ACTIVITY_RECORDS
        && (|| (source in f.snapshots && observedAt < f.snapshots[source].0)
            || ((forall d <- snap.drafts :: d.screened) && (source in f.snapshots ==> observedAt > f.snapshots[source].0 || sha == f.snapshots[source].1)))
  {
    hide Inv, Shaped, Drafts, Open, DistinctNames, DistinctIds, FocusCount, DecisionCount, CloseGone, Gone;
    var snap := Normalized(source, observedAt, sha, tasks).value;
    NormalizedIsShaped(source, observedAt, sha, tasks);
    forall d <- snap.drafts
      ensures Valid(d.content)
    {
      ShapedIsValid(d, snap.open);
    }
    ValidDraftsAreTaken(f.ledger, snap, snap.drafts);
    UpsertAllKeeps(f.ledger, snap, snap.drafts);
    var mid := UpsertAll(f.ledger, snap, snap.drafts);
    if mid.Ok? {
      ClosingIsExact(mid.value, snap, Key("", ""));
    }
  }

  lemma ShapedIsValid(d: Draft, open: set<(string, string)>)
    requires Shaped(d, open)
    ensures Valid(d.content)
  {
  }

  lemma ShapedIsNotGone(source: string, d: Draft, snap: Snapshot)
    requires Shaped(d, snap.open)
    ensures !GoneContent(source, d.content, snap)
  {
  }

  // Every record a normalised snapshot lists then shows as listed, no other decision of the
  // source waits, and applying the snapshot again changes nothing.
  lemma NormalizedSettlesAtOnce(f: Feed, source: string, observedAt: int, sha: string, tasks: seq<Task>)
    requires Inv(f.ledger) && Normalized(source, observedAt, sha, tasks).Ok?
    requires Accepted(f, Normalized(source, observedAt, sha, tasks).value)
    ensures
      var snap := Normalized(source, observedAt, sha, tasks).value;
      var f' := Reconcile(f, snap).value;
      && Reconcile(f', snap) == Ok(f')
      && (forall i | 0 <= i < |snap.drafts| :: ContentOf(f'.ledger.rows, Key(source, snap.drafts[i].name)) == Some(snap.drafts[i].content))
      && forall name: string :: ContentOf(f'.ledger.rows, Key(source, name)).Some? ==>
           var c := ContentOf(f'.ledger.rows, Key(source, name)).value;
           c.kind.DecisionRequested? && c.phase.AwaitingUser? && c.task.Some? && c.decisionKey.Some? ==>
             exists t <- tasks :: (c.task.value, c.decisionKey.value) in AsksOf(t)
  {
    hide Inv, Shaped, Reconcile, Drafts, DistinctNames, DistinctIds, FocusCount, DecisionCount, ContentOf, AsksOf, Open;
    var snap := Normalized(source, observedAt, sha, tasks).value;
    NormalizedIsShaped(source, observedAt, sha, tasks);
    forall d <- snap.drafts
      ensures !GoneContent(source, d.content, snap)
    {
      ShapedIsNotGone(source, d, snap);
    }
    AcceptedSnapshotShows(f, snap);
    ReapplyingIsSilent(f, snap);
    OpenAreAsked(tasks);
    forall name: string | ContentOf(Reconcile(f, snap).value.ledger.rows, Key(source, name)).Some?
      ensures !GoneContent(source, ContentOf(Reconcile(f, snap).value.ledger.rows, Key(source, name)).value, snap)
    {
      assert Key(source, name).source == source;
    }
  }

  lemma {:induction false} OpenAreAsked(tasks: seq<Task>)
    ensures forall id <- Open(tasks) :: exists t <- tasks :: id in AsksOf(t)
    decreases |tasks|
  {
    hide AsksOf;
    if tasks != [] {
      OpenAreAsked(tasks[..|tasks| - 1]);
      assert tasks[|tasks| - 1] in tasks;
    }
  }
}
