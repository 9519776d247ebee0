/** What every legal effect of the ownership protocol keeps, wherever the process dies. */
module OwnershipInvariant {
  import opened Basics
  import opened Ownership

  // ---------- The history of one dispatch ----------

  // How often a dispatch was sent since its record was last removed.
  function SentSince(log: seq<Happened>, id: string): nat {
    if log == [] then 0
    else
      var before := SentSince(log[..|log| - 1], id);
      match log[|log| - 1]
      case Sent(x) => if x == id then before + 1 else before
      case Removed(x) => if x == id then 0 else before
      case _ => before
  }

  // How far this process has followed a dispatch it sent: 1 sent, 2 its input seen, 3 its
  // turn about to start. A crash or a removal forgets it.
  function Progress(log: seq<Happened>, id: string): nat {
    if log == [] then 0
    else
      var before := Progress(log[..|log| - 1], id);
      match log[|log| - 1]
      case Crashed => 0
      case Removed(x) => if x == id then 0 else before
      case Sent(x) => if x == id then 1 else before
      case InputSeen(x) => if x == id && before == 1 then 2 else before
      case StartSeen(x) => if x == id && before == 2 then 3 else before
      case _ => before
  }

  // ---------- The branch ----------

  // A bind marker stands after its prepare marker and the one user entry between the two,
  // whose text is the prompt, and names both.
  ghost predicate BindPlaced(branch: seq<Body>, b: nat)
    requires b < |branch| && branch[b].Bind?
  {
    var m := branch[b];
    && m.prepare < m.user < b && branch[m.prepare] == Prepare(m.subject)
    && branch[m.user].User? && Digest(branch[m.user].text) == m.hash == m.subject.prompt
    && forall i | m.prepare < i < b && branch[i].User? :: i == m.user
  }

  ghost predicate FinalPlaced(branch: seq<Body>, f: nat)
    requires f < |branch| && branch[f].Finalize?
  {
    var a := branch[f].assistant;
    a < f && branch[a].Assistant? && branch[a].stop.Stopped? && branch[a].visible == Some(branch[f].shown)
  }

  // At most one prepare and one bind marker per subject, all markers where they belong.
  ghost predicate OnePrepare(branch: seq<Body>) {
    forall i, j | 0 <= i < j < |branch| && branch[i].Prepare? && branch[j].Prepare? :: branch[i].subject != branch[j].subject
  }

  ghost predicate OneBind(branch: seq<Body>) {
    forall i, j | 0 <= i < j < |branch| && branch[i].Bind? && branch[j].Bind? :: branch[i].subject != branch[j].subject
  }

  ghost predicate BindsPlaced(branch: seq<Body>) {
    forall b | 0 <= b < |branch| && branch[b].Bind? :: BindPlaced(branch, b)
  }

  ghost predicate FinalsPlaced(branch: seq<Body>) {
    forall f | 0 <= f < |branch| && branch[f].Finalize? :: FinalPlaced(branch, f)
  }

  ghost predicate BranchOk(branch: seq<Body>) {
    OnePrepare(branch) && OneBind(branch) && BindsPlaced(branch) && FinalsPlaced(branch)
  }

  // ---------- Records ----------

  ghost predicate BoundAt(branch: seq<Body>, r: Record) {
    && r.bind.Some? && r.prepare.Some? && r.bind.value < |branch| && branch[r.bind.value].Bind?
    && branch[r.bind.value].subject == r.subject
    && r.prepare == Some(branch[r.bind.value].prepare) && r.user == Some(branch[r.bind.value].user)
    && r.boundAt == branch[r.bind.value].boundAt <= r.expiresAt
  }

  ghost predicate FinalAt(branch: seq<Body>, r: Record) {
    && r.finalize.Some? && r.assistant.Some? && r.bind.Some? && r.prepare.Some?
    && r.bind.value < r.assistant.value < r.finalize.value < |branch|
    && r.prepare.value <= r.finalize.value && r.finalize.value - r.prepare.value + 1 <= MAX_SOURCE_ENTRIES
    && branch[r.assistant.value].Assistant? && branch[r.assistant.value].stop.Stopped?
    && branch[r.assistant.value].visible.Some? && r.content == branch[r.assistant.value].visible
    && branch[r.finalize.value] == Finalize(r.subject, r.assistant.value, r.content.value, r.finalizedAt)
    && r.sequence == Some(Items(branch, r, r.prepare.value, r.finalize.value + 1))
  }

  // A record's entries are in the branch, where its stage says.
  ghost predicate Placed(branch: seq<Body>, r: Record) {
    && (r.prepare.Some? ==> r.prepare.value < |branch| && branch[r.prepare.value] == Prepare(r.subject))
    && (!r.stage.Failed? ==> r.prepare.Some?)
    && (r.bind.Some? ==> BoundAt(branch, r))
    && (r.stage in {Bound, Finalized} ==> r.bind.Some?)
    && (r.stage in {Prepared, Dispatching} ==> r.bind.None?)
    && (r.stage.Finalized? ==> FinalAt(branch, r))
  }

  lemma {:induction false} ItemsGrow(branch: seq<Body>, branch': seq<Body>, r: Record, r': Record, lo: nat, hi: nat)
    requires hi <= |branch| && branch <= branch'
    requires r'.prepare == r.prepare && r'.bind == r.bind && r'.finalize == r.finalize && r'.user == r.user && r'.assistant == r.assistant
    ensures Items(branch', r', lo, hi) == Items(branch, r, lo, hi)
    decreases hi
  {
    if lo < hi {
      ItemsGrow(branch, branch', r, r', lo, hi - 1);
    }
  }

  lemma PlacedGrows(branch: seq<Body>, branch': seq<Body>, r: Record)
    requires Placed(branch, r) && branch <= branch'
    ensures Placed(branch', r)
  {
    if r.stage.Finalized? {
      ItemsGrow(branch, branch', r, r, r.prepare.value, r.finalize.value + 1);
    }
  }

  // ---------- The invariant ----------

  ghost predicate JournalOk(branch: seq<Body>, journal: map<string, Record>) {
    && (forall id <- journal :: journal[id].subject.id == id && Placed(branch, journal[id]))
    && (forall id, other | id in journal && other in journal && id != other :: Terminal(journal[id]) || Terminal(journal[other]))
    && |journal| <= MAX_RECORDS
  }

  // Only the request in flight may be pending or authorised.
  ghost predicate Armed(p: Process) {
    && (p.pending.Some? ==> p.inFlight.Some? && p.inFlight.value.subject.id == p.pending.value)
    && (forall id | id in p.inputs || id in p.turns :: p.inFlight.Some? && p.inFlight.value.subject.id == id)
  }

  ghost predicate ProcessOk(p: Process, journal: map<string, Record>, log: seq<Happened>) {
    && Armed(p)
    && (p.inFlight.Some? ==> p.inFlight.value.subject.id in journal)
    && (p.inFlight.Some? ==> forall id <- journal :: id != p.inFlight.value.subject.id ==> Terminal(journal[id]))
    && (p.pending.Some? ==> Progress(log, p.pending.value) >= 1)
    && (forall id <- p.inputs :: Progress(log, id) >= 2)
    && (forall id <- p.turns :: Progress(log, id) == 3)
  }

  // Sent at most once while its record lives, and not at all before the record says so.
  ghost predicate SendsOk(journal: map<string, Record>, log: seq<Happened>) {
    && (forall id: string :: SentSince(log, id) <= 1)
    && (forall id: string | id !in journal || journal[id].stage.Prepared? :: SentSince(log, id) == 0)
  }

  // Every bind marker was minted by the process that sent, saw the input and the turn start.
  ghost predicate MintsOk(log: seq<Happened>) {
    forall i | 0 <= i < |log| && log[i].Minted? :: Progress(log[..i], log[i].id) == 3
  }

  ghost predicate RemovedAfter(log: seq<Happened>, id: string, i: nat) {
    exists k :: i < k < |log| && log[k] == Removed(id)
  }

  // Between two sends of one dispatch its record was removed.
  ghost predicate SendsApart(log: seq<Happened>) {
    forall i, j | 0 <= i < j < |log| && log[i].Sent? && log[j] == log[i] :: RemovedAfter(log[..j], log[i].id, i)
  }

  ghost predicate Inv(s: State) {
    && BranchOk(s.branch) && JournalOk(s.branch, s.journal) && ProcessOk(s.process, s.journal, s.log)
    && SendsOk(s.journal, s.log) && MintsOk(s.log) && SendsApart(s.log)
  }

  const EMPTY := State([], map[], IDLE, [])

  // ---------- Legal effects ----------

  ghost predicate InFlight(s: State, id: string) {
    s.process.inFlight.Some? && s.process.inFlight.value.subject.id == id
  }

  // How a record may change: never back before the send, never out of finalized, and out of
  // failed only for the request still in flight.
  ghost predicate Rises(s: State, was: Record, r: Record) {
    && r.subject == was.subject && r.expiresAt == was.expiresAt
    && match was.stage
       case Prepared => true
       case Dispatching => !r.stage.Prepared?
       case Bound => r.stage in {Bound, Finalized, Failed}
       case Finalized => r == was
       case Failed => r == was || (InFlight(s, r.subject.id) && r.stage in {Bound, Finalized, Failed})
  }

  ghost predicate MaySave(s: State, r: Record) {
    && Placed(s.branch, r)
    && if r.subject.id in s.journal then Rises(s, s.journal[r.subject.id], r)
       else r.stage in {Prepared, Failed} && !HasOpen(s.journal) && |s.journal| < MAX_RECORDS && s.process.inFlight.None?
  }

  ghost predicate MayAppend(s: State, body: Body) {
    match body
    case User(_) => true
    case Assistant(_, _, _) => true
    case Other => true
    case Prepare(subject) => forall b <- s.branch :: b != Prepare(subject)
    case Bind(subject, _, _, _, _) =>
      && Progress(s.log, subject.id) == 3 && (forall b <- s.branch :: !BindsFor(b, subject))
      && BindPlaced(s.branch + [body], |s.branch|)
    case Finalize(_, _, _, _) => FinalPlaced(s.branch + [body], |s.branch|)
  }

  ghost predicate Legal(s: State, e: Effect) {
    match e
    case Append(body) => MayAppend(s, body)
    case Save(r) => MaySave(s, r)
    case Remove(id) => id in s.journal && Terminal(s.journal[id]) && s.process.inFlight.None?
    case Send(req) =>
      var id := req.subject.id;
      && id in s.journal && s.journal[id].stage.Dispatching? && s.process.inFlight.None? && SentSince(s.log, id) == 0
    case AllowInput(id) => s.process.pending == Some(id)
    case AllowTurn(id) => id in s.process.inputs
    case Release => s.process.pending.None? && s.process.inputs == {} && s.process.turns == {}
    case _ => true
  }

  // ---------- Legal effects keep the invariant ----------

  lemma LogGrows(log: seq<Happened>, h: Happened, id: string)
    ensures (log + [h])[..|log|] == log
    ensures SentSince(log + [h], id) == (match h
      case Sent(x) => if x == id then SentSince(log, id) + 1 else SentSince(log, id)
      case Removed(x) => if x == id then 0 else SentSince(log, id)
      case _ => SentSince(log, id))
    ensures h.Created? || h.Minted? ==> Progress(log + [h], id) == Progress(log, id)
  {
  }

  lemma {:induction false} UnsentWasRemoved(log: seq<Happened>, id: string, i: nat)
    requires SentSince(log, id) == 0 && i < |log| && log[i] == Sent(id)
    ensures RemovedAfter(log, id, i)
    decreases |log|
  {
    var last := |log| - 1;
    if log[last] != Removed(id) {
      UnsentWasRemoved(log[..last], id, i);
      var k :| i < k < last && log[..last][k] == Removed(id);
      assert log[k] == Removed(id);
    }
  }

  lemma SendsStayApart(log: seq<Happened>, h: Happened)
    requires SendsApart(log) && (h.Sent? ==> SentSince(log, h.id) == 0)
    ensures SendsApart(log + [h])
  {
    var more := log + [h];
    forall i, j | 0 <= i < j < |more| && more[i].Sent? && more[j] == more[i]
      ensures RemovedAfter(more[..j], more[i].id, i)
    {
      assert more[..j] == if j < |log| then log[..j] else log;
      if j == |log| {
        UnsentWasRemoved(log, h.id, i);
      }
    }
  }

  lemma HistoryGrows(log: seq<Happened>, h: Happened)
    requires MintsOk(log) && (h.Minted? ==> Progress(log, h.id) == 3)
    requires SendsApart(log) && (h.Sent? ==> SentSince(log, h.id) == 0)
    ensures MintsOk(log + [h]) && SendsApart(log + [h])
  {
    SendsStayApart(log, h);
    forall i | 0 <= i < |log + [h]| && (log + [h])[i].Minted?
      ensures Progress((log + [h])[..i], (log + [h])[i].id) == 3
    {
      assert (log + [h])[..i] == if i < |log| then log[..i] else log;
    }
  }

  lemma BindPlacedGrows(branch: seq<Body>, body: Body, b: nat)
    requires b < |branch| && branch[b].Bind? && BindPlaced(branch, b)
    ensures BindPlaced(branch + [body], b)
  {
    var more := branch + [body];
    assert forall i | 0 <= i < |branch| :: more[i] == branch[i];
  }

  lemma AppendKeepsOne(s: State, body: Body)
    requires OnePrepare(s.branch) && OneBind(s.branch) && MayAppend(s, body)
    ensures OnePrepare(s.branch + [body]) && OneBind(s.branch + [body])
  {
    forall i | 0 <= i < |s.branch|
      ensures body.Prepare? ==> s.branch[i] != body
      ensures body.Bind? ==> !BindsFor(s.branch[i], body.subject)
    {
      assert s.branch[i] in s.branch;
    }
  }

  lemma AppendKeepsBinds(s: State, body: Body)
    requires BindsPlaced(s.branch) && MayAppend(s, body)
    ensures BindsPlaced(s.branch + [body])
  {
    var branch := s.branch + [body];
    forall b | 0 <= b < |branch| && branch[b].Bind?
      ensures BindPlaced(branch, b)
    {
      if b < |s.branch| {
        BindPlacedGrows(s.branch, body, b);
      }
    }
  }

  lemma AppendKeepsFinals(s: State, body: Body)
    requires FinalsPlaced(s.branch) && MayAppend(s, body)
    ensures FinalsPlaced(s.branch + [body])
  {
    var branch := s.branch + [body];
    forall f | 0 <= f < |branch| && branch[f].Finalize?
      ensures FinalPlaced(branch, f)
    {
      if f < |s.branch| {
        assert FinalPlaced(s.branch, f);
      }
    }
  }

  // Notes that say nothing about sending.
  lemma QuietNote(process: Process, journal: map<string, Record>, log: seq<Happened>, h: Happened)
    requires ProcessOk(process, journal, log) && SendsOk(journal, log) && (h.Created? || h.Minted?)
    ensures ProcessOk(process, journal, log + [h]) && SendsOk(journal, log + [h])
  {
    forall id: string {
      LogGrows(log, h, id);
    }
  }

  lemma JournalGrows(branch: seq<Body>, branch': seq<Body>, journal: map<string, Record>)
    requires JournalOk(branch, journal) && branch <= branch'
    ensures JournalOk(branch', journal)
  {
    forall id <- journal {
      PlacedGrows(branch, branch', journal[id]);
    }
  }

  lemma AppendKeeps(s: State, body: Body)
    requires Inv(s) && MayAppend(s, body)
    ensures Inv(Apply(s, Append(body)))
  {
    AppendKeepsOne(s, body);
    AppendKeepsBinds(s, body);
    AppendKeepsFinals(s, body);
    JournalGrows(s.branch, s.branch + [body], s.journal);
    if body.Bind? {
      HistoryGrows(s.log, Minted(body.subject.id));
      QuietNote(s.process, s.journal, s.log, Minted(body.subject.id));
    } else {
      assert s.log + [] == s.log;
    }
  }

  lemma UpdateKeepsSize<K, V>(m: map<K, V>, k: K, v: V)
    requires k in m
    ensures |m[k := v]| == |m|
  {
    assert m[k := v].Keys == m.Keys;
    assert |m[k := v].Keys| == |m[k := v]| && |m.Keys| == |m|;
  }

  lemma SaveKeepsJournal(s: State, r: Record)
    requires Inv(s) && MaySave(s, r)
    ensures JournalOk(s.branch, s.journal[r.subject.id := r])
  {
    hide Placed, BranchOk, SendsOk, MintsOk, SendsApart;
    if r.subject.id in s.journal {
      UpdateKeepsSize(s.journal, r.subject.id, r);
    }
  }

  lemma SaveKeepsProcess(s: State, r: Record)
    requires Inv(s) && MaySave(s, r)
    ensures ProcessOk(s.process, s.journal[r.subject.id := r], s.log) && SendsOk(s.journal[r.subject.id := r], s.log)
  {
    hide BranchOk, MintsOk, SendsApart;
  }

  lemma SaveKeeps(s: State, r: Record)
    requires Inv(s) && MaySave(s, r)
    ensures Inv(Apply(s, Save(r)))
  {
    SaveKeepsJournal(s, r);
    SaveKeepsProcess(s, r);
    if r.subject.id !in s.journal {
      HistoryGrows(s.log, Created(r.subject.id));
      QuietNote(s.process, s.journal[r.subject.id := r], s.log, Created(r.subject.id));
    } else {
      assert s.log + [] == s.log;
    }
  }

  lemma RemoveKeeps(s: State, id: string)
    requires Inv(s) && Legal(s, Remove(id))
    ensures Inv(Apply(s, Remove(id)))
  {
    hide BranchOk, Placed;
    HistoryGrows(s.log, Removed(id));
    forall other: string {
      LogGrows(s.log, Removed(id), other);
    }
    assert (s.journal - {id}).Keys == s.journal.Keys - {id};
    assert |(s.journal - {id}).Keys| == |s.journal - {id}| && |s.journal.Keys| == |s.journal|;
  }

  lemma SendKeeps(s: State, req: Request)
    requires Inv(s) && Legal(s, Send(req))
    ensures Inv(Apply(s, Send(req)))
  {
    HistoryGrows(s.log, Sent(req.subject.id));
    forall id: string {
      LogGrows(s.log, Sent(req.subject.id), id);
    }
  }

  // A note about one dispatch, in the process that waits for it.
  lemma NoteKeeps(s: State, h: Happened, process: Process)
    requires Inv(s) && (h.InputSeen? || h.StartSeen?) && s.process.inFlight.Some? && s.process.inFlight.value.subject.id == h.id
    requires h.InputSeen? ==> Progress(s.log, h.id) >= 1 && process == s.process.(inputs := s.process.inputs + {h.id})
    requires h.StartSeen? ==> Progress(s.log, h.id) >= 2 && process == s.process.(turns := s.process.turns + {h.id})
    ensures Inv(s.(process := process, log := s.log + [h]))
  {
    HistoryGrows(s.log, h);
    forall id: string {
      LogGrows(s.log, h, id);
    }
    ProgressBounded(s.log, h.id);
    assert (s.log + [h])[..|s.log|] == s.log;
  }

  lemma {:induction false} ProgressBounded(log: seq<Happened>, id: string)
    ensures Progress(log, id) <= 3
    decreases |log|
  {
    if log != [] {
      ProgressBounded(log[..|log| - 1], id);
    }
  }

  lemma CrashKeeps(s: State)
    requires Inv(s)
    ensures Inv(Apply(s, Crash))
  {
    HistoryGrows(s.log, Crashed);
    forall id: string {
      LogGrows(s.log, Crashed, id);
    }
  }

  lemma LegalKeeps(s: State, e: Effect)
    requires Inv(s) && Legal(s, e)
    ensures Inv(Apply(s, e))
  {
    match e
    case Append(body) => AppendKeeps(s, body);
    case Save(r) => SaveKeeps(s, r);
    case Remove(id) => RemoveKeeps(s, id);
    case Send(req) => SendKeeps(s, req);
    case AllowInput(id) => NoteKeeps(s, InputSeen(id), Apply(s, e).process);
    case AllowTurn(id) => NoteKeeps(s, StartSeen(id), Apply(s, e).process);
    case Crash => CrashKeeps(s);
    case _ =>
  }

  // ---------- Sequences of effects ----------

  ghost predicate Lawful(s: State, es: seq<Effect>)
    decreases |es|
  {
    es == [] || (Legal(s, es[0]) && Lawful(Apply(s, es[0]), es[1..]))
  }

  lemma {:induction false} LawfulKeeps(s: State, es: seq<Effect>)
    requires Inv(s) && Lawful(s, es)
    ensures Inv(ApplyAll(s, es))
    decreases |es|
  {
    if es != [] {
      LegalKeeps(s, es[0]);
      LawfulKeeps(Apply(s, es[0]), es[1..]);
    }
  }

  lemma {:induction false} LawfulPrefix(s: State, es: seq<Effect>, n: nat)
    requires Lawful(s, es) && n <= |es|
    ensures Lawful(s, es[..n])
    decreases n
  {
    if n > 0 {
      LawfulPrefix(Apply(s, es[0]), es[1..], n - 1);
      assert es[..n][1..] == es[1..][..n - 1];
    }
  }

  lemma {:induction false} ApplyJoins(s: State, a: seq<Effect>, b: seq<Effect>)
    ensures ApplyAll(s, a + b) == ApplyAll(ApplyAll(s, a), b)
    decreases |a|
  {
    if a == [] {
      assert a + b == b;
    } else {
      assert (a + b)[1..] == a[1..] + b;
      ApplyJoins(Apply(s, a[0]), a[1..], b);
    }
  }

  lemma {:induction false} LawfulJoins(s: State, a: seq<Effect>, b: seq<Effect>)
    requires Lawful(s, a) && Lawful(ApplyAll(s, a), b)
    ensures Lawful(s, a + b) && ApplyAll(s, a + b) == ApplyAll(ApplyAll(s, a), b)
    decreases |a|
  {
    if a == [] {
      assert a + b == b;
    } else {
      assert (a + b)[1..] == a[1..] + b;
      LawfulJoins(Apply(s, a[0]), a[1..], b);
    }
  }
}
