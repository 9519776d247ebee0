/** The Pi ownership protocol: how one dispatch is sent to the native agent, bound to the user
    entry it produced, finalised with evidence and acknowledged. A handler is the sequence of
    effects it has on the durable journal, the session branch and the process; the process can
    die between any two of them. */
module Ownership {
  import opened Basics

  const MAX_RECORDS := 16
  const MAX_SOURCE_ENTRIES := 4096

  // A digest, taken to be free of collisions, stands for the text it was made from.
  datatype Digest = Digest(text: string)

  // Who a dispatch belongs to, as far as its markers say.
  datatype Subject = Subject(id: string, claims: string, prompt: Digest)

  // ---------- The session branch ----------

  datatype Stop = Stopped | Length | ErrorStop | Aborted | ToolUse | OtherStop

  // A native entry is named by its position: the branch only grows. User text that is not
  // plain text counts as empty, and an assistant without usable text shows nothing.
  datatype Body =
    | User(text: string)
    | Assistant(stop: Stop, visible: Option<string>, raw: string)
    | Other
    | Prepare(subject: Subject)
    | Bind(subject: Subject, prepare: nat, user: nat, hash: Digest, boundAt: int)
    | Finalize(subject: Subject, assistant: nat, shown: string, finalizedAt: int)

  // The positions from lo up to hi whose entry satisfies a test, in order.
  function Positions(branch: seq<Body>, lo: nat, hi: nat, test: Body -> bool): (found: seq<nat>)
    requires hi <= |branch|
    ensures forall i :: i in found <==> lo <= i < hi && test(branch[i])
    ensures forall k | 0 <= k < |found| :: lo <= found[k] < hi && test(branch[found[k]])
    ensures forall k, l | 0 <= k < l < |found| :: found[k] < found[l]
    decreases hi
  {
    if hi <= lo then []
    else Positions(branch, lo, hi - 1, test) + if test(branch[hi - 1]) then [hi - 1] else []
  }

  function Users(branch: seq<Body>, lo: nat, hi: nat): (found: seq<nat>)
    requires hi <= |branch|
    ensures forall i :: i in found <==> lo <= i < hi && branch[i].User?
    ensures forall k | 0 <= k < |found| :: lo <= found[k] < hi && branch[found[k]].User?
    ensures forall k, l | 0 <= k < l < |found| :: found[k] < found[l]
  {
    Positions(branch, lo, hi, (b: Body) => b.User?)
  }

  function Assistants(branch: seq<Body>, lo: nat, hi: nat): (found: seq<nat>)
    requires hi <= |branch|
    ensures forall i :: i in found <==> lo <= i < hi && branch[i].Assistant?
    ensures forall k | 0 <= k < |found| :: lo <= found[k] < hi && branch[found[k]].Assistant?
    ensures forall k, l | 0 <= k < l < |found| :: found[k] < found[l]
  {
    Positions(branch, lo, hi, (b: Body) => b.Assistant?)
  }

  predicate BindsFor(b: Body, subject: Subject) {
    b.Bind? && b.subject == subject
  }

  // ---------- Records ----------

  datatype Stage = Prepared | Dispatching | Bound | Finalized | Failed

  datatype Code =
    | AckMismatch | AmbiguousBind | AmbiguousFinalAssistant | AmbiguousFinalize | AmbiguousPrepare | AmbiguousUser
    | AssistantEnded(stop: Option<Stop>) | BindMismatch | CapabilityExpired | CrossedUserBoundary | IdentityConflict
    | IndeterminateBeforeBind | InvalidFinalAssistant | InvalidVisible | JournalFull | PrematureAck | PrepareMissing
    | ResponseTooLarge | SessionBusy | SettledAmbiguous | SourceOutOfRange | Unattributed | UnknownDispatch
    | VisibleMismatch

  datatype Role = PrepareRole | BindRole | FinalizeRole | UserRole | AssistantRole(stop: Stop) | Redacted

  datatype Item = Item(order: nat, role: Role)

  datatype Record = Record(
    subject: Subject,
    expiresAt: int,
    stage: Stage,
    prepare: Option<nat>,
    user: Option<nat>,
    bind: Option<nat>,
    assistant: Option<nat>,
    finalize: Option<nat>,
    boundAt: int,
    finalizedAt: int,
    sequence: Option<seq<Item>>,
    content: Option<string>,
    error: Option<Code>)

  predicate Terminal(r: Record) {
    r.stage in {Finalized, Failed}
  }

  function FailedWith(r: Record, code: Code): Record {
    r.(stage := Failed, error := Some(code))
  }

  function RoleOf(branch: seq<Body>, r: Record, i: nat): Role
    requires i < |branch|
  {
    if r.prepare == Some(i) then PrepareRole
    else if r.bind == Some(i) then BindRole
    else if r.finalize == Some(i) then FinalizeRole
    else if r.user == Some(i) then UserRole
    else if r.assistant == Some(i) && branch[i].Assistant? then AssistantRole(branch[i].stop)
    else Redacted
  }

  function Items(branch: seq<Body>, r: Record, lo: nat, hi: nat): seq<Item>
    requires hi <= |branch|
    decreases hi
  {
    if hi <= lo then [] else Items(branch, r, lo, hi - 1) + [Item(hi - 1, RoleOf(branch, r, hi - 1))]
  }

  // The part of the branch a piece of evidence covers, with everything foreign redacted.
  function Describe(branch: seq<Body>, r: Record, end: Option<nat>): Result<seq<Item>, Code> {
    if r.prepare.None? || end.None? || !(r.prepare.value <= end.value < |branch|)
       || end.value - r.prepare.value + 1 > MAX_SOURCE_ENTRIES then Err(SourceOutOfRange)
    else if r.assistant.Some? && r.prepare.value <= r.assistant.value <= end.value && !branch[r.assistant.value].Assistant?
    then Err(InvalidFinalAssistant)
    else Ok(Items(branch, r, r.prepare.value, end.value + 1))
  }

  // What a reply says, without its nonce.
  datatype Evidence =
    | PreparedEvidence(subject: Subject)
    | BoundEvidence(subject: Subject, prepare: Option<nat>, user: Option<nat>, bind: Option<nat>, boundAt: int, sequence: seq<Item>)
    | FinalEvidence(subject: Subject, prepare: Option<nat>, user: Option<nat>, bind: Option<nat>, assistant: Option<nat>,
                    finalize: Option<nat>, boundAt: int, finalizedAt: int, sequence: seq<Item>, content: string)
    | FailedEvidence(subject: Subject, error: Option<Code>)

  function VisibleAt(branch: seq<Body>, at: Option<nat>): Result<string, Code> {
    if at.None? || at.value >= |branch| || !branch[at.value].Assistant? then Err(InvalidFinalAssistant)
    else if branch[at.value].visible.None? then Err(InvalidVisible)
    else Ok(branch[at.value].visible.value)
  }

  function EvidenceOf(r: Record, branch: seq<Body>): Result<Evidence, Code> {
    match r.stage
    case Failed => Ok(FailedEvidence(r.subject, r.error))
    case Prepared | Dispatching => Ok(PreparedEvidence(r.subject))
    case Bound =>
      (match Describe(branch, r, r.bind)
       case Err(e) => Err(e)
       case Ok(items) => Ok(BoundEvidence(r.subject, r.prepare, r.user, r.bind, r.boundAt, items)))
    case Finalized =>
      var items := if r.sequence.Some? then Ok(r.sequence.value) else Describe(branch, r, r.finalize);
      var content := if r.content.Some? then Ok(r.content.value) else VisibleAt(branch, r.assistant);
      if items.Err? then Err(items.error)
      else if content.Err? then Err(content.error)
      else Ok(FinalEvidence(r.subject, r.prepare, r.user, r.bind, r.assistant, r.finalize, r.boundAt, r.finalizedAt,
                            items.value, content.value))
  }

  // ---------- State and effects ----------

  datatype Kind = DispatchKind | StatusKind | AckKind(accepted: Evidence)

  datatype Request = Request(kind: Kind, subject: Subject, expiresAt: int, prompt: Option<string>)

  // What happened, in order; a specification device.
  datatype Happened =
    | Created(id: string) | Sent(id: string) | InputSeen(id: string) | StartSeen(id: string) | Minted(id: string)
    | Removed(id: string) | Crashed

  // The process: what it is waiting for and what it has authorised since it started.
  datatype Process = Process(
    inFlight: Option<Request>,
    pending: Option<string>,
    inputs: set<string>,
    turns: set<string>,
    active: set<string>)

  const IDLE := Process(None, None, {}, {}, {})

  datatype State = State(branch: seq<Body>, journal: map<string, Record>, process: Process, log: seq<Happened>)

  datatype Effect =
    | Append(body: Body)
    | Save(record: Record)
    | Remove(id: string)
    | Send(request: Request)
    | AllowInput(id: string)
    | AllowTurn(id: string)
    | Activate(id: string)
    | Deactivate(id: string)
    | Disarm(id: string)
    | Release
    | Crash

  function Apply(s: State, e: Effect): State {
    match e
    case Append(body) =>
      s.(branch := s.branch + [body], log := s.log + if body.Bind? then [Minted(body.subject.id)] else [])
    case Save(r) =>
      s.(journal := s.journal[r.subject.id := r], log := s.log + if r.subject.id in s.journal then [] else [Created(r.subject.id)])
    case Remove(id) => s.(journal := s.journal - {id}, log := s.log + [Removed(id)])
    case Send(request) =>
      s.(process := s.process.(inFlight := Some(request), pending := Some(request.subject.id)), log := s.log + [Sent(request.subject.id)])
    case AllowInput(id) => s.(process := s.process.(inputs := s.process.inputs + {id}), log := s.log + [InputSeen(id)])
    case AllowTurn(id) => s.(process := s.process.(turns := s.process.turns + {id}), log := s.log + [StartSeen(id)])
    case Activate(id) => s.(process := s.process.(active := s.process.active + {id}))
    case Deactivate(id) => s.(process := s.process.(active := s.process.active - {id}))
    case Disarm(id) =>
      s.(process := s.process.(pending := if s.process.pending == Some(id) then None else s.process.pending,
                               inputs := s.process.inputs - {id}, turns := s.process.turns - {id}))
    case Release => s.(process := s.process.(inFlight := None))
    case Crash => s.(process := IDLE, log := s.log + [Crashed])
  }

  function ApplyAll(s: State, es: seq<Effect>): State
    decreases |es|
  {
    if es == [] then s else ApplyAll(Apply(s, es[0]), es[1..])
  }

  // Effects that write the branch or the journal only.
  predicate Writes(es: seq<Effect>) {
    forall e <- es :: e.Append? || e.Save?
  }

  // Effects that neither hand a prompt to the agent nor drop a record.
  predicate Tame(es: seq<Effect>) {
    forall e <- es :: !e.Send? && !e.Remove?
  }

  // ---------- Reconciling one record with the branch ----------

  // What one stretch of a handler sees of the world: the clock, whether the agent is idle with
  // nothing queued, whether getBranch returns the growing array itself or a copy, and whether
  // the evidence and the response fit their frames.
  datatype Env = Env(now: int, quiet: bool, live: bool, evidenceFits: bool, responseFits: bool)

  datatype Outcome = Outcome(effects: seq<Effect>, result: Result<Record, Code>)

  function Saved(effects: seq<Effect>, r: Record): Outcome {
    Outcome(effects + [Save(r)], Ok(r))
  }

  // Takes over the one final marker and its assistant, or says what is wrong with them.
  function Close(view: seq<Body>, actual: seq<Body>, r: Record, env: Env, marker: Body, at: nat, effects: seq<Effect>): (o: Outcome)
    requires marker.Finalize? && r.bind.Some?
    ensures Writes(effects) ==> Writes(o.effects)
    ensures o.result.Ok? ==> o.result.value.stage.Finalized?
    ensures o.result.Ok? ==> o.result.value.subject == r.subject
  {
    var a := marker.assistant;
    if a >= |view| || r.bind.value >= |view| || a <= r.bind.value || !view[a].Assistant? || !view[a].stop.Stopped?
    then Outcome(effects, Err(InvalidFinalAssistant))
    else if view[a].visible.None? then Outcome(effects, Err(InvalidVisible))
    else if view[a].visible.value != marker.shown then Outcome(effects, Err(VisibleMismatch))
    else
      var final := r.(assistant := Some(a), finalize := Some(at), finalizedAt := marker.finalizedAt);
      match Describe(actual, final, final.finalize)
      case Err(e) => Outcome(effects, Err(e))
      case Ok(items) =>
        if !env.evidenceFits then Outcome(effects, Err(ResponseTooLarge))
        else Saved(effects, final.(sequence := Some(items), content := view[a].visible, stage := Finalized))
  }

  function Later(now: int, boundAt: int): int {
    if now < boundAt then boundAt else now
  }

  // Marks the sole completed assistant as final.
  function Mark(view: seq<Body>, actual: seq<Body>, r: Record, env: Env, a: nat, effects: seq<Effect>): (o: Outcome)
    requires r.bind.Some? && a < |view| && view[a].Assistant?
    ensures Writes(effects) ==> Writes(o.effects)
    ensures o.result.Ok? ==> o.result.value.stage.Finalized?
    ensures o.result.Ok? ==> o.result.value.subject == r.subject
  {
    if view[a].visible.None? then Outcome(effects, Err(InvalidVisible))
    else
      var marker := Finalize(r.subject, a, view[a].visible.value, Later(env.now, r.boundAt));
      Close(view, actual + [marker], r, env, marker, |actual|, effects + [Append(marker)])
  }

  // The one completed assistant after a bind, which must be the last; none is no mistake.
  function FinalAssistant(view: seq<Body>, bind: nat): (found: Result<Option<nat>, Code>)
    ensures found.Ok? && found.value.Some? ==>
      bind < found.value.value < |view| && view[found.value.value].Assistant? && view[found.value.value].stop.Stopped?
  {
    if bind >= |view| || |Users(view, bind + 1, |view|)| > 0 then Err(CrossedUserBoundary)
    else
      var assistants := Assistants(view, bind + 1, |view|);
      var completed := Positions(view, bind + 1, |view|, (b: Body) => b.Assistant? && b.stop.Stopped?);
      if |completed| > 1 || (|completed| == 1 && (assistants == [] || assistants[|assistants| - 1] != completed[0]))
      then Err(AmbiguousFinalAssistant)
      else Ok(if |completed| == 0 then None else Some(completed[0]))
  }

  predicate FinalFor(b: Body, subject: Subject) {
    b.Finalize? && b.subject == subject
  }

  function FinalMarkers(view: seq<Body>, subject: Subject): (found: seq<nat>)
    ensures forall i :: i in found <==> 0 <= i < |view| && FinalFor(view[i], subject)
    ensures forall k | 0 <= k < |found| :: found[k] < |view| && FinalFor(view[found[k]], subject)
  {
    Positions(view, 0, |view|, (b: Body) => FinalFor(b, subject))
  }

  // The one final marker of a subject in the whole branch.
  function FinalMarker(view: seq<Body>, subject: Subject): (found: Result<Option<nat>, Code>)
    ensures found.Ok? && found.value.Some? ==> found.value.value < |view| && FinalFor(view[found.value.value], subject)
    ensures found.Ok? ==> forall i | 0 <= i < |view| && FinalFor(view[i], subject) :: found.value == Some(i)
    ensures found.Err? ==> exists i :: 0 <= i < |view| && FinalFor(view[i], subject)
  {
    var markers := FinalMarkers(view, subject);
    assert forall i | 0 <= i < |view| && FinalFor(view[i], subject) :: i in markers;
    if |markers| > 1 then Err(AmbiguousFinalize) else Ok(if |markers| == 0 then None else Some(markers[0]))
  }

  // Marks the final assistant if the agent has completed.
  function Seek(view: seq<Body>, actual: seq<Body>, r: Record, env: Env, effects: seq<Effect>): (o: Outcome)
    requires r.bind.Some?
    ensures Writes(effects) ==> Writes(o.effects)
    ensures o.result.Ok? ==> o.result.value.stage in {r.stage, Finalized}
    ensures o.result.Ok? ==> o.result.value.subject == r.subject
  {
    match FinalAssistant(view, r.bind.value)
    case Err(e) => Outcome(effects, Err(e))
    case Ok(None) => Saved(effects, r)
    case Ok(Some(a)) => Mark(view, actual, r, env, a, effects)
  }

  // What follows a bind. The view may miss what was just appended.
  function Finish(view: seq<Body>, actual: seq<Body>, r: Record, env: Env, effects: seq<Effect>): (o: Outcome)
    requires r.bind.Some?
    ensures Writes(effects) ==> Writes(o.effects)
    ensures o.result.Ok? ==> o.result.value.stage in {r.stage, Finalized}
    ensures o.result.Ok? ==> o.result.value.subject == r.subject
  {
    match FinalMarker(view, r.subject)
    case Err(e) => Outcome(effects, Err(e))
    case Ok(Some(at)) => Close(view, actual, r, env, view[at], at, effects)
    case Ok(None) =>
      if r.stage.Bound? then Seek(view, actual, r, env, effects) else Saved(effects, r)
  }

  predicate Names(b: Body, r: Record, p: nat) {
    BindsFor(b, r.subject) && b.prepare == p && b.hash == r.subject.prompt
  }

  function BindMarkers(branch: seq<Body>, r: Record, p: nat): (found: seq<nat>)
    requires p < |branch|
    ensures forall i :: i in found <==> p < i < |branch| && Names(branch[i], r, p)
    ensures forall k | 0 <= k < |found| :: p < found[k] < |branch| && Names(branch[found[k]], r, p)
    ensures forall k, l | 0 <= k < l < |found| :: found[k] < found[l]
  {
    Positions(branch, p + 1, |branch|, (b: Body) => Names(b, r, p))
  }

  // The one bind marker of a record after its prepare marker.
  function BindMarker(branch: seq<Body>, r: Record, p: nat): (found: Result<Option<nat>, Code>)
    requires p < |branch|
    ensures found.Ok? && found.value.Some? ==> p < found.value.value < |branch| && Names(branch[found.value.value], r, p)
    ensures found.Ok? ==> forall i | p < i < |branch| && Names(branch[i], r, p) :: found.value == Some(i)
    ensures found.Err? ==> exists i :: p < i < |branch| && Names(branch[i], r, p)
  {
    var markers := BindMarkers(branch, r, p);
    assert forall i | p < i < |branch| && Names(branch[i], r, p) :: i in markers;
    if |markers| > 1 then Err(AmbiguousBind) else Ok(if |markers| == 0 then None else Some(markers[0]))
  }

  // The only user entry between two positions, whose text must be the prompt; none is no
  // mistake here.
  function PromptEntry(branch: seq<Body>, lo: nat, hi: nat, prompt: Digest): (found: Result<Option<nat>, Code>)
    requires lo <= hi <= |branch|
    ensures found.Ok? && found.value.Some? ==>
      lo <= found.value.value < hi && branch[found.value.value].User? && Digest(branch[found.value.value].text) == prompt
    ensures found.Ok? ==> forall i | lo <= i < hi && branch[i].User? :: found.value == Some(i)
  {
    var users := Users(branch, lo, hi);
    assert forall i | lo <= i < hi && branch[i].User? :: i in users;
    if |users| == 0 then Ok(None)
    else if |users| != 1 || Digest(branch[users[0]].text) != prompt then Err(AmbiguousUser)
    else Ok(Some(users[0]))
  }

  // The record a persisted bind marker stands for.
  function Rebound(branch: seq<Body>, r: Record, at: nat): Result<Record, Code>
    requires r.prepare.Some? && r.prepare.value < at < |branch| && branch[at].Bind?
  {
    var marker := branch[at];
    match PromptEntry(branch, r.prepare.value + 1, at, r.subject.prompt)
    case Err(e) => Err(e)
    case Ok(None) => Err(AmbiguousUser)
    case Ok(Some(u)) =>
      if marker.user != u || marker.hash != r.subject.prompt then Err(BindMismatch)
      else if marker.boundAt == 0 || marker.boundAt > r.expiresAt then Err(CapabilityExpired)
      else Ok(r.(user := Some(u), bind := Some(at), boundAt := marker.boundAt,
                 stage := if r.stage.Finalized? then Finalized else Bound))
  }

  function Recover(branch: seq<Body>, r: Record, env: Env, at: nat): (o: Outcome)
    requires r.prepare.Some? && r.prepare.value < at < |branch| && branch[at].Bind?
    ensures Writes(o.effects)
    ensures o.result.Ok? ==> o.result.value.stage in {Bound, Finalized}
    ensures o.result.Ok? ==> o.result.value.subject == r.subject
  {
    match Rebound(branch, r, at)
    case Err(e) => Outcome([], Err(e))
    case Ok(bound) => Finish(branch, branch, bound, env, [])
  }

  function BindFor(r: Record, user: nat, now: int): Body
    requires r.prepare.Some?
  {
    Bind(r.subject, r.prepare.value, user, r.subject.prompt, now)
  }

  // An authorised turn start binds the record to the user entry it finds.
  function Mint(branch: seq<Body>, r: Record, env: Env): (o: Outcome)
    requires r.prepare.Some? && r.prepare.value < |branch|
    ensures Writes(o.effects)
    ensures o.result.Ok? && o.result.value.stage.Prepared? ==> r.stage.Prepared?
    ensures o.result.Ok? ==> o.result.value.subject == r.subject
  {
    match PromptEntry(branch, r.prepare.value + 1, |branch|, r.subject.prompt)
    case Err(e) => Outcome([], Err(e))
    case Ok(None) =>
      Saved([], if r.stage.Dispatching? && env.now > r.expiresAt && env.quiet then FailedWith(r, IndeterminateBeforeBind) else r)
    case Ok(Some(u)) =>
      if env.now > r.expiresAt then Outcome([], Err(CapabilityExpired))
      else
        var marker := BindFor(r, u, env.now);
        var bound := r.(user := Some(u), boundAt := env.now, bind := Some(|branch|), stage := Bound);
        Finish(if env.live then branch + [marker] else branch, branch + [marker], bound, env, [Append(marker)])
  }

  // A persisted bind marker decides; without one, only an authorised turn start may mint it.
  function Reconcile(branch: seq<Body>, r: Record, env: Env, mayBind: bool): (o: Outcome)
    ensures Writes(o.effects)
    ensures o.result.Ok? ==> o.result.value.subject == r.subject
    ensures o.result.Ok? && o.result.value.stage.Prepared? ==> r.stage.Prepared?
  {
    if r.prepare.None? || r.prepare.value >= |branch| || branch[r.prepare.value] != Prepare(r.subject)
    then Saved([], FailedWith(r, PrepareMissing))
    else
      match BindMarker(branch, r, r.prepare.value)
      case Err(e) => Outcome([], Err(e))
      case Ok(Some(at)) => Recover(branch, r, env, at)
      case Ok(None) =>
        if mayBind && r.stage in {Prepared, Dispatching} then Mint(branch, r, env)
        else if r.stage.Dispatching? && env.now > r.expiresAt && env.quiet then Saved([], FailedWith(r, IndeterminateBeforeBind))
        else if r.bind.Some? then Finish(branch, branch, r, env, [])
        else Saved([], r)
  }

  // ---------- Native events ----------

  function OnInput(s: State, text: string, fromExtension: bool, plain: bool): (es: seq<Effect>)
    ensures Tame(es)
  {
    match s.process.pending
    case None => []
    case Some(id) =>
      if id in s.journal && s.journal[id].stage.Dispatching? && fromExtension && plain && Digest(text) == s.journal[id].subject.prompt
      then [AllowInput(id)] else []
  }

  function OnBeforeAgentStart(s: State, text: string, plain: bool): (es: seq<Effect>)
    ensures Tame(es)
  {
    match s.process.pending
    case None => []
    case Some(id) =>
      if id in s.process.inputs && id in s.journal && s.journal[id].stage.Dispatching? && plain
         && Digest(text) == s.journal[id].subject.prompt
      then [AllowTurn(id)] else []
  }

  // What becomes of a dispatching record after the attempt to bind it.
  function AfterBinding(id: string, r: Record, o: Outcome): (es: seq<Effect>)
    ensures Writes(o.effects) ==> Tame(es)
  {
    match o.result
    case Err(_) => o.effects + [Deactivate(id), Save(FailedWith(r, AmbiguousUser)), Disarm(id)]
    case Ok(u) =>
      o.effects + (if u.stage.Bound? then [Activate(id)] else if u.stage.Failed? then [Deactivate(id)] else []) + [Disarm(id)]
  }

  // What a turn start does to one dispatching record.
  function TurnStarts(branch: seq<Body>, turns: set<string>, r: Record, env: Env): (es: seq<Effect>)
    ensures Tame(es)
  {
    var id := r.subject.id;
    if id !in turns then [Deactivate(id), Save(FailedWith(r, Unattributed)), Disarm(id)]
    else AfterBinding(id, r, Reconcile(branch, r, env, true))
  }

  function WithoutFinal(r: Record): Record {
    r.(assistant := None, finalize := None, finalizedAt := 0, sequence := None, content := None)
  }

  // What a finished turn does to one bound record, given the assistant message it ended with.
  function TurnEnds(branch: seq<Body>, r: Record, env: Env, last: Body): (es: seq<Effect>)
    ensures Tame(es)
  {
    var id := r.subject.id;
    if !last.Assistant? || !last.stop.Stopped? then []
    else
      var o := TurnEvidence(branch, r, env, last);
      match o.result
      case Ok(final) => o.effects + [Deactivate(id), Save(final)]
      case Err(e) =>
        o.effects + [Deactivate(id), Save(WithoutFinal(FailedWith(r, if e == ResponseTooLarge then e else AmbiguousFinalAssistant)))]
  }

  // The one entry of an ended turn after the bind; nothing of user or assistant may follow.
  function EndedAssistant(branch: seq<Body>, bind: Option<nat>, last: Body): (found: Result<nat, Code>)
    ensures found.Ok? ==> bind.Some? && bind.value < found.value < |branch| && branch[found.value] == last
  {
    if bind.None? || bind.value >= |branch| then Err(AmbiguousFinalAssistant)
    else
      var matches := Positions(branch, bind.value + 1, |branch|, (b: Body) => b == last);
      if |matches| != 1 then Err(AmbiguousFinalAssistant)
      else if |Users(branch, matches[0] + 1, |branch|)| > 0 then Err(CrossedUserBoundary)
      else if |Assistants(branch, matches[0] + 1, |branch|)| > 0 then Err(AmbiguousFinalAssistant)
      else Ok(matches[0])
  }

  // Marks the assistant of an ended turn as final and collects the evidence, saving nothing.
  function Seal(branch: seq<Body>, r: Record, env: Env, a: nat): (o: Outcome)
    requires a < |branch| && branch[a].Assistant?
    ensures Writes(o.effects)
  {
    if branch[a].visible.None? then Outcome([], Err(InvalidVisible))
    else
      var marker := Finalize(r.subject, a, branch[a].visible.value, Later(env.now, r.boundAt));
      var final := r.(assistant := Some(a), finalize := Some(|branch|), finalizedAt := marker.finalizedAt);
      match Describe(branch + [marker], final, final.finalize)
      case Err(e) => Outcome([Append(marker)], Err(e))
      case Ok(items) =>
        if !env.evidenceFits then Outcome([Append(marker)], Err(ResponseTooLarge))
        else Outcome([Append(marker)], Ok(final.(sequence := Some(items), content := branch[a].visible, stage := Finalized)))
  }

  function TurnEvidence(branch: seq<Body>, r: Record, env: Env, last: Body): (o: Outcome)
    requires last.Assistant?
    ensures Writes(o.effects)
  {
    match EndedAssistant(branch, r.bind, last)
    case Err(e) => Outcome([], Err(e))
    case Ok(a) => Seal(branch, r, env, a)
  }

  function Ending(branch: seq<Body>, r: Record): Code {
    var found := if r.bind.Some? && r.bind.value < |branch| then Assistants(branch, r.bind.value + 1, |branch|) else [];
    if found == [] then AssistantEnded(None) else AssistantEnded(Some(branch[found[|found| - 1]].stop))
  }

  // A record still bound after a settled agent is reconciled ends as failed.
  function Settled(branch: seq<Body>, r: Record, o: Outcome): (settled: (seq<Effect>, Record))
    requires o.result.Ok? ==> o.result.value.subject == r.subject
    ensures Writes(o.effects) ==> Tame(settled.0)
    ensures settled.1.subject == r.subject
  {
    var first := [Deactivate(r.subject.id)] + o.effects;
    match o.result
    case Err(e) =>
      var failed := FailedWith(r, if e == ResponseTooLarge then e else SettledAmbiguous);
      (first + [Save(failed)], failed)
    case Ok(u) =>
      if !u.stage.Bound? then (first, u)
      else
        var failed := FailedWith(u, Ending(branch + Appended(o.effects), u));
        (first + [Save(failed)], failed)
  }

  // What a settled agent does to one bound record, and the record it leaves.
  function Settles(branch: seq<Body>, r: Record, env: Env): (settled: (seq<Effect>, Record))
    ensures Tame(settled.0)
    ensures settled.1.subject == r.subject
  {
    Settled(branch, r, Reconcile(branch, r, env, false))
  }

  // The record in a stage that can be open only once.
  ghost function InStage(journal: map<string, Record>, stage: Stage): Option<Record> {
    if exists id <- journal :: journal[id].stage == stage then
      var id :| id in journal && journal[id].stage == stage;
      Some(journal[id])
    else None
  }

  // ---------- Requests ----------

  datatype Reply = Answer(evidence: Evidence) | Acknowledged(evidence: Evidence) | Refused(code: Code) | Waiting

  datatype Served = Served(effects: seq<Effect>, reply: Reply)

  predicate HasOpen(journal: map<string, Record>) {
    exists id <- journal :: !Terminal(journal[id])
  }

  // The reply for a record, which fails the record if an open one's does not fit a frame.
  function Respond(branch: seq<Body>, r: Record, env: Env): (served: Served)
    ensures Tame(served.effects) && !served.reply.Waiting?
  {
    match EvidenceOf(r, branch)
    case Err(e) => Served([], Refused(e))
    case Ok(evidence) =>
      if env.responseFits then Served([], Answer(evidence))
      else if Terminal(r) then Served([], Refused(ResponseTooLarge))
      else
        var failed := WithoutFinal(FailedWith(r, ResponseTooLarge));
        Served([Save(failed)], Answer(FailedEvidence(r.subject, failed.error)))
  }

  function Then(effects: seq<Effect>, served: Served): Served {
    Served(effects + served.effects, served.reply)
  }

  function Acknowledge(s: State, req: Request): Served
    requires req.kind.AckKind?
  {
    if req.subject.id !in s.journal then Served([], Refused(UnknownDispatch))
    else
      var r := s.journal[req.subject.id];
      if !Terminal(r) then Served([], Refused(PrematureAck))
      else if EvidenceOf(r, s.branch) != Ok(req.kind.accepted) then Served([], Refused(AckMismatch))
      else Served([Remove(req.subject.id)], Acknowledged(req.kind.accepted))
  }

  function NewRecord(req: Request): Record {
    Record(req.subject, req.expiresAt, Prepared, None, None, None, None, None, 0, 0, None, None, None)
  }

  // A request for an unknown dispatch: the record it starts, or why there is none. A marker
  // that an earlier process left is used again.
  function Create(s: State, req: Request, env: Env): (o: Outcome)
    ensures Writes(o.effects)
    ensures o.result.Ok? ==> o.result.value.subject == req.subject
  {
    if HasOpen(s.journal) then Outcome([], Err(SessionBusy))
    else if !req.kind.DispatchKind? || req.prompt.None? then Outcome([], Err(UnknownDispatch))
    else if env.now <= req.expiresAt && !env.quiet then Outcome([], Err(SessionBusy))
    else
      var (effects, r) := Started(s.branch, req, env);
      if |s.journal| >= MAX_RECORDS then Outcome(effects, Err(JournalFull)) else Saved(effects, r)
  }

  // The one prepare marker of a subject that an earlier process left.
  function LeftMarker(branch: seq<Body>, subject: Subject): (found: Result<Option<nat>, Code>)
    ensures found.Ok? && found.value.Some? ==> found.value.value < |branch| && branch[found.value.value] == Prepare(subject)
    ensures found == Ok(None) ==> forall b <- branch :: b != Prepare(subject)
  {
    var markers := Positions(branch, 0, |branch|, (b: Body) => b == Prepare(subject));
    assert forall i | 0 <= i < |branch| && branch[i] == Prepare(subject) :: i in markers;
    if |markers| > 1 then Err(AmbiguousPrepare) else Ok(if |markers| == 0 then None else Some(markers[0]))
  }

  function Started(branch: seq<Body>, req: Request, env: Env): (seq<Effect>, Record) {
    if env.now > req.expiresAt then ([], FailedWith(NewRecord(req), CapabilityExpired))
    else
      match LeftMarker(branch, req.subject)
      case Err(e) => ([], FailedWith(NewRecord(req), e))
      case Ok(Some(at)) => ([], NewRecord(req).(prepare := Some(at)))
      case Ok(None) => ([Append(Prepare(req.subject))], NewRecord(req).(prepare := Some(|branch|)))
  }

  function Appended(es: seq<Effect>): seq<Body> {
    if es == [] then [] else (if es[0].Append? then [es[0].body] else []) + Appended(es[1..])
  }

  // Ends by handing a request to the agent, right after saving that it does.
  predicate EndsSending(effects: seq<Effect>, req: Request, subject: Subject) {
    && |effects| >= 2 && effects[|effects| - 1] == Send(req)
    && effects[|effects| - 2].Save? && effects[|effects| - 2].record.stage.Dispatching? && effects[|effects| - 2].record.subject == subject
  }

  // A reconciled record: answer, or hand the prompt to the agent. The save before the send is
  // the at-most-once boundary.
  function Proceed(branch: seq<Body>, active: set<string>, u: Record, req: Request, env: Env): (served: Served)
    ensures forall e <- served.effects :: !e.Remove?
    ensures forall e <- served.effects :: e.Send? ==>
      e.request == req && u.stage.Prepared? && req.kind.DispatchKind? && env.now <= u.expiresAt && env.quiet && served.reply.Waiting?
    ensures served.reply.Waiting? ==> served.effects == [Save(u.(stage := Dispatching)), Send(req)]
  {
    if u.stage.Bound? && req.kind.StatusKind? && u.subject.id !in active && env.quiet then
      var (settled, r) := Settles(branch, u, env);
      Then(settled, Respond(branch + Appended(settled), r, env))
    else if u.stage.Prepared? && req.kind.DispatchKind? && req.prompt.Some? then
      if env.now > u.expiresAt then
        var failed := FailedWith(u, CapabilityExpired);
        Then([Save(failed)], Respond(branch, failed, env))
      else if !env.quiet then Served([], Refused(SessionBusy))
      else Served([Save(u.(stage := Dispatching)), Send(req)], Waiting)
    else Respond(branch, u, env)
  }

  // How a request goes on after reconciling its record.
  function Reconciled(branch: seq<Body>, active: set<string>, r: Record, o: Outcome, req: Request, env: Env): (served: Served)
    requires Writes(o.effects)
    requires o.result.Ok? ==> o.result.value.subject == r.subject && (o.result.value.stage.Prepared? ==> r.stage.Prepared?)
    ensures forall e <- served.effects :: !e.Remove?
    ensures forall e <- served.effects :: e.Send? ==> e.request == req && r.stage.Prepared?
    ensures forall e <- served.effects :: e.Send? ==> served.reply.Waiting?
    ensures served.reply.Waiting? ==> EndsSending(served.effects, req, r.subject)
  {
    match o.result
    case Err(e) =>
      var failed := FailedWith(r, if r.stage.Dispatching? then IndeterminateBeforeBind else e);
      Then(o.effects + [Save(failed), Deactivate(r.subject.id)], Respond(branch, failed, env))
    case Ok(u) =>
      var done := o.effects + if Terminal(u) then [Deactivate(r.subject.id)] else [];
      Then(done, Proceed(branch + Appended(o.effects), active, u, req, env))
  }

  // A known, open record: reconcile it, then go on.
  function Continue(branch: seq<Body>, active: set<string>, r: Record, req: Request, env: Env): (served: Served)
    ensures forall e <- served.effects :: !e.Remove?
    ensures forall e <- served.effects :: e.Send? ==> e.request == req && r.stage.Prepared?
    ensures forall e <- served.effects :: e.Send? ==> served.reply.Waiting?
    ensures served.reply.Waiting? ==> EndsSending(served.effects, req, r.subject)
  {
    Reconciled(branch, active, r, Reconcile(branch, r, env, false), req, env)
  }

  function Known(branch: seq<Body>, active: set<string>, r: Record, req: Request, env: Env): (served: Served)
    ensures forall e <- served.effects :: !e.Remove?
    ensures forall e <- served.effects :: e.Send? ==> e.request == req && r.stage.Prepared?
    ensures forall e <- served.effects :: e.Send? ==> served.reply.Waiting?
    ensures served.reply.Waiting? ==> EndsSending(served.effects, req, r.subject)
  {
    if r.stage.Failed? || (r.stage.Finalized? && r.sequence.Some? && r.content.Some?) then
      (match EvidenceOf(r, branch) case Ok(e) => Served([], Answer(e)) case Err(e) => Served([], Refused(e)))
    else Continue(branch, active, r, req, env)
  }

  // A request up to its reply or to the wait after its send.
  function Serve(s: State, req: Request, env: Env): (served: Served)
    ensures forall e <- served.effects :: e.Remove? ==> req.kind.AckKind? && e.id == req.subject.id
    ensures forall e <- served.effects :: e.Send? ==> e.request == req && (req.subject.id !in s.journal || s.journal[req.subject.id].stage.Prepared?)
    ensures forall e <- served.effects :: e.Send? ==> served.reply.Waiting?
    ensures served.reply.Waiting? ==> EndsSending(served.effects, req, req.subject)
  {
    var id := req.subject.id;
    if id in s.journal && (s.journal[id].subject != req.subject || s.journal[id].expiresAt != req.expiresAt)
    then Served([], Refused(IdentityConflict))
    else if req.kind.AckKind? then Acknowledge(s, req)
    else if id in s.journal then Known(s.branch, s.process.active, s.journal[id], req, env)
    else
      var created := Create(s, req, env);
      match created.result
      case Err(e) => Served(created.effects, Refused(e))
      case Ok(r) => Then(created.effects, Known(s.branch + Appended(created.effects), s.process.active, r, req, env))
  }

  // The first stretch of a request. A request that does not wait gives its authorisation back.
  function Dispatch(s: State, req: Request, env: Env): (served: Served)
    ensures forall e <- served.effects :: e.Remove? ==> req.kind.AckKind? && e.id == req.subject.id
    ensures forall e <- served.effects :: e.Send? ==> e.request == req && (req.subject.id !in s.journal || s.journal[req.subject.id].stage.Prepared?)
    ensures forall e <- served.effects :: e.Send? ==> served.reply.Waiting?
    ensures served.reply.Waiting? ==> EndsSending(served.effects, req, req.subject)
  {
    var served := Serve(s, req, env);
    if served.reply.Waiting? then served else Served(served.effects + [Disarm(req.subject.id)], served.reply)
  }

  // What a resumed request makes of its record, whatever the native events did to it.
  function Resumed(branch: seq<Body>, r: Record, env: Env): (served: Served)
    ensures Tame(served.effects)
  {
    var o := Reconcile(branch, r, env, false);
    match o.result
    case Err(e) => Served(o.effects, Refused(e))
    case Ok(u) => Then(o.effects, Respond(branch + Appended(o.effects), u, env))
  }

  // The second stretch of a request that sent. It gives its authorisation back first.
  function Resume(s: State, env: Env): (served: Served)
    ensures Tame(served.effects)
  {
    match s.process.inFlight
    case None => Served([], Waiting)
    case Some(req) =>
      var id := req.subject.id;
      if id !in s.journal then Served([Disarm(id), Release], Refused(UnknownDispatch))
      else
        var served := Resumed(s.branch, s.journal[id], env);
        Served([Disarm(id)] + served.effects + [Release], served.reply)
  }
}
