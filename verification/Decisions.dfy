/** One owner's captain decisions: complete snapshots open and close them, confirmed answers
    are claimed under a lease, run and finished. Each function is one transaction. */
module Decisions {
  import opened Basics

  const MAX_OPEN_DECISIONS := 100
  const CONFIRMATION_TTL_MS := 300_000
  const ANSWER_EXECUTION_LEASE_MS := 60_000

  datatype DecisionError =
    | AlreadyResolved | AnswerNotFound | AnswerPrecedesDecision | ConfirmationInvalid | ConfirmationRequired
    | DecisionNotFound | Duplicate | IdempotencyMismatch | NativeMessageNotFound | NativeMessageStale
    | RequestBindingConflict | RequestBindingRequired | RequestExpired | RequestScopeInvalid | SourceConflict
    | SourceInvalid | Stale | UnsupportedRisk

  // ---------- Rows ----------

  // A decision id is a hash of these, so they name the decision.
  datatype Id = Id(source: string, task: string, lifecycle: string)

  datatype Request = Request(run: string, requestId: string, scope: string, expiresAt: int)

  datatype Event = Event(
    source: string,
    eventId: string,
    task: string,
    lifecycle: string,
    text: string,
    request: Option<Request>,
    observedAt: int)

  // What an event says, apart from when it was observed. Stored as its hash.
  datatype Payload =
    | Required(source: string, eventId: string, task: string, lifecycle: string, text: string, request: Option<Request>)
    | Resolution(decision: Id, sha: string, observedAt: int)

  datatype Stage = Pending | Answering | Answered | Resolved

  datatype Decision = Decision(
    revision: nat,
    stage: Stage,
    payload: Payload,
    request: Option<Request>,
    observedAt: int,
    createdAt: int)

  datatype SourceRow = SourceRow(observedAt: int, sha: string)

  datatype Status = Open | Succeeded | Failed

  // Keyed by the native message: the idempotency key is a hash of it.
  datatype Answer = Answer(
    decision: Id,
    revision: nat,
    text: string,
    session: string,
    status: Status,
    error: Option<string>,
    claim: nat,
    leaseExpires: int)

  datatype Confirmation = Confirmation(
    session: string,
    decision: Id,
    revision: nat,
    message: string,
    text: string,
    expiresAt: int,
    usedAt: Option<int>)

  // Random tokens and claim ids never repeat: they are drawn from a counter.
  datatype State = State(
    sources: map<string, SourceRow>,
    decisions: map<Id, Decision>,
    events: map<(string, string), Payload>,
    resolutions: set<Payload>,
    answers: map<string, Answer>,
    confirmations: map<nat, Confirmation>,
    drawn: nat)

  const EMPTY := State(map[], map[], map[], {}, map[], map[], 0)

  // ---------- Complete snapshots ----------

  function IdOf(e: Event): Id {
    Id(e.source, e.task, e.lifecycle)
  }

  function PayloadOf(e: Event): Payload {
    Required(e.source, e.eventId, e.task, e.lifecycle, e.text, e.request)
  }

  // A snapshot's header, and the (task, request) pairs that current work authorizes.
  datatype Snapshot = Snapshot(
    source: string,
    observedAt: int,
    sha: string,
    events: seq<Event>,
    scopes: set<(string, Request)>,
    now: int)

  datatype Board = Board(decisions: map<Id, Decision>, events: map<(string, string), Payload>)

  // An event id may come back only with the same content.
  function Logged(events: map<(string, string), Payload>, e: Event): Result<map<(string, string), Payload>, DecisionError> {
    var key := (e.source, e.eventId);
    if key !in events then Ok(events[key := PayloadOf(e)])
    else if events[key] == PayloadOf(e) then Ok(events)
    else Err(SourceConflict)
  }

  // A request bound to a decision is replaced only by a new request, and not under an answer.
  predicate Rebinds(d: Decision, e: Event) {
    && d.request.Some? && e.request != d.request
    && (e.request.None? || e.request.value.requestId == d.request.value.requestId || d.stage in {Answering, Answered})
  }

  function Revised(d: Decision, e: Event): Decision {
    var bound := if d.stage in {Pending, Resolved} then d.(request := e.request) else d;
    if d.stage.Resolved? || (d.stage.Pending? && d.payload != PayloadOf(e))
    then bound.(revision := d.revision + 1, stage := Pending, payload := PayloadOf(e), observedAt := e.observedAt)
    else bound.(observedAt := e.observedAt)
  }

  function OpenOne(b: Board, snap: Snapshot, e: Event): Result<Board, DecisionError> {
    if e.source != snap.source || e.observedAt != snap.observedAt then Err(SourceInvalid)
    else if e.request.Some? && (e.task, e.request.value) !in snap.scopes then Err(RequestScopeInvalid)
    else
      match Logged(b.events, e)
      case Err(error) => Err(error)
      case Ok(events) =>
        var id := IdOf(e);
        if id !in b.decisions then
          Ok(Board(b.decisions[id := Decision(1, Pending, PayloadOf(e), e.request, e.observedAt, snap.now)], events))
        else if Rebinds(b.decisions[id], e) then Err(RequestBindingConflict)
        else Ok(Board(b.decisions[id := Revised(b.decisions[id], e)], events))
  }

  function OpenAll(b: Board, snap: Snapshot, events: seq<Event>): Result<Board, DecisionError> {
    if events == [] then Ok(b)
    else
      match OpenAll(b, snap, events[..|events| - 1])
      case Err(error) => Err(error)
      case Ok(mid) => OpenOne(mid, snap, events[|events| - 1])
  }

  function OpenIds(events: seq<Event>): set<Id> {
    set e | e in events :: IdOf(e)
  }

  // The source's decisions that are not resolved but that the snapshot no longer names.
  function Missing(decisions: map<Id, Decision>, source: string, open: set<Id>): set<Id> {
    set id | id in decisions && id.source == source && !decisions[id].stage.Resolved? && id !in open
  }

  function Closed(d: Decision, id: Id, snap: Snapshot): Decision {
    d.(revision := d.revision + 1, stage := Resolved, payload := Resolution(id, snap.sha, snap.observedAt), observedAt := snap.observedAt)
  }

  function CloseAll(decisions: map<Id, Decision>, snap: Snapshot, missing: set<Id>): map<Id, Decision> {
    map id | id in decisions :: if id in missing then Closed(decisions[id], id, snap) else decisions[id]
  }

  function Unanswered(decisions: map<Id, Decision>): set<Id> {
    set id | id in decisions && decisions[id].stage in {Pending, Answering}
  }

  function Applied(s: State, snap: Snapshot, b: Board): State {
    var missing := Missing(b.decisions, snap.source, OpenIds(snap.events));
    s.(sources := s.sources[snap.source := SourceRow(snap.observedAt, snap.sha)],
       decisions := CloseAll(b.decisions, snap, missing),
       events := b.events,
       resolutions := s.resolutions + set id | id in missing :: Resolution(id, snap.sha, snap.observedAt))
  }

  function ApplySnapshot(s: State, snap: Snapshot): Result<State, DecisionError> {
    if |snap.events| > MAX_OPEN_DECISIONS then Err(SourceInvalid)
    else if snap.source in s.sources && snap.observedAt < s.sources[snap.source].observedAt then
      if |Unanswered(s.decisions)| > MAX_OPEN_DECISIONS then Err(SourceInvalid) else Ok(s)
    else if snap.source in s.sources && snap.observedAt == s.sources[snap.source].observedAt
         && snap.sha != s.sources[snap.source].sha then Err(SourceConflict)
    else
      match OpenAll(Board(s.decisions, s.events), snap, snap.events)
      case Err(error) => Err(error)
      case Ok(b) =>
        if |Unanswered(Applied(s, snap, b).decisions)| > MAX_OPEN_DECISIONS then Err(SourceInvalid)
        else Ok(Applied(s, snap, b))
  }

  // ---------- Answers ----------

  // The canonical user message an answer is taken from, as the transaction finds it.
  datatype Message = Message(id: string, text: string, createdAt: int, newest: bool)

  // What one call to prepare or claim an answer sees. The flags say whether a request is
  // still in scope, whether the owner is in personal mode and whether the text is risky.
  datatype Call = Call(
    session: string,
    decision: Id,
    revision: nat,
    message: Option<Message>,
    now: int,
    inScope: bool,
    personal: bool,
    risky: bool)

  predicate Matching(a: Answer, c: Call)
    requires c.message.Some?
  {
    a.decision == c.decision && a.revision == c.revision && a.text == c.message.value.text
  }

  function CurrentRequest(d: Decision, c: Call): Result<Option<Request>, DecisionError> {
    if d.request.None? then if c.personal then Err(RequestBindingRequired) else Ok(None)
    else if d.request.value.expiresAt <= c.now then Err(RequestExpired)
    else if !c.inScope then Err(RequestScopeInvalid)
    else Ok(d.request)
  }

  datatype Prepared = Outcome(answer: Answer) | ConfirmWith(token: nat, expiresAt: int)

  // A confirmation lives for five minutes, but never longer than the request it is bound to.
  function Expiry(request: Option<Request>, now: int): (at: int)
    ensures at <= now + CONFIRMATION_TTL_MS && (request.Some? ==> at <= request.value.expiresAt)
    ensures at == now + CONFIRMATION_TTL_MS || (request.Some? && at == request.value.expiresAt)
  {
    var latest := now + CONFIRMATION_TTL_MS;
    if request.Some? && request.value.expiresAt < latest then request.value.expiresAt else latest
  }

  function Prepare(s: State, c: Call): Result<(State, Prepared), DecisionError> {
    if c.message.None? then Err(NativeMessageNotFound)
    else
      var m := c.message.value;
      if m.id in s.answers then
        if !Matching(s.answers[m.id], c) then Err(IdempotencyMismatch) else Ok((s, Outcome(s.answers[m.id])))
      else if !m.newest then Err(NativeMessageStale)
      else if c.decision !in s.decisions then Err(DecisionNotFound)
      else
        var d := s.decisions[c.decision];
        if d.revision != c.revision then Err(Stale)
        else
          match CurrentRequest(d, c)
          case Err(error) => Err(error)
          case Ok(request) =>
            if d.stage.Answering? then Err(Duplicate)
            else if !d.stage.Pending? then Err(AlreadyResolved)
            else if m.createdAt < d.createdAt then Err(AnswerPrecedesDecision)
            else if c.risky then Err(UnsupportedRisk)
            else
              var confirmation := Confirmation(c.session, c.decision, c.revision, m.id, m.text, Expiry(request, c.now), None);
              Ok((s.(confirmations := s.confirmations[s.drawn := confirmation], drawn := s.drawn + 1),
                  ConfirmWith(s.drawn, confirmation.expiresAt)))
  }

  predicate Active(a: Answer) {
    a.status in {Open, Succeeded}
  }

  // An answer that already holds this decision revision.
  predicate Competing(answers: map<string, Answer>, id: Id, revision: nat) {
    exists k <- answers :: answers[k].decision == id && answers[k].revision == revision && Active(answers[k])
  }

  predicate Confirms(k: Confirmation, c: Call)
    requires c.message.Some?
  {
    && k.session == c.session && k.decision == c.decision && k.revision == c.revision
    && k.message == c.message.value.id && k.text == c.message.value.text
    && k.expiresAt > c.now && k.usedAt.None?
  }

  datatype Claim = Claim(claimed: bool, resumed: bool, claim: nat, answer: Answer)

  // A message that already has an answer: take over its claim once the lease ran out.
  function Reclaim(s: State, c: Call): Result<(State, Claim), DecisionError>
    requires c.message.Some? && c.message.value.id in s.answers
  {
    var key := c.message.value.id;
    var a := s.answers[key];
    if !Matching(a, c) then Err(IdempotencyMismatch)
    else if a.status.Open? && a.leaseExpires <= c.now then
      if c.decision !in s.decisions || s.decisions[c.decision].revision != c.revision then Err(Stale)
      else
        match CurrentRequest(s.decisions[c.decision], c)
        case Err(error) => Err(error)
        case Ok(_) =>
          var renewed := a.(claim := s.drawn, leaseExpires := c.now + ANSWER_EXECUTION_LEASE_MS);
          Ok((s.(answers := s.answers[key := renewed], drawn := s.drawn + 1), Claim(true, true, s.drawn, renewed)))
    else if c.decision !in s.decisions then Err(DecisionNotFound)
    else Ok((s, Claim(false, false, a.claim, a)))
  }

  function FirstClaim(s: State, c: Call, token: Option<nat>): Result<(State, Claim), DecisionError>
    requires c.message.Some?
  {
    var m := c.message.value;
    if !m.newest then Err(NativeMessageStale)
    else if c.decision !in s.decisions then Err(DecisionNotFound)
    else
      var d := s.decisions[c.decision];
      if d.revision != c.revision then Err(Stale)
      else if d.stage.Answering? then Err(Duplicate)
      else if !d.stage.Pending? then Err(AlreadyResolved)
      else
        match CurrentRequest(d, c)
        case Err(error) => Err(error)
        case Ok(_) =>
          if token.None? then Err(ConfirmationRequired)
          else if token.value !in s.confirmations || !Confirms(s.confirmations[token.value], c) then Err(ConfirmationInvalid)
          else if Competing(s.answers, c.decision, c.revision) then Err(Duplicate)
          else
            var a := Answer(c.decision, c.revision, m.text, c.session, Open, None, s.drawn, c.now + ANSWER_EXECUTION_LEASE_MS);
            Ok((Claimed(s, c, token.value, a), Claim(true, false, s.drawn, a)))
  }

  function Claimed(s: State, c: Call, token: nat, a: Answer): State
    requires c.message.Some? && token in s.confirmations && c.decision in s.decisions
  {
    s.(answers := s.answers[c.message.value.id := a],
       confirmations := s.confirmations[token := s.confirmations[token].(usedAt := Some(c.now))],
       decisions := s.decisions[c.decision := s.decisions[c.decision].(stage := Answering)],
       drawn := s.drawn + 1)
  }

  function ClaimAnswer(s: State, c: Call, token: Option<nat>): Result<(State, Claim), DecisionError> {
    if c.message.None? then Err(NativeMessageNotFound)
    else if c.message.value.id in s.answers then Reclaim(s, c)
    else FirstClaim(s, c, token)
  }

  // What the command that releases the held work reported.
  datatype Report = Done | Outdated | Rejected(code: string)

  function Ended(d: Decision, report: Report): Decision {
    match report
    case Done => d.(stage := Answered)
    case Outdated => d.(stage := Resolved, revision := d.revision + 1)
    case Rejected(_) => d.(stage := Pending)
  }

  function Finished(a: Answer, report: Report): Answer {
    match report
    case Done => a.(status := Succeeded, error := None)
    case Outdated => a.(status := Failed, error := Some("stale"))
    case Rejected(code) => a.(status := Failed, error := Some(code))
  }

  function FinishAnswer(s: State, key: string, claim: nat, report: Report): Result<(State, Answer), DecisionError> {
    if key !in s.answers then Err(AnswerNotFound)
    else
      var a := s.answers[key];
      if !a.status.Open? || a.claim != claim then Ok((s, a))
      else
        var finished := Finished(a, report);
        var decisions :=
          if a.decision in s.decisions && s.decisions[a.decision].revision == a.revision && s.decisions[a.decision].stage.Answering?
          then s.decisions[a.decision := Ended(s.decisions[a.decision], report)]
          else s.decisions;
        Ok((s.(answers := s.answers[key := finished], decisions := decisions), finished))
  }

  // ---------- Runs ----------

  datatype Op =
    | SnapshotOp(snap: Snapshot)
    | PrepareOp(call: Call)
    | ClaimOp(call: Call, token: Option<nat>)
    | FinishOp(key: string, claim: nat, report: Report)

  // A refused operation rolls its transaction back.
  function Step(s: State, op: Op): State {
    match op
    case SnapshotOp(snap) => (match ApplySnapshot(s, snap) case Ok(s') => s' case Err(_) => s)
    case PrepareOp(c) => (match Prepare(s, c) case Ok(r) => r.0 case Err(_) => s)
    case ClaimOp(c, token) => (match ClaimAnswer(s, c, token) case Ok(r) => r.0 case Err(_) => s)
    case FinishOp(key, claim, report) => (match FinishAnswer(s, key, claim, report) case Ok(r) => r.0 case Err(_) => s)
  }

  function Run(s: State, ops: seq<Op>): State {
    if ops == [] then s else Step(Run(s, ops[..|ops| - 1]), ops[|ops| - 1])
  }
}
