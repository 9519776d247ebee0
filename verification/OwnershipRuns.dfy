/** The ownership protocol over every interleaving of requests, native events and crashes. */
module OwnershipRuns {
  import opened Basics
  import opened Ownership
  import opened OwnershipInvariant
  import opened OwnershipHandlers

  // ---------- Moves ----------

  datatype Step =
    | NativeEntry(body: Body)
    | NativeInput(text: string, fromExtension: bool, plain: bool)
    | NativeBeforeStart(text: string, plain: bool)
    | NativeTurnStart(env: Env)
    | NativeTurnEnd(env: Env, last: Body)
    | NativeSettled(env: Env)
    | Asks(request: Request, env: Env)
    | Continues(env: Env)

  // A step that runs to its end, or dies after some of its effects.
  datatype Move = Move(step: Step, dies: Option<nat>)

  // Requests queue behind the one in flight; only the extension writes markers.
  ghost function EffectsOf(s: State, step: Step): seq<Effect> {
    match step
    case NativeEntry(body) => if body.User? || body.Assistant? || body.Other? then [Append(body)] else []
    case NativeInput(text, fromExtension, plain) => OnInput(s, text, fromExtension, plain)
    case NativeBeforeStart(text, plain) => OnBeforeAgentStart(s, text, plain)
    case NativeTurnStart(env) =>
      (match InStage(s.journal, Dispatching) case None => [] case Some(r) => TurnStarts(s.branch, s.process.turns, r, env))
    case NativeTurnEnd(env, last) =>
      (match InStage(s.journal, Bound) case None => [] case Some(r) => TurnEnds(s.branch, r, env, last))
    case NativeSettled(env) =>
      (match InStage(s.journal, Bound) case None => [] case Some(r) => Settles(s.branch, r, env).0)
    case Asks(request, env) => if s.process.inFlight.None? then Dispatch(s, request, env).effects else []
    case Continues(env) => Resume(s, env).effects
  }

  function Cut(es: seq<Effect>, dies: Option<nat>): seq<Effect> {
    if dies.None? then es else es[..if dies.value <= |es| then dies.value else |es|] + [Crash]
  }

  ghost function Next(s: State, m: Move): State {
    ApplyAll(s, Cut(EffectsOf(s, m.step), m.dies))
  }

  ghost function Run(s: State, moves: seq<Move>): State {
    if moves == [] then s else Next(Run(s, moves[..|moves| - 1]), moves[|moves| - 1])
  }

  // ---------- The invariant over every run ----------

  lemma StepFine(s: State, step: Step)
    requires Inv(s)
    ensures Fine(s, EffectsOf(s, step))
  {
    hide OnInput, OnBeforeAgentStart, TurnStarts, TurnEnds, Settles, Dispatch, Resume, Fine, BranchOk, SendsOk, MintsOk, SendsApart;
    NoneFine(s);
    match step
    case NativeEntry(body) =>
      if body.User? || body.Assistant? || body.Other? {
        FineThen(s, [], Append(body));
        assert [] + [Append(body)] == [Append(body)];
      }
    case NativeInput(text, fromExtension, plain) => InputFine(s, text, fromExtension, plain);
    case NativeBeforeStart(text, plain) => BeforeStartFine(s, text, plain);
    case NativeTurnStart(env) =>
      if InStage(s.journal, Dispatching).Some? {
        TurnStartsFine(s, InStage(s.journal, Dispatching).value, env);
      }
    case NativeTurnEnd(env, last) =>
      if InStage(s.journal, Bound).Some? {
        TurnEndsFine(s, InStage(s.journal, Bound).value, env, last);
      }
    case NativeSettled(env) =>
      if InStage(s.journal, Bound).Some? {
        SettlesFine(s, InStage(s.journal, Bound).value, env);
      }
    case Asks(request, env) =>
      if s.process.inFlight.None? {
        DispatchFine(s, request, env);
      }
    case Continues(env) => ResumeFine(s, env);
  }

  lemma CutFine(s: State, es: seq<Effect>, dies: Option<nat>)
    requires Inv(s) && Fine(s, es)
    ensures Fine(s, Cut(es, dies))
  {
    if dies.Some? {
      var n := if dies.value <= |es| then dies.value else |es|;
      LawfulPrefix(s, es, n);
      LawfulKeeps(s, es[..n]);
      FineThen(s, es[..n], Crash);
    }
  }

  lemma MoveKeeps(s: State, m: Move)
    requires Inv(s)
    ensures Inv(Next(s, m)) && Lawful(s, Cut(EffectsOf(s, m.step), m.dies))
  {
    StepFine(s, m.step);
    CutFine(s, EffectsOf(s, m.step), m.dies);
  }

  // Requests, native events, restarts, and a crash between any two effects of any of them.
  lemma {:induction false} EveryRunKeeps(s: State, moves: seq<Move>)
    requires Inv(s)
    ensures Inv(Run(s, moves))
    decreases |moves|
  {
    if moves != [] {
      EveryRunKeeps(s, moves[..|moves| - 1]);
      MoveKeeps(Run(s, moves[..|moves| - 1]), moves[|moves| - 1]);
    }
  }

  // ---------- Sent at most once ----------

  // Two sends of one dispatch always have a removal of its record between them.
  lemma SentAtMostOncePerRecord(moves: seq<Move>, i: nat, j: nat)
    requires var log := Run(EMPTY, moves).log; i < j < |log| && log[i].Sent? && log[j] == log[i]
    ensures var log := Run(EMPTY, moves).log; exists k :: i < k < j && log[k] == Removed(log[i].id)
  {
    EveryRunKeeps(EMPTY, moves);
    var log := Run(EMPTY, moves).log;
    assert RemovedAfter(log[..j], log[i].id, i);
    var k :| i < k < j && log[..j][k] == Removed(log[i].id);
    assert log[k] == Removed(log[i].id);
  }

  // A record past its send: it never goes back before it.
  ghost predicate PastSend(s: State, id: string) {
    id in s.journal && !s.journal[id].stage.Prepared?
  }

  lemma StaysPast(s: State, e: Effect, id: string)
    requires Inv(s) && Legal(s, e) && PastSend(s, id) && (e.Remove? ==> e.id != id) && (e.Send? ==> e.request.subject.id != id)
    ensures PastSend(Apply(s, e), id) && SentSince(Apply(s, e).log, id) == SentSince(s.log, id)
  {
    match e
    case Append(body) =>
      if body.Bind? {
        LogGrows(s.log, Minted(body.subject.id), id);
      } else {
        assert s.log + [] == s.log;
      }
    case Save(r) =>
      LogGrows(s.log, Created(r.subject.id), id);
      assert s.log + [] == s.log;
    case Remove(other) => LogGrows(s.log, Removed(other), id);
    case Send(req) => LogGrows(s.log, Sent(req.subject.id), id);
    case AllowInput(other) => LogGrows(s.log, InputSeen(other), id);
    case AllowTurn(other) => LogGrows(s.log, StartSeen(other), id);
    case Crash => LogGrows(s.log, Crashed, id);
    case _ =>
  }

  lemma {:induction false} AllStayPast(s: State, es: seq<Effect>, id: string)
    requires Inv(s) && Lawful(s, es) && PastSend(s, id)
    requires forall e <- es :: (e.Remove? ==> e.id != id) && (e.Send? ==> e.request.subject.id != id)
    ensures PastSend(ApplyAll(s, es), id) && SentSince(ApplyAll(s, es).log, id) == SentSince(s.log, id)
    decreases |es|
  {
    if es != [] {
      StaysPast(s, es[0], id);
      LegalKeeps(s, es[0]);
      AllStayPast(Apply(s, es[0]), es[1..], id);
    }
  }

  // An acknowledgement of this dispatch.
  predicate Acks(m: Move, id: string) {
    m.step.Asks? && m.step.request.kind.AckKind? && m.step.request.subject.id == id
  }

  // What a move may do to a record past its send: anything but sending it, and removing it
  // only by an acknowledgement.
  lemma MovesAreTame(s: State, m: Move, id: string)
    requires PastSend(s, id) && !Acks(m, id)
    ensures forall e <- Cut(EffectsOf(s, m.step), m.dies) :: (e.Remove? ==> e.id != id) && (e.Send? ==> e.request.subject.id != id)
  {
    var es := EffectsOf(s, m.step);
    forall e <- es
      ensures (e.Remove? ==> e.id != id) && (e.Send? ==> e.request.subject.id != id)
    {
      StepIsTame(s, m.step, id);
    }
  }

  lemma StepIsTame(s: State, step: Step, id: string)
    requires PastSend(s, id) && !Acks(Move(step, None), id)
    ensures forall e <- EffectsOf(s, step) :: (e.Remove? ==> e.id != id) && (e.Send? ==> e.request.subject.id != id)
  {
  }

  // A record found beyond prepared, by whatever process, is never sent again, until an
  // acknowledgement removes it.
  lemma {:induction false} NeverSentAgain(s: State, moves: seq<Move>, id: string)
    requires Inv(s) && PastSend(s, id) && forall m <- moves :: !Acks(m, id)
    ensures PastSend(Run(s, moves), id) && SentSince(Run(s, moves).log, id) == SentSince(s.log, id)
    decreases |moves|
  {
    if moves != [] {
      var before, m := Run(s, moves[..|moves| - 1]), moves[|moves| - 1];
      NeverSentAgain(s, moves[..|moves| - 1], id);
      EveryRunKeeps(s, moves[..|moves| - 1]);
      MoveKeeps(before, m);
      MovesAreTame(before, m, id);
      AllStayPast(before, Cut(EffectsOf(before, m.step), m.dies), id);
    }
  }

  // ---------- Bound to the entry it produced ----------

  // Exactly one user entry lies between two positions.
  ghost predicate OnlyUserBetween(branch: seq<Body>, lo: nat, u: nat, hi: nat) {
    lo < u < hi <= |branch| && branch[u].User? && forall i | lo < i < hi && branch[i].User? :: i == u
  }

  // A bound or finalized record stands on prepare < user < bind, the user entry is the only
  // one between and is the prompt, and the markers are the only ones of their subject.
  lemma BoundRecordsArePlaced(moves: seq<Move>, id: string)
    requires var s := Run(EMPTY, moves); id in s.journal && s.journal[id].stage in {Bound, Finalized}
    ensures
      var branch, r := Run(EMPTY, moves).branch, Run(EMPTY, moves).journal[id];
      && r.prepare.Some? && r.user.Some? && r.bind.Some? && r.bind.value < |branch|
      && OnlyUserBetween(branch, r.prepare.value, r.user.value, r.bind.value)
      && Digest(branch[r.user.value].text) == r.subject.prompt
      && branch[r.prepare.value] == Prepare(r.subject) && (forall i | 0 <= i < |branch| :: branch[i] == Prepare(r.subject) ==> i == r.prepare.value)
      && BindsFor(branch[r.bind.value], r.subject) && (forall i | 0 <= i < |branch| :: BindsFor(branch[i], r.subject) ==> i == r.bind.value)
      && branch[r.bind.value].user == r.user.value && branch[r.bind.value].prepare == r.prepare.value
      && r.boundAt == branch[r.bind.value].boundAt <= r.expiresAt
  {
    EveryRunKeeps(EMPTY, moves);
    var s := Run(EMPTY, moves);
    assert BoundAt(s.branch, s.journal[id]);
    assert BindPlaced(s.branch, s.journal[id].bind.value);
  }

  lemma FinalizedRecordsArePlaced(moves: seq<Move>, id: string)
    requires var s := Run(EMPTY, moves); id in s.journal && s.journal[id].stage.Finalized?
    ensures
      var branch, r := Run(EMPTY, moves).branch, Run(EMPTY, moves).journal[id];
      && r.bind.Some? && r.assistant.Some? && r.finalize.Some? && r.content.Some?
      && r.bind.value < r.assistant.value < r.finalize.value < |branch|
      && branch[r.assistant.value].Assistant? && branch[r.assistant.value].stop.Stopped?
      && branch[r.assistant.value].visible == r.content
      && branch[r.finalize.value] == Finalize(r.subject, r.assistant.value, r.content.value, r.finalizedAt)
  {
    EveryRunKeeps(EMPTY, moves);
  }

  // Each subject has at most one prepare and one bind marker, whatever crashed in between.
  lemma MarkersAreUnique(moves: seq<Move>, i: nat, j: nat)
    requires var branch := Run(EMPTY, moves).branch; i < |branch| && j < |branch| && (branch[i].Prepare? || branch[i].Bind?)
    requires var branch := Run(EMPTY, moves).branch;
      if branch[i].Prepare? then branch[j].Prepare? && branch[j].subject == branch[i].subject
      else branch[j].Bind? && branch[j].subject == branch[i].subject
    ensures i == j
  {
    EveryRunKeeps(EMPTY, moves);
  }

  // No two records are open at once.
  lemma OneRecordOpen(moves: seq<Move>, id: string, other: string)
    requires var journal := Run(EMPTY, moves).journal;
      id in journal && other in journal && !Terminal(journal[id]) && !Terminal(journal[other])
    ensures id == other
  {
    EveryRunKeeps(EMPTY, moves);
  }

  // ---------- Minted by the process that sent ----------

  // From a position on, the process lived and the record stayed.
  ghost predicate Unbroken(log: seq<Happened>, id: string, from: nat) {
    forall k | from <= k < |log| :: log[k] != Crashed && log[k] != Removed(id)
  }

  // Sent at a, its input seen at b, its turn about to start at c, and nothing broke since.
  ghost predicate Followed(log: seq<Happened>, id: string, a: nat, b: nat, c: nat) {
    a < b < c < |log| && log[a] == Sent(id) && log[b] == InputSeen(id) && log[c] == StartSeen(id) && Unbroken(log, id, a)
  }

  ghost predicate InputFollowed(log: seq<Happened>, id: string, a: nat, b: nat) {
    a < b < |log| && log[a] == Sent(id) && log[b] == InputSeen(id) && Unbroken(log, id, a)
  }

  ghost predicate SendFollowed(log: seq<Happened>, id: string, a: nat) {
    a < |log| && log[a] == Sent(id) && Unbroken(log, id, a)
  }

  lemma UnbrokenGrows(log: seq<Happened>, id: string, from: nat)
    requires log != [] && Unbroken(log[..|log| - 1], id, from) && log[|log| - 1] != Crashed && log[|log| - 1] != Removed(id)
    ensures Unbroken(log, id, from)
  {
    forall k | from <= k < |log|
      ensures log[k] != Crashed && log[k] != Removed(id)
    {
      if k < |log| - 1 {
        assert log[k] == log[..|log| - 1][k];
      }
    }
  }

  lemma {:induction false} SentIsFollowed(log: seq<Happened>, id: string) returns (a: nat)
    requires Progress(log, id) >= 1
    ensures SendFollowed(log, id, a)
    decreases |log|
  {
    var last := |log| - 1;
    if log[last] == Sent(id) {
      a := last;
    } else {
      a := SentIsFollowed(log[..last], id);
      UnbrokenGrows(log, id, a);
    }
  }

  lemma {:induction false} InputIsFollowed(log: seq<Happened>, id: string) returns (a: nat, b: nat)
    requires Progress(log, id) >= 2
    ensures InputFollowed(log, id, a, b)
    decreases |log|
  {
    var last := |log| - 1;
    if log[last] == InputSeen(id) && Progress(log[..last], id) == 1 {
      a := SentIsFollowed(log[..last], id);
      b := last;
    } else {
      a, b := InputIsFollowed(log[..last], id);
    }
    UnbrokenGrows(log, id, a);
  }

  lemma {:induction false} ProgressIsFollowed(log: seq<Happened>, id: string) returns (a: nat, b: nat, c: nat)
    requires Progress(log, id) == 3
    ensures Followed(log, id, a, b, c)
    decreases |log|
  {
    var last := |log| - 1;
    if log[last] == StartSeen(id) && Progress(log[..last], id) == 2 {
      a, b := InputIsFollowed(log[..last], id);
      c := last;
    } else {
      a, b, c := ProgressIsFollowed(log[..last], id);
    }
    UnbrokenGrows(log, id, a);
  }

  // A bind marker is minted only by the process that sent the dispatch, saw its authorised
  // input and then its turn start, with no crash and no removal since.
  lemma MintedOnlyBySender(moves: seq<Move>, i: nat)
    requires i < |Run(EMPTY, moves).log| && Run(EMPTY, moves).log[i].Minted?
    ensures var log := Run(EMPTY, moves).log; exists a: nat, b: nat, c: nat :: Followed(log[..i], log[i].id, a, b, c)
  {
    EveryRunKeeps(EMPTY, moves);
    var log := Run(EMPTY, moves).log;
    var a, b, c := ProgressIsFollowed(log[..i], log[i].id);
  }

  // ---------- Terminal records and acknowledgements ----------

  lemma TerminalEvidenceIgnoresBranch(branch: seq<Body>, other: seq<Body>, r: Record)
    requires Placed(branch, r) && Terminal(r)
    ensures EvidenceOf(r, branch).Ok? && EvidenceOf(r, other) == EvidenceOf(r, branch)
  {
  }

  // A terminal record whose request is over.
  ghost predicate Over(s: State, id: string) {
    id in s.journal && Terminal(s.journal[id]) && !InFlight(s, id)
  }

  lemma StaysOver(s: State, e: Effect, id: string)
    requires Inv(s) && Legal(s, e) && Over(s, id) && (e.Remove? ==> e.id != id)
    ensures Over(Apply(s, e), id) && Apply(s, e).journal[id] == s.journal[id]
  {
  }

  lemma {:induction false} AllStayOver(s: State, es: seq<Effect>, id: string)
    requires Inv(s) && Lawful(s, es) && Over(s, id) && forall e <- es :: e.Remove? ==> e.id != id
    ensures Over(ApplyAll(s, es), id) && ApplyAll(s, es).journal[id] == s.journal[id]
    decreases |es|
  {
    if es != [] {
      StaysOver(s, es[0], id);
      LegalKeeps(s, es[0]);
      AllStayOver(Apply(s, es[0]), es[1..], id);
    }
  }

  // Once its request is over, a terminal record is never rewritten.
  lemma {:induction false} TerminalRecordsStay(s: State, moves: seq<Move>, id: string)
    requires Inv(s) && Over(s, id) && forall m <- moves :: !Acks(m, id)
    ensures Over(Run(s, moves), id) && Run(s, moves).journal[id] == s.journal[id]
    decreases |moves|
  {
    if moves != [] {
      var before, m := Run(s, moves[..|moves| - 1]), moves[|moves| - 1];
      TerminalRecordsStay(s, moves[..|moves| - 1], id);
      EveryRunKeeps(s, moves[..|moves| - 1]);
      MoveKeeps(before, m);
      MovesAreTame(before, m, id);
      AllStayOver(before, Cut(EffectsOf(before, m.step), m.dies), id);
    }
  }

  lemma AckRemoves(s: State, req: Request, env: Env)
    requires req.subject.id in s.journal && Terminal(s.journal[req.subject.id]) && s.process.inFlight.None?
    requires req.subject == s.journal[req.subject.id].subject && req.expiresAt == s.journal[req.subject.id].expiresAt
    requires req.kind.AckKind? && EvidenceOf(s.journal[req.subject.id], s.branch) == Ok(req.kind.accepted)
    ensures Dispatch(s, req, env).reply == Acknowledged(req.kind.accepted)
    ensures Next(s, Move(Asks(req, env), None)).journal == s.journal - {req.subject.id}
  {
    var id := req.subject.id;
    assert Serve(s, req, env) == Served([Remove(id)], Acknowledged(req.kind.accepted));
    var es := [Remove(id)] + [Disarm(id)];
    assert Dispatch(s, req, env).effects == es;
    ApplyLast(s, [Remove(id)], Disarm(id));
    ApplyLast(s, [], Remove(id));
    assert [] + [Remove(id)] == [Remove(id)];
  }

  // So an acknowledgement built from any terminal read is accepted, however much later, and
  // removes the record.
  lemma AckOfTerminalReadIsAccepted(s: State, moves: seq<Move>, req: Request, env: Env)
    requires Inv(s) && Over(s, req.subject.id) && forall m <- moves :: !Acks(m, req.subject.id)
    requires req.subject == s.journal[req.subject.id].subject && req.expiresAt == s.journal[req.subject.id].expiresAt
    requires req.kind.AckKind? && EvidenceOf(s.journal[req.subject.id], s.branch) == Ok(req.kind.accepted)
    requires Run(s, moves).process.inFlight.None?
    ensures
      var s' := Run(s, moves);
      && Dispatch(s', req, env).reply == Acknowledged(req.kind.accepted)
      && Next(s', Move(Asks(req, env), None)).journal == s'.journal - {req.subject.id}
  {
    var id := req.subject.id;
    TerminalRecordsStay(s, moves, id);
    CurrentPlaced(s, id);
    TerminalEvidenceIgnoresBranch(s.branch, Run(s, moves).branch, s.journal[id]);
    AckRemoves(Run(s, moves), req, env);
  }

  lemma CurrentPlaced(s: State, id: string)
    requires Inv(s) && id in s.journal
    ensures Placed(s.branch, s.journal[id])
  {
  }

  // ---------- Stages ----------

  function Rank(stage: Stage): nat {
    match stage
    case Prepared => 0
    case Dispatching => 1
    case Bound => 2
    case Finalized => 3
    case Failed => 3
  }

  // No lower than a stage it had. What had failed may have been found bound.
  ghost predicate NotBelow(s: State, id: string, floor: Stage) {
    && id in s.journal
    && var stage := s.journal[id].stage;
       if floor.Finalized? then stage.Finalized? else if floor.Failed? then Rank(stage) >= Rank(Bound) else Rank(stage) >= Rank(floor)
  }

  lemma StaysNotBelow(s: State, e: Effect, id: string, floor: Stage)
    requires Inv(s) && Legal(s, e) && NotBelow(s, id, floor) && (e.Remove? ==> e.id != id)
    ensures NotBelow(Apply(s, e), id, floor)
  {
    hide Placed, BranchOk, ProcessOk, SendsOk, MintsOk, SendsApart;
  }

  lemma {:induction false} AllStayNotBelow(s: State, es: seq<Effect>, id: string, floor: Stage)
    requires Inv(s) && Lawful(s, es) && NotBelow(s, id, floor) && forall e <- es :: e.Remove? ==> e.id != id
    ensures NotBelow(ApplyAll(s, es), id, floor)
    decreases |es|
  {
    hide Inv, Legal, NotBelow;
    if es != [] {
      StaysNotBelow(s, es[0], id, floor);
      LegalKeeps(s, es[0]);
      AllStayNotBelow(Apply(s, es[0]), es[1..], id, floor);
    }
  }

  lemma RemovedByAck(s: State, m: Move, id: string)
    requires !Acks(m, id)
    ensures forall e <- Cut(EffectsOf(s, m.step), m.dies) :: e.Remove? ==> e.id != id
  {
    hide OnInput, OnBeforeAgentStart, TurnStarts, TurnEnds, Settles, Dispatch, Resume, InStage;
    var es := EffectsOf(s, m.step);
    assert forall e <- es :: e.Remove? ==> e.id != id;
  }

  lemma {:induction false} NotBelowHolds(s: State, moves: seq<Move>, id: string, floor: Stage)
    requires Inv(s) && NotBelow(s, id, floor) && forall m <- moves :: !Acks(m, id)
    ensures NotBelow(Run(s, moves), id, floor)
    decreases |moves|
  {
    hide Inv, NotBelow, EffectsOf, Acks;
    if moves != [] {
      var before, m := Run(s, moves[..|moves| - 1]), moves[|moves| - 1];
      NotBelowHolds(s, moves[..|moves| - 1], id, floor);
      EveryRunKeeps(s, moves[..|moves| - 1]);
      MoveKeeps(before, m);
      RemovedByAck(before, m, id);
      AllStayNotBelow(before, Cut(EffectsOf(before, m.step), m.dies), id, floor);
    }
  }

  // Over any run without its acknowledgement a record stays, and its stage never falls, but
  // for one case: a record that had failed while its request was still in flight. That one
  // falls no further than to bound.
  lemma {:induction false} StageNeverFalls(s: State, moves: seq<Move>, id: string)
    requires Inv(s) && id in s.journal && forall m <- moves :: !Acks(m, id)
    ensures
      var s' := Run(s, moves);
      && id in s'.journal
      && (Rank(s'.journal[id].stage) >= Rank(s.journal[id].stage)
          || (s.journal[id].stage.Failed? && InFlight(s, id) && s'.journal[id].stage.Bound?))
  {
    hide Inv, Run, Acks;
    NotBelowHolds(s, moves, id, s.journal[id].stage);
    if s.journal[id].stage.Failed? && !InFlight(s, id) {
      TerminalRecordsStay(s, moves, id);
    }
  }
}
