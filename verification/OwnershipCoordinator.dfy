/** The ownership coordinator as the extension runs it: journal, branch and authorisations
    changed in place, each handler proved to have exactly the effects it is specified by. */
module OwnershipCoordinator {
  import opened Basics
  import opened Ownership
  import opened OwnershipHandlers
  import opened OwnershipInvariant
  import opened OwnershipRuns

  // ---------- Earlier effects only come first ----------

  lemma CloseComesAfter(view: seq<Body>, actual: seq<Body>, r: Record, env: Env, marker: Body, at: nat, es: seq<Effect>)
    requires marker.Finalize? && r.bind.Some?
    ensures Close(view, actual, r, env, marker, at, es).effects == es + Close(view, actual, r, env, marker, at, []).effects
    ensures Close(view, actual, r, env, marker, at, es).result == Close(view, actual, r, env, marker, at, []).result
  {
    assert es + [] == es;
    assert forall e: Effect :: es + ([] + [e]) == es + [e];
  }

  lemma FinishComesAfter(view: seq<Body>, actual: seq<Body>, r: Record, env: Env, es: seq<Effect>)
    requires r.bind.Some?
    ensures Finish(view, actual, r, env, es).effects == es + Finish(view, actual, r, env, []).effects
    ensures Finish(view, actual, r, env, es).result == Finish(view, actual, r, env, []).result
  {
    hide Close, FinalMarker, FinalAssistant;
    assert es + [] == es;
    assert es + ([] + [Save(r)]) == es + [Save(r)];
    match FinalMarker(view, r.subject)
    case Err(_) =>
    case Ok(Some(at)) => CloseComesAfter(view, actual, r, env, view[at], at, es);
    case Ok(None) =>
      if r.stage.Bound? && FinalAssistant(view, r.bind.value).Ok? && FinalAssistant(view, r.bind.value).value.Some? {
        MarkComesAfter(view, actual, r, env, FinalAssistant(view, r.bind.value).value.value, es);
      }
  }

  lemma MarkComesAfter(view: seq<Body>, actual: seq<Body>, r: Record, env: Env, a: nat, es: seq<Effect>)
    requires r.bind.Some? && a < |view| && view[a].Assistant?
    ensures Mark(view, actual, r, env, a, es).effects == es + Mark(view, actual, r, env, a, []).effects
    ensures Mark(view, actual, r, env, a, es).result == Mark(view, actual, r, env, a, []).result
  {
    hide Close;
    assert es + [] == es;
    if view[a].visible.Some? {
      var marker := Finalize(r.subject, a, view[a].visible.value, Ownership.Later(env.now, r.boundAt));
      CloseComesAfter(view, actual + [marker], r, env, marker, |actual|, es + [Append(marker)]);
      CloseComesAfter(view, actual + [marker], r, env, marker, |actual|, [] + [Append(marker)]);
      var closed := Close(view, actual + [marker], r, env, marker, |actual|, []).effects;
      assert es + [Append(marker)] + closed == es + ([] + [Append(marker)] + closed);
    }
  }

  lemma Unit(s: State, e: Effect)
    ensures ApplyAll(s, [e]) == Apply(s, e)
  {
    assert [e][1..] == [];
  }

  // The record in a stage that only one can be in.
  lemma StageIsUnique(s: State, stage: Stage, id: string)
    requires Inv(s) && stage !in {Finalized, Failed} && id in s.journal && s.journal[id].stage == stage
    ensures InStage(s.journal, stage) == Some(s.journal[id])
  {
  }

  lemma Disarming(s: State, es: seq<Effect>, id: string)
    ensures ApplyAll(s, es + [Disarm(id)]) == Apply(ApplyAll(s, es), Disarm(id))
  {
    Unit(ApplyAll(s, es), Disarm(id));
    ApplyJoins(s, es, [Disarm(id)]);
  }

  lemma {:induction false} WritesKeepProcess(s: State, es: seq<Effect>)
    requires Writes(es)
    ensures ApplyAll(s, es).process == s.process
    decreases |es|
  {
    if es != [] {
      WritesKeepProcess(Apply(s, es[0]), es[1..]);
    }
  }

  lemma OnlyBoundAsksActive(branch: seq<Body>, active: set<string>, other: set<string>, u: Record, req: Request, env: Env)
    requires Terminal(u)
    ensures Ownership.Proceed(branch, active, u, req, env) == Ownership.Proceed(branch, other, u, req, env)
  {
  }

  lemma FailedReplyIgnoresBranch(branch: seq<Body>, other: seq<Body>, r: Record, env: Env)
    requires r.stage.Failed?
    ensures Respond(branch, r, env) == Respond(other, r, env)
  {
  }

  lemma InStageIsThere(s: State, stage: Stage)
    requires Inv(s)
    ensures var one := InStage(s.journal, stage);
      one.Some? ==> one.value.stage == stage && one.value.subject.id in s.journal && s.journal[one.value.subject.id] == one.value
  {
  }

  lemma KeyIsId(s: State, id: string)
    requires Inv(s) && id in s.journal
    ensures s.journal[id].subject.id == id
  {
  }

  class Coordinator {
    var branch: seq<Body>
    var journal: map<string, Record>
    var inFlight: Option<Request>
    var pending: Option<string>
    var inputs: set<string>
    var turns: set<string>
    var active: set<string>
    ghost var log: seq<Happened>

    constructor ()
      ensures Now() == EMPTY
    {
      branch, journal := [], map[];
      inFlight, pending, inputs, turns, active := None, None, {}, {}, {};
      log := [];
    }

    ghost function Now(): State
      reads this
    {
      State(branch, journal, Process(inFlight, pending, inputs, turns, active), log)
    }

    // ---------- Single effects ----------

    method AppendMarker(body: Body) returns (at: nat)
      modifies this
      ensures Now() == Apply(old(Now()), Append(body)) && at == |old(branch)|
    {
      at := |branch|;
      branch := branch + [body];
      log := log + if body.Bind? then [Minted(body.subject.id)] else [];
    }

    method SaveRecord(r: Record)
      modifies this
      ensures Now() == Apply(old(Now()), Save(r))
    {
      log := log + if r.subject.id in journal then [] else [Created(r.subject.id)];
      journal := journal[r.subject.id := r];
    }

    method RemoveRecord(id: string)
      modifies this
      ensures Now() == Apply(old(Now()), Remove(id))
    {
      journal := journal - {id};
      log := log + [Removed(id)];
    }

    // Hands the prompt to the native agent and keeps the request waiting.
    method SendUserMessage(req: Request)
      modifies this
      ensures Now() == Apply(old(Now()), Send(req))
    {
      inFlight, pending := Some(req), Some(req.subject.id);
      log := log + [Sent(req.subject.id)];
    }

    method GiveBack(id: string)
      modifies this
      ensures Now() == Apply(old(Now()), Disarm(id))
    {
      if pending == Some(id) {
        pending := None;
      }
      inputs, turns := inputs - {id}, turns - {id};
    }

    // The process dies and another starts from what is durable.
    method Restart()
      modifies this
      ensures Now() == Apply(old(Now()), Crash)
    {
      inFlight, pending, inputs, turns, active := None, None, {}, {}, {};
      log := log + [Crashed];
    }

    // ---------- Reconciling ----------

    method CloseRecord(view: seq<Body>, r: Record, env: Env, marker: Body, at: nat) returns (result: Result<Record, Code>)
      requires marker.Finalize? && r.bind.Some?
      modifies this
      ensures var o := Close(view, old(branch), r, env, marker, at, []); Now() == ApplyAll(old(Now()), o.effects) && result == o.result
    {
      var a := marker.assistant;
      if a >= |view| || r.bind.value >= |view| || a <= r.bind.value || !view[a].Assistant? || !view[a].stop.Stopped? {
        return Err(InvalidFinalAssistant);
      }
      if view[a].visible.None? {
        return Err(InvalidVisible);
      }
      if view[a].visible.value != marker.shown {
        return Err(VisibleMismatch);
      }
      var final := r.(assistant := Some(a), finalize := Some(at), finalizedAt := marker.finalizedAt);
      var items := Describe(branch, final, final.finalize);
      if items.Err? {
        return Err(items.error);
      }
      if !env.evidenceFits {
        return Err(ResponseTooLarge);
      }
      final := final.(sequence := Some(items.value), content := view[a].visible, stage := Finalized);
      Unit(Now(), Save(final));
      assert [] + [Save(final)] == [Save(final)];
      SaveRecord(final);
      return Ok(final);
    }

    method MarkFinal(view: seq<Body>, r: Record, env: Env, a: nat) returns (result: Result<Record, Code>)
      requires r.bind.Some? && a < |view| && view[a].Assistant?
      modifies this
      ensures var o := Mark(view, old(branch), r, env, a, []); Now() == ApplyAll(old(Now()), o.effects) && result == o.result
    {
      hide Close;
      if view[a].visible.None? {
        return Err(InvalidVisible);
      }
      ghost var was := Now();
      var marker := Finalize(r.subject, a, view[a].visible.value, Ownership.Later(env.now, r.boundAt));
      CloseComesAfter(view, branch + [marker], r, env, marker, |branch|, [] + [Append(marker)]);
      Unit(was, Append(marker));
      ghost var closing := Close(view, branch + [marker], r, env, marker, |branch|, []).effects;
      ApplyJoins(was, [Append(marker)], closing);
      assert [] + [Append(marker)] == [Append(marker)];
      var at := AppendMarker(marker);
      result := CloseRecord(view, r, env, marker, at);
    }

    method FinishRecord(view: seq<Body>, r: Record, env: Env) returns (result: Result<Record, Code>)
      requires r.bind.Some?
      modifies this
      ensures var o := Finish(view, old(branch), r, env, []); Now() == ApplyAll(old(Now()), o.effects) && result == o.result
    {
      hide Close, Mark, FinalMarker, FinalAssistant;
      var found := FinalMarker(view, r.subject);
      if found.Err? {
        return Err(found.error);
      }
      if found.value.Some? {
        result := CloseRecord(view, r, env, view[found.value.value], found.value.value);
        return;
      }
      if r.stage.Bound? {
        var last := FinalAssistant(view, r.bind.value);
        if last.Err? {
          return Err(last.error);
        }
        if last.value.Some? {
          result := MarkFinal(view, r, env, last.value.value);
          return;
        }
      }
      Unit(Now(), Save(r));
      assert [] + [Save(r)] == [Save(r)];
      SaveRecord(r);
      return Ok(r);
    }

    method MintBind(r: Record, env: Env) returns (result: Result<Record, Code>)
      requires r.prepare.Some? && r.prepare.value < |branch|
      modifies this
      ensures var o := Mint(old(branch), r, env); Now() == ApplyAll(old(Now()), o.effects) && result == o.result
    {
      hide Finish, PromptEntry;
      var user := PromptEntry(branch, r.prepare.value + 1, |branch|, r.subject.prompt);
      if user.Err? {
        return Err(user.error);
      }
      if user.value.None? {
        var kept := if r.stage.Dispatching? && env.now > r.expiresAt && env.quiet then FailedWith(r, IndeterminateBeforeBind) else r;
        Unit(Now(), Save(kept));
        assert [] + [Save(kept)] == [Save(kept)];
        SaveRecord(kept);
        return Ok(kept);
      }
      if env.now > r.expiresAt {
        return Err(CapabilityExpired);
      }
      ghost var was := Now();
      var view := branch;
      var marker := BindFor(r, user.value.value, env.now);
      var at := AppendMarker(marker);
      if env.live {
        view := branch;
      }
      var bound := r.(user := user.value, boundAt := env.now, bind := Some(at), stage := Bound);
      Unit(was, Append(marker));
      FinishComesAfter(view, branch, bound, env, [Append(marker)]);
      ApplyJoins(was, [Append(marker)], Finish(view, branch, bound, env, []).effects);
      result := FinishRecord(view, bound, env);
    }

    method ReconcileRecord(r: Record, env: Env, mayBind: bool) returns (result: Result<Record, Code>)
      modifies this
      ensures var o := Reconcile(old(branch), r, env, mayBind); Now() == ApplyAll(old(Now()), o.effects) && result == o.result
    {
      hide Finish, Mint, BindMarker;
      var kept := r;
      if r.prepare.None? || r.prepare.value >= |branch| || branch[r.prepare.value] != Prepare(r.subject) {
        kept := FailedWith(r, PrepareMissing);
      } else {
        var marker := BindMarker(branch, r, r.prepare.value);
        if marker.Err? {
          return Err(marker.error);
        }
        if marker.value.Some? {
          var bound := Rebound(branch, r, marker.value.value);
          if bound.Err? {
            return Err(bound.error);
          }
          result := FinishBound(bound.value, env);
          return;
        }
        if mayBind && r.stage in {Prepared, Dispatching} {
          result := MintBind(r, env);
          return;
        }
        if r.stage.Dispatching? && env.now > r.expiresAt && env.quiet {
          kept := FailedWith(r, IndeterminateBeforeBind);
        } else if r.bind.Some? {
          result := FinishBound(r, env);
          return;
        }
      }
      Unit(Now(), Save(kept));
      assert [] + [Save(kept)] == [Save(kept)];
      SaveRecord(kept);
      return Ok(kept);
    }

    method FinishBound(r: Record, env: Env) returns (result: Result<Record, Code>)
      requires r.bind.Some?
      modifies this
      ensures var o := Finish(old(branch), old(branch), r, env, []); Now() == ApplyAll(old(Now()), o.effects) && result == o.result
    {
      result := FinishRecord(branch, r, env);
    }

    // ---------- Native events ----------

    method OnInput(text: string, fromExtension: bool, plain: bool)
      modifies this
      ensures Now() == ApplyAll(old(Now()), Ownership.OnInput(old(Now()), text, fromExtension, plain))
    {
      if pending.None? || pending.value !in journal {
        return;
      }
      var id, current := pending.value, journal[pending.value];
      if current.stage.Dispatching? && fromExtension && plain && Digest(text) == current.subject.prompt {
        Unit(Now(), AllowInput(id));
        inputs := inputs + {id};
        log := log + [InputSeen(id)];
      }
    }

    method OnBeforeAgentStart(text: string, plain: bool)
      modifies this
      ensures Now() == ApplyAll(old(Now()), Ownership.OnBeforeAgentStart(old(Now()), text, plain))
    {
      if pending.None? || pending.value !in inputs || pending.value !in journal {
        return;
      }
      var id, current := pending.value, journal[pending.value];
      if current.stage.Dispatching? && plain && Digest(text) == current.subject.prompt {
        Unit(Now(), AllowTurn(id));
        turns := turns + {id};
        log := log + [StartSeen(id)];
      }
    }

    method FailRecord(r: Record)
      modifies this
      ensures Now() == ApplyAll(old(Now()), [Deactivate(r.subject.id), Save(r)])
    {
      ghost var was := Now();
      Unit(was, Deactivate(r.subject.id));
      Unit(Apply(was, Deactivate(r.subject.id)), Save(r));
      ApplyJoins(was, [Deactivate(r.subject.id)], [Save(r)]);
      assert [Deactivate(r.subject.id)] + [Save(r)] == [Deactivate(r.subject.id), Save(r)];
      active := active - {r.subject.id};
      SaveRecord(r);
    }

    method StartTurn(r: Record, env: Env)
      modifies this
      ensures Now() == ApplyAll(old(Now()), TurnStarts(old(branch), old(turns), r, env))
    {
      hide Reconcile;
      ghost var was := Now();
      var id := r.subject.id;
      ghost var es := [];
      if id !in turns {
        FailRecord(FailedWith(r, Unattributed));
        es := [Deactivate(id), Save(FailedWith(r, Unattributed))];
      } else {
        var updated := ReconcileRecord(r, env, true);
        es := Reconcile(was.branch, r, env, true).effects;
        ghost var more := [];
        if updated.Err? {
          FailRecord(FailedWith(r, AmbiguousUser));
          more := [Deactivate(id), Save(FailedWith(r, AmbiguousUser))];
        } else if updated.value.stage.Bound? {
          Unit(Now(), Activate(id));
          active := active + {id};
          more := [Activate(id)];
        } else if updated.value.stage.Failed? {
          Unit(Now(), Deactivate(id));
          active := active - {id};
          more := [Deactivate(id)];
        }
        ApplyJoins(was, es, more);
        es := es + more;
      }
      Disarming(was, es, id);
      assert es + [Disarm(id)] == TurnStarts(was.branch, was.process.turns, r, env);
      GiveBack(id);
    }

    method OnTurnStart(env: Env)
      requires Inv(Now())
      modifies this
      ensures Now() == ApplyAll(old(Now()), EffectsOf(old(Now()), NativeTurnStart(env)))
    {
      hide Inv, TurnStarts;
      ghost var was := Now();
      ghost var one := InStage(journal, Dispatching);
      InStageIsThere(was, Dispatching);
      var all := journal;
      var ids := all.Keys;
      while ids != {}
        invariant ids <= all.Keys && (one.Some? ==> one.value.subject.id in all && all[one.value.subject.id] == one.value)
        invariant Now() == if one.Some? && one.value.subject.id !in ids then ApplyAll(was, TurnStarts(was.branch, was.process.turns, one.value, env)) else was
        decreases ids
      {
        var id :| id in ids;
        ids := ids - {id};
        if all[id].stage.Dispatching? {
          StageIsUnique(was, Dispatching, id);
          KeyIsId(was, id);
          StartTurn(all[id], env);
        }
      }
    }

    method EndTurn(r: Record, env: Env, last: Body)
      modifies this
      ensures Now() == ApplyAll(old(Now()), TurnEnds(old(branch), r, env, last))
    {
      hide Describe, EndedAssistant;
      if !last.Assistant? || !last.stop.Stopped? {
        return;
      }
      ghost var was := Now();
      var sealed := SealTurn(r, env, last);
      ghost var es := TurnEvidence(was.branch, r, env, last).effects;
      match sealed {
        case Ok(final) =>
          ApplyJoins(was, es, [Deactivate(r.subject.id), Save(final)]);
          FailRecord(final);
        case Err(e) =>
          var failed := WithoutFinal(FailedWith(r, if e == ResponseTooLarge then e else AmbiguousFinalAssistant));
          ApplyJoins(was, es, [Deactivate(r.subject.id), Save(failed)]);
          FailRecord(failed);
      }
    }

    // Marks the assistant of the ended turn as final; saves nothing.
    method SealTurn(r: Record, env: Env, last: Body) returns (result: Result<Record, Code>)
      requires last.Assistant?
      modifies this
      ensures var o := TurnEvidence(old(branch), r, env, last); Now() == ApplyAll(old(Now()), o.effects) && result == o.result
      ensures result.Ok? ==> result.value.subject == r.subject
    {
      hide Describe, EndedAssistant;
      var found := EndedAssistant(branch, r.bind, last);
      if found.Err? {
        return Err(found.error);
      }
      var a := found.value;
      if branch[a].visible.None? {
        return Err(InvalidVisible);
      }
      var marker := Finalize(r.subject, a, branch[a].visible.value, Ownership.Later(env.now, r.boundAt));
      Unit(Now(), Append(marker));
      ghost var was := branch;
      var at := AppendMarker(marker);
      var final := r.(assistant := Some(a), finalize := Some(at), finalizedAt := marker.finalizedAt);
      var items := Describe(branch, final, final.finalize);
      if items.Err? {
        return Err(items.error);
      }
      if !env.evidenceFits {
        return Err(ResponseTooLarge);
      }
      assert branch[a] == was[a];
      return Ok(final.(sequence := Some(items.value), content := branch[a].visible, stage := Finalized));
    }

    method OnTurnEnd(env: Env, last: Body)
      requires Inv(Now())
      modifies this
      ensures Now() == ApplyAll(old(Now()), EffectsOf(old(Now()), NativeTurnEnd(env, last)))
    {
      hide Inv, TurnEnds;
      ghost var was := Now();
      ghost var one := InStage(journal, Bound);
      InStageIsThere(was, Bound);
      var all := journal;
      var ids := all.Keys;
      while ids != {}
        invariant ids <= all.Keys && (one.Some? ==> one.value.subject.id in all && all[one.value.subject.id] == one.value)
        invariant Now() == if one.Some? && one.value.subject.id !in ids then ApplyAll(was, TurnEnds(was.branch, one.value, env, last)) else was
        decreases ids
      {
        var id :| id in ids;
        ids := ids - {id};
        if all[id].stage.Bound? {
          StageIsUnique(was, Bound, id);
          KeyIsId(was, id);
          EndTurn(all[id], env, last);
        }
      }
    }

    method SettleRecord(r: Record, env: Env) returns (settled: Record)
      modifies this
      ensures Now() == ApplyAll(old(Now()), Settles(old(branch), r, env).0) && settled == Settles(old(branch), r, env).1
    {
      hide Reconcile, Ending;
      ghost var was := Now();
      Unit(was, Deactivate(r.subject.id));
      active := active - {r.subject.id};
      var updated := ReconcileRecord(r, env, false);
      ghost var es := Reconcile(was.branch, r, env, false).effects;
      ApplyJoins(was, [Deactivate(r.subject.id)], es);
      BranchAfter(Apply(was, Deactivate(r.subject.id)), es);
      es := [Deactivate(r.subject.id)] + es;
      settled := r;
      if updated.Err? {
        settled := FailedWith(r, if updated.error == ResponseTooLarge then updated.error else SettledAmbiguous);
      } else if !updated.value.stage.Bound? {
        return updated.value;
      } else {
        settled := FailedWith(updated.value, Ending(branch, updated.value));
      }
      Unit(Now(), Save(settled));
      ApplyJoins(was, es, [Save(settled)]);
      SaveRecord(settled);
    }

    method OnAgentSettled(env: Env)
      requires Inv(Now())
      modifies this
      ensures Now() == ApplyAll(old(Now()), EffectsOf(old(Now()), NativeSettled(env)))
    {
      hide Inv, Settles;
      ghost var was := Now();
      ghost var one := InStage(journal, Bound);
      InStageIsThere(was, Bound);
      var all := journal;
      var ids := all.Keys;
      while ids != {}
        invariant ids <= all.Keys && (one.Some? ==> one.value.subject.id in all && all[one.value.subject.id] == one.value)
        invariant Now() == if one.Some? && one.value.subject.id !in ids then ApplyAll(was, Settles(was.branch, one.value, env).0) else was
        decreases ids
      {
        var id :| id in ids;
        ids := ids - {id};
        if all[id].stage.Bound? {
          StageIsUnique(was, Bound, id);
          KeyIsId(was, id);
          var _ := SettleRecord(all[id], env);
        }
      }
    }

    // ---------- Requests ----------

    method SendReply(r: Record, env: Env) returns (reply: Reply)
      modifies this
      ensures var served := Respond(old(branch), r, env); Now() == ApplyAll(old(Now()), served.effects) && reply == served.reply
    {
      hide EvidenceOf;
      var evidence := EvidenceOf(r, branch);
      if evidence.Err? {
        return Refused(evidence.error);
      }
      if env.responseFits {
        return Answer(evidence.value);
      }
      if Terminal(r) {
        return Refused(ResponseTooLarge);
      }
      var failed := WithoutFinal(FailedWith(r, ResponseTooLarge));
      Unit(Now(), Save(failed));
      SaveRecord(failed);
      return Answer(FailedEvidence(r.subject, failed.error));
    }

    method AcceptAck(req: Request) returns (reply: Reply)
      requires req.kind.AckKind?
      modifies this
      ensures var served := Acknowledge(old(Now()), req); Now() == ApplyAll(old(Now()), served.effects) && reply == served.reply
    {
      hide EvidenceOf;
      var id := req.subject.id;
      if id !in journal {
        return Refused(UnknownDispatch);
      }
      var r := journal[id];
      if !Terminal(r) {
        return Refused(PrematureAck);
      }
      if EvidenceOf(r, branch) != Ok(req.kind.accepted) {
        return Refused(AckMismatch);
      }
      Unit(Now(), Remove(id));
      RemoveRecord(id);
      return Acknowledged(req.kind.accepted);
    }

    method CreateRecord(req: Request, env: Env) returns (result: Result<Record, Code>)
      modifies this
      ensures var o := Create(old(Now()), req, env); Now() == ApplyAll(old(Now()), o.effects) && result == o.result
    {
      hide LeftMarker;
      if HasOpen(journal) {
        return Err(SessionBusy);
      }
      if !req.kind.DispatchKind? || req.prompt.None? {
        return Err(UnknownDispatch);
      }
      ghost var was := Now();
      ghost var es: seq<Effect> := [];
      var r := NewRecord(req);
      if env.now > req.expiresAt {
        r := FailedWith(r, CapabilityExpired);
      } else {
        if !env.quiet {
          return Err(SessionBusy);
        }
        var left := LeftMarker(branch, req.subject);
        if left.Err? {
          r := FailedWith(r, left.error);
        } else if left.value.Some? {
          r := r.(prepare := left.value);
        } else {
          Unit(was, Append(Prepare(req.subject)));
          es := [Append(Prepare(req.subject))];
          var at := AppendMarker(Prepare(req.subject));
          r := r.(prepare := Some(at));
        }
      }
      if |journal| >= MAX_RECORDS {
        return Err(JournalFull);
      }
      Unit(Now(), Save(r));
      ApplyJoins(was, es, [Save(r)]);
      SaveRecord(r);
      return Ok(r);
    }

    // The save before the send is the at-most-once boundary: whatever dies after it, the
    // record says dispatching.
    method Proceed(u: Record, req: Request, env: Env) returns (reply: Reply)
      modifies this
      ensures var served := Ownership.Proceed(old(branch), old(active), u, req, env);
        Now() == ApplyAll(old(Now()), served.effects) && reply == served.reply
    {
      hide Settles, Respond;
      ghost var was := Now();
      if u.stage.Bound? && req.kind.StatusKind? && u.subject.id !in active && env.quiet {
        var settled := SettleRecord(u, env);
        ghost var es := Settles(was.branch, u, env).0;
        BranchAfter(was, es);
        ApplyJoins(was, es, Respond(branch, settled, env).effects);
        reply := SendReply(settled, env);
      } else if u.stage.Prepared? && req.kind.DispatchKind? && req.prompt.Some? {
        if env.now > u.expiresAt {
          var failed := FailedWith(u, CapabilityExpired);
          Unit(was, Save(failed));
          SaveRecord(failed);
          ApplyJoins(was, [Save(failed)], Respond(branch, failed, env).effects);
          reply := SendReply(failed, env);
        } else if !env.quiet {
          reply := Refused(SessionBusy);
        } else {
          var sending := u.(stage := Dispatching);
          Unit(was, Save(sending));
          Unit(Apply(was, Save(sending)), Send(req));
          ApplyJoins(was, [Save(sending)], [Send(req)]);
          assert [Save(sending)] + [Send(req)] == [Save(sending), Send(req)];
          SaveRecord(sending);
          SendUserMessage(req);
          reply := Waiting;
        }
      } else {
        reply := SendReply(u, env);
      }
    }

    // Fails a record that could not be reconciled, and says so.
    method FailReconciled(r: Record, error: Code, env: Env) returns (reply: Reply)
      modifies this
      ensures
        var failed := FailedWith(r, if r.stage.Dispatching? then IndeterminateBeforeBind else error);
        var served := Respond(old(branch), failed, env);
        Now() == ApplyAll(old(Now()), [Save(failed), Deactivate(r.subject.id)] + served.effects) && reply == served.reply
    {
      hide Respond;
      ghost var was := Now();
      var failed := FailedWith(r, if r.stage.Dispatching? then IndeterminateBeforeBind else error);
      Unit(was, Save(failed));
      Unit(Apply(was, Save(failed)), Deactivate(r.subject.id));
      ApplyJoins(was, [Save(failed)], [Deactivate(r.subject.id)]);
      assert [Save(failed)] + [Deactivate(r.subject.id)] == [Save(failed), Deactivate(r.subject.id)];
      SaveRecord(failed);
      active := active - {r.subject.id};
      ApplyJoins(was, [Save(failed), Deactivate(r.subject.id)], Respond(branch, failed, env).effects);
      reply := SendReply(failed, env);
    }

    method GoOn(r: Record, u: Record, req: Request, env: Env) returns (reply: Reply)
      modifies this
      ensures
        var served := Ownership.Proceed(old(branch), old(active), u, req, env);
        var done := if Terminal(u) then [Deactivate(r.subject.id)] else [];
        Now() == ApplyAll(old(Now()), done + served.effects) && reply == served.reply
    {
      hide Ownership.Proceed;
      ghost var was := Now();
      ghost var done := if Terminal(u) then [Deactivate(r.subject.id)] else [];
      Unit(was, Deactivate(r.subject.id));
      if Terminal(u) {
        OnlyBoundAsksActive(branch, active, active - {r.subject.id}, u, req, env);
        active := active - {r.subject.id};
      }
      ApplyJoins(was, done, Ownership.Proceed(branch, active, u, req, env).effects);
      reply := Proceed(u, req, env);
    }

    method Continue(r: Record, req: Request, env: Env) returns (reply: Reply)
      modifies this
      ensures var served := Ownership.Continue(old(branch), old(active), r, req, env);
        Now() == ApplyAll(old(Now()), served.effects) && reply == served.reply
    {
      hide Reconcile, Respond, Ownership.Proceed;
      ghost var was := Now();
      var updated := ReconcileRecord(r, env, false);
      ghost var es := Reconcile(was.branch, r, env, false).effects;
      WritesKeepProcess(was, es);
      BranchAfter(was, es);
      match updated {
        case Err(e) =>
          ghost var failed := FailedWith(r, if r.stage.Dispatching? then IndeterminateBeforeBind else e);
          FailedReplyIgnoresBranch(was.branch, branch, failed, env);
          ghost var more := [Save(failed), Deactivate(r.subject.id)];
          ghost var answer := Respond(was.branch, failed, env).effects;
          ApplyJoins(was, es, more + answer);
          Joined(es, more, answer);
          reply := FailReconciled(r, e, env);
        case Ok(u) =>
          ghost var done := if Terminal(u) then [Deactivate(r.subject.id)] else [];
          ghost var more := Ownership.Proceed(branch, active, u, req, env).effects;
          ApplyJoins(was, es, done + more);
          Joined(es, done, more);
          reply := GoOn(r, u, req, env);
      }
    }

    method AnswerKnown(r: Record, req: Request, env: Env) returns (reply: Reply)
      modifies this
      ensures var served := Known(old(branch), old(active), r, req, env);
        Now() == ApplyAll(old(Now()), served.effects) && reply == served.reply
    {
      hide EvidenceOf, Ownership.Continue;
      if r.stage.Failed? || (r.stage.Finalized? && r.sequence.Some? && r.content.Some?) {
        var evidence := EvidenceOf(r, branch);
        return if evidence.Ok? then Answer(evidence.value) else Refused(evidence.error);
      }
      reply := Continue(r, req, env);
    }

    method Serve(req: Request, env: Env) returns (reply: Reply)
      modifies this
      ensures var served := Ownership.Serve(old(Now()), req, env);
        Now() == ApplyAll(old(Now()), served.effects) && reply == served.reply
    {
      hide Known, Acknowledge, Create;
      var id := req.subject.id;
      if id in journal && (journal[id].subject != req.subject || journal[id].expiresAt != req.expiresAt) {
        return Refused(IdentityConflict);
      }
      if req.kind.AckKind? {
        reply := AcceptAck(req);
        return;
      }
      if id in journal {
        reply := AnswerKnown(journal[id], req, env);
        return;
      }
      ghost var was := Now();
      var created := CreateRecord(req, env);
      ghost var es := Create(was, req, env).effects;
      if created.Err? {
        return Refused(created.error);
      }
      WritesKeepProcess(was, es);
      BranchAfter(was, es);
      ApplyJoins(was, es, Known(branch, active, created.value, req, env).effects);
      reply := AnswerKnown(created.value, req, env);
    }

    // A request up to its reply or its wait. Requests queue behind the one in flight.
    method Dispatch(req: Request, env: Env) returns (reply: Reply)
      requires inFlight.None?
      modifies this
      ensures var served := Ownership.Dispatch(old(Now()), req, env);
        Now() == ApplyAll(old(Now()), served.effects) && reply == served.reply
    {
      hide Ownership.Serve;
      ghost var was := Now();
      reply := Serve(req, env);
      if !reply.Waiting? {
        Disarming(was, Ownership.Serve(was, req, env).effects, req.subject.id);
        GiveBack(req.subject.id);
      }
    }

    method ReplyToResumed(r: Record, env: Env) returns (reply: Reply)
      modifies this
      ensures var served := Resumed(old(branch), r, env); Now() == ApplyAll(old(Now()), served.effects) && reply == served.reply
    {
      hide Reconcile, Respond;
      ghost var was := Now();
      var updated := ReconcileRecord(r, env, false);
      ghost var es := Reconcile(was.branch, r, env, false).effects;
      if updated.Err? {
        return Refused(updated.error);
      }
      BranchAfter(was, es);
      ApplyJoins(was, es, Respond(branch, updated.value, env).effects);
      reply := SendReply(updated.value, env);
    }

    // What a request does once its wait is over.
    method Resume(env: Env) returns (reply: Reply)
      modifies this
      ensures var served := Ownership.Resume(old(Now()), env);
        Now() == ApplyAll(old(Now()), served.effects) && reply == served.reply
    {
      hide Resumed;
      if inFlight.None? {
        return Waiting;
      }
      var id := inFlight.value.subject.id;
      ghost var was := Now();
      ghost var es: seq<Effect> := [];
      Unit(was, Disarm(id));
      if id !in journal {
        GiveBack(id);
        reply := Refused(UnknownDispatch);
        assert [Disarm(id)] + es + [Release] == [Disarm(id), Release];
      } else {
        var r := journal[id];
        es := Resumed(was.branch, r, env).effects;
        GiveBack(id);
        reply := ReplyToResumed(r, env);
      }
      assert [Disarm(id)] + [] == [Disarm(id)];
      ApplyJoins(was, [Disarm(id)], es);
      ApplyJoins(was, [Disarm(id)] + es, [Release]);
      Unit(ApplyAll(was, [Disarm(id)] + es), Release);
      inFlight := None;
    }
  }
}
