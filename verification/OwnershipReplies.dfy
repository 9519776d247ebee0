/** What requests are answered: always what journal and branch show once the request is over. */
module OwnershipReplies {
  import opened Basics
  import opened Ownership
  import opened OwnershipInvariant
  import opened OwnershipHandlers
  import opened OwnershipRuns
  import opened OwnershipRevival
  import opened OwnershipOutcomes

  // ---------- Answers are what is saved ----------

  // If a stretch that leads to a state answers, it answers what that state shows of the record.
  ghost predicate Tells(s: State, id: string, reply: Reply) {
    reply.Answer? ==> id in s.journal && EvidenceOf(s.journal[id], s.branch) == Ok(reply.evidence)
  }

  ghost predicate At(s: State, branch: seq<Body>, u: Record) {
    s.branch == branch && u.subject.id in s.journal && s.journal[u.subject.id] == u
  }

  lemma ReplyTells(s: State, es: seq<Effect>, branch: seq<Body>, u: Record, env: Env)
    requires At(ApplyAll(s, es), branch, u)
    ensures var served := Respond(branch, u, env); Tells(ApplyAll(s, es + served.effects), u.subject.id, served.reply)
  {
    hide Describe;
    var served := Respond(branch, u, env);
    if served.effects == [] {
      assert es + [] == es;
    } else {
      assert served.effects == [served.effects[0]];
      ApplyLast(s, es, served.effects[0]);
    }
  }

  // Saving a failure and replying with it, whatever branch is at hand.
  lemma FailureTells(s: State, es: seq<Effect>, more: seq<Effect>, branch: seq<Body>, failed: Record, env: Env)
    requires failed.stage.Failed? && (more == [Save(failed)] || more == [Save(failed), Deactivate(failed.subject.id)])
    ensures var served := Then(more, Respond(branch, failed, env)); Tells(ApplyAll(s, es + served.effects), failed.subject.id, served.reply)
  {
    var served := Then(more, Respond(branch, failed, env));
    assert Respond(branch, failed, env).effects == [] && served.effects == more + [] == more;
    if more == [Save(failed)] {
      ApplyLast(s, es, Save(failed));
    } else {
      ApplyLast(s, es + [Save(failed)], Deactivate(failed.subject.id));
      ApplyLast(s, es, Save(failed));
      assert es + [Save(failed)] + [Deactivate(failed.subject.id)] == es + more;
    }
  }

  lemma ProceedTells(s: State, es: seq<Effect>, branch: seq<Body>, active: set<string>, u: Record, req: Request, env: Env)
    requires Reached(s, es, branch, u)
    ensures var served := Proceed(branch, active, u, req, env); Tells(ApplyAll(s, es + served.effects), u.subject.id, served.reply)
  {
    hide Settles, Respond, Inv, EvidenceOf;
    if u.stage.Bound? && req.kind.StatusKind? && u.subject.id !in active && env.quiet {
      var (settled, r) := Settles(branch, u, env);
      StatusReached(s, es, branch, u, env);
      ReplyTells(s, es + settled, branch + Appended(settled), r, env);
      Joined(es, settled, Respond(branch + Appended(settled), r, env).effects);
    } else if u.stage.Prepared? && req.kind.DispatchKind? && req.prompt.Some? {
      if env.now > u.expiresAt {
        FailureTells(s, es, [Save(FailedWith(u, CapabilityExpired))], branch, FailedWith(u, CapabilityExpired), env);
      }
    } else {
      ReplyTells(s, es, branch, u, env);
    }
  }

  lemma StatusReached(s: State, es: seq<Effect>, branch: seq<Body>, u: Record, env: Env)
    requires Reached(s, es, branch, u) && u.stage.Bound?
    ensures var (settled, r) := Settles(branch, u, env);
      At(ApplyAll(s, es + settled), branch + Appended(settled), r) && r.subject == u.subject
  {
    hide Settles, Inv;
    var (settled, r) := Settles(branch, u, env);
    SettlesFine(ApplyAll(s, es), u, env);
    ApplyJoins(s, es, settled);
  }

  lemma ContinueTells(s: State, r: Record, req: Request, env: Env)
    requires Inv(s) && Current(s, r) && !Terminal(r)
    ensures
      var served := Continue(s.branch, s.process.active, r, req, env);
      Tells(ApplyAll(s, served.effects), r.subject.id, served.reply)
  {
    hide Reconcile, Proceed, Respond, Inv, EvidenceOf;
    ReconcileLands(s, r, env, false);
    var o := Reconcile(s.branch, r, env, false);
    match o.result
    case Err(e) =>
      var failed := FailedWith(r, if r.stage.Dispatching? then IndeterminateBeforeBind else e);
      FailureTells(s, o.effects, [Save(failed), Deactivate(r.subject.id)], s.branch, failed, env);
      Joined(o.effects, [Save(failed), Deactivate(r.subject.id)], Respond(s.branch, failed, env).effects);
    case Ok(u) =>
      var done := o.effects + if Terminal(u) then [Deactivate(r.subject.id)] else [];
      ContinuedReaches(s, r, o);
      ProceedTells(s, done, s.branch + Appended(o.effects), s.process.active, u, req, env);
  }

  lemma KnownTells(s: State, r: Record, req: Request, env: Env)
    requires Inv(s) && r.subject.id in s.journal && s.journal[r.subject.id] == r
    ensures
      var served := Known(s.branch, s.process.active, r, req, env);
      Tells(ApplyAll(s, served.effects), r.subject.id, served.reply)
  {
    hide Continue, Inv, EvidenceOf;
    if r.stage.Finalized? {
      FinalIsComplete(s, r);
    } else if !r.stage.Failed? {
      ContinueTells(s, r, req, env);
    }
  }

  lemma FinalIsComplete(s: State, r: Record)
    requires Inv(s) && r.subject.id in s.journal && s.journal[r.subject.id] == r && r.stage.Finalized?
    ensures r.sequence.Some? && r.content.Some?
  {
  }

  lemma ServeTells(s: State, req: Request, env: Env)
    requires Inv(s) && Unlocked(s)
    ensures var served := Serve(s, req, env); Tells(ApplyAll(s, served.effects), req.subject.id, served.reply)
  {
    hide Known, Create, Inv, EvidenceOf;
    var id := req.subject.id;
    if req.kind.AckKind? {
    } else if id in s.journal && (s.journal[id].subject != req.subject || s.journal[id].expiresAt != req.expiresAt) {
    } else if id in s.journal {
      KnownTells(s, s.journal[id], req, env);
    } else {
      CreateFine(s, req, env);
      var o := Create(s, req, env);
      if o.result.Ok? {
        KnownTells(ApplyAll(s, o.effects), o.result.value, req, env);
        ApplyJoins(s, o.effects, Known(s.branch + Appended(o.effects), s.process.active, o.result.value, req, env).effects);
      }
    }
  }

  // Whatever a request is answered at once is what the journal and the branch show of its
  // record when the request is over.
  lemma AnswersTellTheJournal(s: State, req: Request, env: Env)
    requires Inv(s) && s.process.inFlight.None?
    ensures
      var served := Dispatch(s, req, env);
      var s' := ApplyAll(s, served.effects);
      served.reply.Answer? ==> req.subject.id in s'.journal && EvidenceOf(s'.journal[req.subject.id], s'.branch) == Ok(served.reply.evidence)
  {
    hide Serve, Inv, EvidenceOf;
    ServeTells(s, req, env);
    var served := Serve(s, req, env);
    if !served.reply.Waiting? {
      ApplyLast(s, served.effects, Disarm(req.subject.id));
    }
  }

  lemma ResumedTells(s: State, r: Record, env: Env)
    requires Inv(s) && Current(s, r)
    ensures var served := Resumed(s.branch, r, env); Tells(ApplyAll(s, served.effects), r.subject.id, served.reply)
  {
    hide Reconcile, Respond, Inv, EvidenceOf;
    ReconcileLands(s, r, env, false);
    var o := Reconcile(s.branch, r, env, false);
    if o.result.Ok? {
      ReplyTells(s, o.effects, s.branch + Appended(o.effects), o.result.value, env);
    }
  }

  // And so is what a request is answered that waited.
  lemma LateAnswersTellTheJournal(s: State, env: Env)
    requires Inv(s) && s.process.inFlight.Some?
    ensures
      var served, id := Resume(s, env), s.process.inFlight.value.subject.id;
      var s' := ApplyAll(s, served.effects);
      && s'.process.inFlight.None?
      && (served.reply.Answer? ==> id in s'.journal && EvidenceOf(s'.journal[id], s'.branch) == Ok(served.reply.evidence))
  {
    hide Resumed, Inv, EvidenceOf;
    var id := s.process.inFlight.value.subject.id;
    InFlightIsCurrent(s);
    DisarmedFine(s, id);
    var s1, es := Apply(s, Disarm(id)), Resumed(s.branch, s.journal[id], env).effects;
    ResumedTells(s1, s.journal[id], env);
    ApplyJoins(s, [Disarm(id)], es);
    ApplyLast(s, [Disarm(id)] + es, Release);
  }

  lemma InFlightIsCurrent(s: State)
    requires Inv(s) && s.process.inFlight.Some?
    ensures var id := s.process.inFlight.value.subject.id; id in s.journal && Current(s, s.journal[id]) && s.journal[id].subject.id == id
  {
  }

  // ---------- New requests that are not sent ----------

  // A dispatch that comes too late gets a record that says so, and no marker; a full journal
  // takes no record.
  lemma ExpiredDispatchFails(s: State, req: Request, env: Env)
    requires req.kind.DispatchKind? && req.prompt.Some? && req.subject.id !in s.journal && !HasOpen(s.journal) && req.expiresAt < env.now
    ensures
      var served, id := Dispatch(s, req, env), req.subject.id;
      var s' := ApplyAll(s, served.effects);
      && s'.branch == s.branch
      && if |s.journal| < 16 then
           && id in s'.journal && s'.journal == s.journal[id := s'.journal[id]]
           && s'.journal[id].subject == req.subject && s'.journal[id].expiresAt == req.expiresAt
           && s'.journal[id].stage.Failed? && s'.journal[id].error == Some(CapabilityExpired)
           && served.reply == Answer(FailedEvidence(req.subject, Some(CapabilityExpired)))
         else s'.journal == s.journal && served.reply == Refused(JournalFull)
  {
    hide EvidenceOf, Dispatch, HasOpen;
    ExpiredEffects(s, req, env);
    var id, r := req.subject.id, FailedWith(NewRecord(req), CapabilityExpired);
    ApplyLast(s, [], Disarm(id));
    ApplyLast(s, [], Save(r));
    ApplyLast(s, [Save(r)], Disarm(id));
    assert [] + [Save(r)] == [Save(r)] && [] + [Disarm(id)] == [Disarm(id)];
  }

  lemma ExpiredEffects(s: State, req: Request, env: Env)
    requires req.kind.DispatchKind? && req.prompt.Some? && req.subject.id !in s.journal && !HasOpen(s.journal) && req.expiresAt < env.now
    ensures
      var id, r := req.subject.id, FailedWith(NewRecord(req), CapabilityExpired);
      Dispatch(s, req, env) ==
        if |s.journal| < MAX_RECORDS then Served([Save(r)] + [Disarm(id)], Answer(FailedEvidence(req.subject, Some(CapabilityExpired))))
        else Served([] + [Disarm(id)], Refused(JournalFull))
  {
    var r := FailedWith(NewRecord(req), CapabilityExpired);
    assert [] + [Save(r)] == [Save(r)] && [Save(r)] + [] == [Save(r)];
  }

  // A request for an unknown subject is refused, and leaves no trace, while another record is
  // open, if it is no dispatch with a prompt, or, in time, if the agent is not idle.
  lemma UnknownIsRefused(s: State, req: Request, env: Env)
    requires req.subject.id !in s.journal && !req.kind.AckKind?
    requires HasOpen(s.journal) || req.kind.StatusKind? || req.prompt.None? || (env.now <= req.expiresAt && !env.quiet)
    ensures
      var served := Dispatch(s, req, env);
      var s' := ApplyAll(s, served.effects);
      && s'.branch == s.branch && s'.journal == s.journal
      && served.reply == Refused(if !HasOpen(s.journal) && (req.kind.StatusKind? || req.prompt.None?) then UnknownDispatch else SessionBusy)
  {
    hide Dispatch, HasOpen;
    UnknownEffects(s, req, env);
    ApplyLast(s, [], Disarm(req.subject.id));
    assert [] + [Disarm(req.subject.id)] == [Disarm(req.subject.id)];
  }

  lemma UnknownEffects(s: State, req: Request, env: Env)
    requires req.subject.id !in s.journal && !req.kind.AckKind?
    requires HasOpen(s.journal) || req.kind.StatusKind? || req.prompt.None? || (env.now <= req.expiresAt && !env.quiet)
    ensures Dispatch(s, req, env) == Served([] + [Disarm(req.subject.id)],
      Refused(if !HasOpen(s.journal) && (req.kind.StatusKind? || req.prompt.None?) then UnknownDispatch else SessionBusy))
  {
    hide HasOpen, Known, Started;
  }

  // One that says something else of a known subject is refused as well.
  lemma MistakenIdentityIsRefused(s: State, req: Request, env: Env)
    requires req.subject.id in s.journal
    requires s.journal[req.subject.id].subject != req.subject || s.journal[req.subject.id].expiresAt != req.expiresAt
    ensures
      var served := Dispatch(s, req, env);
      served.reply == Refused(IdentityConflict) && ApplyAll(s, served.effects).branch == s.branch && ApplyAll(s, served.effects).journal == s.journal
  {
    hide Known, Create, Acknowledge;
    ApplyLast(s, [], Disarm(req.subject.id));
    assert [] + [Disarm(req.subject.id)] == [Disarm(req.subject.id)];
  }

  // ---------- What the other replies disclose ----------

  // A record that is not over its send says no more than whose it is; a failed one why.
  lemma EvidenceDiscloses(r: Record, branch: seq<Body>)
    ensures r.stage in {Prepared, Dispatching} ==> EvidenceOf(r, branch) == Ok(PreparedEvidence(r.subject))
    ensures r.stage.Failed? ==> EvidenceOf(r, branch) == Ok(FailedEvidence(r.subject, r.error))
  {
  }

  // The evidence of a bound record, where it can be described: a gapless sequence from the
  // prepare to the bind marker, with the prompt's entry between, telling its own entries apart.
  lemma BoundEvidenceDiscloses(s: State, id: string)
    requires Inv(s) && id in s.journal && s.journal[id].stage.Bound?
    ensures
      var r := s.journal[id];
      && r.prepare.Some? && r.user.Some? && r.bind.Some? && r.prepare.value < r.user.value < r.bind.value < |s.branch|
      && (EvidenceOf(r, s.branch).Ok? <==> !Indescribable(s.branch, r, r.bind.value))
      && (EvidenceOf(r, s.branch).Ok? ==>
            var e := EvidenceOf(r, s.branch).value;
            && e.BoundEvidence? && e.subject == r.subject && (e.prepare, e.user, e.bind) == (r.prepare, r.user, r.bind)
            && s.branch[r.bind.value].Bind? && e.boundAt == s.branch[r.bind.value].boundAt
            && |e.sequence| == r.bind.value - r.prepare.value + 1
            && (forall k | 0 <= k < |e.sequence| ::
                  e.sequence[k].order == r.prepare.value + k && RoleAt(s.branch, r, r.prepare.value + k, e.sequence[k].role)))
  {
    hide BranchOk, ProcessOk, SendsOk, MintsOk, SendsApart, Items;
    var r := s.journal[id];
    UserIsBetween(s.branch, r);
    ItemsDisclose(s.branch, r, r.prepare.value, r.bind.value + 1);
  }

  // ---------- Requests for a bound record ----------

  lemma StaysOpenNeverFinal(branch: seq<Body>, r: Record, env: Env, at: nat)
    requires r.prepare.Some? && StaysOpen(branch, r, at)
    ensures !FinalFits(branch, r, env, at) && !CompletesNow(branch, r, env, at)
  {
  }

  // A record that stays bound, and is asked about by a status request when its turn is no
  // longer this process's and the agent is idle, is settled, and so fails.
  lemma IdleStatusFails(s: State, es: seq<Effect>, u: Record, env: Env)
    requires Reached(s, es, s.branch, u) && u.stage.Bound? && u.bind.Some? && u.prepare.Some? && StaysOpen(s.branch, u, u.bind.value)
    ensures
      var (settled, r) := Settles(s.branch, u, env);
      && Respond(s.branch + Appended(settled), r, env).effects == []
      && At(ApplyAll(s, es + settled), s.branch + Appended(settled), r) && r.subject == u.subject && r.stage.Failed?
  {
    hide Settles, Inv, StaysOpen, FinalFits, CompletesNow, EvidenceOf;
    StaysOpenNeverFinal(s.branch, u, env, u.bind.value);
    StatusReached(s, es, s.branch, u, env);
    SettledExactlyWhen(ApplyAll(s, es), u, env);
    ApplyJoins(s, es, Settles(s.branch, u, env).0);
  }

  // What reconciling a bound record without a completed turn does: it saves it as it is.
  lemma OpenIsSaved(s: State, r: Record, env: Env)
    requires Inv(s) && Current(s, r) && r.stage.Bound?
    requires var o := Reconcile(s.branch, r, env, false); o.result.Ok? && o.result.value.stage.Bound?
    ensures
      var o := Reconcile(s.branch, r, env, false);
      && r.bind.Some? && o.effects == [Save(o.result.value)] && Appended(o.effects) == []
      && o.result.value.bind == r.bind && o.result.value.prepare == r.prepare && o.result.value.assistant == r.assistant
      && o.result.value.subject == r.subject
  {
    hide Inv, BranchOk, Placed, BindMarker, Rebound, Finish;
    InvSays(s, r);
    BoundIsPlaced(s, r);
    ReboundExactlyWhen(s.branch, r, r.bind.value);
    if Rebound(s.branch, r, r.bind.value).Ok? {
      BoundIsSaved(s.branch, Rebound(s.branch, r, r.bind.value).value, env);
      assert Appended([Save(Rebound(s.branch, r, r.bind.value).value)][1..]) == [];
    }
  }

  // The record a request about a bound one leaves.
  lemma OpenRecordAsked(s: State, r: Record, req: Request, env: Env)
    requires Inv(s) && Current(s, r) && r.stage.Bound? && r.bind.Some? && r.prepare.Some? && StaysOpen(s.branch, r, r.bind.value)
    requires var o := Reconcile(s.branch, r, env, false); o.result.Ok? && o.result.value.stage.Bound?
    ensures
      var s', id := ApplyAll(s, Continue(s.branch, s.process.active, r, req, env).effects), r.subject.id;
      && id in s'.journal && s'.journal[id].stage in {Bound, Failed}
      && (s'.journal[id].stage.Bound? <==>
            !(req.kind.StatusKind? && id !in s.process.active && env.quiet)
            && (env.responseFits || Indescribable(s.branch, r, r.bind.value)))
  {
    hide Reconcile, Settles, Inv, StaysOpen;
    var o := Reconcile(s.branch, r, env, false);
    var u := o.result.value;
    OpenIsSaved(s, r, env);
    ReconcileLands(s, r, env, false);
    ContinuedReaches(s, r, o);
    assert o.effects + [] == o.effects && s.branch + Appended(o.effects) == s.branch;
    SameAfter(s.branch, r, u);
    if req.kind.StatusKind? && u.subject.id !in s.process.active && env.quiet {
      IdleStatusFails(s, o.effects, u, env);
      var settled := Settles(s.branch, u, env).0;
      assert o.effects + (settled + []) == o.effects + settled;
    } else {
      BoundIsPlaced(s, r);
      OpenReplyIsQuietExactlyWhen(s.branch, u, env);
      ReplyApplies(s, o.effects, s.branch, u, env);
    }
  }

  lemma OpenReplyIsQuietExactlyWhen(branch: seq<Body>, u: Record, env: Env)
    requires u.stage.Bound? && u.prepare.Some? && u.bind.Some? && u.prepare.value <= u.bind.value < |branch|
    ensures Respond(branch, u, env).effects == [] <==> env.responseFits || Indescribable(branch, u, u.bind.value)
  {
    hide Items;
  }

  lemma SameAfter(branch: seq<Body>, r: Record, u: Record)
    requires u.subject == r.subject && u.prepare == r.prepare && u.bind == r.bind && u.assistant == r.assistant && r.prepare.Some? && r.bind.Some?
    ensures StaysOpen(branch, u, u.bind.value) <==> StaysOpen(branch, r, r.bind.value)
    ensures Indescribable(branch, u, u.bind.value) <==> Indescribable(branch, r, r.bind.value)
  {
  }

  // A dispatch or status request for a bound record finalises it exactly when its end is in the
  // branch and fits; leaves it bound exactly when no end is there, the answer can be given (or
  // has to be refused) and it is not a status request to an idle agent about a turn this
  // process does not run; and fails it otherwise.
  lemma BoundRecordAsked(s: State, req: Request, env: Env)
    requires Inv(s) && s.process.inFlight.None? && !req.kind.AckKind? && req.subject.id in s.journal
    requires s.journal[req.subject.id].stage.Bound? && s.journal[req.subject.id].subject == req.subject
    requires s.journal[req.subject.id].expiresAt == req.expiresAt
    ensures
      var r, id, s' := s.journal[req.subject.id], req.subject.id, ApplyAll(s, Dispatch(s, req, env).effects);
      && r.prepare.Some? && r.bind.Some? && id in s'.journal && s'.journal[id].stage in {Bound, Finalized, Failed}
      && (s'.journal[id].stage.Finalized? <==>
            Binding(s.branch, r, r.bind.value) && (FinalFits(s.branch, r, env, r.bind.value) || CompletesNow(s.branch, r, env, r.bind.value)))
      && (s'.journal[id].stage.Bound? <==>
            && Binding(s.branch, r, r.bind.value) && StaysOpen(s.branch, r, r.bind.value)
            && !(req.kind.StatusKind? && id !in s.process.active && env.quiet)
            && (env.responseFits || Indescribable(s.branch, r, r.bind.value)))
  {
    hide Inv, Reconcile, Continue, Binding, FinalFits, CompletesNow, StaysOpen, Indescribable;
    var r, id := s.journal[req.subject.id], req.subject.id;
    InvIsOk(s);
    BoundIsPlaced(s, r);
    MarkerReconciles(s, r, env, false, r.bind.value);
    var o, es := Reconcile(s.branch, r, env, false), Continue(s.branch, s.process.active, r, req, env).effects;
    ContinueWaitsNot(s.branch, s.process.active, r, req, env);
    ApplyLast(s, es, Disarm(id));
    if o.result.Ok? && o.result.value.stage.Bound? {
      StaysOpenNeverFinal(s.branch, r, env, r.bind.value);
      OpenRecordAsked(s, r, req, env);
    } else {
      ClosedRecordAsked(s, r, req, env);
    }
  }

  lemma ContinueWaitsNot(branch: seq<Body>, active: set<string>, r: Record, req: Request, env: Env)
    requires r.stage.Bound?
    ensures !Continue(branch, active, r, req, env).reply.Waiting?
  {
    hide Reconcile, Respond, Settles;
  }

  lemma ClosedRecordAsked(s: State, r: Record, req: Request, env: Env)
    requires Inv(s) && Current(s, r) && r.stage.Bound?
    requires var o := Reconcile(s.branch, r, env, false); o.result.Err? || o.result.value.stage.Finalized?
    ensures
      var s', id := ApplyAll(s, Continue(s.branch, s.process.active, r, req, env).effects), r.subject.id;
      id in s'.journal && s'.journal[id].stage == if Reconcile(s.branch, r, env, false).result.Ok? then Finalized else Failed
  {
    hide Reconcile, Settles, Inv, EvidenceOf;
    var o, id := Reconcile(s.branch, r, env, false), r.subject.id;
    ReconcileLands(s, r, env, false);
    match o.result
    case Err(e) =>
      var failed := FailedWith(r, e);
      assert Respond(s.branch, failed, env).effects == [];
      assert o.effects + [Save(failed), Deactivate(id)] + [] == o.effects + [Save(failed)] + [Deactivate(id)];
      ApplyLast(s, o.effects + [Save(failed)], Deactivate(id));
      ApplyLast(s, o.effects, Save(failed));
    case Ok(u) =>
      ApplyLast(s, o.effects, Deactivate(id));
      assert Respond(s.branch + Appended(o.effects), u, env).effects == [];
      assert o.effects + [Deactivate(id)] + [] == o.effects + [Deactivate(id)];
  }
}
