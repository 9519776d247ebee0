/** When a failed record is bound after all, and a run on which it is. */
module OwnershipRevival {
  import opened Basics
  import opened Ownership
  import opened OwnershipInvariant
  import opened OwnershipHandlers
  import opened OwnershipRuns

  // ---------- A resumed request ----------

  // The journal after a resumed request: what reconciling saved, then what the reply saved.
  lemma ResumedJournal(s: State, r: Record, env: Env)
    requires Inv(s) && InFlight(s, r.subject.id) && s.journal[r.subject.id] == r
    ensures
      var o := Reconcile(s.branch, r, env, false);
      ApplyAll(s, Resume(s, env).effects).journal
      == if o.result.Err? then s.journal
         else if Respond(s.branch + Appended(o.effects), o.result.value, env).effects == [] then s.journal[r.subject.id := o.result.value]
         else s.journal[r.subject.id := WithoutFinal(FailedWith(o.result.value, ResponseTooLarge))]
  {
    hide Reconcile, Respond, Resumed;
    var id := r.subject.id;
    DisarmedFine(s, id);
    var s1 := Apply(s, Disarm(id));
    ReconcileLands(s1, r, env, false);
    ResumedApplies(s1, r, env);
    var es := Resumed(s.branch, r, env).effects;
    assert Resume(s, env).effects == [Disarm(id)] + es + [Release];
    ApplyLast(s, [Disarm(id)] + es, Release);
    ApplyJoins(s, [Disarm(id)], es);
  }

  lemma ResumedApplies(s: State, r: Record, env: Env)
    requires Lands(s, r, Reconcile(s.branch, r, env, false))
    ensures
      var o := Reconcile(s.branch, r, env, false);
      ApplyAll(s, Resumed(s.branch, r, env).effects).journal
      == if o.result.Err? then s.journal
         else if Respond(s.branch + Appended(o.effects), o.result.value, env).effects == [] then s.journal[r.subject.id := o.result.value]
         else s.journal[r.subject.id := WithoutFinal(FailedWith(o.result.value, ResponseTooLarge))]
  {
    hide Reconcile, Respond;
    var o := Reconcile(s.branch, r, env, false);
    if o.result.Ok? {
      ReplyApplies(s, o.effects, s.branch + Appended(o.effects), o.result.value, env);
    }
  }

  lemma ReplyApplies(s: State, es: seq<Effect>, branch: seq<Body>, u: Record, env: Env)
    ensures
      var reply := Respond(branch, u, env).effects;
      ApplyAll(s, es + reply).journal
      == if reply == [] then ApplyAll(s, es).journal
         else ApplyAll(s, es).journal[u.subject.id := WithoutFinal(FailedWith(u, ResponseTooLarge))]
  {
    var reply := Respond(branch, u, env).effects;
    if reply == [] {
      assert es + [] == es;
    } else {
      assert reply == [Save(WithoutFinal(FailedWith(u, ResponseTooLarge)))];
      ApplyLast(s, es, reply[0]);
    }
  }

  // The record stays failed unless reconciling found its bind marker and the reply did not
  // fail it again.
  lemma RevivedByOutcome(s: State, r: Record, env: Env)
    requires Inv(s) && InFlight(s, r.subject.id) && s.journal[r.subject.id] == r && r.stage.Failed?
    ensures
      var o := Reconcile(s.branch, r, env, false);
      var s' := ApplyAll(s, Resume(s, env).effects);
      && r.subject.id in s'.journal
      && (!s'.journal[r.subject.id].stage.Failed? <==>
            && r.prepare.Some? && (exists b <- s.branch :: BindsFor(b, r.subject)) && o.result.Ok?
            && Respond(s.branch + Appended(o.effects), o.result.value, env).effects == [])
  {
    hide Reconcile, Respond, Resume;
    ResumedJournal(s, r, env);
    if r.prepare.None? {
      UnpreparedStaysFailed(s.branch, r, env);
    } else {
      RevivedOrSame(s, r, env);
    }
  }

  lemma UnpreparedStaysFailed(branch: seq<Body>, r: Record, env: Env)
    requires r.prepare.None?
    ensures var o := Reconcile(branch, r, env, false); o.result.Ok? && o.result.value.stage.Failed?
  {
  }

  lemma ReconciledStage(branch: seq<Body>, r: Record, env: Env)
    requires r.stage.Failed? && r.prepare.Some? && r.prepare.value < |branch| && branch[r.prepare.value] == Prepare(r.subject)
    requires BindMarker(branch, r, r.prepare.value) == Ok(None) ==> r.bind.None?
    ensures
      var o := Reconcile(branch, r, env, false);
      o.result.Ok? ==> (o.result.value.stage.Failed? <==> BindMarker(branch, r, r.prepare.value) == Ok(None))
  {
    hide Recover, Mint, Finish, BindMarker;
  }

  lemma RevivedOrSame(s: State, r: Record, env: Env)
    requires Inv(s) && Current(s, r) && r.stage.Failed? && r.prepare.Some?
    ensures
      var o := Reconcile(s.branch, r, env, false);
      o.result.Ok? ==> (o.result.value.stage.Failed? <==> forall b <- s.branch :: !BindsFor(b, r.subject))
  {
    hide Reconcile, BindMarker;
    CurrentIsPlaced(s, r);
    var found := BindMarker(s.branch, r, r.prepare.value);
    if found == Ok(None) {
      BindMarkersAreAll(s.branch, r);
    } else if found.Ok? {
      assert s.branch[found.value.value] in s.branch;
    }
    ReconciledStage(s.branch, r, env);
  }

  lemma Single(found: seq<nat>, x: nat)
    requires x in found && (forall y <- found :: y == x) && forall k, l | 0 <= k < l < |found| :: found[k] < found[l]
    ensures |found| == 1 && found[0] == x
  {
    assert found[0] in found && found[|found| - 1] in found;
  }

  lemma OneMatchIsFound(branch: seq<Body>, r: Record, p: nat, at: nat)
    requires p < at < |branch| && Names(branch[at], r, p)
    requires forall i | 0 <= i < |branch| && BindsFor(branch[i], r.subject) :: i == at
    ensures BindMarker(branch, r, p) == Ok(Some(at))
  {
    Single(BindMarkers(branch, r, p), at);
  }

  lemma NoMatchIsFound(branch: seq<Body>, r: Record, p: nat)
    requires p < |branch| && forall i | 0 <= i < |branch| :: !BindsFor(branch[i], r.subject)
    ensures BindMarker(branch, r, p) == Ok(None)
  {
  }

  lemma OnePromptIsFound(branch: seq<Body>, lo: nat, hi: nat, prompt: Digest, u: nat)
    requires lo <= u < hi <= |branch| && branch[u].User? && Digest(branch[u].text) == prompt
    requires forall i | lo <= i < hi && branch[i].User? :: i == u
    ensures PromptEntry(branch, lo, hi, prompt) == Ok(Some(u))
  {
    Single(Users(branch, lo, hi), u);
  }

  lemma NoFinalIsFound(branch: seq<Body>, subject: Subject)
    requires forall i | 0 <= i < |branch| :: !FinalFor(branch[i], subject)
    ensures FinalMarker(branch, subject) == Ok(None)
  {
  }

  lemma CopiedMarkerIsFound(branch: seq<Body>, r: Record, now: int, u: nat)
    requires r.prepare.Some? && r.prepare.value < |branch| && (forall b <- branch :: !BindsFor(b, r.subject))
    requires PromptEntry(branch, r.prepare.value + 1, |branch|, r.subject.prompt) == Ok(Some(u))
    requires 0 < now <= r.expiresAt && !r.stage.Finalized?
    ensures
      var more := branch + [BindFor(r, u, now)];
      && BindMarker(more, r, r.prepare.value) == Ok(Some(|branch|))
      && Rebound(more, r, |branch|) == Ok(r.(user := Some(u), bind := Some(|branch|), boundAt := now, stage := Bound))
  {
    hide BindMarker, PromptEntry;
    var more := branch + [BindFor(r, u, now)];
    assert forall i | 0 <= i < |branch| :: branch[i] in branch && more[i] == branch[i];
    OneMatchIsFound(more, r, r.prepare.value, |branch|);
    OnePromptIsFound(more, r.prepare.value + 1, |branch|, r.subject.prompt, u);
  }

  lemma CopyMintFails(branch: seq<Body>, r: Record, env: Env, u: nat)
    requires r.prepare.Some? && r.prepare.value < |branch|
    requires forall i | 0 <= i < |branch| :: !FinalFor(branch[i], r.subject)
    requires PromptEntry(branch, r.prepare.value + 1, |branch|, r.subject.prompt) == Ok(Some(u))
    requires !env.live && env.now <= r.expiresAt
    ensures Mint(branch, r, env) == Outcome([Append(BindFor(r, u, env.now))], Err(CrossedUserBoundary))
  {
    hide PromptEntry, FinalMarker, Mark, Close;
    NoFinalIsFound(branch, r.subject);
    assert FinalAssistant(branch, |branch|) == Err(CrossedUserBoundary);
  }

  lemma CopyFails(branch: seq<Body>, r: Record, env: Env, u: nat)
    requires Placed(branch, r) && r.stage.Dispatching?
    requires forall b <- branch :: !BindsFor(b, r.subject) && !FinalFor(b, r.subject)
    requires PromptEntry(branch, r.prepare.value + 1, |branch|, r.subject.prompt) == Ok(Some(u))
    requires !env.live && env.now <= r.expiresAt
    ensures Reconcile(branch, r, env, true) == Outcome([Append(BindFor(r, u, env.now))], Err(CrossedUserBoundary))
  {
    hide Mint, PromptEntry, BindMarker, Recover, Finish;
    assert forall i | 0 <= i < |branch| :: branch[i] in branch;
    NoMatchIsFound(branch, r, r.prepare.value);
    CopyMintFails(branch, r, env, u);
  }

  lemma MarkerRevives(branch: seq<Body>, r: Record, env: Env, now: int, u: nat)
    requires Placed(branch, r) && r.stage.Failed? && r.prepare.Some?
    requires forall b <- branch :: !BindsFor(b, r.subject) && !FinalFor(b, r.subject)
    requires PromptEntry(branch, r.prepare.value + 1, |branch|, r.subject.prompt) == Ok(Some(u))
    requires 0 < now <= r.expiresAt
    ensures var o := Reconcile(branch + [BindFor(r, u, now)], r, env, false); o.result.Ok? && o.result.value.stage.Bound?
  {
    hide BindMarker, PromptEntry, Rebound, FinalMarker, Mint, Close, Mark;
    var more := branch + [BindFor(r, u, now)];
    assert forall i | 0 <= i < |branch| :: branch[i] in branch && more[i] == branch[i];
    CopiedMarkerIsFound(branch, r, now, u);
    NoFinalIsFound(more, r.subject);
    assert FinalAssistant(more, |branch|) == Ok(None);
  }

  // ---------- When a failed record is revived ----------

  // The bind marker of a subject, inside the time it was given.
  predicate Binding(branch: seq<Body>, r: Record, at: nat) {
    at < |branch| && branch[at].Bind? && branch[at].subject == r.subject && branch[at].boundAt != 0 && branch[at].boundAt <= r.expiresAt
  }

  predicate SoleFinal(branch: seq<Body>, subject: Subject, f: nat) {
    && f < |branch| && branch[f].Finalize? && branch[f].subject == subject
    && forall i | 0 <= i < |branch| && branch[i].Finalize? && branch[i].subject == subject :: i == f
  }

  predicate NoFinal(branch: seq<Body>, subject: Subject) {
    forall i | 0 <= i < |branch| && branch[i].Finalize? :: branch[i].subject != subject
  }

  predicate NoUserAfter(branch: seq<Body>, at: nat) {
    forall i | at < i < |branch| :: !branch[i].User?
  }

  predicate Completed(b: Body) {
    b.Assistant? && b.stop.Stopped?
  }

  predicate NoneCompleted(branch: seq<Body>, at: nat) {
    forall i | at < i < |branch| :: !Completed(branch[i])
  }

  // The one completed assistant after a position, and the last assistant there.
  predicate SoleCompleted(branch: seq<Body>, at: nat, a: nat) {
    && at < a < |branch| && Completed(branch[a])
    && (forall i | at < i < |branch| && Completed(branch[i]) :: i == a)
    && (forall i | at < i < |branch| && branch[i].Assistant? :: i <= a)
  }

  // One final marker, of an assistant after the bind, within what evidence may hold.
  ghost predicate FinalFits(branch: seq<Body>, r: Record, env: Env, at: nat)
    requires r.prepare.Some?
  {
    env.evidenceFits && exists f: nat ::
      SoleFinal(branch, r.subject, f) && branch[f].assistant > at && f - r.prepare.value + 1 <= 4096
  }

  // A bound record whose evidence cannot be described: its reply is a refusal and leaves it.
  predicate Indescribable(branch: seq<Body>, r: Record, at: nat)
    requires r.prepare.Some?
  {
    || at - r.prepare.value + 1 > 4096
    || (r.assistant.Some? && r.prepare.value <= r.assistant.value <= at < |branch| && !branch[r.assistant.value].Assistant?)
  }

  // Nothing completed yet, and no foreign turn.
  predicate StillBound(branch: seq<Body>, r: Record, env: Env, at: nat)
    requires r.prepare.Some?
  {
    && NoFinal(branch, r.subject) && NoUserAfter(branch, at) && NoneCompleted(branch, at)
    && (env.responseFits || Indescribable(branch, r, at))
  }

  // Completed by one usable assistant, which gets its final marker now.
  ghost predicate CompletesNow(branch: seq<Body>, r: Record, env: Env, at: nat)
    requires r.prepare.Some?
  {
    && NoFinal(branch, r.subject) && NoUserAfter(branch, at)
    && env.evidenceFits && |branch| - r.prepare.value + 1 <= 4096
    && exists a: nat :: SoleCompleted(branch, at, a) && branch[a].visible.Some?
  }

  // What the branch, the record and the environment of the resumed request have to be like.
  ghost predicate CanRevive(branch: seq<Body>, r: Record, env: Env) {
    r.prepare.Some? && exists at: nat ::
      Binding(branch, r, at) && (FinalFits(branch, r, env, at) || StillBound(branch, r, env, at) || CompletesNow(branch, r, env, at))
  }

  // ---------- The searches, without their lists ----------

  lemma FinalMarkerIs(branch: seq<Body>, subject: Subject)
    ensures FinalMarker(branch, subject) == Ok(None) <==> NoFinal(branch, subject)
    ensures forall f: nat :: FinalMarker(branch, subject) == Ok(Some(f)) <==> SoleFinal(branch, subject, f)
  {
    if NoFinal(branch, subject) {
      NoFinalIsFound(branch, subject);
    }
    forall f: nat | SoleFinal(branch, subject, f)
      ensures FinalMarker(branch, subject) == Ok(Some(f))
    {
      FinalMarkersRise(branch, subject);
      Single(FinalMarkers(branch, subject), f);
    }
  }

  lemma FinalMarkersRise(branch: seq<Body>, subject: Subject)
    ensures var found := FinalMarkers(branch, subject); forall k, l | 0 <= k < l < |found| :: found[k] < found[l]
  {
    hide Positions;
  }

  lemma NoUserAfterIs(branch: seq<Body>, at: nat)
    requires at < |branch|
    ensures NoUserAfter(branch, at) <==> |Users(branch, at + 1, |branch|)| == 0
  {
    var users := Users(branch, at + 1, |branch|);
    if |users| > 0 {
      assert branch[users[0]].User?;
    } else {
      assert forall i | at < i < |branch| && branch[i].User? :: i in users;
    }
  }

  lemma NoneCompletedIs(branch: seq<Body>, at: nat, completed: seq<nat>)
    requires at < |branch|
    requires completed == Positions(branch, at + 1, |branch|, (b: Body) => b.Assistant? && b.stop.Stopped?)
    ensures NoneCompleted(branch, at) <==> |completed| == 0
  {
    if |completed| > 0 {
      assert Completed(branch[completed[0]]);
    } else {
      assert forall i | at < i < |branch| && Completed(branch[i]) :: i in completed;
    }
  }

  lemma FoundExactlyWhen(branch: seq<Body>, at: nat, a: nat)
    requires at < |branch|
    ensures FinalAssistant(branch, at) == Ok(Some(a)) <==> NoUserAfter(branch, at) && SoleCompleted(branch, at, a)
  {
    hide NoUserAfter, SoleCompleted, Users, Assistants, Positions;
    NoUserAfterIs(branch, at);
    LastCompletedIs(branch, at, a, Assistants(branch, at + 1, |branch|),
                    Positions(branch, at + 1, |branch|, (b: Body) => b.Assistant? && b.stop.Stopped?));
  }

  lemma FinalAssistantIs(branch: seq<Body>, at: nat)
    requires at < |branch|
    ensures FinalAssistant(branch, at) == Ok(None) <==> NoUserAfter(branch, at) && NoneCompleted(branch, at)
    ensures forall a: nat :: FinalAssistant(branch, at) == Ok(Some(a)) <==> NoUserAfter(branch, at) && SoleCompleted(branch, at, a)
  {
    hide NoUserAfter, NoneCompleted, SoleCompleted, Users, Assistants, Positions;
    NoUserAfterIs(branch, at);
    NoneCompletedIs(branch, at, Positions(branch, at + 1, |branch|, (b: Body) => b.Assistant? && b.stop.Stopped?));
    forall a: nat
      ensures FinalAssistant(branch, at) == Ok(Some(a)) <==> NoUserAfter(branch, at) && SoleCompleted(branch, at, a)
    {
      FoundExactlyWhen(branch, at, a);
    }
  }

  lemma LastCompletedIs(branch: seq<Body>, at: nat, a: nat, assistants: seq<nat>, completed: seq<nat>)
    requires at < |branch|
    requires assistants == Assistants(branch, at + 1, |branch|)
    requires completed == Positions(branch, at + 1, |branch|, (b: Body) => b.Assistant? && b.stop.Stopped?)
    ensures SoleCompleted(branch, at, a) <==>
      |completed| == 1 && completed[0] == a && assistants != [] && assistants[|assistants| - 1] == a
  {
    if SoleCompleted(branch, at, a) {
      assert a in completed && a in assistants;
      Single(completed, a);
      LastIsMost(assistants, a);
    } else if |completed| == 1 && completed[0] == a && assistants != [] && assistants[|assistants| - 1] == a {
      assert forall i | at < i < |branch| && branch[i].Assistant? :: i in assistants;
      assert forall i | at < i < |branch| && Completed(branch[i]) :: i in completed;
      SeenLast(assistants, a);
    }
  }

  lemma SeenLast(found: seq<nat>, x: nat)
    requires found != [] && found[|found| - 1] == x && forall k, l | 0 <= k < l < |found| :: found[k] < found[l]
    ensures forall y <- found :: y <= x
  {
  }

  lemma LastIsMost(found: seq<nat>, x: nat)
    requires x in found && (forall y <- found :: y <= x) && forall k, l | 0 <= k < l < |found| :: found[k] < found[l]
    ensures found[|found| - 1] == x
  {
    assert found[|found| - 1] in found;
  }

  // ---------- The three ways ----------

  // Where the bind marker stands and what reconciling binds the record to.
  ghost predicate ReboundTo(branch: seq<Body>, r: Record, at: nat, bound: Record) {
    && BranchOk(branch) && at < |branch| && branch[at].Bind? && r.prepare.Some? && r.prepare.value < at
    && bound == r.(user := Some(branch[at].user), bind := Some(at), boundAt := branch[at].boundAt, stage := Bound)
  }

  lemma ReboundExactlyWhen(branch: seq<Body>, r: Record, at: nat)
    requires BranchOk(branch) && Placed(branch, r) && !r.stage.Finalized? && r.prepare.Some? && at < |branch| && BindsFor(branch[at], r.subject)
    ensures r.prepare.value < at && BindMarker(branch, r, r.prepare.value) == Ok(Some(at))
    ensures Rebound(branch, r, at).Ok? <==> Binding(branch, r, at)
    ensures Rebound(branch, r, at).Ok? ==> ReboundTo(branch, r, at, Rebound(branch, r, at).value)
  {
    hide BindMarker, PromptEntry;
    assert BindPlaced(branch, at);
    OneMatchIsFound(branch, r, r.prepare.value, at);
    OnePromptIsFound(branch, r.prepare.value + 1, at, r.subject.prompt, branch[at].user);
  }

  lemma FinalReplyIsQuiet(branch: seq<Body>, u: Record, env: Env)
    requires u.stage.Finalized? && u.sequence.Some? && u.content.Some?
    ensures Respond(branch, u, env).effects == []
  {
  }

  lemma FinalIsPlaced(branch: seq<Body>, f: nat)
    requires BranchOk(branch) && f < |branch| && branch[f].Finalize?
    ensures FinalPlaced(branch, f)
  {
  }

  // Reconciling succeeded and its reply did not fail the record.
  predicate Succeeds(branch: seq<Body>, o: Outcome, env: Env) {
    o.result.Ok? && Respond(branch + Appended(o.effects), o.result.value, env).effects == []
  }

  lemma TakesFinalExactlyWhen(branch: seq<Body>, r: Record, env: Env, at: nat, bound: Record, f: nat)
    requires ReboundTo(branch, r, at, bound) && SoleFinal(branch, r.subject, f)
    ensures
      var o := Close(branch, branch, bound, env, branch[f], f, []);
      (o.result.Ok? <==> FinalFits(branch, r, env, at)) && (Succeeds(branch, o, env) <==> o.result.Ok?)
  {
    hide Respond, Items, BranchOk;
    FinalIsPlaced(branch, f);
    var o := Close(branch, branch, bound, env, branch[f], f, []);
    if o.result.Ok? {
      FinalReplyIsQuiet(branch + Appended(o.effects), o.result.value, env);
    }
  }

  lemma StaysBoundExactlyWhen(branch: seq<Body>, r: Record, env: Env, at: nat, bound: Record)
    requires ReboundTo(branch, r, at, bound) && NoFinal(branch, r.subject) && NoUserAfter(branch, at) && NoneCompleted(branch, at)
    ensures Succeeds(branch, Saved([], bound), env) <==> StillBound(branch, r, env, at)
  {
    hide BranchOk, NoFinal, NoUserAfter, NoneCompleted, Items;
    var o := Saved([], bound);
    assert o.effects == [Save(bound)] && Appended(o.effects[1..]) == [] && Appended(o.effects) == [];
    assert branch + [] == branch;
  }

  lemma CompletesExactlyWhen(branch: seq<Body>, r: Record, env: Env, at: nat, bound: Record, a: nat)
    requires ReboundTo(branch, r, at, bound) && NoFinal(branch, r.subject) && NoUserAfter(branch, at) && SoleCompleted(branch, at, a)
    ensures
      var o := Mark(branch, branch, bound, env, a, []);
      (o.result.Ok? <==> CompletesNow(branch, r, env, at)) && (Succeeds(branch, o, env) <==> o.result.Ok?)
  {
    hide BranchOk, NoFinal, NoUserAfter, Items, Respond, SoleCompleted;
    CompletedIsStopped(branch, at, a);
    var o := Mark(branch, branch, bound, env, a, []);
    if o.result.Ok? {
      FinalReplyIsQuiet(branch + Appended(o.effects), o.result.value, env);
    }
  }

  lemma CompletedIsStopped(branch: seq<Body>, at: nat, a: nat)
    requires SoleCompleted(branch, at, a)
    ensures at < a < |branch| && branch[a].Assistant? && branch[a].stop.Stopped?
    ensures forall b: nat | SoleCompleted(branch, at, b) :: b == a
    ensures !NoneCompleted(branch, at)
  {
  }

  lemma FinishSucceedsExactlyWhen(branch: seq<Body>, r: Record, env: Env, at: nat, bound: Record)
    requires ReboundTo(branch, r, at, bound)
    ensures Succeeds(branch, Finish(branch, branch, bound, env, []), env) <==>
      FinalFits(branch, r, env, at) || StillBound(branch, r, env, at) || CompletesNow(branch, r, env, at)
  {
    hide FinalMarker, FinalAssistant, Close, Mark, BranchOk, Respond, Appended, NoFinal, NoUserAfter, NoneCompleted, SoleCompleted, SoleFinal;
    FinalMarkerIs(branch, r.subject);
    FinalAssistantIs(branch, at);
    match FinalMarker(branch, r.subject)
    case Err(e) =>
    case Ok(Some(f)) => TakesFinalExactlyWhen(branch, r, env, at, bound, f);
    case Ok(None) =>
      match FinalAssistant(branch, at)
      case Err(e) =>
      case Ok(None) => StaysBoundExactlyWhen(branch, r, env, at, bound);
      case Ok(Some(a)) =>
        CompletedIsStopped(branch, at, a);
        CompletesExactlyWhen(branch, r, env, at, bound, a);
  }

  lemma MarkerDecides(branch: seq<Body>, r: Record, env: Env, at: nat)
    requires BranchOk(branch) && Placed(branch, r) && r.stage.Failed? && r.prepare.Some? && at < |branch| && BindsFor(branch[at], r.subject)
    ensures Succeeds(branch, Reconcile(branch, r, env, false), env) <==> CanRevive(branch, r, env)
  {
    hide BranchOk, Placed, BindMarker, Rebound, Finish, Succeeds, FinalFits, StillBound, CompletesNow;
    ReboundExactlyWhen(branch, r, at);
    OnlyBinding(branch, r, at);
    var rebound := Rebound(branch, r, at);
    RecoverSucceeds(branch, r, env, at);
    if rebound.Ok? {
      FinishSucceedsExactlyWhen(branch, r, env, at, rebound.value);
    }
  }

  lemma OnlyBinding(branch: seq<Body>, r: Record, at: nat)
    requires BranchOk(branch) && at < |branch| && BindsFor(branch[at], r.subject)
    ensures forall other: nat | Binding(branch, r, other) :: other == at
  {
  }

  lemma RecoverSucceeds(branch: seq<Body>, r: Record, env: Env, at: nat)
    requires Placed(branch, r) && r.prepare.Some? && r.prepare.value < at < |branch| && branch[at].Bind?
    requires BindMarker(branch, r, r.prepare.value) == Ok(Some(at))
    ensures
      var rebound := Rebound(branch, r, at);
      Succeeds(branch, Reconcile(branch, r, env, false), env) <==>
        rebound.Ok? && Succeeds(branch, Finish(branch, branch, rebound.value, env, []), env)
  {
    hide BindMarker, Rebound, Finish, Respond, Appended;
  }

  // A failed record whose request is in flight is bound or finalised by that request exactly
  // when the branch holds the bind marker of the record, inside its time, and either one final
  // marker that fits, or no turn but the open one, or one completed turn that can be closed.
  lemma FailedRecordRevivesExactlyWhen(s: State, r: Record, env: Env)
    requires Inv(s) && InFlight(s, r.subject.id) && s.journal[r.subject.id] == r && r.stage.Failed?
    ensures
      var s' := ApplyAll(s, Resume(s, env).effects);
      && r.subject.id in s'.journal
      && (!s'.journal[r.subject.id].stage.Failed? <==> CanRevive(s.branch, r, env))
  {
    hide Reconcile, Respond, Resume, BranchOk, Placed, FinalFits, StillBound, CompletesNow;
    RevivedByOutcome(s, r, env);
    CurrentIsPlaced(s, r);
    if r.prepare.Some? && exists b <- s.branch :: BindsFor(b, r.subject) {
      var at :| 0 <= at < |s.branch| && BindsFor(s.branch[at], r.subject);
      MarkerDecides(s.branch, r, env, at);
    } else {
      UnmarkedCannotRevive(s.branch, r, env);
    }
  }

  lemma UnmarkedCannotRevive(branch: seq<Body>, r: Record, env: Env)
    requires r.prepare.None? || forall b <- branch :: !BindsFor(b, r.subject)
    ensures !CanRevive(branch, r, env)
  {
    assert forall at: nat | Binding(branch, r, at) :: branch[at] in branch && BindsFor(branch[at], r.subject);
  }

  // ---------- A run on which it happens ----------

  lemma CopyFailsFirst(branch: seq<Body>, r: Record, env: Env, u: nat)
    requires Placed(branch, r) && r.stage.Dispatching?
    requires forall b <- branch :: !BindsFor(b, r.subject) && !FinalFor(b, r.subject)
    requires PromptEntry(branch, r.prepare.value + 1, |branch|, r.subject.prompt) == Ok(Some(u))
    requires !env.live && env.now <= r.expiresAt
    ensures
      AfterBinding(r.subject.id, r, Reconcile(branch, r, env, true))
      == [Append(BindFor(r, u, env.now)), Deactivate(r.subject.id), Save(FailedWith(r, AmbiguousUser)), Disarm(r.subject.id)]
  {
    hide Reconcile, PromptEntry;
    CopyFails(branch, r, env, u);
  }

  // Asked, typed in, announced, and started where getBranch returns a copy; then resumed.
  function CopiedRun(subject: Subject, text: string, expiresAt: int, asked: Env, started: Env): seq<Move> {
    [Move(Asks(Request(DispatchKind, subject, expiresAt, Some(text)), asked), None),
     Move(NativeInput(text, true, true), None),
     Move(NativeBeforeStart(text, true), None),
     Move(NativeEntry(User(text)), None),
     Move(NativeTurnStart(started), None)]
  }

  // The record of the run.
  function CopiedRecord(subject: Subject, expiresAt: int, stage: Stage, error: Option<Code>): Record {
    Record(subject, expiresAt, stage, Some(0), None, None, None, None, 0, 0, None, None, error)
  }

  // The state of the run while its prompt is on its way.
  function Underway(subject: Subject, text: string, expiresAt: int, inputs: set<string>, turns: set<string>, log: seq<Happened>): State {
    State([Prepare(subject)], map[subject.id := CopiedRecord(subject, expiresAt, Dispatching, None)],
          Process(Some(Request(DispatchKind, subject, expiresAt, Some(text))), Some(subject.id), inputs, turns, {}), log)
  }

  lemma ApplyThree(s: State, a: Effect, b: Effect, c: Effect)
    ensures ApplyAll(s, [a, b, c]) == Apply(Apply(Apply(s, a), b), c)
  {
    hide Apply;
    ApplyLast(s, [a, b], c);
    ApplyLast(s, [a], b);
    ApplyLast(s, [], a);
    assert [a, b] + [c] == [a, b, c] && [a] + [b] == [a, b] && [] + [a] == [a];
  }

  lemma AskingCreates(subject: Subject, text: string, expiresAt: int, asked: Env)
    requires asked.quiet && asked.now <= expiresAt
    ensures
      var r := CopiedRecord(subject, expiresAt, Prepared, None);
      Create(EMPTY, Request(DispatchKind, subject, expiresAt, Some(text)), asked) == Outcome([Append(Prepare(subject)), Save(r)], Ok(r))
  {
    assert LeftMarker([], subject) == Ok(None);
    assert [Append(Prepare(subject))] + [Save(CopiedRecord(subject, expiresAt, Prepared, None))]
      == [Append(Prepare(subject)), Save(CopiedRecord(subject, expiresAt, Prepared, None))];
  }

  lemma AskingReconciles(subject: Subject, expiresAt: int, asked: Env)
    ensures
      var r := CopiedRecord(subject, expiresAt, Prepared, None);
      Reconcile([Prepare(subject)], r, asked, false) == Outcome([Save(r)], Ok(r))
  {
    hide BindMarker, Recover, Mint, Finish;
    NoMatchIsFound([Prepare(subject)], CopiedRecord(subject, expiresAt, Prepared, None), 0);
  }

  lemma AskingSends(subject: Subject, text: string, expiresAt: int, asked: Env)
    requires asked.quiet && asked.now <= expiresAt
    ensures
      var req, r := Request(DispatchKind, subject, expiresAt, Some(text)), CopiedRecord(subject, expiresAt, Prepared, None);
      Known([Prepare(subject)], {}, r, req, asked) == Served([Save(r), Save(r.(stage := Dispatching)), Send(req)], Waiting)
  {
    hide Reconcile, Settles, Respond;
    AskingReconciles(subject, expiresAt, asked);
    var req, r := Request(DispatchKind, subject, expiresAt, Some(text)), CopiedRecord(subject, expiresAt, Prepared, None);
    assert [Prepare(subject)] + Appended([Save(r)]) == [Prepare(subject)];
    assert Proceed([Prepare(subject)], {}, r, req, asked) == Served([Save(r.(stage := Dispatching)), Send(req)], Waiting);
  }

  lemma AskingEffects(subject: Subject, text: string, expiresAt: int, asked: Env)
    requires asked.quiet && asked.now <= expiresAt
    ensures
      var req, r := Request(DispatchKind, subject, expiresAt, Some(text)), CopiedRecord(subject, expiresAt, Prepared, None);
      Dispatch(EMPTY, req, asked).effects == [Append(Prepare(subject)), Save(r)] + [Save(r), Save(r.(stage := Dispatching)), Send(req)]
  {
    hide Create, Known;
    var r := CopiedRecord(subject, expiresAt, Prepared, None);
    AskingCreates(subject, text, expiresAt, asked);
    AskingSends(subject, text, expiresAt, asked);
    var es := [Append(Prepare(subject)), Save(r)];
    assert es[1..] == [Save(r)] && Appended(es[1..]) == [] && Appended(es) == [Prepare(subject)];
    assert EMPTY.branch + Appended(es) == [Prepare(subject)];
  }

  lemma AskingLeads(subject: Subject, text: string, expiresAt: int, asked: Env)
    requires asked.quiet && asked.now <= expiresAt
    ensures
      Next(EMPTY, CopiedRun(subject, text, expiresAt, asked, asked)[0])
      == Underway(subject, text, expiresAt, {}, {}, [Created(subject.id), Sent(subject.id)])
  {
    hide Dispatch, Apply;
    AskingEffects(subject, text, expiresAt, asked);
    var req, r := Request(DispatchKind, subject, expiresAt, Some(text)), CopiedRecord(subject, expiresAt, Prepared, None);
    var es := [Append(Prepare(subject)), Save(r)];
    ApplyLast(EMPTY, [Append(Prepare(subject))], Save(r));
    ApplyLast(EMPTY, [], Append(Prepare(subject)));
    assert [Append(Prepare(subject))] + [Save(r)] == es && [] + [Append(Prepare(subject))] == [Append(Prepare(subject))];
    ApplyJoins(EMPTY, es, [Save(r), Save(r.(stage := Dispatching)), Send(req)]);
    ApplyThree(ApplyAll(EMPTY, es), Save(r), Save(r.(stage := Dispatching)), Send(req));
    AskingApplies(subject, text, expiresAt);
  }

  lemma AskingApplies(subject: Subject, text: string, expiresAt: int)
    ensures
      var req, r := Request(DispatchKind, subject, expiresAt, Some(text)), CopiedRecord(subject, expiresAt, Prepared, None);
      var s := Apply(Apply(EMPTY, Append(Prepare(subject))), Save(r));
      Apply(Apply(Apply(s, Save(r)), Save(r.(stage := Dispatching))), Send(req))
      == Underway(subject, text, expiresAt, {}, {}, [Created(subject.id), Sent(subject.id)])
  {
    var req, r := Request(DispatchKind, subject, expiresAt, Some(text)), CopiedRecord(subject, expiresAt, Prepared, None);
    var s := Apply(Apply(EMPTY, Append(Prepare(subject))), Save(r));
    assert s.branch == [Prepare(subject)] && s.journal == map[subject.id := r] && s.log == [Created(subject.id)];
    assert s.journal[subject.id := r] == s.journal;
    assert Apply(s, Save(r)) == s by {
      assert s.log + [] == s.log;
    }
    var sending := Apply(s, Save(r.(stage := Dispatching)));
    assert sending.journal == map[subject.id := r.(stage := Dispatching)];
    assert sending.log == s.log;
    assert s.log + [Sent(subject.id)] == [Created(subject.id), Sent(subject.id)];
  }

  lemma InputLeads(subject: Subject, text: string, expiresAt: int, log: seq<Happened>)
    requires subject.prompt == Digest(text)
    ensures
      Next(Underway(subject, text, expiresAt, {}, {}, log), Move(NativeInput(text, true, true), None))
      == Underway(subject, text, expiresAt, {subject.id}, {}, log + [InputSeen(subject.id)])
  {
    var s := Underway(subject, text, expiresAt, {}, {}, log);
    ApplyLast(s, [], AllowInput(subject.id));
    assert [] + [AllowInput(subject.id)] == [AllowInput(subject.id)];
  }

  lemma AnnouncementLeads(subject: Subject, text: string, expiresAt: int, log: seq<Happened>)
    requires subject.prompt == Digest(text)
    ensures
      Next(Underway(subject, text, expiresAt, {subject.id}, {}, log), Move(NativeBeforeStart(text, true), None))
      == Underway(subject, text, expiresAt, {subject.id}, {subject.id}, log + [StartSeen(subject.id)])
  {
    var s := Underway(subject, text, expiresAt, {subject.id}, {}, log);
    ApplyLast(s, [], AllowTurn(subject.id));
    assert [] + [AllowTurn(subject.id)] == [AllowTurn(subject.id)];
  }

  lemma EntryLeads(s: State, text: string)
    ensures Next(s, Move(NativeEntry(User(text)), None)) == s.(branch := s.branch + [User(text)])
  {
    ApplyLast(s, [], Append(User(text)));
    assert [] + [Append(User(text))] == [Append(User(text))] && s.log + [] == s.log;
  }

  // The run once its turn has started: failed, and still waited for.
  function Abandoned(subject: Subject, text: string, expiresAt: int, now: int, log: seq<Happened>): State {
    State([Prepare(subject), User(text), BindFor(CopiedRecord(subject, expiresAt, Dispatching, None), 1, now)],
          map[subject.id := CopiedRecord(subject, expiresAt, Failed, Some(AmbiguousUser))],
          Process(Some(Request(DispatchKind, subject, expiresAt, Some(text))), None, {}, {}, {}), log + [Minted(subject.id)])
  }

  lemma StartEffects(subject: Subject, text: string, expiresAt: int, started: Env, s: State)
    requires subject.prompt == Digest(text) && !started.live && started.now <= expiresAt
    requires s == Underway(subject, text, expiresAt, {subject.id}, {subject.id}, s.log).(branch := [Prepare(subject), User(text)])
    ensures
      var r := CopiedRecord(subject, expiresAt, Dispatching, None);
      EffectsOf(s, NativeTurnStart(started))
      == [Append(BindFor(r, 1, started.now)), Deactivate(subject.id), Save(FailedWith(r, AmbiguousUser)), Disarm(subject.id)]
  {
    hide Reconcile, AfterBinding, PromptEntry;
    var r := CopiedRecord(subject, expiresAt, Dispatching, None);
    OnePromptIsFound(s.branch, 1, 2, subject.prompt, 1);
    CopyFailsFirst(s.branch, r, started, 1);
    assert subject.id in s.journal && s.journal[subject.id].stage == Dispatching;
    assert InStage(s.journal, Dispatching) == Some(r);
  }

  lemma StartLeads(subject: Subject, text: string, expiresAt: int, started: Env, s: State)
    requires subject.prompt == Digest(text) && !started.live && started.now <= expiresAt
    requires s == Underway(subject, text, expiresAt, {subject.id}, {subject.id}, s.log).(branch := [Prepare(subject), User(text)])
    ensures Next(s, Move(NativeTurnStart(started), None)) == Abandoned(subject, text, expiresAt, started.now, s.log)
  {
    hide EffectsOf;
    StartEffects(subject, text, expiresAt, started, s);
    var r, id := CopiedRecord(subject, expiresAt, Dispatching, None), subject.id;
    var marker, failed := BindFor(r, 1, started.now), FailedWith(r, AmbiguousUser);
    ApplyThree(s, Append(marker), Deactivate(id), Save(failed));
    ApplyLast(s, [Append(marker), Deactivate(id), Save(failed)], Disarm(id));
    assert [Append(marker), Deactivate(id), Save(failed)] + [Disarm(id)] == [Append(marker), Deactivate(id), Save(failed), Disarm(id)];
    assert s.branch + [marker] == [Prepare(subject), User(text), marker];
    assert s.journal[id := failed] == map[id := failed];
    assert s.log + [Minted(id)] + [] == s.log + [Minted(id)];
  }

  lemma RunLast(s: State, moves: seq<Move>, m: Move)
    ensures Run(s, moves + [m]) == Next(Run(s, moves), m)
  {
    hide Next;
    assert (moves + [m])[..|moves|] == moves;
  }

  lemma CopiedRunLeads(subject: Subject, text: string, expiresAt: int, asked: Env, started: Env)
    requires subject.prompt == Digest(text) && asked.quiet && asked.now <= expiresAt && !started.live && started.now <= expiresAt
    ensures
      Run(EMPTY, CopiedRun(subject, text, expiresAt, asked, started))
      == Abandoned(subject, text, expiresAt, started.now,
                   [Created(subject.id), Sent(subject.id), InputSeen(subject.id), StartSeen(subject.id)])
  {
    hide Next, Underway, Abandoned;
    var id, ms := subject.id, CopiedRun(subject, text, expiresAt, asked, started);
    assert ms == [] + [ms[0]] + [ms[1]] + [ms[2]] + [ms[3]] + [ms[4]];
    RunLast(EMPTY, [], ms[0]);
    RunLast(EMPTY, [] + [ms[0]], ms[1]);
    RunLast(EMPTY, [] + [ms[0]] + [ms[1]], ms[2]);
    RunLast(EMPTY, [] + [ms[0]] + [ms[1]] + [ms[2]], ms[3]);
    RunLast(EMPTY, [] + [ms[0]] + [ms[1]] + [ms[2]] + [ms[3]], ms[4]);
    AskingLeads(subject, text, expiresAt, asked);
    var log := [Created(id), Sent(id)];
    InputLeads(subject, text, expiresAt, log);
    AnnouncementLeads(subject, text, expiresAt, log + [InputSeen(id)]);
    var s := Underway(subject, text, expiresAt, {id}, {id}, log + [InputSeen(id)] + [StartSeen(id)]);
    EntryLeads(s, text);
    UnderwayShows(subject, text, expiresAt, log + [InputSeen(id)] + [StartSeen(id)], log);
    StartLeads(subject, text, expiresAt, started, s.(branch := s.branch + [User(text)]));
  }

  lemma UnderwayShows(subject: Subject, text: string, expiresAt: int, all: seq<Happened>, log: seq<Happened>)
    requires log == [Created(subject.id), Sent(subject.id)]
    ensures
      var s := Underway(subject, text, expiresAt, {subject.id}, {subject.id}, all);
      s.branch + [User(text)] == [Prepare(subject), User(text)] && s.log == all
    ensures log + [InputSeen(subject.id)] + [StartSeen(subject.id)]
      == [Created(subject.id), Sent(subject.id), InputSeen(subject.id), StartSeen(subject.id)]
  {
  }

  // It does happen, from an empty session: where getBranch returns a copy, minting the bind
  // marker fails the dispatch, and the request that still waits for it then finds the marker
  // and binds the failed record after all.
  lemma CopiedRunFailsThenRevives(subject: Subject, text: string, expiresAt: int, asked: Env, started: Env, resumed: Env)
    requires subject.prompt == Digest(text) && asked.quiet && asked.now <= expiresAt
    requires !started.live && 0 < started.now <= expiresAt && resumed.responseFits
    ensures
      var moves := CopiedRun(subject, text, expiresAt, asked, started);
      var s, s' := Run(EMPTY, moves), Run(EMPTY, moves + [Move(Continues(resumed), None)]);
      && subject.id in s.journal && s.journal[subject.id].stage.Failed? && InFlight(s, subject.id)
      && subject.id in s'.journal && s'.journal[subject.id].stage.Bound?
  {
    hide Run, Resume, Reconcile, PromptEntry, CopiedRun, Inv;
    var moves := CopiedRun(subject, text, expiresAt, asked, started);
    var s, m := Run(EMPTY, moves), Move(Continues(resumed), None);
    CopiedRunLeads(subject, text, expiresAt, asked, started);
    EmptyIsFine();
    EveryRunKeeps(EMPTY, moves);
    RunLast(EMPTY, moves, m);
    var r, before := CopiedRecord(subject, expiresAt, Failed, Some(AmbiguousUser)), [Prepare(subject), User(text)];
    ResumedJournal(s, r, resumed);
    OnePromptIsFound(before, 1, 2, subject.prompt, 1);
    MarkerRevives(before, r, resumed, started.now, 1);
    assert before + [BindFor(r, 1, started.now)] == s.branch;
  }

  lemma EmptyIsFine()
    ensures Inv(EMPTY)
  {
  }
}
