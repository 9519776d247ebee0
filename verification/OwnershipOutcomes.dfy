/** What each event and request of the ownership protocol comes to, and exactly when. */
module OwnershipOutcomes {
  import opened Basics
  import opened Ownership
  import opened OwnershipInvariant
  import opened OwnershipHandlers
  import opened OwnershipRuns
  import opened OwnershipRevival

  // ---------- A turn that ends ----------

  // The only entry after a position that equals a message.
  predicate SoleMatch(branch: seq<Body>, from: nat, last: Body, a: nat) {
    from < a < |branch| && branch[a] == last && forall i | from < i < |branch| && branch[i] == last :: i == a
  }

  predicate NoAssistantAfter(branch: seq<Body>, at: nat) {
    forall i | at < i < |branch| :: !branch[i].Assistant?
  }

  // The entry of an ended turn: no user or assistant entry comes after it.
  predicate EndsTurn(branch: seq<Body>, bind: nat, last: Body, a: nat) {
    SoleMatch(branch, bind, last, a) && NoUserAfter(branch, a) && NoAssistantAfter(branch, a)
  }

  lemma NoAssistantAfterIs(branch: seq<Body>, at: nat)
    requires at < |branch|
    ensures NoAssistantAfter(branch, at) <==> |Assistants(branch, at + 1, |branch|)| == 0
  {
    hide Assistants, Positions;
    var assistants := Assistants(branch, at + 1, |branch|);
    if |assistants| > 0 {
      assert branch[assistants[0]].Assistant?;
    } else {
      assert forall i | at < i < |branch| && branch[i].Assistant? :: i in assistants;
    }
  }

  lemma OneMatchIs(branch: seq<Body>, from: nat, last: Body, a: nat, matches: seq<nat>)
    requires from < |branch| && matches == Positions(branch, from + 1, |branch|, (b: Body) => b == last)
    ensures |matches| == 1 && matches[0] == a <==> SoleMatch(branch, from, last, a)
  {
    hide Positions;
    if SoleMatch(branch, from, last, a) {
      Single(matches, a);
    }
  }

  lemma EndedExactlyWhen(branch: seq<Body>, bind: nat, last: Body, a: nat)
    requires bind < |branch|
    ensures EndedAssistant(branch, Some(bind), last) == Ok(a) <==> EndsTurn(branch, bind, last, a)
  {
    hide Users, Assistants, Positions, NoUserAfter, NoAssistantAfter, SoleMatch;
    OneMatchIs(branch, bind, last, a, Positions(branch, bind + 1, |branch|, (b: Body) => b == last));
    if a < |branch| {
      NoUserAfterIs(branch, a);
      NoAssistantAfterIs(branch, a);
    }
    MatchIsInside(branch, bind, last, a);
  }

  lemma EndedErrors(branch: seq<Body>, bind: Option<nat>, last: Body)
    ensures EndedAssistant(branch, bind, last) != Err(ResponseTooLarge)
  {
    hide Positions, Users, Assistants;
  }

  lemma MatchIsInside(branch: seq<Body>, from: nat, last: Body, a: nat)
    ensures SoleMatch(branch, from, last, a) ==> a < |branch|
  {
  }

  // The record after its turn is closed.
  predicate ClosedAt(branch: seq<Body>, r: Record, a: nat, now: int, u: Record)
    requires a < |branch| && branch[a].Assistant?
  {
    && u.stage.Finalized? && u.assistant == Some(a) && u.finalize == Some(|branch|) && u.content == branch[a].visible
    && u.finalizedAt == (if now < r.boundAt then r.boundAt else now)
    && u.subject == r.subject && u.prepare == r.prepare && u.user == r.user && u.bind == r.bind && u.boundAt == r.boundAt
  }

  // Whether a turn of a bound record can be closed at an entry, if its evidence fits.
  predicate Closable(branch: seq<Body>, r: Record, last: Body, a: nat) {
    && r.bind.Some? && r.prepare.Some? && EndsTurn(branch, r.bind.value, last, a)
    && last.Assistant? && last.visible.Some? && |branch| - r.prepare.value + 1 <= 4096
  }

  lemma SealExactlyWhen(branch: seq<Body>, r: Record, env: Env, a: nat)
    requires r.prepare.Some? && r.prepare.value < a < |branch| && branch[a].Assistant?
    ensures
      var o := Seal(branch, r, env, a);
      && (o.result.Ok? <==> branch[a].visible.Some? && |branch| - r.prepare.value + 1 <= 4096 && env.evidenceFits)
      && (o.result.Ok? ==> ClosedAt(branch, r, a, env.now, o.result.value)
                           && o.effects == [Append(Finalize(r.subject, a, branch[a].visible.value, o.result.value.finalizedAt))])
      && (o.result == Err(ResponseTooLarge) <==>
            branch[a].visible.Some? && |branch| - r.prepare.value + 1 <= 4096 && !env.evidenceFits)
      && (o.effects == [] || (|o.effects| == 1 && o.effects[0].Append? && o.effects[0].body.Finalize?))
  {
    hide Items;
  }

  lemma TurnEndApplies(s: State, es: seq<Effect>, u: Record)
    requires es == [] || (|es| == 1 && es[0].Append? && es[0].body.Finalize?)
    ensures
      var s' := ApplyAll(s, es + [Deactivate(u.subject.id), Save(u)]);
      && s'.journal == s.journal[u.subject.id := u]
      && s'.branch == s.branch + (if es == [] then [] else [es[0].body])
      && s'.process == s.process.(active := s.process.active - {u.subject.id})
  {
    ApplyLast(s, es + [Deactivate(u.subject.id)], Save(u));
    ApplyLast(s, es, Deactivate(u.subject.id));
    assert es + [Deactivate(u.subject.id)] + [Save(u)] == es + [Deactivate(u.subject.id), Save(u)];
    if es != [] {
      assert es[1..] == [];
    }
  }

  // A turn that ends otherwise than normally leaves a bound record alone. One that stopped
  // finalises it, at the entry of the turn, exactly when that entry is the only one of its
  // kind, the last message, usable, and within what evidence may hold. It fails it if not,
  // with the reason, and drops what it had found of an end.
  lemma TurnEndFinalizesExactlyWhen(s: State, r: Record, env: Env, last: Body)
    requires Inv(s) && Current(s, r) && r.stage.Bound?
    ensures
      var s' := ApplyAll(s, TurnEnds(s.branch, r, env, last));
      if !Completed(last) then s' == s
      else
        && r.subject.id in s'.journal
        && (s'.journal[r.subject.id].stage.Finalized? <==> env.evidenceFits && exists a: nat :: Closable(s.branch, r, last, a))
        && (forall a: nat | Closable(s.branch, r, last, a) && env.evidenceFits ::
              && ClosedAt(s.branch, r, a, env.now, s'.journal[r.subject.id])
              && s'.branch == s.branch + [Finalize(r.subject, a, last.visible.value, s'.journal[r.subject.id].finalizedAt)])
        && (!s'.journal[r.subject.id].stage.Finalized? ==>
              s'.journal[r.subject.id] == r.(
                stage := Failed, assistant := None, finalize := None, finalizedAt := 0, sequence := None, content := None,
                error := Some(if exists a: nat :: Closable(s.branch, r, last, a) then ResponseTooLarge else AmbiguousFinalAssistant)))
        && s'.journal - {r.subject.id} == s.journal - {r.subject.id}
        && s'.process == s.process.(active := s.process.active - {r.subject.id})
  {
    hide Inv, Seal, EndedAssistant, EndsTurn;
    if Completed(last) {
      BoundIsPlaced(s, r);
      var o := TurnEvidence(s.branch, r, env, last);
      forall a: nat
        ensures EndedAssistant(s.branch, r.bind, last) == Ok(a) <==> EndsTurn(s.branch, r.bind.value, last, a)
      {
        EndedExactlyWhen(s.branch, r.bind.value, last, a);
      }
      match EndedAssistant(s.branch, r.bind, last)
      case Err(e) =>
        EndedErrors(s.branch, r.bind, last);
        TurnEndApplies(s, [], WithoutFinal(FailedWith(r, if e == ResponseTooLarge then e else AmbiguousFinalAssistant)));
      case Ok(a) =>
        SealExactlyWhen(s.branch, r, env, a);
        assert o.result.Ok? <==> Closable(s.branch, r, last, a) && env.evidenceFits;
        TurnEndApplies(s, o.effects,
          if o.result.Ok? then o.result.value
          else WithoutFinal(FailedWith(r, if o.result.error == ResponseTooLarge then o.result.error else AmbiguousFinalAssistant)));
    }
  }

  lemma BoundIsPlaced(s: State, r: Record)
    requires Inv(s) && Current(s, r) && r.stage.Bound?
    ensures r.bind.Some? && r.prepare.Some? && r.prepare.value < r.bind.value < |s.branch| && BindsFor(s.branch[r.bind.value], r.subject)
  {
    assert BindPlaced(s.branch, r.bind.value);
  }

  // ---------- Reconciling with a bind marker ----------

  // Bound without a completed turn or a foreign one.
  predicate StaysOpen(branch: seq<Body>, r: Record, at: nat) {
    NoFinal(branch, r.subject) && NoUserAfter(branch, at) && NoneCompleted(branch, at)
  }

  // What follows a bind, in terms of what stands after it.
  ghost predicate FinishedAs(branch: seq<Body>, r: Record, env: Env, at: nat, o: Outcome)
    requires r.prepare.Some?
  {
    && (o.result.Ok? ==> o.result.value.stage in {Bound, Finalized} && o.result.value.subject == r.subject)
    && (o.result.Ok? && o.result.value.stage.Finalized? <==> FinalFits(branch, r, env, at) || CompletesNow(branch, r, env, at))
    && (o.result.Ok? && o.result.value.stage.Bound? <==> StaysOpen(branch, r, at))
  }

  lemma FinishExactly(branch: seq<Body>, r: Record, env: Env, at: nat, bound: Record)
    requires ReboundTo(branch, r, at, bound)
    ensures FinishedAs(branch, r, env, at, Finish(branch, branch, bound, env, []))
  {
    hide FinalMarker, FinalAssistant, Close, Mark, BranchOk, NoFinal, NoUserAfter, NoneCompleted, SoleCompleted, SoleFinal;
    FinalMarkerIs(branch, r.subject);
    FinalAssistantIs(branch, at);
    match FinalMarker(branch, r.subject)
    case Err(e) =>
    case Ok(Some(f)) => TakesFinalExactlyWhen(branch, r, env, at, bound, f);
    case Ok(None) =>
      match FinalAssistant(branch, at)
      case Err(e) =>
      case Ok(None) =>
      case Ok(Some(a)) =>
        CompletedIsStopped(branch, at, a);
        CompletesExactlyWhen(branch, r, env, at, bound, a);
  }

  // A record whose bind marker is in the branch.
  lemma MarkerReconciles(s: State, r: Record, env: Env, mayBind: bool, at: nat)
    requires Inv(s) && Current(s, r) && !r.stage.Finalized? && r.prepare.Some?
    requires at < |s.branch| && BindsFor(s.branch[at], r.subject)
    ensures
      var o := Reconcile(s.branch, r, env, mayBind);
      if Binding(s.branch, r, at) then FinishedAs(s.branch, r, env, at, o) else o.result.Err?
  {
    hide Inv, BranchOk, Placed, BindMarker, Rebound, Finish, FinishedAs;
    InvSays(s, r);
    ReboundExactlyWhen(s.branch, r, at);
    if Binding(s.branch, r, at) {
      FinishExactly(s.branch, r, env, at, Rebound(s.branch, r, at).value);
    }
  }

  lemma InvSays(s: State, r: Record)
    requires Inv(s) && Current(s, r)
    ensures BranchOk(s.branch) && Placed(s.branch, r)
  {
  }

  // With evidence that does not fit, the same stretch says so.
  lemma FitDecides(view: seq<Body>, actual: seq<Body>, r: Record, env: Env, es: seq<Effect>)
    requires r.bind.Some? && r.stage.Bound?
    ensures
      var fits, not := Finish(view, actual, r, env.(evidenceFits := true), es), Finish(view, actual, r, env.(evidenceFits := false), es);
      && (not.result == Err(ResponseTooLarge) <==> fits.result.Ok? && fits.result.value.stage.Finalized?)
      && fits.result != Err(ResponseTooLarge)
  {
    hide FinalMarker, FinalAssistant, Items;
    FinalErrors(view, r.subject, r.bind.value);
  }

  lemma FinalErrors(view: seq<Body>, subject: Subject, bind: nat)
    ensures FinalMarker(view, subject) != Err(ResponseTooLarge) && FinalAssistant(view, bind) != Err(ResponseTooLarge)
  {
  }

  lemma ReconcileFitDecides(s: State, r: Record, env: Env)
    requires Inv(s) && Current(s, r) && r.stage.Bound?
    ensures r.bind.Some? && r.prepare.Some?
    ensures
      var at := r.bind.value;
      Reconcile(s.branch, r, env, false).result == Err(ResponseTooLarge) <==>
        && Binding(s.branch, r, at) && !env.evidenceFits
        && (FinalFits(s.branch, r, env.(evidenceFits := true), at) || CompletesNow(s.branch, r, env.(evidenceFits := true), at))
  {
    hide Inv, BranchOk, Placed, BindMarker, PromptEntry, Finish, FinalFits, CompletesNow, StaysOpen;
    InvSays(s, r);
    BoundIsPlaced(s, r);
    var at := r.bind.value;
    ReboundExactlyWhen(s.branch, r, at);
    ReboundErrors(s.branch, r, at);
    if Binding(s.branch, r, at) {
      var bound := Rebound(s.branch, r, at).value;
      FitDecides(s.branch, s.branch, bound, env, []);
      FinishExactly(s.branch, r, env.(evidenceFits := true), at, bound);
      assert env == env.(evidenceFits := true) || env == env.(evidenceFits := false);
    }
  }

  lemma ReboundErrors(branch: seq<Body>, r: Record, at: nat)
    requires r.prepare.Some? && r.prepare.value < at < |branch| && branch[at].Bind?
    ensures Rebound(branch, r, at) != Err(ResponseTooLarge)
  {
    hide Users, Positions;
  }

  // How the last assistant after a position stopped, if there is one.
  function LastStop(branch: seq<Body>, at: nat): Option<Stop>
    decreases |branch|
  {
    if |branch| <= at + 1 then None
    else if branch[|branch| - 1].Assistant? then Some(branch[|branch| - 1].stop)
    else LastStop(branch[..|branch| - 1], at)
  }

  lemma {:induction false} AssistantsOfPrefix(branch: seq<Body>, lo: nat)
    requires branch != [] && lo < |branch|
    ensures Assistants(branch, lo, |branch|) == Assistants(branch[..|branch| - 1], lo, |branch| - 1)
      + if branch[|branch| - 1].Assistant? then [|branch| - 1] else []
  {
    PositionsOfPrefix(branch, lo, |branch| - 1, (b: Body) => b.Assistant?);
  }

  lemma {:induction false} PositionsOfPrefix(branch: seq<Body>, lo: nat, hi: nat, test: Body -> bool)
    requires hi < |branch|
    ensures Positions(branch, lo, hi, test) == Positions(branch[..|branch| - 1], lo, hi, test)
    decreases hi
  {
    if lo < hi {
      PositionsOfPrefix(branch, lo, hi - 1, test);
    }
  }

  lemma {:induction false} LastStopIs(branch: seq<Body>, at: nat)
    requires at < |branch|
    ensures
      var found := Assistants(branch, at + 1, |branch|);
      LastStop(branch, at) == if found == [] then None else Some(branch[found[|found| - 1]].stop)
    decreases |branch|
  {
    hide Assistants, Positions;
    if at + 1 < |branch| {
      AssistantsOfPrefix(branch, at + 1);
      LastStopIs(branch[..|branch| - 1], at);
    }
  }

  // Why a settled record fails: how its last assistant stopped, if nothing completed and no one
  // else spoke; that the evidence does not fit, if nothing else was missing; or the muddle.
  ghost function SettledCode(branch: seq<Body>, r: Record, env: Env, at: nat): Code
    requires r.prepare.Some?
  {
    if Binding(branch, r, at) && StaysOpen(branch, r, at) then AssistantEnded(LastStop(branch, at))
    else if Binding(branch, r, at) && !env.evidenceFits
         && (FinalFits(branch, r, env.(evidenceFits := true), at) || CompletesNow(branch, r, env.(evidenceFits := true), at))
    then ResponseTooLarge
    else SettledAmbiguous
  }

  lemma SettledIsInactive(s: State, r: Record, env: Env)
    requires Inv(s) && Current(s, r) && r.stage.Bound?
    ensures ApplyAll(s, Settles(s.branch, r, env).0).process == s.process.(active := s.process.active - {r.subject.id})
  {
    hide Inv, Reconcile, Ending;
    SettlesReconciles(s, r, env);
    var o, first := Reconcile(s.branch, r, env, false), [Deactivate(r.subject.id)];
    var es, u := Settles(s.branch, r, env).0, Settles(s.branch, r, env).1;
    if es != first + o.effects {
      assert es == first + o.effects + [Save(u)];
      ApplyLast(s, first + o.effects, Save(u));
    }
  }

  lemma BoundIsSaved(branch: seq<Body>, bound: Record, env: Env)
    requires bound.bind.Some? && bound.stage.Bound?
    ensures var o := Finish(branch, branch, bound, env, []); o.result.Ok? && o.result.value.stage.Bound? ==> o == Outcome([Save(bound)], Ok(bound))
  {
    hide FinalMarker, FinalAssistant;
  }

  lemma StillOpenEnds(s: State, r: Record, env: Env)
    requires Inv(s) && Current(s, r) && r.stage.Bound?
    ensures
      var o := Reconcile(s.branch, r, env, false);
      o.result.Ok? && o.result.value.stage.Bound? ==>
        r.bind.Some? && Ending(s.branch + Appended(o.effects), o.result.value) == AssistantEnded(LastStop(s.branch, r.bind.value))
  {
    hide Inv, BranchOk, Placed, BindMarker, Rebound, Finish, Assistants, LastStop;
    InvSays(s, r);
    BoundIsPlaced(s, r);
    ReboundExactlyWhen(s.branch, r, r.bind.value);
    LastStopIs(s.branch, r.bind.value);
    if Rebound(s.branch, r, r.bind.value).Ok? {
      BoundIsSaved(s.branch, Rebound(s.branch, r, r.bind.value).value, env);
    }
    var o := Reconcile(s.branch, r, env, false);
    if o.result.Ok? && o.result.value.stage.Bound? {
      var u := o.result.value;
      assert o.effects == [Save(u)] && Appended([Save(u)][1..]) == [] && s.branch + [] == s.branch;
    }
  }

  // A settled agent ends a bound record: finalised by what its turn left, or failed.
  lemma SettledExactlyWhen(s: State, r: Record, env: Env)
    requires Inv(s) && Current(s, r) && r.stage.Bound?
    ensures
      var s' := ApplyAll(s, Settles(s.branch, r, env).0);
      && r.bind.Some? && r.prepare.Some? && r.subject.id in s'.journal
      && s'.journal[r.subject.id].stage in {Finalized, Failed}
      && (s'.journal[r.subject.id].stage.Finalized? <==>
            && Binding(s.branch, r, r.bind.value)
            && (FinalFits(s.branch, r, env, r.bind.value) || CompletesNow(s.branch, r, env, r.bind.value)))
      && (s'.journal[r.subject.id].stage.Failed? ==> s'.journal[r.subject.id].error == Some(SettledCode(s.branch, r, env, r.bind.value)))
      && s'.process == s.process.(active := s.process.active - {r.subject.id})
  {
    hide Inv, Reconcile, Ending, FinalFits, CompletesNow, StaysOpen;
    BoundIsPlaced(s, r);
    SettlesFine(s, r, env);
    MarkerReconciles(s, r, env, false, r.bind.value);
    ReconcileFitDecides(s, r, env);
    SettledIsInactive(s, r, env);
    if Reconcile(s.branch, r, env, false).result.Ok? {
      StillOpenEnds(s, r, env);
    }
  }

  // ---------- A turn that starts ----------

  // The only user entry after the prepare marker, and it is the prompt.
  predicate SolePrompt(branch: seq<Body>, r: Record, u: nat)
    requires r.prepare.Some?
  {
    && r.prepare.value < u < |branch| && branch[u].User? && Digest(branch[u].text) == r.subject.prompt
    && forall i | r.prepare.value < i < |branch| && branch[i].User? :: i == u
  }

  lemma PromptExactlyWhen(branch: seq<Body>, r: Record)
    requires r.prepare.Some? && r.prepare.value < |branch|
    ensures
      var found := PromptEntry(branch, r.prepare.value + 1, |branch|, r.subject.prompt);
      && (found == Ok(None) <==> NoUserAfter(branch, r.prepare.value))
      && forall u: nat :: found == Ok(Some(u)) <==> SolePrompt(branch, r, u)
  {
    hide Users, Positions;
    var p := r.prepare.value;
    var users := Users(branch, p + 1, |branch|);
    NoUserAfterIs(branch, p);
    forall u: nat | SolePrompt(branch, r, u)
      ensures PromptEntry(branch, p + 1, |branch|, r.subject.prompt) == Ok(Some(u))
    {
      OnePromptIsFound(branch, p + 1, |branch|, r.subject.prompt, u);
    }
  }

  // Minting over the growing branch binds; over a copy it never does.
  lemma MintExactly(branch: seq<Body>, r: Record, env: Env, u: nat)
    requires BranchOk(branch) && r.prepare.Some? && r.prepare.value < |branch| && SolePrompt(branch, r, u) && env.now <= r.expiresAt
    ensures
      var o := Mint(branch, r, env);
      && (o.result.Ok? <==> env.live && NoFinal(branch, r.subject))
      && (o.result.Ok? ==>
            && o.result.value == r.(user := Some(u), boundAt := env.now, bind := Some(|branch|), stage := Bound)
            && Appended(o.effects) == [BindFor(r, u, env.now)])
  {
    hide FinalMarker, FinalAssistant, PromptEntry, BranchOk, Mark, Describe, NoFinal, SoleFinal;
    PromptExactlyWhen(branch, r);
    var marker := BindFor(r, u, env.now);
    var more := branch + [marker];
    FinalsBefore(branch, more, r.subject);
    FinalMarkerIs(branch, r.subject);
    FinalMarkerIs(more, r.subject);
    FinalAssistantIs(more, |branch|);
    NothingAfter(more);
    assert FinalAssistant(branch, |branch|) == Err(CrossedUserBoundary) by { OutsideIsCrossed(branch); }
    AppendedOnce(marker, r.(user := Some(u), boundAt := env.now, bind := Some(|branch|), stage := Bound));
  }

  lemma OutsideIsCrossed(branch: seq<Body>)
    ensures FinalAssistant(branch, |branch|) == Err(CrossedUserBoundary)
  {
  }

  lemma NothingAfter(branch: seq<Body>)
    requires branch != []
    ensures NoUserAfter(branch, |branch| - 1) && NoneCompleted(branch, |branch| - 1)
  {
  }

  // A final marker stands after the assistant it names, so none of an older branch fits.
  lemma FinalsBefore(branch: seq<Body>, more: seq<Body>, subject: Subject)
    requires BranchOk(branch) && |more| == |branch| + 1 && more[..|branch|] == branch && more[|branch|].Bind?
    ensures NoFinal(more, subject) <==> NoFinal(branch, subject)
    ensures forall f: nat | SoleFinal(more, subject, f) :: f < |branch| && more[f] == branch[f] && branch[f].Finalize? && branch[f].assistant < |branch|
    ensures forall f: nat | SoleFinal(branch, subject, f) :: branch[f].Finalize? && !NoFinal(branch, subject)
  {
    forall i | 0 <= i < |branch|
      ensures more[i] == branch[i]
    {
      assert more[..|branch|][i] == branch[i];
    }
    forall f | 0 <= f < |branch| && branch[f].Finalize?
      ensures branch[f].assistant < f
    {
      FinalIsPlaced(branch, f);
    }
  }

  lemma AppendedOnce(body: Body, u: Record)
    ensures Appended([Append(body)] + [Save(u)]) == [body]
  {
    AppendedJoins([Append(body)], Save(u));
    assert [Append(body)][1..] == [] && [body] + [] == [body];
  }

  // What binding comes to, without a bind marker in the branch.
  predicate BoundNow(branch: seq<Body>, r: Record, env: Env, u: nat)
    requires r.prepare.Some?
  {
    SolePrompt(branch, r, u) && env.now <= r.expiresAt && env.live && NoFinal(branch, r.subject)
  }

  predicate StillWaits(branch: seq<Body>, r: Record, env: Env)
    requires r.prepare.Some?
  {
    NoUserAfter(branch, r.prepare.value) && (env.now <= r.expiresAt || !env.quiet)
  }

  lemma UnmarkedReconciles(branch: seq<Body>, r: Record, env: Env)
    requires BranchOk(branch) && Placed(branch, r) && r.stage.Dispatching?
    requires forall b <- branch :: !BindsFor(b, r.subject)
    ensures
      var o := Reconcile(branch, r, env, true);
      && (forall u: nat | BoundNow(branch, r, env, u) ::
            && o.result == Ok(r.(user := Some(u), boundAt := env.now, bind := Some(|branch|), stage := Bound))
            && Appended(o.effects) == [BindFor(r, u, env.now)])
      && (StillWaits(branch, r, env) ==> o.result == Ok(r))
      && (!StillWaits(branch, r, env) && (forall u: nat :: !BoundNow(branch, r, env, u)) ==>
            o.result.Err? || o.result.value == FailedWith(r, IndeterminateBeforeBind))
  {
    hide BranchOk, BindMarker, Finish, PromptEntry, Recover, NoFinal, NoUserAfter, SolePrompt;
    assert forall i | 0 <= i < |branch| :: branch[i] in branch;
    NoMatchIsFound(branch, r, r.prepare.value);
    PromptExactlyWhen(branch, r);
    match PromptEntry(branch, r.prepare.value + 1, |branch|, r.subject.prompt)
    case Err(e) =>
      assert !NoUserAfter(branch, r.prepare.value) && forall u: nat :: !SolePrompt(branch, r, u);
    case Ok(None) =>
      assert NoUserAfter(branch, r.prepare.value) && forall u: nat :: !SolePrompt(branch, r, u);
    case Ok(Some(u)) =>
      PromptIsUser(branch, r, u);
      if env.now <= r.expiresAt {
        MintExactly(branch, r, env, u);
      }
      assert BoundNow(branch, r, env, u) <==> env.now <= r.expiresAt && env.live && NoFinal(branch, r.subject);
  }

  lemma PromptIsUser(branch: seq<Body>, r: Record, u: nat)
    requires r.prepare.Some? && SolePrompt(branch, r, u)
    ensures !NoUserAfter(branch, r.prepare.value)
    ensures forall v: nat | SolePrompt(branch, r, v) :: v == u
  {
  }

  // A turn start gives its authorisation back. The process now runs the turn of a record it
  // has bound, and none of one that failed.
  function GivenBack(p: Process, id: string, stage: Stage): Process {
    p.(pending := if p.pending == Some(id) then None else p.pending, inputs := p.inputs - {id}, turns := p.turns - {id},
       active := if stage.Bound? then p.active + {id} else if stage.Failed? then p.active - {id} else p.active)
  }

  // The state after a turn start's attempt to bind: the result is saved, or the record failed.
  lemma AttemptApplies(s: State, r: Record, env: Env)
    requires Inv(s) && Current(s, r) && r.stage.Dispatching? && r.subject.id in s.process.turns
    ensures
      var o := Reconcile(s.branch, r, env, true);
      var s' := ApplyAll(s, TurnStarts(s.branch, s.process.turns, r, env));
      && s'.branch == s.branch + Appended(o.effects)
      && s'.journal == s.journal[r.subject.id := if o.result.Ok? then o.result.value else FailedWith(r, AmbiguousUser)]
      && s'.process == GivenBack(s.process, r.subject.id, s'.journal[r.subject.id].stage)
  {
    hide Inv, Reconcile, Placed, Lawful;
    TurnIsEarned(s, r.subject.id);
    ReconcileLands(s, r, env, true);
    var o, id := Reconcile(s.branch, r, env, true), r.subject.id;
    if o.result.Ok? {
      var u := o.result.value;
      var soft := if u.stage.Bound? then [Activate(id)] else if u.stage.Failed? then [Deactivate(id)] else [];
      SoftThenDisarm(s, o.effects, soft, id);
    } else {
      var failed := FailedWith(r, AmbiguousUser);
      ApplyJoins(s, o.effects, [Deactivate(id), Save(failed), Disarm(id)]);
      ApplyThree(ApplyAll(s, o.effects), Deactivate(id), Save(failed), Disarm(id));
    }
  }

  lemma TurnIsEarned(s: State, id: string)
    requires Inv(s) && id in s.process.turns
    ensures Progress(s.log, id) == 3
  {
  }

  lemma SoftThenDisarm(s: State, es: seq<Effect>, soft: seq<Effect>, id: string)
    requires soft == [] || (|soft| == 1 && Soft(soft[0]))
    ensures
      var s' := ApplyAll(s, es + soft + [Disarm(id)]);
      && s'.branch == ApplyAll(s, es).branch && s'.journal == ApplyAll(s, es).journal
      && s'.process == Apply(if soft == [] then ApplyAll(s, es) else Apply(ApplyAll(s, es), soft[0]), Disarm(id)).process
  {
    ApplyLast(s, es + soft, Disarm(id));
    if soft == [] {
      assert es + soft == es;
    } else {
      assert soft == [soft[0]];
      ApplyLast(s, es, soft[0]);
    }
  }

  // The turn start of a dispatching record that has no bind marker yet: it is bound, here and
  // now, exactly when its turn was authorised, the one user entry since its prepare marker is
  // its prompt, it has not expired, no final marker is there before it and the branch grows
  // live; it goes on waiting exactly when its turn was authorised and nothing was typed in
  // time; and fails if neither holds.
  lemma TurnStartBindsExactlyWhen(s: State, r: Record, env: Env)
    requires Inv(s) && Current(s, r) && r.stage.Dispatching? && forall b <- s.branch :: !(b.Bind? && b.subject == r.subject)
    ensures
      var s' := ApplyAll(s, TurnStarts(s.branch, s.process.turns, r, env));
      var earned := r.subject.id in s.process.turns;
      && r.prepare.Some? && r.subject.id in s'.journal
      && var stage := s'.journal[r.subject.id].stage;
      && (stage.Bound? <==> earned && exists u: nat :: BoundNow(s.branch, r, env, u))
      && (forall u: nat | earned && BoundNow(s.branch, r, env, u) ::
            && s'.branch == s.branch + [Bind(r.subject, r.prepare.value, u, r.subject.prompt, env.now)]
            && s'.journal[r.subject.id] == r.(user := Some(u), boundAt := env.now, bind := Some(|s.branch|), stage := Bound))
      && (stage.Dispatching? <==> earned && StillWaits(s.branch, r, env))
      && (stage.Dispatching? || stage.Bound? || stage.Failed?)
      && s'.process == GivenBack(s.process, r.subject.id, stage)
      && s'.journal - {r.subject.id} == s.journal - {r.subject.id}
  {
    hide Inv, Placed, Reconcile, BoundNow, StillWaits, TurnStarts;
    InvSays(s, r);
    PreparedIsPlaced(s, r);
    UnmarkedReconciles(s.branch, r, env);
    var id := r.subject.id;
    if id in s.process.turns {
      AttemptApplies(s, r, env);
      if exists u: nat :: BoundNow(s.branch, r, env, u) {
        var u: nat :| BoundNow(s.branch, r, env, u);
        BoundIsNotWaiting(s.branch, r, env, u);
      }
    } else {
      UnearnedFails(s, r, env);
    }
  }

  lemma UnearnedFails(s: State, r: Record, env: Env)
    requires r.subject.id !in s.process.turns
    ensures
      var s' := ApplyAll(s, TurnStarts(s.branch, s.process.turns, r, env));
      && s'.branch == s.branch && s'.journal == s.journal[r.subject.id := FailedWith(r, Unattributed)]
      && s'.process == GivenBack(s.process, r.subject.id, Failed)
  {
    ApplyThree(s, Deactivate(r.subject.id), Save(FailedWith(r, Unattributed)), Disarm(r.subject.id));
  }

  lemma PreparedIsPlaced(s: State, r: Record)
    requires Inv(s) && Current(s, r) && !r.stage.Failed?
    ensures r.prepare.Some? && r.prepare.value < |s.branch| && s.branch[r.prepare.value] == Prepare(r.subject)
  {
  }

  lemma BoundIsNotWaiting(branch: seq<Body>, r: Record, env: Env, u: nat)
    requires r.prepare.Some? && BoundNow(branch, r, env, u)
    ensures !StillWaits(branch, r, env)
  {
  }

  // With a bind marker that a process left which died before its save, the turn start takes
  // over what stands after it.
  lemma TurnStartRecovers(s: State, r: Record, env: Env, at: nat)
    requires Inv(s) && Current(s, r) && r.stage.Dispatching? && r.subject.id in s.process.turns
    requires at < |s.branch| && s.branch[at].Bind? && s.branch[at].subject == r.subject
    ensures
      var s' := ApplyAll(s, TurnStarts(s.branch, s.process.turns, r, env));
      && r.prepare.Some? && r.subject.id in s'.journal
      && var stage := s'.journal[r.subject.id].stage;
      && (stage.Finalized? <==> Binding(s.branch, r, at) && (FinalFits(s.branch, r, env, at) || CompletesNow(s.branch, r, env, at)))
      && (stage.Bound? <==> Binding(s.branch, r, at) && StaysOpen(s.branch, r, at))
      && (stage.Finalized? || stage.Bound? || stage.Failed?)
      && s'.process == GivenBack(s.process, r.subject.id, stage)
  {
    hide Inv, Reconcile, FinalFits, CompletesNow, StaysOpen, Binding;
    PreparedIsPlaced(s, r);
    AttemptApplies(s, r, env);
    MarkerReconciles(s, r, env, true, at);
  }

  // ---------- Requests ----------

  // When a request is handed to the agent.
  ghost predicate Sends(s: State, req: Request, env: Env) {
    && req.kind.DispatchKind? && req.prompt.Some? && env.quiet && env.now <= req.expiresAt
    && (forall b <- s.branch :: !(b.Bind? && b.subject == req.subject))
    && if req.subject.id in s.journal then
         var r := s.journal[req.subject.id];
         r.stage.Prepared? && r.subject == req.subject && r.expiresAt == req.expiresAt
       else (forall id <- s.journal :: s.journal[id].stage in {Finalized, Failed}) && |s.journal| < 16
  }

  lemma MarkedDoesNotSend(branch: seq<Body>, active: set<string>, r: Record, req: Request, env: Env)
    requires BranchOk(branch) && Placed(branch, r) && r.stage.Prepared? && exists b <- branch :: BindsFor(b, r.subject)
    ensures !Known(branch, active, r, req, env).reply.Waiting?
  {
    hide BranchOk, Placed, BindMarker, Finish, Recover, Mint, Respond, Settles;
    var at :| 0 <= at < |branch| && BindsFor(branch[at], r.subject);
    PreparedHasPrepare(branch, r);
    ReboundExactlyWhen(branch, r, at);
    assert Reconcile(branch, r, env, false) == Recover(branch, r, env, at);
  }

  lemma PreparedHasPrepare(branch: seq<Body>, r: Record)
    requires Placed(branch, r) && !r.stage.Failed?
    ensures r.prepare.Some? && r.prepare.value < |branch| && branch[r.prepare.value] == Prepare(r.subject)
  {
  }

  lemma StartedIsPrepared(s: State, req: Request, env: Env)
    requires BranchOk(s.branch) && env.now <= req.expiresAt
    ensures
      var (effects, r) := Started(s.branch, req, env);
      var branch := s.branch + Appended(effects);
      && r.stage.Prepared? && r.subject == req.subject && r.expiresAt == req.expiresAt
      && BranchOk(branch) && Placed(branch, r)
      && ((exists b <- branch :: BindsFor(b, req.subject)) <==> exists b <- s.branch :: BindsFor(b, req.subject))
  {
    hide LeftMarker, BranchOk;
    OneMarkerIsLeft(s.branch, req.subject);
    var found := LeftMarker(s.branch, req.subject);
    if found == Ok(None) {
      assert Appended([Append(Prepare(req.subject))][1..]) == [];
      assert Appended([Append(Prepare(req.subject))]) == [Prepare(req.subject)];
      MarkedBranchIsOk(s, req.subject);
    } else {
      assert Appended([]) == [] && s.branch + [] == s.branch;
    }
  }

  lemma OneMarkerIsLeft(branch: seq<Body>, subject: Subject)
    requires BranchOk(branch)
    ensures LeftMarker(branch, subject).Ok?
  {
    hide BindsPlaced, FinalsPlaced, OneBind;
    var markers := Positions(branch, 0, |branch|, (b: Body) => b == Prepare(subject));
    assert forall x, y | x in markers && y in markers :: x == y;
    AtMostOne(markers);
  }

  lemma AtMostOne(found: seq<nat>)
    requires (forall x, y | x in found && y in found :: x == y) && forall k, l | 0 <= k < l < |found| :: found[k] < found[l]
    ensures |found| <= 1
  {
    if found != [] {
      Single(found, found[0]);
    }
  }

  lemma MarkedBranchIsOk(s: State, subject: Subject)
    requires BranchOk(s.branch) && forall b <- s.branch :: b != Prepare(subject)
    ensures BranchOk(s.branch + [Prepare(subject)])
  {
    AppendKeepsOne(s, Prepare(subject));
    AppendKeepsBinds(s, Prepare(subject));
    AppendKeepsFinals(s, Prepare(subject));
  }

  lemma NewSendsExactlyWhen(s: State, req: Request, env: Env)
    requires Inv(s) && req.subject.id !in s.journal && !req.kind.AckKind?
    ensures Serve(s, req, env).reply.Waiting? <==> Sends(s, req, env)
  {
    hide Inv, BranchOk, Placed, Known, Started;
    var (effects, r) := Started(s.branch, req, env);
    InvIsOk(s);
    if env.now <= req.expiresAt {
      StartedIsPrepared(s, req, env);
      CreatedIs(s, req, env);
      var branch := s.branch + Appended(effects);
      if exists b <- s.branch :: BindsFor(b, req.subject) {
        MarkedDoesNotSend(branch, s.process.active, r, req, env);
      } else {
        UnmarkedSends(branch, s.process.active, r, req, env);
      }
    } else {
      ExpiredDoesNotSend(s, req, env);
    }
  }

  lemma InvIsOk(s: State)
    requires Inv(s)
    ensures BranchOk(s.branch) && forall id <- s.journal :: s.journal[id].subject.id == id && Placed(s.branch, s.journal[id])
  {
  }

  lemma CreatedIs(s: State, req: Request, env: Env)
    requires env.now <= req.expiresAt
    ensures
      var (effects, r) := Started(s.branch, req, env);
      var o := Create(s, req, env);
      if !HasOpen(s.journal) && req.kind.DispatchKind? && req.prompt.Some? && env.quiet && |s.journal| < MAX_RECORDS
      then o.result == Ok(r) && Appended(o.effects) == Appended(effects) else o.result.Err?
  {
    hide Started;
    var (effects, r) := Started(s.branch, req, env);
    AppendedJoins(effects, Save(r));
    assert Appended(effects) + [] == Appended(effects);
  }

  lemma ExpiredDoesNotSend(s: State, req: Request, env: Env)
    requires env.now > req.expiresAt && req.subject.id !in s.journal && !req.kind.AckKind?
    ensures !Serve(s, req, env).reply.Waiting?
  {
  }

  lemma KnownSendsExactlyWhen(s: State, req: Request, env: Env)
    requires Inv(s) && req.subject.id in s.journal && !req.kind.AckKind?
    ensures Serve(s, req, env).reply.Waiting? <==> Sends(s, req, env)
  {
    hide Inv, BranchOk, Placed;
    InvIsOk(s);
    var r := s.journal[req.subject.id];
    if r.subject != req.subject || r.expiresAt != req.expiresAt {
      assert !Serve(s, req, env).reply.Waiting?;
    } else if r.stage.Prepared? {
      if exists b <- s.branch :: BindsFor(b, r.subject) {
        MarkedDoesNotSend(s.branch, s.process.active, r, req, env);
      } else {
        UnmarkedSends(s.branch, s.process.active, r, req, env);
      }
    } else {
      UnpreparedDoesNotSend(s.branch, s.process.active, r, req, env);
    }
  }

  lemma UnpreparedDoesNotSend(branch: seq<Body>, active: set<string>, r: Record, req: Request, env: Env)
    requires !r.stage.Prepared?
    ensures !Known(branch, active, r, req, env).reply.Waiting?
  {
    hide Reconcile, Respond, Settles;
  }

  lemma UnmarkedSends(branch: seq<Body>, active: set<string>, r: Record, req: Request, env: Env)
    requires BranchOk(branch) && Placed(branch, r) && r.stage.Prepared? && forall b <- branch :: !BindsFor(b, r.subject)
    ensures Known(branch, active, r, req, env).reply.Waiting? <==>
      req.kind.DispatchKind? && req.prompt.Some? && env.now <= r.expiresAt && env.quiet
  {
    hide BranchOk, BindMarker, Finish, Recover, Mint, Respond, Settles;
    assert forall i | 0 <= i < |branch| :: branch[i] in branch;
    NoMatchIsFound(branch, r, r.prepare.value);
    assert Reconcile(branch, r, env, false) == Outcome([Save(r)], Ok(r));
  }

  // A request hands its prompt to the agent, once, exactly when it is a dispatch in time with
  // the agent idle, its subject was never bound, and its record is still prepared or can be
  // new. The record is then dispatching and the request waited for.
  lemma SendsExactlyWhen(s: State, req: Request, env: Env)
    requires Inv(s)
    ensures
      var served := Dispatch(s, req, env);
      var s' := ApplyAll(s, served.effects);
      && (served.reply.Waiting? <==> Sends(s, req, env))
      && ((exists e <- served.effects :: e.Send?) <==> Sends(s, req, env))
      && (Sends(s, req, env) ==>
            && s'.process.inFlight == Some(req) && s'.process.pending == Some(req.subject.id)
            && req.subject.id in s'.journal && s'.journal[req.subject.id].stage.Dispatching? && s'.journal[req.subject.id].subject == req.subject)
  {
    hide Inv, Known, Create, Sends;
    if req.kind.AckKind? {
      AckDoesNotSend(s, req, env);
    } else if req.subject.id in s.journal {
      KnownSendsExactlyWhen(s, req, env);
    } else {
      NewSendsExactlyWhen(s, req, env);
    }
    var es := Dispatch(s, req, env).effects;
    if Dispatch(s, req, env).reply.Waiting? {
      SendingLeaves(s, es, req);
    }
  }

  lemma AckDoesNotSend(s: State, req: Request, env: Env)
    requires req.kind.AckKind?
    ensures !Dispatch(s, req, env).reply.Waiting? && !Sends(s, req, env)
  {
  }

  lemma SendingLeaves(s: State, es: seq<Effect>, req: Request)
    requires EndsSending(es, req, req.subject)
    ensures
      var s' := ApplyAll(s, es);
      && (exists e <- es :: e.Send?)
      && s'.process.inFlight == Some(req) && s'.process.pending == Some(req.subject.id)
      && req.subject.id in s'.journal && s'.journal[req.subject.id] == es[|es| - 2].record
  {
    var n := |es| - 1;
    assert es[n] in es;
    ApplyLast(s, es[..n], es[n]);
    ApplyLast(s, es[..n - 1], es[n - 1]);
    assert es[..n] + [es[n]] == es && es[..n - 1] + [es[n - 1]] == es[..n];
  }

  // An acknowledgement is taken exactly when it names a terminal record and repeats its
  // evidence, and then removes that record and nothing else.
  lemma AcknowledgedExactlyWhen(s: State, req: Request, env: Env)
    requires req.kind.AckKind?
    ensures
      var served, id := Dispatch(s, req, env), req.subject.id;
      && (served.reply.Acknowledged? <==>
            && id in s.journal && s.journal[id].subject == req.subject && s.journal[id].expiresAt == req.expiresAt
            && s.journal[id].stage in {Finalized, Failed} && EvidenceOf(s.journal[id], s.branch) == Ok(req.kind.accepted))
      && ApplyAll(s, served.effects).branch == s.branch
      && ApplyAll(s, served.effects).journal == if served.reply.Acknowledged? then s.journal - {id} else s.journal
  {
    var served, id := Dispatch(s, req, env), req.subject.id;
    if served.reply.Acknowledged? {
      assert served.effects == [Remove(id)] + [Disarm(id)];
      ApplyLast(s, [Remove(id)], Disarm(id));
      ApplyLast(s, [], Remove(id));
      assert [] + [Remove(id)] == [Remove(id)];
    } else {
      assert served.effects == [] + [Disarm(id)];
      ApplyLast(s, [], Disarm(id));
    }
  }

  // Input and turn are authorised exactly for the dispatch that waits, by its own prompt.
  lemma AuthorisedExactlyWhen(s: State, text: string, fromExtension: bool, plain: bool, id: string)
    ensures AllowInput(id) in OnInput(s, text, fromExtension, plain) <==>
      && s.process.pending == Some(id) && id in s.journal && s.journal[id].stage.Dispatching?
      && fromExtension && plain && Digest(text) == s.journal[id].subject.prompt
    ensures AllowTurn(id) in OnBeforeAgentStart(s, text, plain) <==>
      && s.process.pending == Some(id) && id in s.process.inputs && id in s.journal && s.journal[id].stage.Dispatching?
      && plain && Digest(text) == s.journal[id].subject.prompt
  {
  }

  // ---------- What a reply discloses ----------

  // Which place in the branch a record gives a role.
  predicate RoleAt(branch: seq<Body>, r: Record, i: nat, role: Role) {
    match role
    case PrepareRole => r.prepare == Some(i)
    case BindRole => r.bind == Some(i)
    case FinalizeRole => r.finalize == Some(i)
    case UserRole => r.user == Some(i)
    case AssistantRole(stop) => r.assistant == Some(i) && i < |branch| && branch[i].Assistant? && branch[i].stop == stop
    case Redacted => Some(i) !in {r.prepare, r.bind, r.finalize, r.user} && (r.assistant == Some(i) && i < |branch| ==> !branch[i].Assistant?)
  }

  lemma {:induction false} ItemsDisclose(branch: seq<Body>, r: Record, lo: nat, hi: nat)
    requires lo <= hi <= |branch|
    ensures
      var items := Items(branch, r, lo, hi);
      |items| == hi - lo && forall k | 0 <= k < |items| :: items[k].order == lo + k && RoleAt(branch, r, lo + k, items[k].role)
    decreases hi
  {
    if lo < hi {
      ItemsDisclose(branch, r, lo, hi - 1);
    }
  }

  // The evidence of a finalised record: its content is what its assistant showed, and its
  // sequence runs without a gap from the prepare to the final marker, telling apart the five
  // entries that are its own and nothing else.
  lemma FinalEvidenceDiscloses(s: State, id: string)
    requires Inv(s) && id in s.journal && s.journal[id].stage.Finalized?
    ensures
      var r := s.journal[id];
      && r.prepare.Some? && r.user.Some? && r.bind.Some? && r.assistant.Some? && r.finalize.Some?
      && r.prepare.value < r.user.value < r.bind.value < r.assistant.value < r.finalize.value < |s.branch|
      && EvidenceOf(r, s.branch).Ok?
      && var e := EvidenceOf(r, s.branch).value;
      && e.FinalEvidence? && e.subject == r.subject
      && (e.prepare, e.user, e.bind, e.assistant, e.finalize) == (r.prepare, r.user, r.bind, r.assistant, r.finalize)
      && s.branch[r.assistant.value].Assistant? && Some(e.content) == s.branch[r.assistant.value].visible
      && s.branch[r.finalize.value].Finalize? && e.finalizedAt == s.branch[r.finalize.value].finalizedAt
      && s.branch[r.bind.value].Bind? && e.boundAt == s.branch[r.bind.value].boundAt
      && |e.sequence| == r.finalize.value - r.prepare.value + 1 <= 4096
      && forall k | 0 <= k < |e.sequence| ::
           var i := r.prepare.value + k;
           e.sequence[k] == Item(i, if i == r.prepare.value then PrepareRole else if i == r.user.value then UserRole
                                    else if i == r.bind.value then BindRole else if i == r.assistant.value then AssistantRole(Stopped)
                                    else if i == r.finalize.value then FinalizeRole else Redacted)
  {
    hide BranchOk, ProcessOk, SendsOk, MintsOk, SendsApart, Items;
    var r := s.journal[id];
    UserIsBetween(s.branch, r);
    ItemsDisclose(s.branch, r, r.prepare.value, r.finalize.value + 1);
  }

  lemma UserIsBetween(branch: seq<Body>, r: Record)
    requires BranchOk(branch) && BoundAt(branch, r)
    ensures r.user.Some? && r.prepare.value < r.user.value < r.bind.value
  {
    assert BindPlaced(branch, r.bind.value);
  }
}
