/** Every handler of the ownership protocol has only legal effects. */
module OwnershipHandlers {
  import opened Basics
  import opened Ownership
  import opened OwnershipInvariant

  // ---------- Small sequences ----------

  lemma LawfulOne(s: State, e: Effect)
    requires Legal(s, e)
    ensures Lawful(s, [e]) && ApplyAll(s, [e]) == Apply(s, e)
  {
    assert [e][1..] == [];
    assert Lawful(Apply(s, e), []);
  }

  lemma LawfulThen(s: State, es: seq<Effect>, e: Effect)
    requires Lawful(s, es) && Legal(ApplyAll(s, es), e)
    ensures Lawful(s, es + [e]) && ApplyAll(s, es + [e]) == Apply(ApplyAll(s, es), e)
  {
    LawfulOne(ApplyAll(s, es), e);
    LawfulJoins(s, es, [e]);
  }

  // Effects that only reach into the process, and can come at any time.
  predicate Soft(e: Effect) {
    e.Activate? || e.Deactivate? || e.Disarm?
  }

  // Only the branch has grown.
  ghost predicate OnlyAppended(s: State, s': State, es: seq<Effect>) {
    && s'.branch == s.branch + Appended(es) && s'.journal == s.journal && s'.process == s.process
  }

  // ---------- What reconciling leads to ----------

  // Appends and then, unless it failed, one save of the result.
  ghost predicate Lands(s: State, r: Record, o: Outcome) {
    && Lawful(s, o.effects)
    && var s' := ApplyAll(s, o.effects);
    && s'.branch == s.branch + Appended(o.effects) && s'.process == s.process
    && match o.result
       case Err(_) => s'.journal == s.journal
       case Ok(u) =>
         && u.subject == r.subject && u.expiresAt == r.expiresAt && s'.journal == s.journal[r.subject.id := u]
         && (u.stage == r.stage || !u.stage.Prepared?)
  }

  lemma {:induction false} AppendedJoins(es: seq<Effect>, e: Effect)
    ensures Appended(es + [e]) == Appended(es) + if e.Append? then [e.body] else []
    decreases |es|
  {
    if es == [] {
      assert [] + [e] == [e] && [e][1..] == [];
    } else {
      assert (es + [e])[1..] == es[1..] + [e];
      AppendedJoins(es[1..], e);
      var head := if es[0].Append? then [es[0].body] else [];
      var tail := if e.Append? then [e.body] else [];
      Joined(head, Appended(es[1..]), tail);
    }
  }

  lemma Joined<T>(a: seq<T>, b: seq<T>, c: seq<T>)
    ensures a + b + c == a + (b + c)
  {
  }

  // Whatever the effects, the branch has exactly their appends more.
  lemma {:induction false} BranchAfter(s: State, es: seq<Effect>)
    ensures ApplyAll(s, es).branch == s.branch + Appended(es)
    decreases |es|
  {
    if es != [] {
      BranchAfter(Apply(s, es[0]), es[1..]);
    }
  }

  // A stretch so far: lawful effects that only appended.
  ghost predicate SoFar(s: State, es: seq<Effect>, actual: seq<Body>) {
    Lawful(s, es) && OnlyAppended(s, ApplyAll(s, es), es) && actual == s.branch + Appended(es)
  }

  lemma AppendingOn(s: State, es: seq<Effect>, actual: seq<Body>, body: Body)
    requires Inv(s) && SoFar(s, es, actual) && MayAppend(ApplyAll(s, es), body)
    ensures SoFar(s, es + [Append(body)], actual + [body])
    ensures Inv(ApplyAll(s, es + [Append(body)]))
  {
    LawfulThen(s, es, Append(body));
    AppendedJoins(es, Append(body));
    LawfulKeeps(s, es + [Append(body)]);
  }

  lemma SavingLands(s: State, es: seq<Effect>, actual: seq<Body>, r: Record, u: Record)
    requires SoFar(s, es, actual) && r.subject == u.subject && r.expiresAt == u.expiresAt
    requires u.stage == r.stage || !u.stage.Prepared?
    requires MaySave(ApplyAll(s, es), u)
    ensures Lands(s, r, Saved(es, u))
  {
    LawfulThen(s, es, Save(u));
    AppendedJoins(es, Save(u));
  }

  lemma FailingLands(s: State, es: seq<Effect>, actual: seq<Body>, r: Record, code: Code)
    requires SoFar(s, es, actual)
    ensures Lands(s, r, Outcome(es, Err(code)))
  {
  }

  // The record may be saved now, as bound or finalized.
  ghost predicate Ready(s: State, r: Record) {
    r.subject.id in s.journal && MaySave(s, r) && r.stage in {Bound, Finalized}
  }

  lemma DescribedFinal(actual: seq<Body>, r: Record, final: Record, items: seq<Item>)
    requires Placed(actual, r) && r.stage in {Bound, Finalized}
    requires final.finalize.Some? && final.assistant.Some? && final.finalize.value < |actual|
    requires final == r.(assistant := final.assistant, finalize := final.finalize, finalizedAt := final.finalizedAt)
    requires Describe(actual, final, final.finalize) == Ok(items)
    requires r.bind.value < final.assistant.value < final.finalize.value
    requires actual[final.assistant.value].Assistant? && actual[final.assistant.value].stop.Stopped?
    requires actual[final.assistant.value].visible.Some?
    requires actual[final.finalize.value] == Finalize(r.subject, final.assistant.value, actual[final.assistant.value].visible.value, final.finalizedAt)
    ensures Placed(actual, final.(sequence := Some(items), content := actual[final.assistant.value].visible, stage := Finalized))
  {
    var done := final.(sequence := Some(items), content := actual[final.assistant.value].visible, stage := Finalized);
    ItemsGrow(actual, actual, final, done, r.prepare.value, final.finalize.value + 1);
  }

  lemma FinalizedIsSame(branch: seq<Body>, r: Record, items: seq<Item>)
    requires Placed(branch, r) && r.stage.Finalized?
    requires Describe(branch, r, r.finalize) == Ok(items)
    ensures r.sequence == Some(items)
  {
  }

  // The stretch before a bound record is finished.
  ghost predicate Finishing(s: State, es: seq<Effect>, view: seq<Body>, actual: seq<Body>, r: Record) {
    Inv(s) && SoFar(s, es, actual) && Inv(ApplyAll(s, es)) && Ready(ApplyAll(s, es), r) && view <= actual
  }

  lemma CloseLands(s: State, es: seq<Effect>, view: seq<Body>, actual: seq<Body>, r: Record, env: Env, at: nat)
    requires Finishing(s, es, view, actual, r)
    requires at < |actual| && actual[at].Finalize? && actual[at].subject == r.subject
    requires r.stage.Finalized? ==> r.finalize == Some(at)
    ensures Lands(s, r, Close(view, actual, r, env, actual[at], at, es))
  {
    var o := Close(view, actual, r, env, actual[at], at, es);
    var marker := actual[at];
    if o.result.Ok? {
      assert FinalPlaced(actual, at);
      var final := r.(assistant := Some(marker.assistant), finalize := Some(at), finalizedAt := marker.finalizedAt);
      var items := Describe(actual, final, final.finalize).value;
      DescribedFinal(actual, r, final, items);
      if r.stage.Finalized? {
        FinalizedIsSame(actual, r, items);
        assert o.result.value == r;
      }
      SavingLands(s, es, actual, r, o.result.value);
    }
  }

  lemma ReadyGrows(s: State, s': State, r: Record)
    requires Ready(s, r) && s.branch <= s'.branch && s'.journal == s.journal && s'.process == s.process
    ensures Ready(s', r)
  {
    PlacedGrows(s.branch, s'.branch, r);
  }

  lemma MarkLands(s: State, es: seq<Effect>, view: seq<Body>, actual: seq<Body>, r: Record, env: Env, a: nat)
    requires Finishing(s, es, view, actual, r)
    requires r.stage.Bound? && a < |view| && view[a].Assistant? && view[a].stop.Stopped?
    ensures Lands(s, r, Mark(view, actual, r, env, a, es))
  {
    if view[a].visible.Some? {
      var marker := Finalize(r.subject, a, view[a].visible.value, Ownership.Later(env.now, r.boundAt));
      assert view[a] == actual[a];
      AppendingOn(s, es, actual, marker);
      ReadyGrows(ApplyAll(s, es), ApplyAll(s, es + [Append(marker)]), r);
      CloseLands(s, es + [Append(marker)], view, actual + [marker], r, env, |actual|);
    }
  }

  lemma SeekLands(s: State, es: seq<Effect>, view: seq<Body>, actual: seq<Body>, r: Record, env: Env)
    requires Finishing(s, es, view, actual, r) && r.stage.Bound?
    ensures Lands(s, r, Seek(view, actual, r, env, es))
  {
    hide Mark, FinalAssistant;
    match FinalAssistant(view, r.bind.value)
    case Err(e) => FailingLands(s, es, actual, r, e);
    case Ok(None) => SavingLands(s, es, actual, r, r);
    case Ok(Some(a)) => MarkLands(s, es, view, actual, r, env, a);
  }

  lemma FinishLands(s: State, es: seq<Effect>, view: seq<Body>, actual: seq<Body>, r: Record, env: Env)
    requires Finishing(s, es, view, actual, r) && (r.stage.Finalized? ==> view == actual)
    ensures Lands(s, r, Finish(view, actual, r, env, es))
  {
    hide Close, Seek, FinalMarker;
    match FinalMarker(view, r.subject)
    case Err(e) => FailingLands(s, es, actual, r, e);
    case Ok(Some(at)) => CloseLands(s, es, view, actual, r, env, at);
    case Ok(None) =>
      if r.stage.Bound? {
        SeekLands(s, es, view, actual, r, env);
      } else {
        SavingLands(s, es, actual, r, r);
      }
  }

  // ---------- Reconciling a journal record ----------

  // The record is the journal's, and open unless it is the one in flight.
  ghost predicate Current(s: State, r: Record) {
    && r.subject.id in s.journal && s.journal[r.subject.id] == r
    && (r.stage.Failed? ==> InFlight(s, r.subject.id))
  }

  lemma NothingYet(s: State)
    ensures SoFar(s, [], s.branch)
  {
    assert s.branch + [] == s.branch;
  }

  lemma ReboundIsReady(s: State, r: Record, at: nat)
    requires Inv(s) && Current(s, r) && r.prepare.Some? && r.prepare.value < at < |s.branch|
    requires BindsFor(s.branch[at], r.subject) && s.branch[at].prepare == r.prepare.value
    requires Rebound(s.branch, r, at).Ok?
    ensures var bound := Rebound(s.branch, r, at).value;
      Ready(s, bound) && bound.subject == r.subject && bound.expiresAt == r.expiresAt
  {
    if r.stage.Finalized? {
      assert r.bind == Some(at);
    }
  }

  lemma RecoverLands(s: State, r: Record, env: Env, at: nat)
    requires Inv(s) && Current(s, r) && r.prepare.Some? && r.prepare.value < at < |s.branch|
    requires BindsFor(s.branch[at], r.subject) && s.branch[at].prepare == r.prepare.value
    ensures Lands(s, r, Recover(s.branch, r, env, at))
  {
    hide Finish, Rebound;
    NothingYet(s);
    match Rebound(s.branch, r, at)
    case Err(e) => FailingLands(s, [], s.branch, r, e);
    case Ok(bound) =>
      ReboundIsReady(s, r, at);
      FinishLands(s, [], s.branch, s.branch, bound, env);
      SameLanding(s, r, bound, Finish(s.branch, s.branch, bound, env, []));
  }

  // A landing from a later stage is one from the journal's record.
  lemma SameLanding(s: State, r: Record, bound: Record, o: Outcome)
    requires Lands(s, bound, o) && bound.subject == r.subject && bound.expiresAt == r.expiresAt && !bound.stage.Prepared?
    ensures Lands(s, r, o)
  {
  }

  lemma MintPlaced(branch: seq<Body>, r: Record, u: nat, now: int)
    requires Placed(branch, r) && r.prepare.Some?
    requires PromptEntry(branch, r.prepare.value + 1, |branch|, r.subject.prompt) == Ok(Some(u))
    ensures BindPlaced(branch + [BindFor(r, u, now)], |branch|)
  {
  }

  lemma MintedIsReady(s: State, s': State, r: Record, u: nat, now: int)
    requires Current(s, r) && r.stage.Dispatching? && Placed(s.branch, r) && now <= r.expiresAt
    requires s'.journal == s.journal && s'.process == s.process && s'.branch == s.branch + [BindFor(r, u, now)]
    ensures Ready(s', r.(user := Some(u), boundAt := now, bind := Some(|s.branch|), stage := Bound))
  {
  }

  lemma MintedLands(s: State, r: Record, env: Env, u: nat)
    requires Inv(s) && Current(s, r) && r.stage.Dispatching? && Progress(s.log, r.subject.id) == 3
    requires forall b <- s.branch :: !BindsFor(b, r.subject)
    requires PromptEntry(s.branch, r.prepare.value + 1, |s.branch|, r.subject.prompt) == Ok(Some(u)) && env.now <= r.expiresAt
    ensures
      var marker := BindFor(r, u, env.now);
      var bound := r.(user := Some(u), boundAt := env.now, bind := Some(|s.branch|), stage := Bound);
      Lands(s, r, Finish(if env.live then s.branch + [marker] else s.branch, s.branch + [marker], bound, env, [Append(marker)]))
  {
    hide Finish, PromptEntry;
    var branch := s.branch;
    var marker := BindFor(r, u, env.now);
    var bound := r.(user := Some(u), boundAt := env.now, bind := Some(|branch|), stage := Bound);
    var view := if env.live then branch + [marker] else branch;
    NothingYet(s);
    MintPlaced(branch, r, u, env.now);
    AppendingOn(s, [], branch, marker);
    assert [] + [Append(marker)] == [Append(marker)];
    MintedIsReady(s, ApplyAll(s, [Append(marker)]), r, u, env.now);
    FinishLands(s, [Append(marker)], view, branch + [marker], bound, env);
    SameLanding(s, r, bound, Finish(view, branch + [marker], bound, env, [Append(marker)]));
  }

  lemma MintLands(s: State, r: Record, env: Env)
    requires Inv(s) && Current(s, r) && r.stage.Dispatching? && Progress(s.log, r.subject.id) == 3
    requires forall b <- s.branch :: !BindsFor(b, r.subject)
    ensures Lands(s, r, Mint(s.branch, r, env))
  {
    hide Finish, PromptEntry;
    NothingYet(s);
    match PromptEntry(s.branch, r.prepare.value + 1, |s.branch|, r.subject.prompt)
    case Err(e) => FailingLands(s, [], s.branch, r, e);
    case Ok(None) => SavingLands(s, [], s.branch, r, Mint(s.branch, r, env).result.value);
    case Ok(Some(u)) =>
      if env.now > r.expiresAt {
        FailingLands(s, [], s.branch, r, CapabilityExpired);
      } else {
        MintedLands(s, r, env, u);
      }
  }

  // Every bind marker of a subject names the subject's one prepare marker.
  lemma BindMarkersAreAll(branch: seq<Body>, r: Record)
    requires BranchOk(branch) && Placed(branch, r) && r.prepare.Some?
    requires BindMarker(branch, r, r.prepare.value) == Ok(None)
    ensures forall b <- branch :: !BindsFor(b, r.subject)
    ensures r.bind.None?
  {
    forall b | 0 <= b < |branch| && BindsFor(branch[b], r.subject)
      ensures b > r.prepare.value && branch[b].prepare == r.prepare.value && branch[b].hash == r.subject.prompt
    {
      assert BindPlaced(branch, b);
    }
  }

  lemma UnboundLands(s: State, r: Record, env: Env, mayBind: bool)
    requires Inv(s) && Current(s, r) && r.prepare.Some? && BindMarker(s.branch, r, r.prepare.value) == Ok(None)
    requires mayBind ==> r.stage.Dispatching? && Progress(s.log, r.subject.id) == 3
    ensures Lands(s, r, Reconcile(s.branch, r, env, mayBind))
  {
    hide Mint, BindMarker, Finish, Recover;
    NothingYet(s);
    BindMarkersAreAll(s.branch, r);
    if mayBind {
      MintLands(s, r, env);
    } else if r.stage.Dispatching? && env.now > r.expiresAt && env.quiet {
      SavingLands(s, [], s.branch, r, FailedWith(r, IndeterminateBeforeBind));
    } else {
      SavingLands(s, [], s.branch, r, r);
    }
  }

  lemma ReconcileLands(s: State, r: Record, env: Env, mayBind: bool)
    requires Inv(s) && Current(s, r)
    requires mayBind ==> r.stage.Dispatching? && Progress(s.log, r.subject.id) == 3
    ensures Lands(s, r, Reconcile(s.branch, r, env, mayBind))
  {
    hide Recover, BindMarker, Mint;
    NothingYet(s);
    if r.prepare.None? {
      SavingLands(s, [], s.branch, r, FailedWith(r, PrepareMissing));
    } else {
      match BindMarker(s.branch, r, r.prepare.value)
      case Err(e) => FailingLands(s, [], s.branch, r, e);
      case Ok(Some(at)) => RecoverLands(s, r, env, at);
      case Ok(None) => UnboundLands(s, r, env, mayBind);
    }
  }

  // ---------- Native events ----------

  // Saving a record as failed is legal while it is open, whatever else it says.
  ghost predicate Failable(s: State, r: Record) {
    && r.subject.id in s.journal && Placed(s.branch, r)
    && var was := s.journal[r.subject.id];
       !Terminal(was) && was.subject == r.subject && was.expiresAt == r.expiresAt
  }

  lemma FailureIsLegal(s: State, r: Record, code: Code)
    requires Failable(s, r)
    ensures MaySave(s, FailedWith(r, code)) && MaySave(s, WithoutFinal(FailedWith(r, code)))
  {
  }

  lemma CurrentIsPlaced(s: State, r: Record)
    requires Inv(s) && Current(s, r)
    ensures Placed(s.branch, r)
  {
  }

  // An event that is over: lawful, and the invariant holds after it.
  ghost predicate Fine(s: State, es: seq<Effect>) {
    Lawful(s, es) && Inv(ApplyAll(s, es))
  }

  lemma FineThen(s: State, es: seq<Effect>, e: Effect)
    requires Fine(s, es) && Legal(ApplyAll(s, es), e)
    ensures Fine(s, es + [e]) && ApplyAll(s, es + [e]) == Apply(ApplyAll(s, es), e)
  {
    LawfulThen(s, es, e);
    LegalKeeps(ApplyAll(s, es), e);
  }

  lemma LandingIsFine(s: State, r: Record, o: Outcome)
    requires Inv(s) && Lands(s, r, o)
    ensures Fine(s, o.effects)
  {
    LawfulKeeps(s, o.effects);
  }

  // After a landing that failed, the record can still be failed.
  lemma StillFailable(s: State, r: Record, o: Outcome)
    requires Inv(s) && Current(s, r) && !Terminal(r) && Lands(s, r, o) && o.result.Err?
    ensures Failable(ApplyAll(s, o.effects), r)
  {
    PlacedGrows(s.branch, ApplyAll(s, o.effects).branch, r);
  }

  lemma NoneFine(s: State)
    requires Inv(s)
    ensures Fine(s, [])
  {
  }

  lemma InputFine(s: State, text: string, fromExtension: bool, plain: bool)
    requires Inv(s)
    ensures Fine(s, OnInput(s, text, fromExtension, plain))
  {
    NoneFine(s);
    var es := OnInput(s, text, fromExtension, plain);
    if es != [] {
      FineThen(s, [], es[0]);
      assert es == [] + [es[0]];
    }
  }

  lemma BeforeStartFine(s: State, text: string, plain: bool)
    requires Inv(s)
    ensures Fine(s, OnBeforeAgentStart(s, text, plain))
  {
    NoneFine(s);
    var es := OnBeforeAgentStart(s, text, plain);
    if es != [] {
      FineThen(s, [], es[0]);
      assert es == [] + [es[0]];
    }
  }

  lemma FailingFine(s: State, es: seq<Effect>, r: Record, failed: Record, code: Code)
    requires Fine(s, es) && Failable(ApplyAll(s, es), r)
    requires failed == FailedWith(r, code) || failed == WithoutFinal(FailedWith(r, code))
    ensures Fine(s, es + [Deactivate(r.subject.id), Save(failed)])
  {
    hide Inv, Placed;
    var soft := es + [Deactivate(r.subject.id)];
    FineThen(s, es, Deactivate(r.subject.id));
    FailureIsLegal(ApplyAll(s, soft), r, code);
    FineThen(s, soft, Save(failed));
    assert soft + [Save(failed)] == es + [Deactivate(r.subject.id), Save(failed)];
  }

  lemma DisarmFine(s: State, es: seq<Effect>, r: Record, failed: Record)
    requires Fine(s, es + [Deactivate(r.subject.id), Save(failed)])
    ensures Fine(s, es + [Deactivate(r.subject.id), Save(failed), Disarm(r.subject.id)])
  {
    FineThen(s, es + [Deactivate(r.subject.id), Save(failed)], Disarm(r.subject.id));
    assert es + [Deactivate(r.subject.id), Save(failed)] + [Disarm(r.subject.id)]
        == es + [Deactivate(r.subject.id), Save(failed), Disarm(r.subject.id)];
  }

  lemma TurnStartsFine(s: State, r: Record, env: Env)
    requires Inv(s) && Current(s, r) && r.stage.Dispatching?
    ensures Fine(s, TurnStarts(s.branch, s.process.turns, r, env))
  {
    hide Reconcile;
    var id := r.subject.id;
    if id !in s.process.turns {
      var failed := FailedWith(r, Unattributed);
      NoneFine(s);
      FailingFine(s, [], r, failed, Unattributed);
      DisarmFine(s, [], r, failed);
      assert [] + [Deactivate(id), Save(failed), Disarm(id)] == [Deactivate(id), Save(failed), Disarm(id)];
    } else {
      ReconcileLands(s, r, env, true);
      var o := Reconcile(s.branch, r, env, true);
      LandingIsFine(s, r, o);
      match o.result
      case Err(_) =>
        StillFailable(s, r, o);
        FailingFine(s, o.effects, r, FailedWith(r, AmbiguousUser), AmbiguousUser);
        DisarmFine(s, o.effects, r, FailedWith(r, AmbiguousUser));
      case Ok(u) =>
        var soft := if u.stage.Bound? then [Activate(id)] else if u.stage.Failed? then [Deactivate(id)] else [];
        SoftFine(s, o.effects, soft, Disarm(id));
    }
  }

  // At most one soft effect and then another.
  lemma SoftFine(s: State, es: seq<Effect>, soft: seq<Effect>, last: Effect)
    requires Fine(s, es) && |soft| <= 1 && (soft != [] ==> Soft(soft[0])) && Soft(last)
    ensures Fine(s, es + soft) && Fine(s, es + soft + [last])
  {
    if soft == [] {
      assert es + soft == es;
    } else {
      FineThen(s, es, soft[0]);
      assert es + [soft[0]] == es + soft;
    }
    FineThen(s, es + soft, last);
  }

  lemma FinalIsLegal(s: State, r: Record, final: Record, items: seq<Item>)
    requires Inv(s) && Current(s, r) && r.stage.Bound?
    requires final.finalize.Some? && final.assistant.Some? && final.finalize.value < |s.branch|
    requires final == r.(assistant := final.assistant, finalize := final.finalize, finalizedAt := final.finalizedAt)
    requires Describe(s.branch, final, final.finalize) == Ok(items)
    requires r.bind.value < final.assistant.value < final.finalize.value
    requires s.branch[final.assistant.value].Assistant? && s.branch[final.assistant.value].stop.Stopped?
    requires s.branch[final.assistant.value].visible.Some?
    requires s.branch[final.finalize.value] == Finalize(r.subject, final.assistant.value, s.branch[final.assistant.value].visible.value, final.finalizedAt)
    ensures MaySave(s, final.(sequence := Some(items), content := s.branch[final.assistant.value].visible, stage := Finalized))
  {
    CurrentIsPlaced(s, r);
    DescribedFinal(s.branch, r, final, items);
  }

  ghost predicate Sealed(s: State, r: Record, o: Outcome) {
    && Fine(s, o.effects) && Failable(ApplyAll(s, o.effects), r)
    && (o.result.Ok? ==> o.result.value.subject == r.subject && MaySave(ApplyAll(s, o.effects), o.result.value))
  }

  lemma NothingSealed(s: State, r: Record, code: Code)
    requires Inv(s) && Current(s, r) && r.stage.Bound?
    ensures Sealed(s, r, Outcome([], Err(code)))
  {
    NoneFine(s);
  }

  lemma MarkerFine(s: State, r: Record, marker: Body)
    requires Inv(s) && Current(s, r) && r.stage.Bound? && marker.Finalize?
    requires FinalPlaced(s.branch + [marker], |s.branch|)
    ensures Fine(s, [Append(marker)]) && ApplyAll(s, [Append(marker)]) == Apply(s, Append(marker))
    ensures Current(Apply(s, Append(marker)), r) && Failable(Apply(s, Append(marker)), r)
  {
    NoneFine(s);
    FineThen(s, [], Append(marker));
    assert [] + [Append(marker)] == [Append(marker)];
    PlacedGrows(s.branch, s.branch + [marker], r);
  }

  // Sealing only appends the final marker, and its result can then be saved.
  lemma SealFine(s: State, r: Record, env: Env, a: nat)
    requires Inv(s) && Current(s, r) && r.stage.Bound?
    requires r.bind.value < a < |s.branch| && s.branch[a].Assistant? && s.branch[a].stop.Stopped?
    ensures Sealed(s, r, Seal(s.branch, r, env, a))
  {
    var o := Seal(s.branch, r, env, a);
    if s.branch[a].visible.None? {
      NothingSealed(s, r, InvalidVisible);
    } else {
      var marker := o.effects[0].body;
      MarkerFine(s, r, marker);
      if o.result.Ok? {
        var final := r.(assistant := Some(a), finalize := Some(|s.branch|), finalizedAt := marker.finalizedAt);
        FinalIsLegal(Apply(s, Append(marker)), r, final, o.result.value.sequence.value);
      }
    }
  }

  lemma TurnEvidenceFine(s: State, r: Record, env: Env, last: Body)
    requires Inv(s) && Current(s, r) && r.stage.Bound? && last.Assistant? && last.stop.Stopped?
    ensures Sealed(s, r, TurnEvidence(s.branch, r, env, last))
  {
    match EndedAssistant(s.branch, r.bind, last)
    case Err(e) => NothingSealed(s, r, e);
    case Ok(a) => SealFine(s, r, env, a);
  }

  lemma TurnEndsFine(s: State, r: Record, env: Env, last: Body)
    requires Inv(s) && Current(s, r) && r.stage.Bound?
    ensures Fine(s, TurnEnds(s.branch, r, env, last))
  {
    NoneFine(s);
    if last.Assistant? && last.stop.Stopped? {
      TurnEvidenceFine(s, r, env, last);
      var o := TurnEvidence(s.branch, r, env, last);
      match o.result
      case Ok(final) => SavingFine(s, o.effects, final);
      case Err(e) =>
        var code := if e == ResponseTooLarge then e else AmbiguousFinalAssistant;
        FailingFine(s, o.effects, r, WithoutFinal(FailedWith(r, code)), code);
    }
  }

  lemma SavingFine(s: State, es: seq<Effect>, final: Record)
    requires Fine(s, es) && MaySave(ApplyAll(s, es), final)
    ensures Fine(s, es + [Deactivate(final.subject.id), Save(final)])
  {
    hide Inv, Placed;
    var soft := es + [Deactivate(final.subject.id)];
    FineThen(s, es, Deactivate(final.subject.id));
    assert MaySave(ApplyAll(s, soft), final);
    FineThen(s, soft, Save(final));
    assert soft + [Save(final)] == es + [Deactivate(final.subject.id), Save(final)];
  }

  lemma FineJoins(s: State, a: seq<Effect>, b: seq<Effect>)
    requires Fine(s, a) && Fine(ApplyAll(s, a), b)
    ensures Fine(s, a + b) && ApplyAll(s, a + b) == ApplyAll(ApplyAll(s, a), b)
  {
    LawfulJoins(s, a, b);
  }

  // A landing that succeeded leaves its record current.
  lemma LandedIsCurrent(s: State, r: Record, o: Outcome)
    requires Inv(s) && Current(s, r) && Lands(s, r, o) && o.result.Ok?
    ensures ApplyAll(s, o.effects).journal[r.subject.id] == o.result.value
    ensures !o.result.value.stage.Failed? ==> Current(ApplyAll(s, o.effects), o.result.value)
  {
  }

  lemma SettlesReconciles(s: State, r: Record, env: Env)
    requires Inv(s) && Current(s, r) && r.stage.Bound?
    ensures
      var o, s1, first := Reconcile(s.branch, r, env, false), Apply(s, Deactivate(r.subject.id)), [Deactivate(r.subject.id)];
      && Inv(s1) && Current(s1, r) && Lands(s1, r, o) && Fine(s, first + o.effects)
      && ApplyAll(s, first + o.effects) == ApplyAll(s1, o.effects)
  {
    hide Reconcile;
    var first := [Deactivate(r.subject.id)];
    NoneFine(s);
    FineThen(s, [], Deactivate(r.subject.id));
    assert [] + first == first;
    var s1 := ApplyAll(s, first);
    ReconcileLands(s1, r, env, false);
    LandingIsFine(s1, r, Reconcile(s.branch, r, env, false));
    FineJoins(s, first, Reconcile(s.branch, r, env, false).effects);
  }

  // The state after a stretch that left the record u in the journal.
  ghost predicate Reached(s: State, es: seq<Effect>, branch: seq<Body>, u: Record) {
    && Fine(s, es) && ApplyAll(s, es).branch == branch
    && u.subject.id in ApplyAll(s, es).journal && ApplyAll(s, es).journal[u.subject.id] == u
    && ApplyAll(s, es).process.inFlight == s.process.inFlight
  }

  lemma FailNow(s: State, es: seq<Effect>, u: Record, code: Code)
    requires Fine(s, es) && Failable(ApplyAll(s, es), u)
    ensures Fine(s, es + [Save(FailedWith(u, code))])
    ensures var s' := ApplyAll(s, es + [Save(FailedWith(u, code))]);
      s'.journal == ApplyAll(s, es).journal[u.subject.id := FailedWith(u, code)] && s'.process == ApplyAll(s, es).process
  {
    FailureIsLegal(ApplyAll(s, es), u, code);
    FineThen(s, es, Save(FailedWith(u, code)));
  }

  lemma FailReaches(s: State, es: seq<Effect>, u: Record, code: Code)
    requires Fine(s, es) && Failable(ApplyAll(s, es), u) && ApplyAll(s, es).process.inFlight == s.process.inFlight
    ensures var all := es + [Save(FailedWith(u, code))]; Reached(s, all, s.branch + Appended(all), FailedWith(u, code))
  {
    hide Failable, Inv;
    FailNow(s, es, u, code);
    BranchAfter(s, es + [Save(FailedWith(u, code))]);
  }

  // Failing either the record that could not be reconciled, or the one left bound.
  lemma SettlesFails(s: State, s1: State, r: Record, o: Outcome, first: seq<Effect>, u: Record, code: Code)
    requires Inv(s1) && Current(s1, r) && !Terminal(r) && Lands(s1, r, o) && Fine(s, first) && ApplyAll(s, first) == ApplyAll(s1, o.effects)
    requires s1.process.inFlight == s.process.inFlight
    requires (o.result.Err? && u == r) || (o.result == Ok(u) && u.stage.Bound?)
    ensures var all := first + [Save(FailedWith(u, code))]; Reached(s, all, s.branch + Appended(all), FailedWith(u, code))
  {
    if o.result.Err? {
      StillFailable(s1, r, o);
    } else {
      LandedIsCurrent(s1, r, o);
      CurrentIsPlaced(ApplyAll(s, first), u);
    }
    FailReaches(s, first, u, code);
  }

  lemma SettlesFine(s: State, r: Record, env: Env)
    requires Inv(s) && Current(s, r) && r.stage.Bound?
    ensures var (es, u) := Settles(s.branch, r, env); Reached(s, es, s.branch + Appended(es), u)
  {
    hide Reconcile, Ending, Inv, Placed;
    SettlesReconciles(s, r, env);
    var o, s1 := Reconcile(s.branch, r, env, false), Apply(s, Deactivate(r.subject.id));
    var first := [Deactivate(r.subject.id)] + o.effects;
    match o.result
    case Err(e) => SettlesFails(s, s1, r, o, first, r, if e == ResponseTooLarge then e else SettledAmbiguous);
    case Ok(u) =>
      if u.stage.Bound? {
        SettlesFails(s, s1, r, o, first, u, Ending(s.branch + Appended(o.effects), u));
      } else {
        BranchAfter(s, first);
      }
  }

  // ---------- Requests ----------

  lemma RespondFine(s: State, es: seq<Effect>, r: Record, env: Env)
    requires Fine(s, es) && (Failable(ApplyAll(s, es), r) || Terminal(r))
    ensures Fine(s, es + Respond(ApplyAll(s, es).branch, r, env).effects)
  {
    var served := Respond(ApplyAll(s, es).branch, r, env);
    if served.effects == [] {
      assert es + [] == es;
    } else {
      FailureIsLegal(ApplyAll(s, es), r, ResponseTooLarge);
      FineThen(s, es, served.effects[0]);
      assert served.effects == [served.effects[0]];
    }
  }

  lemma AcknowledgeFine(s: State, req: Request)
    requires Inv(s) && req.kind.AckKind? && s.process.inFlight.None?
    ensures Fine(s, Acknowledge(s, req).effects)
  {
    NoneFine(s);
    var es := Acknowledge(s, req).effects;
    if es != [] {
      FineThen(s, [], es[0]);
      assert es == [] + [es[0]];
    }
  }

  // No effect of a stretch but its send reaches for the lock.
  ghost predicate Unlocked(s: State) {
    s.process.inFlight.None?
  }

  lemma ContinueFails(s: State, r: Record, o: Outcome, req: Request, env: Env)
    requires Inv(s) && Current(s, r) && !Terminal(r) && Lands(s, r, o) && o.result.Err?
    ensures
      var failed := FailedWith(r, if r.stage.Dispatching? then IndeterminateBeforeBind else o.result.error);
      Fine(s, o.effects + [Save(failed), Deactivate(r.subject.id)] + Respond(s.branch, failed, env).effects)
  {
    hide Reconcile, Inv, Placed, Failable;
    var failed := FailedWith(r, if r.stage.Dispatching? then IndeterminateBeforeBind else o.result.error);
    LandingIsFine(s, r, o);
    StillFailable(s, r, o);
    FailureIsLegal(ApplyAll(s, o.effects), r, failed.error.value);
    FineThen(s, o.effects, Save(failed));
    FineThen(s, o.effects + [Save(failed)], Deactivate(r.subject.id));
    var es := o.effects + [Save(failed), Deactivate(r.subject.id)];
    assert o.effects + [Save(failed)] + [Deactivate(r.subject.id)] == es;
    assert Respond(s.branch, failed, env).effects == [];
    assert es + [] == es;
  }

  lemma ReachedIsFailable(s: State, es: seq<Effect>, branch: seq<Body>, u: Record)
    requires Reached(s, es, branch, u) && !Terminal(u)
    ensures Failable(ApplyAll(s, es), u)
  {
  }

  lemma ReplyFine(s: State, es: seq<Effect>, branch: seq<Body>, u: Record, env: Env)
    requires Reached(s, es, branch, u)
    ensures Fine(s, es + Respond(branch, u, env).effects)
  {
    if !Terminal(u) {
      ReachedIsFailable(s, es, branch, u);
    }
    RespondFine(s, es, u, env);
  }

  lemma SendFine(s: State, es: seq<Effect>, branch: seq<Body>, u: Record, req: Request)
    requires Reached(s, es, branch, u) && u.stage.Prepared? && Unlocked(s) && req.subject.id == u.subject.id
    ensures Fine(s, es + [Save(u.(stage := Dispatching)), Send(req)])
  {
    var sending := u.(stage := Dispatching);
    var at := ApplyAll(s, es);
    assert Placed(at.branch, u);
    assert MaySave(at, sending);
    FineThen(s, es, Save(sending));
    SaveKeepsSent(at, sending, req.subject.id);
    FineThen(s, es + [Save(sending)], Send(req));
    assert es + [Save(sending)] + [Send(req)] == es + [Save(sending), Send(req)];
  }

  lemma SaveKeepsSent(s: State, r: Record, id: string)
    requires Inv(s) && r.subject.id in s.journal && id in s.journal && s.journal[id].stage.Prepared?
    ensures SentSince(Apply(s, Save(r)).log, id) == 0
  {
    assert s.log + [] == s.log;
  }

  lemma ExpireFine(s: State, es: seq<Effect>, branch: seq<Body>, u: Record, env: Env)
    requires Reached(s, es, branch, u) && !Terminal(u)
    ensures
      var failed := FailedWith(u, CapabilityExpired);
      Fine(s, es + [Save(failed)] + Respond(branch, failed, env).effects)
  {
    hide Inv, Placed;
    var failed := FailedWith(u, CapabilityExpired);
    ReachedIsFailable(s, es, branch, u);
    FailureIsLegal(ApplyAll(s, es), u, CapabilityExpired);
    FineThen(s, es, Save(failed));
    assert Respond(branch, failed, env).effects == [];
    assert es + [Save(failed)] + [] == es + [Save(failed)];
  }

  lemma ProceedFine(s: State, es: seq<Effect>, branch: seq<Body>, u: Record, req: Request, env: Env, active: set<string>)
    requires Reached(s, es, branch, u) && Unlocked(s) && req.subject.id == u.subject.id
    ensures Fine(s, es + Proceed(branch, active, u, req, env).effects)
  {
    if u.stage.Bound? && req.kind.StatusKind? && u.subject.id !in active && env.quiet {
      StatusFine(s, es, branch, u, env);
    } else if u.stage.Prepared? && req.kind.DispatchKind? && req.prompt.Some? {
      if env.now > u.expiresAt {
        ExpireFine(s, es, branch, u, env);
        var failed := FailedWith(u, CapabilityExpired);
        assert es + [Save(failed)] + Respond(branch, failed, env).effects == es + ([Save(failed)] + Respond(branch, failed, env).effects);
      } else if !env.quiet {
        assert es + [] == es;
      } else {
        SendFine(s, es, branch, u, req);
      }
    } else {
      ReplyFine(s, es, branch, u, env);
    }
  }

  // One reached stretch after another.
  lemma ReachedThen(s: State, es: seq<Effect>, branch: seq<Body>, u: Record, more: seq<Effect>, branch': seq<Body>, r: Record)
    requires Reached(s, es, branch, u) && Reached(ApplyAll(s, es), more, branch', r)
    ensures Reached(s, es + more, branch', r)
  {
    FineJoins(s, es, more);
  }

  lemma StatusFine(s: State, es: seq<Effect>, branch: seq<Body>, u: Record, env: Env)
    requires Reached(s, es, branch, u) && u.stage.Bound?
    ensures
      var (settled, r) := Settles(branch, u, env);
      Fine(s, es + (settled + Respond(branch + Appended(settled), r, env).effects))
  {
    var (settled, r) := Settles(branch, u, env);
    SettlesFine(ApplyAll(s, es), u, env);
    StatusReplies(s, es, branch, u, settled, r, env);
  }

  lemma StatusReplies(s: State, es: seq<Effect>, branch: seq<Body>, u: Record, settled: seq<Effect>, r: Record, env: Env)
    requires Reached(s, es, branch, u) && Reached(ApplyAll(s, es), settled, branch + Appended(settled), r)
    ensures Fine(s, es + (settled + Respond(branch + Appended(settled), r, env).effects))
  {
    ReachedThen(s, es, branch, u, settled, branch + Appended(settled), r);
    ReplyFine(s, es + settled, branch + Appended(settled), r, env);
    Joined(es, settled, Respond(branch + Appended(settled), r, env).effects);
  }

  lemma ContinueFine(s: State, r: Record, req: Request, env: Env)
    requires Inv(s) && Current(s, r) && !Terminal(r) && Unlocked(s) && req.subject.id == r.subject.id
    ensures Fine(s, Continue(s.branch, s.process.active, r, req, env).effects)
  {
    ReconcileLands(s, r, env, false);
    var o := Reconcile(s.branch, r, env, false);
    match o.result
    case Err(_) => ContinueFails(s, r, o, req, env);
    case Ok(u) =>
      var done := o.effects + if Terminal(u) then [Deactivate(r.subject.id)] else [];
      ContinuedReaches(s, r, o);
      ProceedFine(s, done, s.branch + Appended(o.effects), u, req, env, s.process.active);
  }

  lemma ContinuedReaches(s: State, r: Record, o: Outcome)
    requires Inv(s) && Current(s, r) && Lands(s, r, o) && o.result.Ok?
    ensures
      var done := o.effects + if Terminal(o.result.value) then [Deactivate(r.subject.id)] else [];
      Reached(s, done, s.branch + Appended(o.effects), o.result.value)
  {
    LandingIsFine(s, r, o);
    if Terminal(o.result.value) {
      FineThen(s, o.effects, Deactivate(r.subject.id));
    } else {
      assert o.effects + [] == o.effects;
    }
  }

  lemma KnownFine(s: State, r: Record, req: Request, env: Env)
    requires Inv(s) && r.subject.id in s.journal && s.journal[r.subject.id] == r && Unlocked(s) && req.subject.id == r.subject.id
    ensures Fine(s, Known(s.branch, s.process.active, r, req, env).effects)
  {
    NoneFine(s);
    if !Terminal(r) {
      ContinueFine(s, r, req, env);
    }
  }

  // A new record's marker may go out; a full journal refuses the record only after that, and
  // the marker is used later.
  lemma StartedFine(s: State, req: Request, env: Env)
    requires Inv(s)
    ensures var es := Started(s.branch, req, env).0; Fine(s, es) && ApplyAll(s, es) == s.(branch := s.branch + Appended(es))
  {
    NoneFine(s);
    assert s.branch + [] == s.branch && s.log + [] == s.log;
    var es := Started(s.branch, req, env).0;
    if es != [] {
      FineThen(s, [], es[0]);
      assert [] + [es[0]] == es && Appended(es) == [Prepare(req.subject)];
    }
  }

  lemma StartedMayBeSaved(s: State, req: Request, env: Env)
    requires Inv(s) && req.subject.id !in s.journal && !HasOpen(s.journal) && |s.journal| < MAX_RECORDS && Unlocked(s)
    ensures
      var (es, r) := Started(s.branch, req, env);
      r.subject == req.subject && MaySave(s.(branch := s.branch + Appended(es)), r)
  {
    assert s.branch + [] == s.branch;
    assert Appended([Append(Prepare(req.subject))]) == [Prepare(req.subject)];
  }

  lemma CreateFine(s: State, req: Request, env: Env)
    requires Inv(s) && req.subject.id !in s.journal && Unlocked(s)
    ensures
      var o := Create(s, req, env);
      && Fine(s, o.effects)
      && (o.result.Ok? ==>
            && o.result.value.subject == req.subject
            && Reached(s, o.effects, s.branch + Appended(o.effects), o.result.value)
            && ApplyAll(s, o.effects).process == s.process)
  {
    NoneFine(s);
    var o := Create(s, req, env);
    if o.effects != [] && |s.journal| < MAX_RECORDS {
      var (es, r) := Started(s.branch, req, env);
      StartedFine(s, req, env);
      StartedMayBeSaved(s, req, env);
      FineThen(s, es, Save(r));
      BranchAfter(s, o.effects);
    } else if o.effects != [] {
      StartedFine(s, req, env);
    }
  }

  lemma ServeFine(s: State, req: Request, env: Env)
    requires Inv(s) && Unlocked(s)
    ensures Fine(s, Serve(s, req, env).effects)
  {
    NoneFine(s);
    var id := req.subject.id;
    if id in s.journal && (s.journal[id].subject != req.subject || s.journal[id].expiresAt != req.expiresAt) {
    } else if req.kind.AckKind? {
      AcknowledgeFine(s, req);
    } else if id in s.journal {
      KnownFine(s, s.journal[id], req, env);
    } else {
      CreateFine(s, req, env);
      var o := Create(s, req, env);
      if o.result.Ok? {
        KnownFine(ApplyAll(s, o.effects), o.result.value, req, env);
        FineJoins(s, o.effects, Known(s.branch + Appended(o.effects), s.process.active, o.result.value, req, env).effects);
      }
    }
  }

  lemma DispatchFine(s: State, req: Request, env: Env)
    requires Inv(s) && Unlocked(s)
    ensures Fine(s, Dispatch(s, req, env).effects)
  {
    ServeFine(s, req, env);
    var served := Serve(s, req, env);
    if !served.reply.Waiting? {
      FineThen(s, served.effects, Disarm(req.subject.id));
    }
  }

  // Once the request in flight is disarmed, its lock can be released.
  lemma ReleaseFine(s: State, es: seq<Effect>, id: string)
    requires Inv(s) && InFlight(s, id) && Fine(s, [Disarm(id)] + es)
    requires ApplyAll(s, [Disarm(id)] + es).process == Apply(s, Disarm(id)).process
    ensures Fine(s, [Disarm(id)] + es + [Release])
  {
    var p := Apply(s, Disarm(id)).process;
    assert p.pending.None? && p.inputs == {} && p.turns == {} by {
      assert Armed(s.process);
    }
    FineThen(s, [Disarm(id)] + es, Release);
  }

  // A reply touches nothing of the process.
  lemma ReplyKeepsProcess(s: State, es: seq<Effect>, branch: seq<Body>, u: Record, env: Env)
    requires Fine(s, es + Respond(branch, u, env).effects)
    ensures ApplyAll(s, es + Respond(branch, u, env).effects).process == ApplyAll(s, es).process
  {
    var reply := Respond(branch, u, env).effects;
    if reply == [] {
      assert es + [] == es;
    } else {
      assert reply == [reply[0]];
      ApplyLast(s, es, reply[0]);
    }
  }

  lemma {:induction false} ApplyLast(s: State, es: seq<Effect>, e: Effect)
    ensures ApplyAll(s, es + [e]) == Apply(ApplyAll(s, es), e)
    decreases |es|
  {
    if es == [] {
      assert [] + [e] == [e] && [e][1..] == [];
    } else {
      assert (es + [e])[1..] == es[1..] + [e];
      ApplyLast(Apply(s, es[0]), es[1..], e);
    }
  }

  lemma DisarmedFine(s: State, id: string)
    requires Inv(s)
    ensures Fine(s, [Disarm(id)]) && ApplyAll(s, [Disarm(id)]) == Apply(s, Disarm(id))
  {
    NoneFine(s);
    FineThen(s, [], Disarm(id));
    assert [] + [Disarm(id)] == [Disarm(id)];
  }

  lemma ResumedReplies(s: State, o: Outcome, r: Record, env: Env)
    requires Inv(s) && InFlight(s, r.subject.id) && Fine(s, [Disarm(r.subject.id)])
    requires Lands(ApplyAll(s, [Disarm(r.subject.id)]), r, o) && o.result.Ok?
    requires ApplyAll(s, [Disarm(r.subject.id)]) == Apply(s, Disarm(r.subject.id))
    ensures
      var es := [Disarm(r.subject.id)] + (o.effects + Respond(s.branch + Appended(o.effects), o.result.value, env).effects);
      Fine(s, es) && ApplyAll(s, es).process == Apply(s, Disarm(r.subject.id)).process
  {
    var first := [Disarm(r.subject.id)];
    var u, branch := o.result.value, s.branch + Appended(o.effects);
    LandingIsFine(ApplyAll(s, first), r, o);
    FineJoins(s, first, o.effects);
    ReplyFine(s, first + o.effects, branch, u, env);
    ReplyKeepsProcess(s, first + o.effects, branch, u, env);
    Joined(first, o.effects, Respond(branch, u, env).effects);
  }

  lemma ResumeFine(s: State, env: Env)
    requires Inv(s)
    ensures Fine(s, Resume(s, env).effects)
  {
    NoneFine(s);
    if s.process.inFlight.Some? {
      var id := s.process.inFlight.value.subject.id;
      var r := s.journal[id];
      DisarmedFine(s, id);
      ReconcileLands(ApplyAll(s, [Disarm(id)]), r, env, false);
      var o := Reconcile(s.branch, r, env, false);
      if o.result.Err? {
        LandingIsFine(ApplyAll(s, [Disarm(id)]), r, o);
        FineJoins(s, [Disarm(id)], o.effects);
        ReleaseFine(s, o.effects, id);
      } else {
        ResumedReplies(s, o, r, env);
        ReleaseFine(s, o.effects + Respond(s.branch + Appended(o.effects), o.result.value, env).effects, id);
      }
    }
  }
}
