/** What every run of the decision store keeps: decisions and answers agree, confirmations are
    used once, leases fence, and revisions only grow. */
module DecisionProofs {
  import opened Basics
  import opened Decisions

  // ---------- Decisions and answers agree ----------

  // No decision revision is held by two answers: the partial unique index never fires.
  ghost predicate Exclusive(answers: map<string, Answer>) {
    forall k, l | k in answers && l in answers && Active(answers[k]) && Active(answers[l]) ::
      answers[k].decision == answers[l].decision && answers[k].revision == answers[l].revision ==> k == l
  }

  ghost predicate HasAnswer(answers: map<string, Answer>, id: Id, revision: nat, status: Status) {
    exists k <- answers :: answers[k].decision == id && answers[k].revision == revision && answers[k].status == status
  }

  // At a decision's current revision, answering means an open answer and answered a successful
  // one; no answer is for a revision that has not come yet.
  ghost predicate Tied(decisions: map<Id, Decision>, answers: map<string, Answer>) {
    && (forall k <- answers :: answers[k].decision in decisions && answers[k].revision <= decisions[answers[k].decision].revision)
    && (forall id <- decisions :: decisions[id].stage.Answering? <==> HasAnswer(answers, id, decisions[id].revision, Open))
    && (forall id <- decisions :: decisions[id].stage.Answered? <==> HasAnswer(answers, id, decisions[id].revision, Succeeded))
  }

  // A snapshot may only reopen or close a decision by giving it a new revision.
  ghost predicate Carries(ds: map<Id, Decision>, ds': map<Id, Decision>) {
    && ds.Keys <= ds'.Keys
    && (forall id <- ds ::
         || (ds'[id].revision == ds[id].revision && ds'[id].stage == ds[id].stage)
         || (ds'[id].revision > ds[id].revision && ds'[id].stage in {Pending, Resolved}))
    && (forall id <- ds' :: id !in ds ==> ds'[id].stage in {Pending, Resolved})
  }

  lemma CarriedStaysTied(ds: map<Id, Decision>, ds': map<Id, Decision>, answers: map<string, Answer>)
    requires Tied(ds, answers) && Carries(ds, ds')
    ensures Tied(ds', answers)
  {
    forall id <- ds' | id !in ds || ds'[id].revision > ds[id].revision
      ensures !HasAnswer(answers, id, ds'[id].revision, Open) && !HasAnswer(answers, id, ds'[id].revision, Succeeded)
    {
    }
  }

  lemma OpeningCarries(b: Board, snap: Snapshot, e: Event)
    ensures var r := OpenOne(b, snap, e);
      r.Ok? ==> Carries(b.decisions, r.value.decisions)
  {
  }

  lemma CarriesOn(a: map<Id, Decision>, b: map<Id, Decision>, c: map<Id, Decision>)
    requires Carries(a, b) && Carries(b, c)
    ensures Carries(a, c)
  {
  }

  lemma {:induction false} OpeningAllCarries(b: Board, snap: Snapshot, events: seq<Event>)
    ensures var r := OpenAll(b, snap, events); r.Ok? ==> Carries(b.decisions, r.value.decisions)
    decreases |events|
  {
    if events != [] {
      var mid := OpenAll(b, snap, events[..|events| - 1]);
      OpeningAllCarries(b, snap, events[..|events| - 1]);
      if mid.Ok? {
        var r := OpenOne(mid.value, snap, events[|events| - 1]);
        OpeningCarries(mid.value, snap, events[|events| - 1]);
        if r.Ok? {
          CarriesOn(b.decisions, mid.value.decisions, r.value.decisions);
        }
      }
    }
  }

  lemma SnapshotCarries(s: State, snap: Snapshot)
    ensures var r := ApplySnapshot(s, snap); r.Ok? ==> Carries(s.decisions, r.value.decisions)
  {
    OpeningAllCarries(Board(s.decisions, s.events), snap, snap.events);
    var board := OpenAll(Board(s.decisions, s.events), snap, snap.events);
    if board.Ok? {
      var missing := Missing(board.value.decisions, snap.source, OpenIds(snap.events));
      CarriesOn(s.decisions, board.value.decisions, CloseAll(board.value.decisions, snap, missing));
    }
  }

  ghost predicate Joint(s: State) {
    Exclusive(s.answers) && Tied(s.decisions, s.answers)
  }

  // So the search for a competing answer, and the unique index behind it, never find one.
  lemma NothingCompetes(s: State, id: Id)
    requires Joint(s) && id in s.decisions && s.decisions[id].stage in {Pending, Resolved}
    ensures !Competing(s.answers, id, s.decisions[id].revision)
  {
    forall k <- s.answers | s.answers[k].decision == id && s.answers[k].revision == s.decisions[id].revision
      ensures HasAnswer(s.answers, id, s.decisions[id].revision, s.answers[k].status)
    {
    }
  }

  lemma RenewalKeepsJoint(s: State, key: string, a: Answer)
    requires Joint(s) && key in s.answers
    requires a.decision == s.answers[key].decision && a.revision == s.answers[key].revision && a.status == s.answers[key].status
    ensures Joint(s.(answers := s.answers[key := a]))
  {
    var answers := s.answers[key := a];
    forall id <- s.decisions, status: Status
      ensures HasAnswer(answers, id, s.decisions[id].revision, status) <==> HasAnswer(s.answers, id, s.decisions[id].revision, status)
    {
      assert forall k <- s.answers :: answers[k].decision == s.answers[k].decision && answers[k].revision == s.answers[k].revision
                                      && answers[k].status == s.answers[k].status;
    }
  }

  lemma ClaimKeepsJoint(s: State, key: string, a: Answer)
    requires Joint(s) && key !in s.answers && a.status.Open?
    requires a.decision in s.decisions && s.decisions[a.decision].stage.Pending? && a.revision == s.decisions[a.decision].revision
    ensures Exclusive(s.answers[key := a])
    ensures Tied(s.decisions[a.decision := s.decisions[a.decision].(stage := Answering)], s.answers[key := a])
  {
    NothingCompetes(s, a.decision);
    var answers := s.answers[key := a];
    assert answers[key] == a;
    forall id <- s.decisions, status: Status
      ensures HasAnswer(answers, id, s.decisions[id].revision, status) <==>
              HasAnswer(s.answers, id, s.decisions[id].revision, status) || (id == a.decision && status == Open)
    {
      assert forall k <- s.answers :: k in answers && answers[k] == s.answers[k];
    }
  }

  // The same answer to the same decision revision, with its outcome written.
  ghost predicate Ends(a: Answer, a': Answer) {
    a.status.Open? && !a'.status.Open? && a'.decision == a.decision && a'.revision == a.revision
  }

  lemma EndingKeepsExclusive(answers: map<string, Answer>, key: string, a: Answer)
    requires Exclusive(answers) && key in answers && Ends(answers[key], a)
    ensures Exclusive(answers[key := a])
  {
  }

  // Ending an open answer frees its decision revision, or settles it for good.
  lemma EndingMovesAnswers(answers: map<string, Answer>, key: string, a: Answer, id: Id, revision: nat, status: Status)
    requires Exclusive(answers) && key in answers && Ends(answers[key], a) && status != Failed
    ensures HasAnswer(answers[key := a], id, revision, status) <==>
      if (id, revision) == (a.decision, a.revision) then status == a.status else HasAnswer(answers, id, revision, status)
  {
    var answers' := answers[key := a];
    assert answers'[key] == a;
    assert forall k <- answers :: k != key ==> k in answers' && answers'[k] == answers[k];
  }

  lemma LateFinishKeepsTied(s: State, key: string, a: Answer)
    requires Joint(s) && key in s.answers && Ends(s.answers[key], a)
    requires s.decisions[a.decision].revision > a.revision
    ensures Tied(s.decisions, s.answers[key := a])
  {
    forall id: Id, status: Status | id in s.decisions && status != Failed {
      EndingMovesAnswers(s.answers, key, a, id, s.decisions[id].revision, status);
    }
  }

  lemma FinishKeepsTied(s: State, key: string, a: Answer, d: Decision)
    requires Joint(s) && key in s.answers && Ends(s.answers[key], a)
    requires s.decisions[a.decision].revision == a.revision
    requires if d.revision == a.revision then if a.status.Succeeded? then d.stage.Answered? else d.stage.Pending?
             else d.revision > a.revision && d.stage.Resolved? && a.status.Failed?
    ensures Tied(s.decisions[a.decision := d], s.answers[key := a])
  {
    var ds := s.decisions[a.decision := d];
    forall id: Id, status: Status | id in ds && status != Failed {
      EndingMovesAnswers(s.answers, key, a, id, ds[id].revision, status);
    }
  }

  lemma StepKeepsJoint(s: State, op: Op)
    requires Joint(s)
    ensures Joint(Step(s, op))
  {
    match op
    case SnapshotOp(snap) =>
      SnapshotCarries(s, snap);
      var r := ApplySnapshot(s, snap);
      if r.Ok? {
        CarriedStaysTied(s.decisions, r.value.decisions, s.answers);
      }
    case PrepareOp(_) =>
    case ClaimOp(c, token) => ClaimAnswerKeepsJoint(s, c, token);
    case FinishOp(key, claim, report) => FinishAnswerKeepsJoint(s, key, claim, report);
  }

  lemma ClaimAnswerKeepsJoint(s: State, c: Call, token: Option<nat>)
    requires Joint(s)
    ensures var r := ClaimAnswer(s, c, token); r.Ok? ==> Joint(r.value.0)
  {
    var r := ClaimAnswer(s, c, token);
    if r.Ok? && r.value.1.claimed {
      if r.value.1.resumed {
        RenewalKeepsJoint(s, c.message.value.id, r.value.1.answer);
      } else {
        ClaimKeepsJoint(s, c.message.value.id, r.value.1.answer);
      }
    }
  }

  lemma FinishAnswerKeepsJoint(s: State, key: string, claim: nat, report: Report)
    requires Joint(s)
    ensures var r := FinishAnswer(s, key, claim, report); r.Ok? ==> Joint(r.value.0)
  {
    if key in s.answers && s.answers[key].status.Open? && s.answers[key].claim == claim {
      var a := s.answers[key];
      var d := s.decisions[a.decision];
      EndingKeepsExclusive(s.answers, key, Finished(a, report));
      if d.revision == a.revision {
        assert HasAnswer(s.answers, a.decision, a.revision, Open);
        FinishKeepsTied(s, key, Finished(a, report), Ended(d, report));
      } else {
        LateFinishKeepsTied(s, key, Finished(a, report));
      }
    }
  }

  // ---------- Confirmations are used once ----------

  // The used confirmation behind an answer: same session, decision, revision, message and
  // text, and used before it expired.
  ghost predicate Vouches(k: Confirmation, key: string, a: Answer) {
    && k.usedAt.Some? && k.usedAt.value < k.expiresAt
    && k.message == key && k.decision == a.decision && k.revision == a.revision && k.text == a.text && k.session == a.session
  }

  ghost predicate Vouched(confirmations: map<nat, Confirmation>, key: string, a: Answer) {
    exists t <- confirmations :: Vouches(confirmations[t], key, a)
  }

  // Answers and used confirmations are in one-to-one correspondence, by native message.
  ghost predicate ConfirmedOnce(confirmations: map<nat, Confirmation>, answers: map<string, Answer>) {
    && (forall key <- answers :: Vouched(confirmations, key, answers[key]))
    && (forall t <- confirmations :: confirmations[t].usedAt.Some? ==>
          confirmations[t].message in answers && Vouches(confirmations[t], confirmations[t].message, answers[confirmations[t].message]))
    && (forall t, u | t in confirmations && u in confirmations && confirmations[t].usedAt.Some? && confirmations[u].usedAt.Some? ::
          confirmations[t].message == confirmations[u].message ==> t == u)
  }

  ghost predicate DrawnBefore(s: State) {
    && (forall t <- s.confirmations :: t < s.drawn)
    && (forall key <- s.answers :: s.answers[key].claim < s.drawn)
  }

  ghost predicate Inv(s: State) {
    Joint(s) && ConfirmedOnce(s.confirmations, s.answers) && DrawnBefore(s)
  }

  lemma OfferKeepsConfirmed(s: State, k: Confirmation)
    requires ConfirmedOnce(s.confirmations, s.answers) && DrawnBefore(s) && k.usedAt.None?
    ensures ConfirmedOnce(s.confirmations[s.drawn := k], s.answers)
  {
    var confirmations := s.confirmations[s.drawn := k];
    forall key <- s.answers
      ensures Vouched(confirmations, key, s.answers[key])
    {
      var t :| t in s.confirmations && Vouches(s.confirmations[t], key, s.answers[key]);
      assert confirmations[t] == s.confirmations[t];
    }
  }

  lemma UseKeepsConfirmed(s: State, key: string, a: Answer, t: nat, k: Confirmation)
    requires ConfirmedOnce(s.confirmations, s.answers) && key !in s.answers
    requires t in s.confirmations && s.confirmations[t].usedAt.None? && Vouches(k, key, a)
    ensures ConfirmedOnce(s.confirmations[t := k], s.answers[key := a])
  {
    var confirmations, answers := s.confirmations[t := k], s.answers[key := a];
    assert confirmations[t] == k && Vouches(confirmations[t], key, answers[key]);
    forall l <- s.answers
      ensures Vouched(confirmations, l, s.answers[l])
    {
      var u :| u in s.confirmations && Vouches(s.confirmations[u], l, s.answers[l]);
      assert confirmations[u] == s.confirmations[u];
    }
  }

  lemma UpdateKeepsConfirmed(s: State, key: string, a: Answer)
    requires ConfirmedOnce(s.confirmations, s.answers) && key in s.answers
    requires var was := s.answers[key];
      a.decision == was.decision && a.revision == was.revision && a.text == was.text && a.session == was.session
    ensures ConfirmedOnce(s.confirmations, s.answers[key := a])
  {
    var t :| t in s.confirmations && Vouches(s.confirmations[t], key, s.answers[key]);
    assert Vouches(s.confirmations[t], key, a);
  }

  lemma PrepareKeepsConfirmed(s: State, c: Call)
    requires ConfirmedOnce(s.confirmations, s.answers) && DrawnBefore(s)
    ensures var r := Prepare(s, c); r.Ok? ==> ConfirmedOnce(r.value.0.confirmations, r.value.0.answers)
  {
    var r := Prepare(s, c);
    if r.Ok? && r.value.1.ConfirmWith? {
      OfferKeepsConfirmed(s, r.value.0.confirmations[s.drawn]);
    }
  }

  lemma ReclaimKeepsConfirmed(s: State, c: Call)
    requires ConfirmedOnce(s.confirmations, s.answers) && c.message.Some? && c.message.value.id in s.answers
    ensures var r := Reclaim(s, c); r.Ok? ==> ConfirmedOnce(r.value.0.confirmations, r.value.0.answers)
  {
    var r := Reclaim(s, c);
    if r.Ok? && r.value.1.claimed {
      UpdateKeepsConfirmed(s, c.message.value.id, r.value.1.answer);
    }
  }

  lemma FirstClaimKeepsConfirmed(s: State, c: Call, token: Option<nat>)
    requires ConfirmedOnce(s.confirmations, s.answers) && c.message.Some? && c.message.value.id !in s.answers
    ensures var r := FirstClaim(s, c, token); r.Ok? ==> ConfirmedOnce(r.value.0.confirmations, r.value.0.answers)
  {
    var r := FirstClaim(s, c, token);
    if r.Ok? {
      UseKeepsConfirmed(s, c.message.value.id, r.value.1.answer, token.value, r.value.0.confirmations[token.value]);
    }
  }

  lemma StepKeepsConfirmed(s: State, op: Op)
    requires ConfirmedOnce(s.confirmations, s.answers) && DrawnBefore(s)
    ensures ConfirmedOnce(Step(s, op).confirmations, Step(s, op).answers)
  {
    match op
    case SnapshotOp(_) =>
    case PrepareOp(c) => PrepareKeepsConfirmed(s, c);
    case ClaimOp(c, token) =>
      if c.message.Some? {
        if c.message.value.id in s.answers {
          ReclaimKeepsConfirmed(s, c);
        } else {
          FirstClaimKeepsConfirmed(s, c, token);
        }
      }
    case FinishOp(key, claim, report) =>
      if key in s.answers {
        UpdateKeepsConfirmed(s, key, Finished(s.answers[key], report));
      }
  }

  lemma StepKeepsDrawn(s: State, op: Op)
    requires DrawnBefore(s)
    ensures DrawnBefore(Step(s, op))
  {
  }

  // From an empty store, whatever snapshots, confirmations, claims and finishes interleave.
  lemma {:induction false} EveryRunAgrees(ops: seq<Op>)
    ensures Inv(Run(EMPTY, ops))
    decreases |ops|
  {
    if ops != [] {
      EveryRunAgrees(ops[..|ops| - 1]);
      StepKeepsJoint(Run(EMPTY, ops[..|ops| - 1]), ops[|ops| - 1]);
      StepKeepsConfirmed(Run(EMPTY, ops[..|ops| - 1]), ops[|ops| - 1]);
      StepKeepsDrawn(Run(EMPTY, ops[..|ops| - 1]), ops[|ops| - 1]);
    }
  }

  // ---------- Leases and fencing ----------

  // All that one step can do to an answer: nothing; hand it, still open and its lease run
  // out, to a new claim; or write the outcome its claim holder reports.
  ghost predicate Fenced(s: State, op: Op, key: string, a: Answer, a': Answer) {
    || a' == a
    || (op.ClaimOp? && a.status.Open? && a.leaseExpires <= op.call.now
        && a' == a.(claim := s.drawn, leaseExpires := op.call.now + ANSWER_EXECUTION_LEASE_MS))
    || (op.FinishOp? && op.key == key && op.claim == a.claim && a.status.Open? && a' == Finished(a, op.report))
  }

  lemma AnswersAreFenced(s: State, op: Op, key: string)
    requires key in s.answers
    ensures key in Step(s, op).answers && Fenced(s, op, key, s.answers[key], Step(s, op).answers[key])
    ensures s.drawn <= Step(s, op).drawn
  {
  }

  // A new answer comes from a first claim with a confirmation nobody used before.
  lemma NewAnswerUsesConfirmation(s: State, op: Op, key: string)
    requires key !in s.answers && key in Step(s, op).answers
    ensures
      && op.ClaimOp? && op.call.message.Some? && op.call.message.value.id == key
      && op.token.Some? && op.token.value in s.confirmations && Confirms(s.confirmations[op.token.value], op.call)
      && op.call.decision in s.decisions && s.decisions[op.call.decision].stage.Pending?
      && Step(s, op).answers[key].claim == s.drawn
  {
  }

  // An outcome, once written, stays as it is.
  lemma {:induction false} OutcomeIsFinal(s: State, ops: seq<Op>, key: string)
    requires key in s.answers && !s.answers[key].status.Open?
    ensures key in Run(s, ops).answers && Run(s, ops).answers[key] == s.answers[key]
    decreases |ops|
  {
    if ops != [] {
      OutcomeIsFinal(s, ops[..|ops| - 1], key);
      AnswersAreFenced(Run(s, ops[..|ops| - 1]), ops[|ops| - 1], key);
    }
  }

  // A claim that was taken over never counts again, however long its worker takes.
  lemma {:induction false} SupersededClaimIsDead(s: State, ops: seq<Op>, key: string, claim: nat, report: Report)
    requires key in s.answers && claim < s.answers[key].claim < s.drawn
    ensures
      var s' := Run(s, ops);
      && key in s'.answers && claim < s'.answers[key].claim < s'.drawn
      && Step(s', FinishOp(key, claim, report)) == s'
    decreases |ops|
  {
    if ops != [] {
      var before := Run(s, ops[..|ops| - 1]);
      SupersededClaimIsDead(s, ops[..|ops| - 1], key, claim, report);
      AnswersAreFenced(before, ops[|ops| - 1], key);
    }
  }

  // A message keeps its one answer, with the decision, revision, text and session it was
  // given for.
  lemma {:induction false} OneAnswerPerMessage(s: State, ops: seq<Op>, key: string)
    requires key in s.answers
    ensures key in Run(s, ops).answers
    ensures
      var a, a' := s.answers[key], Run(s, ops).answers[key];
      a'.decision == a.decision && a'.revision == a.revision && a'.text == a.text && a'.session == a.session
    decreases |ops|
  {
    if ops != [] {
      OneAnswerPerMessage(s, ops[..|ops| - 1], key);
      AnswersAreFenced(Run(s, ops[..|ops| - 1]), ops[|ops| - 1], key);
    }
  }

  // A late finish settles its own answer but moves no decision, whose revision went on.
  lemma LateFinishMovesNoDecision(s: State, key: string, claim: nat, report: Report)
    requires Joint(s)
    requires key in s.answers && s.decisions[s.answers[key].decision].revision != s.answers[key].revision
    ensures Step(s, FinishOp(key, claim, report)).decisions == s.decisions
  {
  }

  // And a finish by the claim holder always finds its decision still waiting for it, unless a
  // newer revision replaced it.
  lemma TimelyFinishEndsDecision(s: State, key: string, report: Report)
    requires Joint(s) && key in s.answers && s.answers[key].status.Open?
    requires s.decisions[s.answers[key].decision].revision == s.answers[key].revision
    ensures
      var a := s.answers[key];
      var s' := Step(s, FinishOp(key, a.claim, report));
      && s'.answers[key] == Finished(a, report)
      && s'.decisions == s.decisions[a.decision := Ended(s.decisions[a.decision], report)]
      && s.decisions[a.decision].stage.Answering?
  {
    assert HasAnswer(s.answers, s.answers[key].decision, s.answers[key].revision, Open);
  }

  // ---------- Revisions only grow ----------

  // At one revision a resolved decision stays resolved and an answered one answered; both
  // come back only under a higher revision.
  ghost predicate Later(ds: map<Id, Decision>, ds': map<Id, Decision>) {
    forall id <- ds ::
      && id in ds' && ds[id].revision <= ds'[id].revision
      && (ds[id].revision == ds'[id].revision && ds[id].stage in {Resolved, Answered} ==> ds'[id].stage == ds[id].stage)
  }

  lemma StepIsLater(s: State, op: Op)
    ensures Later(s.decisions, Step(s, op).decisions)
  {
    if op.SnapshotOp? {
      SnapshotCarries(s, op.snap);
    }
  }

  lemma {:induction false} RevisionsOnlyGrow(s: State, ops: seq<Op>)
    ensures Later(s.decisions, Run(s, ops).decisions)
    decreases |ops|
  {
    if ops != [] {
      RevisionsOnlyGrow(s, ops[..|ops| - 1]);
      StepIsLater(Run(s, ops[..|ops| - 1]), ops[|ops| - 1]);
    }
  }
}
