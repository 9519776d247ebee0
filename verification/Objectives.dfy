/** Objective state: the validated projection record and its durable advance rule. */
module Objectives {
  import opened Basics

  datatype State =
    | Unknown | Submitting | Queued | Accepted | Running
    | WaitingForInput | Recovering | Succeeded | Failed | Cancelled

  datatype Stage = Unobserved | StageSubmitting | StageQueued | StageAccepted | StageRunning | StageTerminal

  datatype Cancellation = NotCancelled | Requested | Observed

  datatype Objective = Objective(
    objectiveId: string,
    owner: string,
    revision: nat,
    state: State,
    progress: Stage,
    cancellation: Cancellation)
  {
    predicate Terminal() {
      state in {Succeeded, Failed, Cancelled}
    }

    // The contract validator.
    predicate Valid() {
      && (cancellation.Observed? <==> state.Cancelled?)
      && (Terminal() <==> progress.StageTerminal?)
      && (state in {Submitting, Queued, Accepted, Running} ==> progress == ObservedStage(state))
    }
  }

  function ObservedStage(s: State): Stage
    requires s in {Submitting, Queued, Accepted, Running}
  {
    match s
    case Submitting => StageSubmitting
    case Queued => StageQueued
    case Accepted => StageAccepted
    case Running => StageRunning
  }

  predicate Uncertain(s: State) {
    s in {Unknown, Recovering, WaitingForInput}
  }

  function Rank(s: Stage): nat {
    match s
    case Unobserved => 0
    case StageSubmitting => 1
    case StageQueued => 2
    case StageAccepted => 3
    case StageRunning => 4
    case StageTerminal => 5
  }

  const TERMINAL_STATES: set<State> := {Succeeded, Failed, Cancelled}
  const UNCERTAIN_STATES: set<State> := {Unknown, Recovering, WaitingForInput}

  // The declared transition table.
  function AllowedTransitions(s: State): set<State> {
    match s
    case Submitting => {Submitting, Queued, Accepted, Running} + UNCERTAIN_STATES + TERMINAL_STATES
    case Queued => {Queued, Accepted, Running} + UNCERTAIN_STATES + TERMINAL_STATES
    case Accepted => {Accepted, Running} + UNCERTAIN_STATES + TERMINAL_STATES
    case Running => {Running} + UNCERTAIN_STATES + TERMINAL_STATES
    case Unknown => {Submitting, Queued, Accepted, Running} + UNCERTAIN_STATES + TERMINAL_STATES
    case Recovering => {Submitting, Queued, Accepted, Running} + UNCERTAIN_STATES + TERMINAL_STATES
    case WaitingForInput => {Submitting, Queued, Accepted, Running} + UNCERTAIN_STATES + TERMINAL_STATES
    case Succeeded => {Succeeded}
    case Failed => {Failed}
    case Cancelled => {Cancelled}
  }

  // ---------- Projection of persisted facts ----------

  datatype Facts = Facts(
    submissionStatus: Option<string>,
    executionPhase: Option<string>,
    terminalPhase: Option<string>,
    waitingForInput: bool,
    recovering: bool,
    observationComplete: bool,
    cancellationRequested: bool)

  function TerminalState(phase: Option<string>): Option<State> {
    if phase == Some("objective.completed") then Some(Succeeded)
    else if phase == Some("objective.failed") then Some(Failed)
    else if phase == Some("objective.cancelled") then Some(Cancelled)
    else None
  }

  predicate RunningPhase(phase: Option<string>) {
    phase.Some? && phase.value in {
      "worker.started", "implementation.started", "tests.started", "tests.passed",
      "tests.failed", "review.started"}
  }

  // A terminal phase given outright wins; otherwise a terminal execution phase counts.
  function TerminalClaim(f: Facts): Option<string> {
    if f.terminalPhase.Some? then f.terminalPhase
    else if TerminalState(f.executionPhase).Some? then f.executionPhase
    else None
  }

  function ProjectedState(f: Facts): State {
    var terminal := TerminalClaim(f);
    if TerminalState(terminal).Some? then TerminalState(terminal).value
    else if terminal.Some? || !f.observationComplete then Unknown
    else if f.recovering then Recovering
    else if f.executionPhase.Some? && !RunningPhase(f.executionPhase) && f.executionPhase != Some("objective.accepted") then Unknown
    else if f.waitingForInput then WaitingForInput
    else if RunningPhase(f.executionPhase) then Running
    else if f.executionPhase == Some("objective.accepted") then Accepted
    else if f.submissionStatus == Some("accepted") then Queued
    else if f.submissionStatus == Some("submitting") then Submitting
    else Unknown
  }

  function ProjectedStage(f: Facts, state: State): Stage {
    if state in TERMINAL_STATES then StageTerminal
    else if RunningPhase(f.executionPhase) then StageRunning
    else if f.executionPhase == Some("objective.accepted") then StageAccepted
    else if f.submissionStatus == Some("accepted") then StageQueued
    else if f.submissionStatus == Some("submitting") then StageSubmitting
    else Unobserved
  }

  function Project(objectiveId: string, owner: string, revision: nat, f: Facts): Objective {
    var state := ProjectedState(f);
    Objective(objectiveId, owner, revision, state, ProjectedStage(f, state),
              if state.Cancelled? then Observed
              else if f.cancellationRequested then Requested
              else NotCancelled)
  }

  // Every projection passes the contract validator, completion is never invented (a terminal
  // state needs a recognised terminal phase, and such a phase always wins), and an execution
  // phase nobody knows never shows as live work.
  lemma ProjectionIsSound(objectiveId: string, owner: string, revision: nat, f: Facts)
    ensures Project(objectiveId, owner, revision, f).Valid()
    ensures Project(objectiveId, owner, revision, f).Terminal() <==>
              TerminalState(f.terminalPhase).Some?
              || (f.terminalPhase.None? && TerminalState(f.executionPhase).Some?)
    ensures f.executionPhase.Some? && !RunningPhase(f.executionPhase)
            && f.executionPhase != Some("objective.accepted")
            && TerminalState(f.executionPhase).None? && f.terminalPhase.None?
            ==> ProjectedState(f) in {Unknown, Recovering}
    ensures ProjectedState(f) in {Submitting, Queued, Accepted, Running} ==> f.observationComplete && !f.recovering
  {
    var state := ProjectedState(f);
    assert state in {Submitting, Queued, Accepted, Running} ==>
        ProjectedStage(f, state) == ObservedStage(state);
  }

  // The terminal phase the facts claim: the one given outright, or a terminal execution phase.
  predicate Claims(f: Facts, phase: string) {
    f.terminalPhase == Some(phase) || (f.terminalPhase.None? && f.executionPhase == Some(phase))
  }

  // Facts that are complete and claim no end.
  predicate Live(f: Facts) {
    && f.terminalPhase.None? && f.observationComplete
    && f.executionPhase !in {Some("objective.completed"), Some("objective.failed"), Some("objective.cancelled")}
  }

  predicate AtWork(f: Facts) {
    f.executionPhase in {Some("worker.started"), Some("implementation.started"), Some("tests.started"), Some("tests.passed"),
                         Some("tests.failed"), Some("review.started")}
  }

  // Every state but unknown, from the facts that give it; anything else is unknown.
  lemma ProjectedExactlyWhen(f: Facts)
    ensures
      var state, known := ProjectedState(f), AtWork(f) || f.executionPhase in {None, Some("objective.accepted")};
      && (state == Succeeded <==> Claims(f, "objective.completed"))
      && (state == Failed <==> Claims(f, "objective.failed"))
      && (state == Cancelled <==> Claims(f, "objective.cancelled"))
      && (state == Recovering <==> Live(f) && f.recovering)
      && (state == WaitingForInput <==> Live(f) && !f.recovering && known && f.waitingForInput)
      && (state == Running <==> Live(f) && !f.recovering && !f.waitingForInput && AtWork(f))
      && (state == Accepted <==> Live(f) && !f.recovering && !f.waitingForInput && f.executionPhase == Some("objective.accepted"))
      && (state == Queued <==> Live(f) && !f.recovering && !f.waitingForInput && f.executionPhase.None? && f.submissionStatus == Some("accepted"))
      && (state == Submitting <==>
            Live(f) && !f.recovering && !f.waitingForInput && f.executionPhase.None? && f.submissionStatus == Some("submitting"))
  {
    PhasesDiffer();
  }

  lemma PhasesDiffer()
    ensures "objective.completed" != "objective.failed" && "objective.completed" != "objective.cancelled" && "objective.failed" != "objective.cancelled"
  {
    assert "objective.completed"[11] != "objective.failed"[11];
    assert |"objective.cancelled"| != |"objective.failed"|;
    assert "objective.completed"[11] == 'o' && "objective.cancelled"[11] == 'a';
  }

  // The progress and the cancellation a projection shows with its state.
  lemma ProjectedWith(objectiveId: string, owner: string, revision: nat, f: Facts)
    ensures
      var o := Project(objectiveId, owner, revision, f);
      && o.objectiveId == objectiveId && o.owner == owner && o.revision == revision
      && o.progress == (if o.Terminal() then StageTerminal else if AtWork(f) then StageRunning
                        else if f.executionPhase == Some("objective.accepted") then StageAccepted
                        else if f.submissionStatus == Some("accepted") then StageQueued
                        else if f.submissionStatus == Some("submitting") then StageSubmitting else Unobserved)
      && (o.cancellation == Observed <==> o.state == Cancelled)
      && (o.cancellation == Requested <==> o.state != Cancelled && f.cancellationRequested)
  {
  }

  // ---------- Durable advance ----------

  datatype AdvanceError =
    | IdentityConflict | RevisionStale | RevisionConflict
    | TerminalConflict | TransitionInvalid | CancellationConflict

  function Normalized(current: Objective, incoming: Objective): Objective {
    if !current.Terminal() && Uncertain(incoming.state) && Rank(incoming.progress) < Rank(current.progress)
    then incoming.(progress := current.progress)
    else incoming
  }

  function Advance(current: Objective, incoming: Objective): Result<Objective, AdvanceError> {
    if (current.owner, current.objectiveId) != (incoming.owner, incoming.objectiveId) then
      Err(IdentityConflict)
    else if incoming.revision < current.revision then
      Err(RevisionStale)
    else
      var next := Normalized(current, incoming);
      if next.revision == current.revision then
        if next != current then Err(RevisionConflict) else Ok(current)
      else if current.Terminal() && next.state != current.state then
        Err(TerminalConflict)
      else if next.state !in AllowedTransitions(current.state) || Rank(next.progress) < Rank(current.progress) then
        Err(TransitionInvalid)
      else if !current.cancellation.NotCancelled? && next.cancellation.NotCancelled? then
        Err(CancellationConflict)
      else
        Ok(next)
  }

  // Normalising an uncertain update can never leave the contract.
  lemma NormalizedStaysValid(current: Objective, incoming: Objective)
    requires current.Valid() && incoming.Valid()
    ensures Normalized(current, incoming).Valid()
  {
    assert Uncertain(incoming.state) ==> !incoming.Terminal();
  }

  // When a replacement is accepted, said without the transition table: on valid records the
  // table never decides anything that the terminal rule and the high-water mark do not.
  lemma AcceptedExactlyWhen(current: Objective, incoming: Objective)
    requires current.Valid() && incoming.Valid()
    ensures Advance(current, incoming).Ok? <==>
              && incoming.owner == current.owner && incoming.objectiveId == current.objectiveId
              && (|| (incoming.revision == current.revision && Normalized(current, incoming) == current)
                  || (&& incoming.revision > current.revision
                      && (current.Terminal() ==> incoming.state == current.state)
                      && (Uncertain(incoming.state) || Rank(incoming.progress) >= Rank(current.progress))
                      && (incoming.cancellation.NotCancelled? ==> current.cancellation.NotCancelled?)))
  {
    var next := Normalized(current, incoming);
    if incoming.revision > current.revision && (current.Terminal() ==> incoming.state == current.state)
       && Rank(next.progress) >= Rank(current.progress) {
      TableIsImplied(current, next);
    }
    if current.Terminal() && incoming.state == current.state {
      assert incoming.Terminal();
    }
  }

  lemma TableIsImplied(current: Objective, next: Objective)
    requires current.Valid()
    requires next.Valid()
    requires current.Terminal() ==> next.state == current.state
    requires Rank(next.progress) >= Rank(current.progress)
    ensures next.state in AllowedTransitions(current.state)
  {
    if next.state in {Submitting, Queued, Accepted, Running} {
      assert next.progress == ObservedStage(next.state);
    }
  }

  // An accepted update replaces the record with what it says, but that an uncertain one keeps
  // the progress seen before; a refused one leaves it.
  lemma StoredExactly(current: Objective, incoming: Objective)
    ensures
      var next := Stored(current, incoming);
      if Advance(current, incoming).Err? then next == current
      else
        && next.(progress := incoming.progress) == incoming
        && (next.progress == incoming.progress
            || (!current.Terminal() && incoming.state in {Unknown, Recovering, WaitingForInput} && next.progress == current.progress
                && Rank(incoming.progress) < Rank(current.progress)))
  {
  }

  // What one accepted or refused update keeps.
  ghost predicate Follows(before: Objective, after: Objective) {
    && after.Valid()
    && after.owner == before.owner && after.objectiveId == before.objectiveId
    && before.revision <= after.revision
    && Rank(before.progress) <= Rank(after.progress)
    && (before.Terminal() ==> after.state == before.state && after.progress == before.progress)
    && (!before.cancellation.NotCancelled? ==> !after.cancellation.NotCancelled?)
    && (after.revision == before.revision ==> after == before)
  }

  function Stored(current: Objective, incoming: Objective): Objective {
    match Advance(current, incoming)
    case Ok(next) => next
    case Err(_) => current
  }

  function StoredAfter(current: Objective, updates: seq<Objective>): Objective
    decreases |updates|
  {
    if updates == [] then current else StoredAfter(Stored(current, updates[0]), updates[1..])
  }

  // Over any run of updates, accepted or not: the revision and the progress high-water mark
  // never fall, terminal truth never changes, a cancellation is never withdrawn, and a record
  // changes only together with its revision.
  lemma {:induction false} RunFollows(current: Objective, updates: seq<Objective>)
    requires current.Valid()
    requires forall u <- updates :: u.Valid()
    ensures Follows(current, StoredAfter(current, updates))
    decreases |updates|
  {
    if updates != [] {
      NormalizedStaysValid(current, updates[0]);
      var next := Stored(current, updates[0]);
      assert Follows(current, next);
      RunFollows(next, updates[1..]);
    }
  }
}
