/** The decision store as the gateway keeps it: one owner's rows, changed in place inside
    transactions that either commit or leave every row as it was. */
module DecisionStore {
  import opened Basics
  import opened Decisions

  // An event that fails the fold fails it whatever follows.
  lemma {:induction false} FailureSticks(b: Board, snap: Snapshot, events: seq<Event>, n: nat)
    requires n <= |events| && OpenAll(b, snap, events[..n]).Err?
    ensures OpenAll(b, snap, events) == OpenAll(b, snap, events[..n])
    decreases |events|
  {
    if n < |events| {
      assert events[..|events| - 1][..n] == events[..n];
      FailureSticks(b, snap, events[..|events| - 1], n);
    } else {
      assert events[..n] == events;
    }
  }

  class Store {
    var sources: map<string, SourceRow>
    var decisions: map<Id, Decision>
    var events: map<(string, string), Payload>
    var resolutions: set<Payload>
    var answers: map<string, Answer>
    var confirmations: map<nat, Confirmation>
    var drawn: nat

    constructor ()
      ensures Rows() == EMPTY
    {
      sources, decisions, events, resolutions := map[], map[], map[], {};
      answers, confirmations, drawn := map[], map[], 0;
    }

    function Rows(): State
      reads this
    {
      State(sources, decisions, events, resolutions, answers, confirmations, drawn)
    }

    method Rollback(s: State)
      modifies this
      ensures Rows() == s
    {
      sources, decisions, events, resolutions := s.sources, s.decisions, s.events, s.resolutions;
      answers, confirmations, drawn := s.answers, s.confirmations, s.drawn;
    }

    // Stores the event and opens, revises or reopens its decision.
    method OpenEvent(snap: Snapshot, e: Event) returns (error: Option<DecisionError>)
      modifies `decisions, `events
      ensures match OpenOne(Board(old(decisions), old(events)), snap, e)
        case Ok(b) => error == None && Board(decisions, events) == b
        case Err(failure) => error == Some(failure)
    {
      if e.source != snap.source || e.observedAt != snap.observedAt {
        return Some(SourceInvalid);
      }
      if e.request.Some? && (e.task, e.request.value) !in snap.scopes {
        return Some(RequestScopeInvalid);
      }
      var key, id, payload := (e.source, e.eventId), IdOf(e), PayloadOf(e);
      if key in events {
        if events[key] != payload {
          return Some(SourceConflict);
        }
      } else {
        events := events[key := payload];
      }
      if id !in decisions {
        decisions := decisions[id := Decision(1, Pending, payload, e.request, e.observedAt, snap.now)];
        return None;
      }
      var d := decisions[id];
      if d.request.Some? && e.request != d.request {
        if e.request.None? || e.request.value.requestId == d.request.value.requestId || d.stage in {Answering, Answered} {
          return Some(RequestBindingConflict);
        }
      }
      if d.stage in {Pending, Resolved} {
        decisions := decisions[id := d.(request := e.request)];
      }
      if d.stage.Resolved? || (d.stage.Pending? && d.payload != payload) {
        decisions := decisions[id := decisions[id].(revision := d.revision + 1, stage := Pending, payload := payload, observedAt := e.observedAt)];
      } else {
        decisions := decisions[id := decisions[id].(observedAt := e.observedAt)];
      }
      return None;
    }

    // Opens every event in turn; answers with the ids they name.
    method OpenEvents(snap: Snapshot) returns (r: Result<set<Id>, DecisionError>)
      modifies `decisions, `events
      ensures match OpenAll(Board(old(decisions), old(events)), snap, snap.events)
        case Ok(b) => r == Ok(OpenIds(snap.events)) && Board(decisions, events) == b
        case Err(failure) => r == Err(failure)
    {
      ghost var start := Board(decisions, events);
      var open := {};
      for i := 0 to |snap.events|
        invariant open == OpenIds(snap.events[..i])
        invariant OpenAll(start, snap, snap.events[..i]) == Ok(Board(decisions, events))
      {
        var e := snap.events[i];
        open := open + {IdOf(e)};
        var error := OpenEvent(snap, e);
        assert snap.events[..i + 1][..i] == snap.events[..i];
        if error.Some? {
          FailureSticks(start, snap, snap.events, i + 1);
          return Err(error.value);
        }
        assert snap.events[..i + 1] == snap.events[..i] + [e];
      }
      assert snap.events[..|snap.events|] == snap.events;
      return Ok(open);
    }

    // Closes the source's unresolved decisions that are not among the open ones.
    method CloseMissing(snap: Snapshot, open: set<Id>)
      modifies `decisions, `resolutions
      ensures
        var missing := Missing(old(decisions), snap.source, open);
        && decisions == CloseAll(old(decisions), snap, missing)
        && resolutions == old(resolutions) + set id | id in missing :: Resolution(id, snap.sha, snap.observedAt)
    {
      var previous := set id | id in decisions && id.source == snap.source && !decisions[id].stage.Resolved?;
      var closed: set<Id> := {};
      while previous != {}
        invariant closed !! previous
        invariant Missing(old(decisions), snap.source, open) == closed + (previous - open)
        invariant decisions == CloseAll(old(decisions), snap, closed)
        invariant resolutions == old(resolutions) + set id | id in closed :: Resolution(id, snap.sha, snap.observedAt)
        decreases previous
      {
        var id :| id in previous;
        previous := previous - {id};
        if id !in open {
          closed := closed + {id};
          resolutions := resolutions + {Resolution(id, snap.sha, snap.observedAt)};
          decisions := decisions[id := Closed(decisions[id], id, snap)];
        }
      }
    }

    method Apply(snap: Snapshot) returns (r: Result<set<Id>, DecisionError>)
      modifies this
      ensures match ApplySnapshot(old(Rows()), snap)
        case Ok(s) => Rows() == s && r == Ok(Unanswered(s.decisions))
        case Err(failure) => Rows() == old(Rows()) && r == Err(failure)
    {
      if |snap.events| > MAX_OPEN_DECISIONS {
        return Err(SourceInvalid);
      }
      if snap.source in sources {
        if snap.observedAt < sources[snap.source].observedAt {
          return if |Unanswered(decisions)| > MAX_OPEN_DECISIONS then Err(SourceInvalid) else Ok(Unanswered(decisions));
        }
        if snap.observedAt == sources[snap.source].observedAt && snap.sha != sources[snap.source].sha {
          return Err(SourceConflict);
        }
      }
      var before := Rows();
      var opening := OpenEvents(snap);
      if opening.Err? {
        Rollback(before);
        return Err(opening.error);
      }
      CloseMissing(snap, opening.value);
      sources := sources[snap.source := SourceRow(snap.observedAt, snap.sha)];
      if |Unanswered(decisions)| > MAX_OPEN_DECISIONS {
        Rollback(before);
        return Err(SourceInvalid);
      }
      return Ok(Unanswered(decisions));
    }

    method PrepareConfirmation(c: Call) returns (r: Result<Prepared, DecisionError>)
      modifies this
      ensures match Prepare(old(Rows()), c)
        case Ok(done) => Rows() == done.0 && r == Ok(done.1)
        case Err(failure) => Rows() == old(Rows()) && r == Err(failure)
    {
      if c.message.None? {
        return Err(NativeMessageNotFound);
      }
      var m := c.message.value;
      if m.id in answers {
        return if Matching(answers[m.id], c) then Ok(Outcome(answers[m.id])) else Err(IdempotencyMismatch);
      }
      if !m.newest {
        return Err(NativeMessageStale);
      }
      if c.decision !in decisions {
        return Err(DecisionNotFound);
      }
      var d := decisions[c.decision];
      if d.revision != c.revision {
        return Err(Stale);
      }
      var request := CurrentRequest(d, c);
      if request.Err? {
        return Err(request.error);
      }
      if d.stage.Answering? {
        return Err(Duplicate);
      }
      if !d.stage.Pending? {
        return Err(AlreadyResolved);
      }
      if m.createdAt < d.createdAt {
        return Err(AnswerPrecedesDecision);
      }
      if c.risky {
        return Err(UnsupportedRisk);
      }
      var expiresAt := c.now + CONFIRMATION_TTL_MS;
      if request.value.Some? && request.value.value.expiresAt < expiresAt {
        expiresAt := request.value.value.expiresAt;
      }
      var token := drawn;
      drawn := drawn + 1;
      confirmations := confirmations[token := Confirmation(c.session, c.decision, c.revision, m.id, m.text, expiresAt, None)];
      return Ok(ConfirmWith(token, expiresAt));
    }

    method ResumeClaim(c: Call) returns (r: Result<Claim, DecisionError>)
      requires c.message.Some? && c.message.value.id in answers
      modifies this
      ensures match Reclaim(old(Rows()), c)
        case Ok(done) => Rows() == done.0 && r == Ok(done.1)
        case Err(failure) => Rows() == old(Rows()) && r == Err(failure)
    {
      var key := c.message.value.id;
      var a := answers[key];
      if !Matching(a, c) {
        return Err(IdempotencyMismatch);
      }
      var claimed := false;
      if a.status.Open? && a.leaseExpires <= c.now {
        if c.decision !in decisions || decisions[c.decision].revision != c.revision {
          return Err(Stale);
        }
        var request := CurrentRequest(decisions[c.decision], c);
        if request.Err? {
          return Err(request.error);
        }
        a := a.(claim := drawn, leaseExpires := c.now + ANSWER_EXECUTION_LEASE_MS);
        answers, drawn, claimed := answers[key := a], drawn + 1, true;
      }
      if c.decision !in decisions {
        return Err(DecisionNotFound);
      }
      return Ok(Claim(claimed, claimed, a.claim, a));
    }

    method TakeClaim(c: Call, token: Option<nat>) returns (r: Result<Claim, DecisionError>)
      modifies this
      ensures match ClaimAnswer(old(Rows()), c, token)
        case Ok(done) => Rows() == done.0 && r == Ok(done.1)
        case Err(failure) => Rows() == old(Rows()) && r == Err(failure)
    {
      if c.message.None? {
        return Err(NativeMessageNotFound);
      }
      var m := c.message.value;
      if m.id in answers {
        r := ResumeClaim(c);
        return;
      }
      if !m.newest {
        return Err(NativeMessageStale);
      }
      if c.decision !in decisions {
        return Err(DecisionNotFound);
      }
      var d := decisions[c.decision];
      if d.revision != c.revision {
        return Err(Stale);
      }
      if d.stage.Answering? {
        return Err(Duplicate);
      }
      if !d.stage.Pending? {
        return Err(AlreadyResolved);
      }
      var request := CurrentRequest(d, c);
      if request.Err? {
        return Err(request.error);
      }
      if token.None? {
        return Err(ConfirmationRequired);
      }
      if token.value !in confirmations || !Confirms(confirmations[token.value], c) {
        return Err(ConfirmationInvalid);
      }
      if Competing(answers, c.decision, c.revision) {
        return Err(Duplicate);
      }
      confirmations := confirmations[token.value := confirmations[token.value].(usedAt := Some(c.now))];
      var a := Answer(c.decision, c.revision, m.text, c.session, Open, None, drawn, c.now + ANSWER_EXECUTION_LEASE_MS);
      answers, drawn := answers[m.id := a], drawn + 1;
      decisions := decisions[c.decision := d.(stage := Answering)];
      return Ok(Claim(true, false, a.claim, a));
    }

    method Finish(key: string, claim: nat, report: Report) returns (r: Result<Answer, DecisionError>)
      modifies this
      ensures match FinishAnswer(old(Rows()), key, claim, report)
        case Ok(done) => Rows() == done.0 && r == Ok(done.1)
        case Err(failure) => Rows() == old(Rows()) && r == Err(failure)
    {
      if key !in answers {
        return Err(AnswerNotFound);
      }
      var a := answers[key];
      if !a.status.Open? || a.claim != claim {
        return Ok(a);
      }
      answers := answers[key := Finished(a, report)];
      if a.decision in decisions {
        var d := decisions[a.decision];
        if d.revision == a.revision && d.stage.Answering? {
          match report {
            case Done => decisions := decisions[a.decision := d.(stage := Answered)];
            case Outdated => decisions := decisions[a.decision := d.(stage := Resolved, revision := d.revision + 1)];
            case Rejected(_) => decisions := decisions[a.decision := d.(stage := Pending)];
          }
        }
      }
      return Ok(answers[key]);
    }
  }
}
