/** What each decision transaction comes to, and exactly when. */
module DecisionOutcomes {
  import opened Basics
  import opened Decisions
  import opened DecisionProofs
  import opened DecisionSnapshots

  // ---------- Snapshots that come too late ----------

  predicate Late(s: State, snap: Snapshot) {
    snap.source in s.sources && snap.observedAt < s.sources[snap.source].observedAt
  }

  // A snapshot older than the last one of its source changes nothing; it is refused only for
  // its size or the number of decisions that wait already.
  lemma LateSnapshotChangesNothing(s: State, snap: Snapshot)
    requires Late(s, snap)
    ensures Step(s, SnapshotOp(snap)) == s
    ensures ApplySnapshot(s, snap).Ok? <==>
      |snap.events| <= 100 && |set id | id in s.decisions && s.decisions[id].stage in {Pending, Answering}| <= 100
  {
    assert Unanswered(s.decisions) == set id | id in s.decisions && s.decisions[id].stage in {Pending, Answering};
  }

  // Nor does one that reuses the last observation time for other content.
  lemma ReusedTimeIsRefused(s: State, snap: Snapshot)
    requires snap.source in s.sources && snap.observedAt == s.sources[snap.source].observedAt && snap.sha != s.sources[snap.source].sha
    ensures ApplySnapshot(s, snap).Err? && Step(s, SnapshotOp(snap)) == s
  {
  }

  lemma StepKeepsTime(s: State, op: Op, source: string)
    requires source in s.sources
    ensures source in Step(s, op).sources && s.sources[source].observedAt <= Step(s, op).sources[source].observedAt
    ensures Step(s, op).sources[source].observedAt == s.sources[source].observedAt ==> Step(s, op).sources[source] == s.sources[source]
  {
    hide OpenAll;
  }

  // Over every run the time of a source never goes back, and one time has one content.
  lemma {:induction false} SourcesNeverGoBack(s: State, ops: seq<Op>, source: string)
    requires source in s.sources
    ensures source in Run(s, ops).sources && s.sources[source].observedAt <= Run(s, ops).sources[source].observedAt
    ensures Run(s, ops).sources[source].observedAt == s.sources[source].observedAt ==> Run(s, ops).sources[source] == s.sources[source]
    decreases |ops|
  {
    hide Step;
    if ops != [] {
      SourcesNeverGoBack(s, ops[..|ops| - 1], source);
      StepKeepsTime(Run(s, ops[..|ops| - 1]), ops[|ops| - 1], source);
    }
  }

  // ---------- What a snapshot makes of one decision ----------

  // The event is the only one of its batch for its decision.
  predicate NamedOnce(events: seq<Event>, i: nat)
    requires i < |events|
  {
    forall j | 0 <= j < |events| && IdOf(events[j]) == IdOf(events[i]) :: j == i
  }

  // A new decision starts at revision 1; a resolved one comes back and a pending one moves on,
  // both under the next revision, if the event says something new; an answer in progress or
  // given is not touched but for the time.
  predicate NamedBecomes(s: State, snap: Snapshot, e: Event, d': Decision) {
    var id := Id(e.source, e.task, e.lifecycle);
    var payload := Required(e.source, e.eventId, e.task, e.lifecycle, e.text, e.request);
    && d'.observedAt == snap.observedAt
    && if id !in s.decisions then
         d'.revision == 1 && d'.stage.Pending? && d'.payload == payload && d'.request == e.request && d'.createdAt == snap.now
       else
         var d := s.decisions[id];
         && d'.createdAt == d.createdAt
         && if d.stage in {Answering, Answered} then
              d'.revision == d.revision && d'.stage == d.stage && d'.payload == d.payload && d'.request == d.request
            else
              && d'.stage.Pending? && d'.payload == payload && d'.request == e.request
              && d'.revision == d.revision + (if d.stage.Pending? && d.payload == payload then 0 else 1)
  }

  // A decision that waits and is named no more.
  predicate DroppedBecomes(snap: Snapshot, id: Id, d: Decision, d': Decision) {
    && d'.revision == d.revision + 1 && d'.stage.Resolved? && d'.payload == Resolution(id, snap.sha, snap.observedAt)
    && d'.request == d.request && d'.observedAt == snap.observedAt && d'.createdAt == d.createdAt
  }

  lemma {:induction false} NamedOnceLands(s: State, b: Board, snap: Snapshot, events: seq<Event>, i: nat)
    requires b.decisions == s.decisions && OpenAll(b, snap, events).Ok? && i < |events| && NamedOnce(events, i)
    ensures
      var ds, id := OpenAll(b, snap, events).value.decisions, IdOf(events[i]);
      id in ds && NamedBecomes(s, snap, events[i], ds[id])
    decreases |events|
  {
    var last := |events| - 1;
    OpenedExactly(b, snap, events[..last]);
    var mid := OpenAll(b, snap, events[..last]).value;
    OpeningIsLocal(mid, snap, events[last]);
    if i < last {
      assert NamedOnce(events[..last], i);
      NamedOnceLands(s, b, snap, events[..last], i);
    } else {
      UnnamedBefore(events, i);
      OpeningBecomes(s, mid, snap, events[last]);
    }
  }

  lemma UnnamedBefore(events: seq<Event>, i: nat)
    requires i == |events| - 1 && NamedOnce(events, i)
    ensures IdOf(events[i]) !in OpenIds(events[..i])
  {
    assert forall j | 0 <= j < i :: IdOf(events[j]) != IdOf(events[i]);
  }

  lemma OpeningBecomes(s: State, b: Board, snap: Snapshot, e: Event)
    requires OpenOne(b, snap, e).Ok?
    requires IdOf(e) in b.decisions <==> IdOf(e) in s.decisions
    requires IdOf(e) in s.decisions ==> b.decisions[IdOf(e)] == s.decisions[IdOf(e)]
    ensures IdOf(e) in OpenOne(b, snap, e).value.decisions && NamedBecomes(s, snap, e, OpenOne(b, snap, e).value.decisions[IdOf(e)])
  {
  }

  lemma DroppedAreMissing(s: State, snap: Snapshot)
    requires OpenAll(Start(s), snap, snap.events).Ok?
    ensures Missing(OpenAll(Start(s), snap, snap.events).value.decisions, snap.source, OpenIds(snap.events)) == set id |
      id in s.decisions && id.source == snap.source && !s.decisions[id].stage.Resolved? && (forall e <- snap.events :: Id(e.source, e.task, e.lifecycle) != id)
  {
    OpenedExactly(Start(s), snap, snap.events);
    assert forall id :: id in OpenIds(snap.events) <==> !forall e <- snap.events :: Id(e.source, e.task, e.lifecycle) != id;
  }

  // Field by field, what an accepted snapshot makes of every decision its batch names once.
  lemma AcceptedSnapshotOpens(s: State, snap: Snapshot, i: nat)
    requires Accepted(s, snap) && i < |snap.events| && NamedOnce(snap.events, i)
    ensures
      var s', id := ApplySnapshot(s, snap).value, Id(snap.events[i].source, snap.events[i].task, snap.events[i].lifecycle);
      id in s'.decisions && NamedBecomes(s, snap, snap.events[i], s'.decisions[id])
  {
    NamedOnceLands(s, Start(s), snap, snap.events, i);
    assert snap.events[i] in snap.events;
    assert IdOf(snap.events[i]) in OpenIds(snap.events);
  }

  // And of every decision of its source that waited and that it names no more; it records a
  // resolution for each of those.
  lemma AcceptedSnapshotCloses(s: State, snap: Snapshot)
    requires Accepted(s, snap)
    ensures
      var s' := ApplySnapshot(s, snap).value;
      var dropped := set id | id in s.decisions && id.source == snap.source && !s.decisions[id].stage.Resolved?
                              && forall e <- snap.events :: Id(e.source, e.task, e.lifecycle) != id;
      && (forall id <- dropped :: id in s'.decisions && DroppedBecomes(snap, id, s.decisions[id], s'.decisions[id]))
      && s'.resolutions == s.resolutions + set id | id in dropped :: Resolution(id, snap.sha, snap.observedAt)
  {
    hide OpenAll, OpenIds;
    DroppedAreMissing(s, snap);
    OpenedExactly(Start(s), snap, snap.events);
    DroppedStayBefore(s, snap);
  }

  lemma DroppedStayBefore(s: State, snap: Snapshot)
    requires OpenAll(Start(s), snap, snap.events).Ok?
    ensures
      var ds := OpenAll(Start(s), snap, snap.events).value.decisions;
      forall id <- s.decisions :: (forall e <- snap.events :: Id(e.source, e.task, e.lifecycle) != id) ==> id in ds && ds[id] == s.decisions[id]
  {
    OpenedExactly(Start(s), snap, snap.events);
    assert forall id :: id in OpenIds(snap.events) <==> !forall e <- snap.events :: Id(e.source, e.task, e.lifecycle) != id;
  }

  // ---------- When a snapshot is taken ----------

  // An event the store can open a decision with.
  predicate Eligible(s: State, snap: Snapshot, e: Event) {
    && e.source == snap.source && e.observedAt == snap.observedAt
    && (e.request.Some? ==> (e.task, e.request.value) in snap.scopes)
    && ((e.source, e.eventId) in s.events ==>
          s.events[(e.source, e.eventId)] == Required(e.source, e.eventId, e.task, e.lifecycle, e.text, e.request))
    && (Id(e.source, e.task, e.lifecycle) in s.decisions ==>
          var d := s.decisions[Id(e.source, e.task, e.lifecycle)];
          || d.request.None? || e.request == d.request
          || (e.request.Some? && e.request.value.requestId != d.request.value.requestId && d.stage in {Pending, Resolved}))
  }

  // No hold and no event id twice.
  predicate Plain(events: seq<Event>) {
    forall i, j | 0 <= i < j < |events| ::
      events[i].eventId != events[j].eventId && (events[i].task, events[i].lifecycle) != (events[j].task, events[j].lifecycle)
  }

  // The event log after a batch: what it was, and the batch's own events.
  ghost predicate LogsBatch(before: map<(string, string), Payload>, after: map<(string, string), Payload>, events: seq<Event>) {
    && (forall key <- before :: key in after && after[key] == before[key])
    && (forall e <- events :: (e.source, e.eventId) in after
          && after[(e.source, e.eventId)] == Required(e.source, e.eventId, e.task, e.lifecycle, e.text, e.request))
    && (forall key <- after :: key in before || exists e <- events :: key == (e.source, e.eventId))
  }

  lemma {:induction false} PlainBatchOpensExactlyWhen(s: State, snap: Snapshot, events: seq<Event>)
    requires Plain(events)
    ensures OpenAll(Start(s), snap, events).Ok? <==> forall e <- events :: Eligible(s, snap, e)
    ensures OpenAll(Start(s), snap, events).Ok? ==> LogsBatch(s.events, OpenAll(Start(s), snap, events).value.events, events)
    decreases |events|
  {
    if events != [] {
      var rest, e := events[..|events| - 1], events[|events| - 1];
      PlainBatchOpensExactlyWhen(s, snap, rest);
      assert events == rest + [e];
      if OpenAll(Start(s), snap, rest).Ok? {
        var b := OpenAll(Start(s), snap, rest).value;
        OpenedExactly(Start(s), snap, rest);
        LastIsApart(s, snap, events);
        OpensExactlyWhen(s, b, snap, e);
        if OpenOne(b, snap, e).Ok? {
          LogsOneMore(s.events, b.events, OpenOne(b, snap, e).value.events, rest, e);
        }
      }
    }
  }

  lemma LastIsApart(s: State, snap: Snapshot, events: seq<Event>)
    requires Plain(events) && events != []
    requires forall e <- events[..|events| - 1] :: Eligible(s, snap, e)
    ensures var e := events[|events| - 1];
      forall x <- events[..|events| - 1] :: x.eventId != e.eventId && IdOf(x) != IdOf(e) && x.source == snap.source
  {
    hide Eligible;
    var last := |events| - 1;
    forall x <- events[..last]
      ensures x.eventId != events[last].eventId && IdOf(x) != IdOf(events[last]) && x.source == snap.source
    {
      var i :| 0 <= i < last && events[..last][i] == x;
      assert events[i] == x;
      EligibleIsOurs(s, snap, x);
    }
  }

  lemma EligibleIsOurs(s: State, snap: Snapshot, e: Event)
    requires Eligible(s, snap, e)
    ensures e.source == snap.source
  {
  }

  lemma OpensExactlyWhen(s: State, b: Board, snap: Snapshot, e: Event)
    requires IdOf(e) in b.decisions <==> IdOf(e) in s.decisions
    requires IdOf(e) in s.decisions ==> b.decisions[IdOf(e)] == s.decisions[IdOf(e)]
    requires (e.source, e.eventId) in b.events <==> (e.source, e.eventId) in s.events
    requires (e.source, e.eventId) in s.events ==> b.events[(e.source, e.eventId)] == s.events[(e.source, e.eventId)]
    ensures OpenOne(b, snap, e).Ok? <==> Eligible(s, snap, e)
    ensures
      var r := OpenOne(b, snap, e);
      r.Ok? ==> r.value.events == b.events[(e.source, e.eventId) := Required(e.source, e.eventId, e.task, e.lifecycle, e.text, e.request)]
  {
    if OpenOne(b, snap, e).Ok? && (e.source, e.eventId) in b.events {
      assert b.events[(e.source, e.eventId) := b.events[(e.source, e.eventId)]] == b.events;
    }
  }

  lemma LogsOneMore(before: map<(string, string), Payload>, mid: map<(string, string), Payload>, after: map<(string, string), Payload>,
                    rest: seq<Event>, e: Event)
    requires LogsBatch(before, mid, rest)
    requires after == mid[(e.source, e.eventId) := Required(e.source, e.eventId, e.task, e.lifecycle, e.text, e.request)]
    requires (e.source, e.eventId) in mid ==> mid[(e.source, e.eventId)] == after[(e.source, e.eventId)]
    ensures LogsBatch(before, after, rest + [e])
  {
    forall key | key in after && key !in before
      ensures exists x <- rest + [e] :: key == (x.source, x.eventId)
    {
      if key == (e.source, e.eventId) {
        assert e in rest + [e];
      } else {
        var x :| x in rest && key == (x.source, x.eventId);
        assert x in rest + [e];
      }
    }
  }

  // What waits after a plain batch: at other sources what waited, and at its own what it names
  // and is not answered.
  ghost function WaitingAfter(s: State, snap: Snapshot): set<Id> {
    (set id | id in s.decisions && id.source != snap.source && s.decisions[id].stage in {Pending, Answering})
    + (set e | e in snap.events && (IdOf(e) in s.decisions ==> !s.decisions[IdOf(e)].stage.Answered?) :: IdOf(e))
  }

  // A batch that names no hold and no event id twice is taken exactly when it is neither
  // oversized, nor late, nor a second reading of one moment, every event of it is eligible,
  // and no more than a hundred decisions wait after it. (A late one changes nothing.)
  lemma PlainBatchIsTakenExactlyWhen(s: State, snap: Snapshot)
    requires Plain(snap.events) && !Late(s, snap)
    ensures ApplySnapshot(s, snap).Ok? <==>
      && |snap.events| <= 100 && (snap.source in s.sources && snap.observedAt == s.sources[snap.source].observedAt ==> snap.sha == s.sources[snap.source].sha)
      && (forall e <- snap.events :: Eligible(s, snap, e))
      && |WaitingAfter(s, snap)| <= 100
    ensures ApplySnapshot(s, snap).Ok? ==> LogsBatch(s.events, ApplySnapshot(s, snap).value.events, snap.events)
  {
    hide Eligible, LogsBatch, OpenAll, Plain;
    PlainBatchOpensExactlyWhen(s, snap, snap.events);
    if OpenAll(Start(s), snap, snap.events).Ok? {
      WaitingIsExact(s, snap);
    }
  }

  lemma WaitingIsExact(s: State, snap: Snapshot)
    requires Plain(snap.events) && OpenAll(Start(s), snap, snap.events).Ok?
    ensures Unanswered(Applied(s, snap, OpenAll(Start(s), snap, snap.events).value).decisions) == WaitingAfter(s, snap)
  {
    hide OpenAll;
    var b := OpenAll(Start(s), snap, snap.events).value;
    OpenedExactly(Start(s), snap, snap.events);
    forall e | e in snap.events
      ensures IdOf(e) in b.decisions && IdOf(e) in OpenIds(snap.events) && NamedBecomes(s, snap, e, b.decisions[IdOf(e)])
    {
      var i :| 0 <= i < |snap.events| && snap.events[i] == e;
      PlainNamesOnce(snap.events, i);
      NamedOnceLands(s, Start(s), snap, snap.events, i);
    }
  }

  lemma PlainNamesOnce(events: seq<Event>, i: nat)
    requires Plain(events) && i < |events|
    ensures NamedOnce(events, i)
  {
  }

  // ---------- Confirmations and claims ----------

  // The call is about the decision as it stands, and its request, if it has one, still holds.
  // Without a request it must not be the personal mode.
  predicate AboutCurrent(s: State, c: Call) {
    && c.decision in s.decisions && s.decisions[c.decision].revision == c.revision
    && match s.decisions[c.decision].request
       case None => !c.personal
       case Some(request) => c.now < request.expiresAt && c.inScope
  }

  // A message that may still answer: the newest one, to a decision that waits for it.
  predicate MayAnswer(s: State, c: Call) {
    && c.message.Some? && c.message.value.id !in s.answers && c.message.value.newest
    && AboutCurrent(s, c) && s.decisions[c.decision].stage.Pending?
  }

  // A confirmation is offered exactly for the newest message, unanswered so far, no older than
  // a pending decision it is about as it stands, and not risky. It names all of these and
  // lives five minutes, or as long as the request.
  lemma ConfirmationOfferedExactlyWhen(s: State, c: Call)
    ensures
      var r := Prepare(s, c);
      && (r.Ok? && r.value.1.ConfirmWith? <==>
            MayAnswer(s, c) && c.message.value.createdAt >= s.decisions[c.decision].createdAt && !c.risky)
      && (r.Ok? && r.value.1.ConfirmWith? ==>
            && r.value.1.token == s.drawn && r.value.0.drawn == s.drawn + 1
            && s.drawn in r.value.0.confirmations
            && r.value.0 == s.(drawn := s.drawn + 1, confirmations := s.confirmations[s.drawn := r.value.0.confirmations[s.drawn]])
            && var k := r.value.0.confirmations[s.drawn];
               && k.session == c.session && k.decision == c.decision && k.revision == c.revision && k.usedAt.None?
               && k.message == c.message.value.id && k.text == c.message.value.text && k.expiresAt == r.value.1.expiresAt
               && k.expiresAt <= c.now + 300_000
               && match s.decisions[c.decision].request
                  case None => k.expiresAt == c.now + 300_000
                  case Some(request) => k.expiresAt <= request.expiresAt && (k.expiresAt == c.now + 300_000 || k.expiresAt == request.expiresAt))
  {
  }

  // A message that has its answer gets that answer, for the same call, and changes nothing.
  lemma PreparedAgainExactlyWhen(s: State, c: Call)
    requires c.message.Some? && c.message.value.id in s.answers
    ensures
      var r, a := Prepare(s, c), s.answers[c.message.value.id];
      if a.decision == c.decision && a.revision == c.revision && a.text == c.message.value.text then r == Ok((s, Outcome(a))) else r.Err?
  {
  }

  // An unused confirmation of exactly this call, still alive.
  predicate ConfirmedBy(s: State, c: Call, token: Option<nat>)
    requires c.message.Some?
  {
    && token.Some? && token.value in s.confirmations
    && var k := s.confirmations[token.value];
       && k.session == c.session && k.decision == c.decision && k.revision == c.revision && k.message == c.message.value.id
       && k.text == c.message.value.text && c.now < k.expiresAt && k.usedAt.None?
  }

  // A first claim is granted exactly when the message may still answer and the confirmation is
  // its own. It opens the answer for a minute, uses the confirmation and holds the decision.
  lemma ClaimedExactlyWhen(s: State, c: Call, token: Option<nat>)
    requires Joint(s) && c.message.Some? && c.message.value.id !in s.answers
    ensures
      var r := ClaimAnswer(s, c, token);
      && (r.Ok? <==> MayAnswer(s, c) && ConfirmedBy(s, c, token))
      && (r.Ok? ==>
            && r.value.1 == Claim(true, false, s.drawn, r.value.1.answer)
            && r.value.1.answer == Answer(c.decision, c.revision, c.message.value.text, c.session, Open, None, s.drawn, c.now + 60_000)
            && r.value.0 == s.(
                 answers := s.answers[c.message.value.id := r.value.1.answer],
                 confirmations := s.confirmations[token.value := s.confirmations[token.value].(usedAt := Some(c.now))],
                 decisions := s.decisions[c.decision := s.decisions[c.decision].(stage := Answering)],
                 drawn := s.drawn + 1))
  {
    if c.decision in s.decisions && s.decisions[c.decision].stage.Pending? {
      NothingCompetes(s, c.decision);
    }
  }

  // A message with an answer: its claim is handed on exactly when the same call comes after the
  // lease of an open answer ran out and is still about the decision as it stands. Before that,
  // or once the answer is written, the same call only reads it.
  lemma ReclaimedExactlyWhen(s: State, c: Call, token: Option<nat>)
    requires c.message.Some? && c.message.value.id in s.answers
    ensures
      var r, key := ClaimAnswer(s, c, token), c.message.value.id;
      var a := s.answers[key];
      var same := a.decision == c.decision && a.revision == c.revision && a.text == c.message.value.text;
      var lapsed := a.status.Open? && a.leaseExpires <= c.now;
      && (r.Ok? && r.value.1.claimed <==> same && lapsed && AboutCurrent(s, c))
      && (r.Ok? && !r.value.1.claimed <==> same && !lapsed && c.decision in s.decisions)
      && (r.Ok? && r.value.1.claimed ==>
            && r.value.1.resumed && r.value.1.claim == s.drawn && r.value.1.answer == a.(claim := s.drawn, leaseExpires := c.now + 60_000)
            && r.value.0 == s.(answers := s.answers[key := r.value.1.answer], drawn := s.drawn + 1))
      && (r.Ok? && !r.value.1.claimed ==> r.value == (s, Claim(false, false, a.claim, a)))
  {
  }

  // The claim holder's report, field by field. A decision that went on to another revision is
  // left alone; otherwise it was held for this answer and is answered, closed under the next
  // revision, or free again.
  lemma FinishedExactly(s: State, key: string, report: Report)
    requires Joint(s) && key in s.answers && s.answers[key].status.Open?
    ensures
      var a := s.answers[key];
      var r := FinishAnswer(s, key, a.claim, report);
      && r.Ok? && key in r.value.0.answers && a.decision in s.decisions && a.decision in r.value.0.decisions
      && var s', a' := r.value.0, r.value.1;
      && s' == s.(answers := s.answers[key := a'], decisions := s.decisions[a.decision := s'.decisions[a.decision]])
      && (a'.decision, a'.revision, a'.text, a'.session, a'.claim, a'.leaseExpires)
         == (a.decision, a.revision, a.text, a.session, a.claim, a.leaseExpires)
      && (a'.status.Succeeded? <==> report.Done?) && !a'.status.Open?
      && (report.Done? ==> a'.error.None?) && (report.Outdated? ==> a'.error == Some("stale"))
      && (report.Rejected? ==> a'.error == Some(report.code))
      && var d, d' := s.decisions[a.decision], s'.decisions[a.decision];
         if d.revision != a.revision then d' == d
         else
           && d.stage.Answering? && (d'.payload, d'.request, d'.observedAt, d'.createdAt) == (d.payload, d.request, d.observedAt, d.createdAt)
           && (report.Done? ==> d'.stage.Answered? && d'.revision == d.revision)
           && (report.Outdated? ==> d'.stage.Resolved? && d'.revision == d.revision + 1)
           && (report.Rejected? ==> d'.stage.Pending? && d'.revision == d.revision)
  {
    var a := s.answers[key];
    if s.decisions[a.decision].revision == a.revision {
      TimelyFinishEndsDecision(s, key, report);
    }
    assert s.decisions[a.decision := s.decisions[a.decision]] == s.decisions;
  }

  // Any other report is answered with what is there and changes nothing.
  lemma OtherReportsChangeNothing(s: State, key: string, claim: nat, report: Report)
    requires key in s.answers && (!s.answers[key].status.Open? || s.answers[key].claim != claim)
    ensures FinishAnswer(s, key, claim, report) == Ok((s, s.answers[key]))
  {
  }
}
