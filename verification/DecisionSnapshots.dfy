/** What an accepted complete snapshot makes of its source's decisions, and when applying it
    again changes nothing. */
module DecisionSnapshots {
  import opened Basics
  import opened Decisions
  import opened DecisionProofs

  ghost predicate Accepted(s: State, snap: Snapshot) {
    && ApplySnapshot(s, snap).Ok?
    && (snap.source in s.sources ==> s.sources[snap.source].observedAt <= snap.observedAt)
  }

  function Start(s: State): Board {
    Board(s.decisions, s.events)
  }

  lemma OpeningIsLocal(b: Board, snap: Snapshot, e: Event)
    requires OpenOne(b, snap, e).Ok?
    ensures
      var b' := OpenOne(b, snap, e).value;
      && b'.decisions.Keys == b.decisions.Keys + {IdOf(e)}
      && IdOf(e).source == snap.source && !b'.decisions[IdOf(e)].stage.Resolved?
      && (forall id <- b.decisions :: id != IdOf(e) ==> b'.decisions[id] == b.decisions[id])
  {
  }

  lemma {:induction false} OpenedExactly(b: Board, snap: Snapshot, events: seq<Event>)
    requires OpenAll(b, snap, events).Ok?
    ensures
      var b' := OpenAll(b, snap, events).value;
      && b'.decisions.Keys == b.decisions.Keys + OpenIds(events)
      && (forall id <- OpenIds(events) :: id.source == snap.source && !b'.decisions[id].stage.Resolved?)
      && (forall id <- b.decisions :: id !in OpenIds(events) ==> b'.decisions[id] == b.decisions[id])
    decreases |events|
  {
    if events != [] {
      var last := |events| - 1;
      OpenedExactly(b, snap, events[..last]);
      OpeningIsLocal(OpenAll(b, snap, events[..last]).value, snap, events[last]);
      assert OpenIds(events) == OpenIds(events[..last]) + {IdOf(events[last])} by {
        assert forall e :: e in events <==> e in events[..last] || e == events[last];
      }
    }
  }

  // An accepted snapshot leaves exactly the decisions it names open at its source, closes the
  // rest under a new revision, and touches nothing else.
  lemma AcceptedSnapshotIsExact(s: State, snap: Snapshot)
    requires Accepted(s, snap)
    ensures
      var s', open := ApplySnapshot(s, snap).value, OpenIds(snap.events);
      && s.decisions.Keys <= s'.decisions.Keys
      && s'.sources == s.sources[snap.source := SourceRow(snap.observedAt, snap.sha)]
      && (forall id: Id :: id in s'.decisions && id.source == snap.source && !s'.decisions[id].stage.Resolved? <==> id in open)
      && (forall id <- s.decisions :: id.source == snap.source && id !in open && !s.decisions[id].stage.Resolved? ==>
            s'.decisions[id].revision == s.decisions[id].revision + 1)
      && (forall id: Id | id.source != snap.source :: id in s'.decisions <==> id in s.decisions)
      && (forall id <- s.decisions :: id.source != snap.source || (id !in open && s.decisions[id].stage.Resolved?) ==>
            s'.decisions[id] == s.decisions[id])
      && s'.answers == s.answers && s'.confirmations == s.confirmations
  {
    OpenedExactly(Start(s), snap, snap.events);
  }

  // ---------- Applying a snapshot again ----------

  // What processing an event leaves behind, as long as no later event is for its decision.
  ghost predicate Recorded(b: Board, snap: Snapshot, e: Event) {
    && e.source == snap.source && e.observedAt == snap.observedAt
    && (e.request.Some? ==> (e.task, e.request.value) in snap.scopes)
    && (e.source, e.eventId) in b.events && b.events[(e.source, e.eventId)] == PayloadOf(e)
    && IdOf(e) in b.decisions && !b.decisions[IdOf(e)].stage.Resolved? && b.decisions[IdOf(e)].observedAt == snap.observedAt
    && (b.decisions[IdOf(e)].stage in {Answering, Answered} ==> !Rebinds(b.decisions[IdOf(e)], e))
  }

  ghost predicate Shown(b: Board, e: Event) {
    && IdOf(e) in b.decisions
    && (b.decisions[IdOf(e)].stage.Pending? ==> b.decisions[IdOf(e)].payload == PayloadOf(e) && b.decisions[IdOf(e)].request == e.request)
  }

  lemma OpeningRecords(b: Board, snap: Snapshot, e: Event)
    requires OpenOne(b, snap, e).Ok?
    ensures Recorded(OpenOne(b, snap, e).value, snap, e) && Shown(OpenOne(b, snap, e).value, e)
  {
  }

  lemma OpeningKeepsRecorded(b: Board, snap: Snapshot, e: Event, other: Event)
    requires OpenOne(b, snap, e).Ok? && Recorded(b, snap, other)
    ensures Recorded(OpenOne(b, snap, e).value, snap, other)
    ensures Shown(b, other) && IdOf(e) != IdOf(other) ==> Shown(OpenOne(b, snap, e).value, other)
  {
  }

  // Event i is the last of the first n for its decision.
  ghost predicate LastFor(events: seq<Event>, n: nat, i: nat)
    requires i < n <= |events|
  {
    forall k | i < k < n :: IdOf(events[k]) != IdOf(events[i])
  }

  lemma {:induction false} OpeningAllRecords(b: Board, snap: Snapshot, events: seq<Event>, i: nat)
    requires OpenAll(b, snap, events).Ok? && i < |events|
    ensures Recorded(OpenAll(b, snap, events).value, snap, events[i])
    ensures LastFor(events, |events|, i) ==> Shown(OpenAll(b, snap, events).value, events[i])
    decreases |events|
  {
    var last := |events| - 1;
    var mid := OpenAll(b, snap, events[..last]).value;
    if i == last {
      OpeningRecords(mid, snap, events[last]);
    } else {
      OpeningAllRecords(b, snap, events[..last], i);
      OpeningKeepsRecorded(mid, snap, events[last], events[i]);
    }
  }

  lemma OpeningAgain(b: Board, snap: Snapshot, e: Event)
    requires Recorded(b, snap, e) && Shown(b, e)
    ensures OpenOne(b, snap, e) == Ok(b)
  {
    var d := b.decisions[IdOf(e)];
    assert Revised(d, e) == d;
    assert b.decisions[IdOf(e) := d] == b.decisions;
  }

  lemma {:induction false} OpeningAllAgain(b: Board, snap: Snapshot, events: seq<Event>)
    requires forall e <- events :: Recorded(b, snap, e) && Shown(b, e)
    ensures OpenAll(b, snap, events) == Ok(b)
    decreases |events|
  {
    if events != [] {
      OpeningAllAgain(b, snap, events[..|events| - 1]);
      OpeningAgain(b, snap, events[|events| - 1]);
    }
  }

  ghost predicate DistinctIds(events: seq<Event>) {
    forall i, j | 0 <= i < j < |events| :: events[i].eventId != events[j].eventId
  }

  // Two events for one decision that is still pending: the batch contract allows it, since it
  // only asks for distinct event ids.
  ghost predicate PendingTwice(s: State, events: seq<Event>) {
    exists i, j :: 0 <= i < j < |events| && IdOf(events[i]) == IdOf(events[j])
      && IdOf(events[i]) in s.decisions && s.decisions[IdOf(events[i])].stage.Pending?
  }

  // The board an applied snapshot leaves shows its events just as the fold left them.
  lemma ClosingKeepsShown(b: Board, snap: Snapshot, ds: map<Id, Decision>, e: Event)
    requires e in snap.events && Recorded(b, snap, e)
    requires ds == CloseAll(b.decisions, snap, Missing(b.decisions, snap.source, OpenIds(snap.events)))
    ensures Recorded(Board(ds, b.events), snap, e)
    ensures Shown(b, e) ==> Shown(Board(ds, b.events), e)
  {
    assert IdOf(e) in OpenIds(snap.events);
  }

  lemma AppliedRecords(s: State, snap: Snapshot, i: nat)
    requires Accepted(s, snap) && i < |snap.events|
    requires !PendingTwice(ApplySnapshot(s, snap).value, snap.events)
    ensures var b := Start(ApplySnapshot(s, snap).value); Recorded(b, snap, snap.events[i]) && Shown(b, snap.events[i])
  {
    var s', b, e := ApplySnapshot(s, snap).value, OpenAll(Start(s), snap, snap.events).value, snap.events[i];
    OpeningAllRecords(Start(s), snap, snap.events, i);
    ClosingKeepsShown(b, snap, s'.decisions, e);
    if s'.decisions[IdOf(e)].stage.Pending? {
      assert LastFor(snap.events, |snap.events|, i);
    }
  }

  lemma ReapplyingKeeps(s: State, snap: Snapshot)
    requires Accepted(s, snap)
    requires !PendingTwice(ApplySnapshot(s, snap).value, snap.events)
    ensures var s' := ApplySnapshot(s, snap).value; ApplySnapshot(s', snap) == Ok(s')
  {
    var s' := ApplySnapshot(s, snap).value;
    forall e | e in snap.events
      ensures Recorded(Start(s'), snap, e) && Shown(Start(s'), e)
    {
      var i :| 0 <= i < |snap.events| && snap.events[i] == e;
      AppliedRecords(s, snap, i);
    }
    OpeningAllAgain(Start(s'), snap, snap.events);
    AcceptedSnapshotIsExact(s, snap);
    NothingToClose(s', snap);
  }

  lemma NothingToClose(s: State, snap: Snapshot)
    requires snap.source in s.sources && s.sources[snap.source] == SourceRow(snap.observedAt, snap.sha)
    requires forall id: Id | id in s.decisions && id.source == snap.source && !s.decisions[id].stage.Resolved? :: id in OpenIds(snap.events)
    ensures Applied(s, snap, Start(s)) == s
  {
    assert Missing(s.decisions, snap.source, OpenIds(snap.events)) == {};
    assert CloseAll(s.decisions, snap, {}) == s.decisions;
    assert s.sources[snap.source := SourceRow(snap.observedAt, snap.sha)] == s.sources;
  }

  lemma QuietOpening(b: Board, snap: Snapshot, e: Event, id: Id)
    requires OpenOne(b, snap, e).Ok? && id in b.decisions && b.decisions[id].stage.Pending?
    requires OpenOne(b, snap, e).value.decisions[id].revision == b.decisions[id].revision
    ensures OpenOne(b, snap, e).value.decisions[id].payload == b.decisions[id].payload
    ensures IdOf(e) == id ==> PayloadOf(e) == b.decisions[id].payload
  {
  }

  // A fold that leaves a pending decision's revision alone found its payload in every event.
  lemma {:induction false} QuietFold(b: Board, snap: Snapshot, events: seq<Event>, id: Id)
    requires OpenAll(b, snap, events).Ok? && id in b.decisions && b.decisions[id].stage.Pending?
    requires var b' := OpenAll(b, snap, events).value;
      id in b'.decisions && b'.decisions[id].revision == b.decisions[id].revision
    ensures forall e <- events :: IdOf(e) == id ==> PayloadOf(e) == b.decisions[id].payload
    ensures OpenAll(b, snap, events).value.decisions[id].payload == b.decisions[id].payload
    decreases |events|
  {
    if events != [] {
      var last := |events| - 1;
      OpeningAllCarries(b, snap, events[..last]);
      OpeningCarries(OpenAll(b, snap, events[..last]).value, snap, events[last]);
      QuietFold(b, snap, events[..last], id);
      QuietOpening(OpenAll(b, snap, events[..last]).value, snap, events[last], id);
    }
  }

  // Applying an accepted snapshot again changes nothing, unless it names a pending decision
  // twice; then it raises that decision's revision every time.
  lemma ReapplyingChangesNothingExactlyWhen(s: State, snap: Snapshot)
    requires Accepted(s, snap) && DistinctIds(snap.events)
    ensures var s' := ApplySnapshot(s, snap).value;
      ApplySnapshot(s', snap) == Ok(s') <==> !PendingTwice(s', snap.events)
  {
    var s' := ApplySnapshot(s, snap).value;
    if !PendingTwice(s', snap.events) {
      ReapplyingKeeps(s, snap);
    } else {
      var i, j :| 0 <= i < j < |snap.events| && IdOf(snap.events[i]) == IdOf(snap.events[j])
        && IdOf(snap.events[i]) in s'.decisions && s'.decisions[IdOf(snap.events[i])].stage.Pending?;
      NamedTwiceMoves(s', snap, i, j);
    }
  }

  lemma NamedTwiceMoves(s: State, snap: Snapshot, i: nat, j: nat)
    requires snap.source in s.sources && s.sources[snap.source] == SourceRow(snap.observedAt, snap.sha)
    requires i < j < |snap.events| && DistinctIds(snap.events) && IdOf(snap.events[i]) == IdOf(snap.events[j])
    requires IdOf(snap.events[i]) in s.decisions && s.decisions[IdOf(snap.events[i])].stage.Pending?
    ensures ApplySnapshot(s, snap) != Ok(s)
    ensures var r := ApplySnapshot(s, snap); var id := IdOf(snap.events[i]);
      r.Ok? ==> id in r.value.decisions && r.value.decisions[id].revision > s.decisions[id].revision
  {
    var id := IdOf(snap.events[i]);
    var r := OpenAll(Start(s), snap, snap.events);
    if r.Ok? {
      OpeningAllCarries(Start(s), snap, snap.events);
      assert snap.events[i] in snap.events && snap.events[j] in snap.events;
      assert PayloadOf(snap.events[i]) != PayloadOf(snap.events[j]);
      if r.value.decisions[id].revision == s.decisions[id].revision {
        QuietFold(Start(s), snap, snap.events, id);
        assert false;
      }
      assert id in OpenIds(snap.events);
    }
  }

  // ---------- A hold named twice ----------

  // Two events for one hold, told apart by their event ids and bound to no request.
  predicate SameHold(e1: Event, e2: Event) {
    && IdOf(e1) == IdOf(e2) && e1.observedAt == e2.observedAt && e1.eventId != e2.eventId
    && e1.request.None? && e2.request.None?
  }

  function Twice(e1: Event, e2: Event, sha: string, now: int): Snapshot {
    Snapshot(e1.source, e1.observedAt, sha, [e1, e2], {}, now)
  }

  // The state after a snapshot was applied n times; a refused one changes nothing.
  function Polled(s: State, snap: Snapshot, n: nat): State {
    if n == 0 then s
    else
      var before := Polled(s, snap, n - 1);
      match ApplySnapshot(before, snap) case Ok(after) => after case Err(_) => before
  }

  function LoggedEvents(e1: Event, e2: Event): map<(string, string), Payload> {
    map[(e1.source, e1.eventId) := PayloadOf(e1), (e2.source, e2.eventId) := PayloadOf(e2)]
  }

  // The only decision after n applications: opened once, and reopened on every later event.
  predicate ReopenedTimes(s: State, e1: Event, e2: Event, sha: string, now: int, n: nat) {
    s == if n == 0 then EMPTY else
      EMPTY.(sources := map[e1.source := SourceRow(e1.observedAt, sha)],
             decisions := map[IdOf(e1) := Decision(2 * n, Pending, PayloadOf(e2), None, e1.observedAt, now)],
             events := LoggedEvents(e1, e2))
  }

  lemma OpensFirst(s: State, e1: Event, e2: Event, sha: string, now: int, n: nat)
    requires SameHold(e1, e2) && ReopenedTimes(s, e1, e2, sha, now, n)
    ensures
      OpenOne(Start(s), Twice(e1, e2, sha, now), e1)
      == Ok(Board(map[IdOf(e1) := Decision(2 * n + 1, Pending, PayloadOf(e1), None, e1.observedAt, now)],
                  if n == 0 then map[(e1.source, e1.eventId) := PayloadOf(e1)] else LoggedEvents(e1, e2)))
  {
    assert PayloadOf(e1) != PayloadOf(e2);
    var r := OpenOne(Start(s), Twice(e1, e2, sha, now), e1);
    assert r.Ok?;
    assert r.value.decisions == map[IdOf(e1) := Decision(2 * n + 1, Pending, PayloadOf(e1), None, e1.observedAt, now)];
    assert r.value.events == if n == 0 then map[(e1.source, e1.eventId) := PayloadOf(e1)] else LoggedEvents(e1, e2);
  }

  lemma OpensSecond(b: Board, e1: Event, e2: Event, sha: string, now: int, n: nat)
    requires SameHold(e1, e2)
    requires b.decisions == map[IdOf(e1) := Decision(2 * n + 1, Pending, PayloadOf(e1), None, e1.observedAt, now)]
    requires b.events == if n == 0 then map[(e1.source, e1.eventId) := PayloadOf(e1)] else LoggedEvents(e1, e2)
    ensures
      OpenOne(b, Twice(e1, e2, sha, now), e2)
      == Ok(Board(map[IdOf(e1) := Decision(2 * n + 2, Pending, PayloadOf(e2), None, e1.observedAt, now)], LoggedEvents(e1, e2)))
  {
    assert PayloadOf(e1) != PayloadOf(e2);
    var r := OpenOne(b, Twice(e1, e2, sha, now), e2);
    assert r.Ok?;
    assert r.value.decisions == map[IdOf(e1) := Decision(2 * n + 2, Pending, PayloadOf(e2), None, e1.observedAt, now)];
    assert r.value.events == LoggedEvents(e1, e2);
  }

  lemma OpensTwice(s: State, e1: Event, e2: Event, sha: string, now: int, n: nat)
    requires SameHold(e1, e2) && ReopenedTimes(s, e1, e2, sha, now, n)
    ensures
      OpenAll(Start(s), Twice(e1, e2, sha, now), [e1, e2])
      == Ok(Board(map[IdOf(e1) := Decision(2 * n + 2, Pending, PayloadOf(e2), None, e1.observedAt, now)], LoggedEvents(e1, e2)))
  {
    hide OpenOne, ReopenedTimes, LoggedEvents;
    var events := [e1, e2];
    assert events[..1] == [e1] && events[..1][..0] == [];
    OpensFirst(s, e1, e2, sha, now, n);
    assert OpenAll(Start(s), Twice(e1, e2, sha, now), events[..1]) == OpenOne(Start(s), Twice(e1, e2, sha, now), e1);
    OpensSecond(OpenOne(Start(s), Twice(e1, e2, sha, now), e1).value, e1, e2, sha, now, n);
  }

  lemma PollReopens(s: State, e1: Event, e2: Event, sha: string, now: int, n: nat)
    requires SameHold(e1, e2) && ReopenedTimes(s, e1, e2, sha, now, n)
    ensures
      var r := ApplySnapshot(s, Twice(e1, e2, sha, now));
      r.Ok? && ReopenedTimes(r.value, e1, e2, sha, now, n + 1)
  {
    hide OpenAll;
    OpensTwice(s, e1, e2, sha, now, n);
    var snap := Twice(e1, e2, sha, now);
    var b := OpenAll(Start(s), snap, snap.events).value;
    assert e1 in snap.events;
    assert IdOf(e1) in OpenIds(snap.events);
    assert Missing(b.decisions, snap.source, OpenIds(snap.events)) == {};
    assert CloseAll(b.decisions, snap, {}) == b.decisions;
    assert Unanswered(b.decisions) == {IdOf(e1)};
  }

  // A batch that names one hold twice is accepted on every poll and never comes to rest: after
  // n polls of it the decision is pending under revision 2n.
  lemma {:induction false} RepeatedHoldReopens(e1: Event, e2: Event, sha: string, now: int, n: nat)
    requires SameHold(e1, e2)
    ensures ReopenedTimes(Polled(EMPTY, Twice(e1, e2, sha, now), n), e1, e2, sha, now, n)
    ensures ApplySnapshot(Polled(EMPTY, Twice(e1, e2, sha, now), n), Twice(e1, e2, sha, now)).Ok?
    decreases n
  {
    hide ApplySnapshot, ReopenedTimes;
    if n == 0 {
      EmptyIsUnopened(e1, e2, sha, now);
    } else {
      RepeatedHoldReopens(e1, e2, sha, now, n - 1);
      PollReopens(Polled(EMPTY, Twice(e1, e2, sha, now), n - 1), e1, e2, sha, now, n - 1);
    }
    PollReopens(Polled(EMPTY, Twice(e1, e2, sha, now), n), e1, e2, sha, now, n);
  }

  lemma EmptyIsUnopened(e1: Event, e2: Event, sha: string, now: int)
    ensures ReopenedTimes(EMPTY, e1, e2, sha, now, 0)
  {
  }

  const FIRST := Event("firstmate:main", "fmde_00000000000000000000000000000001", "task", "2026-01-01#1", "a", None, 1)
  const SECOND := Event("firstmate:main", "fmde_00000000000000000000000000000002", "task", "2026-01-01#1", "b", None, 1)

  // The field patterns of the batch let such a pair through.
  lemma HoldCanBeNamedTwice()
    ensures SameHold(FIRST, SECOND) && DistinctIds([FIRST, SECOND])
  {
    assert FIRST.eventId[36] != SECOND.eventId[36];
  }
}
