# Durable state of the gateway and its Pi adapter

The gateway keeps five kinds of durable state whose rules span many operations. This project
models each as the code keeps it and proves what every run of it keeps.

* **Pi ownership** (`Ownership*.dfy`). One dispatch is handed to the native agent at most once,
  bound to the user entry it produced, finalised with evidence and acknowledged. A handler is the
  sequence of its effects on the journal, the session branch and the process, and the process may
  die between any two of them. `OwnershipInvariant` says which effects are legal and what every
  legal effect keeps; `OwnershipHandlers` shows that no handler has any other; `OwnershipRuns` draws
  the conclusions; `OwnershipRevival` says when a failed record is bound after all;
  `OwnershipCoordinator` is the coordinator itself, a class that changes its maps and sets in place
  and is proved to have exactly those effects. `NonceWindow` is the replay window in front of it.
* **Captain decisions** (`Decision*.dfy`). Decisions with revisions, one-use confirmations, answers
  with leases and claims, and complete snapshots that open and close decisions beside them.
* **Activity ledger** (`Activity*.dfy`, `FleetSnapshots`). Records revised in place under an append-only
  numbered change log, with pages and replay for clients, complete snapshots, and the adapter that
  makes those snapshots from the fleet's.
* **Ingestion** (`Ingestion*.dfy`). Prefix-hashed journals taken in exactly once by workers that race,
  fail and crash, with acknowledgement of the committed position.
* **Credits** (`Credit*.dfy`, `Pricing`, `WebhookOrder`). Reservations, settlements, refunds, top-ups,
  grants and Stripe webhooks over one maintained balance, and the price of measured usage.
* **Objective state** (`Objectives`). The projection of an objective and its advance.

Each area has one specification file of functions, one function a transaction or one stretch between
two waits, where a refused operation leaves the state as it was. The `*Outcomes` files and
`OwnershipReplies` say of each of these, field by field and without naming it, what it comes to and
exactly when. Classes (`*Store`,
`OwnershipCoordinator`, `NonceWindow.Window`) hold the rows as fields, change them step by step and
are proved equal to those functions. The proof files quantify over every sequence of operations.
Hashes, random tokens and claim ids are taken to be free of collisions: a hash is represented by what
it was made from, a random id by a counter.

## Results worth knowing

Some expected properties do not hold of the code as written. Each is stated as it does hold.

* A failed dispatch record can come back: the waiting request reconciles it once more after its wait.
  `FailedRecordRevivesExactlyWhen` gives the exact condition on branch, record and environment
  (`CanRevive`), and it is the only way a stage ever falls (`StageNeverFalls`). Where `getBranch`
  returns a copy of the branch it happens on the first dispatch of an empty session
  (`CopiedRunFailsThenRevives`). Once a request has replied, a terminal record never changes again
  (`TerminalRecordsStay`).
* Applying an accepted decision snapshot again changes nothing unless it names a pending decision
  twice (`ReapplyingChangesNothingExactlyWhen`). The batch contract asks for distinct event ids only, so
  a batch may do that, and then every poll reopens the decision twice (`RepeatedHoldReopens`).
* Applying an accepted activity snapshot again is silent unless it lists a waiting decision that its
  own open set omits (`ReapplyingIsSilentExactlyWhen`); such a snapshot revises the record twice on
  every application (`OmittedDecisionKeepsChanging`). Only a direct call of the store function gets
  there: the snapshots of the fleet adapter always settle at once (`NormalizedSettlesAtOnce`),
  and are refused only for their size, the screening or a reused time (`NormalizedIsTakenExactlyWhen`).
* A source bound at the tail of an empty journal is bound again after a fault, past whatever arrived
  meanwhile (`RebindingMovesExactlyWhen`, `RecordAfterBindingIsSkipped`).
* Conservation of credits needs refund and top-up callers to avoid the `reserve:`, `release:`,
  `settle:` and `stripe:` key prefixes; `included:` is harmless, since both grant paths look at what
  the insert did (`BooksAlwaysBalance`). For each of the four there is an exact condition on the ledger
  (`ReservationPostsExactlyWhen`, `ReleasePostsExactlyWhen`, `SettlementPostsExactlyWhen`,
  `CheckoutPostsExactlyWhen`) and a run from a new account that violates it
  (`ReservedPrefixBreaksTheLedger`).
* The replay window protects a frame, not a nonce: the same nonce passes again with a later time
  exactly when another attempt has swept it out (`ReadmittedExactlyWhen`), which takes more than two
  clock skews (`NonceRestsTwoSkews`) and does happen (`NonceAloneMayPassAgain`). Probes are checked for
  freshness only and pass any number of times.
* The transition table of objective states adds nothing to the rank and terminal rules
  (`TableIsImplied`).

## Model

| member | source | states |
|---|---|---|
| OwnershipRuns.EveryRunKeeps | pi-extension/index.ts:896-1337 | Over every interleaving of requests, native events, restarts and crashes between any two effects, the whole invariant holds: branch markers in place and unique, records placed as their stage says, at most one open, process authorisations earned, sends at most once |
| OwnershipRuns.SentAtMostOncePerRecord | pi-extension/index.ts:1020-1029 | Two sends of one dispatch always have a removal of its journal record between them |
| OwnershipRuns.NeverSentAgain | pi-extension/index.ts:977-1029 | A record found beyond prepared, by whatever process and after whatever crashes, is never sent again until an acknowledgement removes it |
| OwnershipRuns.MintedOnlyBySender | pi-extension/index.ts:1054-1095 | Every bind marker was minted by a process that sent the dispatch, then saw the authorised input, then the turn start, with no crash and no removal in between |
| OwnershipRuns.BoundRecordsArePlaced | pi-extension/index.ts:1209-1259 | A bound or finalized record stands on prepare < user < bind, exactly one user entry lies between the two markers, it is the prompt, the bind names it and dates from before the dispatch expires, and both markers are the only ones of their subject |
| OwnershipRuns.FinalizedRecordsArePlaced | pi-extension/index.ts:1107-1143 | A finalized record has its normally stopped assistant after the bind and its final marker after that, and the marker and record show that assistant's content |
| OwnershipRuns.MarkersAreUnique | pi-extension/index.ts:953-966 | At most one prepare and one bind marker exist per identity, despite crashes between appending and saving |
| OwnershipRuns.OneRecordOpen | pi-extension/index.ts:874-877 | No two journal records are open at once |
| OwnershipRuns.StageNeverFalls | pi-extension/index.ts:970-1050 | Over every run without its acknowledgement a record stays and its stage never falls, except that a record which had failed with its request still in flight may end bound |
| OwnershipRevival.FailedRecordRevivesExactlyWhen | pi-extension/index.ts:1030-1050 | A resumed request turns its failed record back exactly when the branch holds the record's bind marker, made before it expires, and either one final marker for an assistant after it that fits the evidence bounds, or no foreign turn and nothing completed and a reply that does not fail it, or one completed usable assistant, last in the branch, that fits |
| OwnershipRevival.CopiedRunFailsThenRevives | pi-extension/index.ts:1077-1105 | For every subject, prompt and clock: from an empty session, asking, typing, announcing and starting a turn over a copied branch leaves the record failed with its request in flight, and resuming that request binds it |
| OwnershipRevival.FinalAssistantIs | pi-extension/index.ts:1277-1287 | The search fails, finds nothing or finds an entry exactly as users, completed assistants and the last assistant after the bind dictate |
| OwnershipRuns.TerminalEvidenceIgnoresBranch | pi-extension/index.ts:779-857 | The evidence of a terminal record is the same whatever branch it is computed over |
| OwnershipRuns.TerminalRecordsStay | pi-extension/index.ts:971-976 | Once its request is over, a finalized or failed record is never rewritten by any later move |
| OwnershipRuns.AckOfTerminalReadIsAccepted | pi-extension/index.ts:906-928 | An acknowledgement built from any terminal read is accepted in every later state and removes exactly that record |
| OwnershipInvariant.LegalKeeps | pi-extension/index.ts:317-357 | Every legal effect on journal, branch or process, and a crash at any point, keeps the invariant |
| OwnershipHandlers.ReconcileLands | pi-extension/index.ts:1198-1337 | Reconciling has only legal effects: appends, then on success one save of the record it returns; on failure the journal is as it was |
| OwnershipHandlers.TurnStartsFine | pi-extension/index.ts:1077-1105 | A turn start has only legal effects on a dispatching record, bound or failed, cut off anywhere |
| OwnershipHandlers.TurnEndsFine | pi-extension/index.ts:1107-1163 | A turn end has only legal effects on a bound record |
| OwnershipHandlers.SettlesFine | pi-extension/index.ts:1165-1196 | A settled agent has only legal effects and leaves in the journal the record it reports |
| OwnershipHandlers.DispatchFine | pi-extension/index.ts:881-1029 | A request up to its reply or its wait has only legal effects |
| OwnershipHandlers.ResumeFine | pi-extension/index.ts:1030-1052 | The rest of a request after its wait has only legal effects and can release its lock |
| OwnershipOutcomes.TurnEndFinalizesExactlyWhen | pi-extension/index.ts:1107-1163 | A turn that stopped normally finalises a bound record, at that entry and with its text, exactly when the entry is the sole match and the last message, is usable, lies within 4096 entries and the evidence fits; otherwise it fails the record with the reason and clears what was found; any other end of a turn changes nothing |
| OwnershipOutcomes.TurnStartBindsExactlyWhen | pi-extension/index.ts:1077-1105 | Without a bind marker, a turn start binds the record to the sole user entry since its prepare marker exactly when the turn was authorised, the entry is the prompt, it is in time, no final marker precedes it and the branch grows live; the record waits on exactly when nothing was typed in time; otherwise it fails; the authorisation is given back |
| OwnershipOutcomes.TurnStartRecovers | pi-extension/index.ts:1209-1232 | With a bind marker left by a process that died, the turn start finalises, binds or fails the record exactly as what stands after the marker dictates |
| OwnershipOutcomes.SettledExactlyWhen | pi-extension/index.ts:1165-1196 | A settled agent finalises a bound record exactly when its end is in the branch and fits, and fails it otherwise, with the last assistant's stop reason if nothing completed, or the size, or the ambiguity |
| OwnershipOutcomes.SendsExactlyWhen | pi-extension/index.ts:929-1029 | A request sends, and waits, exactly when it is a dispatch with a prompt, in time, the agent idle, its subject never bound, and its record still prepared or new with no other open and fewer than 16 records; its record is then dispatching and in flight |
| OwnershipOutcomes.AcknowledgedExactlyWhen | pi-extension/index.ts:906-948 | An acknowledgement is taken exactly when it names a terminal record and repeats its evidence; it then removes that record and nothing else |
| OwnershipOutcomes.AuthorisedExactlyWhen | pi-extension/index.ts:1054-1075 | Input and turn are authorised exactly for the pending, dispatching record, by its own plain prompt from the extension |
| OwnershipOutcomes.FinalEvidenceDiscloses | pi-extension/index.ts:705-857 | The evidence of a finalised record carries its assistant's text and a gapless sequence from prepare to final marker in which exactly its five own entries are told apart and all others redacted |
| OwnershipReplies.BoundEvidenceDiscloses | pi-extension/index.ts:705-857 | The same for a bound record, given exactly when its range is at most 4096 entries and no stale assistant lies in it |
| OwnershipReplies.AnswersTellTheJournal | pi-extension/index.ts:896-1052 | Whatever a request is answered at once is the evidence of its record in the journal and branch it leaves |
| OwnershipReplies.LateAnswersTellTheJournal | pi-extension/index.ts:1030-1052 | And so for a request that waited, which releases its lock |
| OwnershipReplies.BoundRecordAsked | pi-extension/index.ts:988-1009 | A request about a bound record leaves it finalised, bound or failed, each under an exact condition on branch, process and environment |
| OwnershipReplies.ExpiredDispatchFails | pi-extension/index.ts:945-971 | A new dispatch that comes too late gets a failed record and no marker, or is refused by a full journal |
| OwnershipReplies.UnknownIsRefused | pi-extension/index.ts:929-972 | A request for an unknown subject that may not start a record is refused and leaves no trace |
| Ownership.FinalAssistant | pi-extension/index.ts:1277-1287 | The assistant chosen as final lies after the bind and stopped normally |
| Ownership.FinalMarker | pi-extension/index.ts:1271-1272 | A marker found is for the subject and is its only one; failure means there is one |
| Ownership.BindMarker | pi-extension/index.ts:1209-1211 | A marker found after the prepare marker names the record and is the only one that does |
| Ownership.PromptEntry | pi-extension/index.ts:1214-1217 | An entry found is the only user entry in the range and its text is the prompt |
| OwnershipOutcomes.EndedExactlyWhen | pi-extension/index.ts:1113-1129 | The entry of an ended turn is found exactly where it is the only entry after the bind equal to the ended message and no user or assistant entry follows it |
| Ownership.Proceed | pi-extension/index.ts:1010-1029 | A prompt is sent only for a prepared record, by a dispatch request, before it expires and with the agent idle; the request waits exactly when it sent |
| Ownership.Dispatch | pi-extension/index.ts:881-1029 | A request sends only itself, only when its record is new or still prepared, and removes only its own record, only by acknowledgement |
| OwnershipCoordinator.Coordinator.ReconcileRecord | pi-extension/index.ts:1198-1337 | In place: exactly the effects and result of the reconcile specification, with the branch array live or copied |
| OwnershipCoordinator.Coordinator.OnInput | pi-extension/index.ts:1054-1064 | In place: authorises the pending dispatch exactly on its own unmodified prompt |
| OwnershipCoordinator.Coordinator.OnBeforeAgentStart | pi-extension/index.ts:1066-1075 | In place: authorises the turn exactly of an authorised input |
| OwnershipCoordinator.Coordinator.OnTurnStart | pi-extension/index.ts:1077-1105 | The loop over all records has exactly the effects specified for the one dispatching record |
| OwnershipCoordinator.Coordinator.OnTurnEnd | pi-extension/index.ts:1107-1163 | The loop over all records has exactly the effects specified for the one bound record |
| OwnershipCoordinator.Coordinator.OnAgentSettled | pi-extension/index.ts:1165-1196 | The loop over all records has exactly the effects specified for the one bound record |
| OwnershipCoordinator.Coordinator.Dispatch | pi-extension/index.ts:881-1029 | In place: effects and reply of the request specification |
| OwnershipCoordinator.Coordinator.Resume | pi-extension/index.ts:1030-1052 | In place: effects and reply of the resumed request |
| OwnershipCoordinator.Coordinator.Restart | pi-extension/index.ts:859-866 | In place: a restarted process has lost its waiting request and its authorisations, the journal and the branch survive; this is the crash of every run |
| NonceWindow.NoFrameAcceptedTwice | pi-extension/index.ts:543-555 | For any monotone clock no frame but a probe is accepted twice, however many attempts and prunings lie between |
| NonceWindow.AcceptsExactlyWhen | pi-extension/index.ts:543-555 | An attempt passes if and only if it is within thirty seconds and, unless it is a probe, the window has room and every earlier acceptance of its nonce was swept out since |
| NonceWindow.ReadmittedExactlyWhen | pi-extension/index.ts:543-555 | After an acceptance, the next attempt with the same nonce passes if and only if it is fresh, the window has room, and an attempt in between was fresh, unknown to the window, no probe, and later by more than two clock skews |
| NonceWindow.NonceRestsTwoSkews | pi-extension/index.ts:543-555 | For any monotone clock two acceptances of one nonce are more than two clock skews apart |
| NonceWindow.RememberedWasAccepted | pi-extension/index.ts:549-555 | The window stays bounded and remembers only nonces it accepted |
| NonceWindow.NonceAloneMayPassAgain | pi-extension/index.ts:549-555 | A nonce with a later time passes again after pruning |
| NonceWindow.Window.Admit | pi-extension/index.ts:543-555 | A fresh probe passes and leaves the window alone; otherwise the pruning loop leaves exactly the pruned and extended window, and refuses as specified |
| DecisionProofs.EveryRunAgrees | gateway/app/firstmate_decisions.py:686-1410 | In every reachable state: at the current revision answering means exactly one open answer and answered exactly one successful one, otherwise no active answer, no answer above the current revision; answers and used confirmations correspond one to one |
| DecisionProofs.NothingCompetes | gateway/app/firstmate_decisions.py:1268-1275 | The search for a competing answer, and so the partial unique index, never finds one where a claim gets that far |
| DecisionProofs.AnswersAreFenced | gateway/app/firstmate_decisions.py:1181-1213 | One step leaves an answer alone, or hands it, still open and its lease run out, to a fresh claim, or writes the outcome its claim holder reports |
| DecisionProofs.NewAnswerUsesConfirmation | gateway/app/firstmate_decisions.py:1230-1322 | A new answer comes only from a first claim with a matching, unexpired, unused confirmation, on a pending decision |
| DecisionProofs.OutcomeIsFinal | gateway/app/firstmate_decisions.py:1345-1362 | An outcome, once written, is never changed by any later run |
| DecisionProofs.SupersededClaimIsDead | gateway/app/firstmate_decisions.py:1345-1348 | After any run, a finish under a claim that was taken over changes nothing |
| DecisionProofs.OneAnswerPerMessage | gateway/app/firstmate_decisions.py:975-977 | A native message keeps its one answer, with its decision, revision, text and session, for ever |
| DecisionProofs.LateFinishMovesNoDecision | gateway/app/firstmate_decisions.py:1364-1396 | A finish for a revision that went on changes no decision |
| DecisionProofs.TimelyFinishEndsDecision | gateway/app/firstmate_decisions.py:1349-1396 | A finish by the claim holder at the current revision finds the decision answering and ends it as reported |
| DecisionProofs.RevisionsOnlyGrow | gateway/app/firstmate_decisions.py:791-879 | Over every run revisions never fall, and a resolved or answered decision comes back only under a higher one |
| DecisionSnapshots.AcceptedSnapshotIsExact | gateway/app/firstmate_decisions.py:717-886 | An accepted snapshot leaves exactly the decisions it names open at its source, closes the rest under the next revision and touches no other source, answer or confirmation |
| DecisionOutcomes.LateSnapshotChangesNothing | gateway/app/firstmate_decisions.py:701-716 | A snapshot older than the last of its source changes nothing, and is accepted exactly when it and the waiting decisions number at most a hundred |
| DecisionOutcomes.SourcesNeverGoBack | gateway/app/firstmate_decisions.py:701-716 | Over every run the observation time of a source never falls, and one time has one content |
| DecisionOutcomes.AcceptedSnapshotOpens | gateway/app/firstmate_decisions.py:741-832 | Field by field, what an accepted snapshot makes of a decision its batch names once: new, moved on, brought back or left in answer |
| DecisionOutcomes.AcceptedSnapshotCloses | gateway/app/firstmate_decisions.py:833-886 | Field by field, what it makes of a waiting decision it drops, with one resolution recorded for each |
| DecisionOutcomes.PlainBatchIsTakenExactlyWhen | gateway/app/firstmate_decisions.py:696-892 | A batch without repetitions is taken exactly when size, time, scopes, event log and request bindings allow it and at most a hundred decisions wait after it; the log then holds exactly its events besides what it held |
| DecisionSnapshots.ReapplyingChangesNothingExactlyWhen | gateway/app/firstmate_decisions.py:703-892 | Applying it again leaves the state identical if and only if it names no pending decision twice |
| DecisionSnapshots.RepeatedHoldReopens | gateway/app/firstmate_decisions.py:173-195 | Any batch of two events for one hold, with distinct event ids and no request, is accepted on every poll, and after n polls the decision is pending under revision 2n |
| DecisionSnapshots.HoldCanBeNamedTwice | gateway/app/firstmate_decisions.py:134-183 | Two events that meet the field patterns name one hold under distinct event ids |
| Decisions.Expiry | gateway/app/firstmate_decisions.py:1073-1104 | A confirmation expires after five minutes or with the request it is bound to, whichever is first |
| DecisionStore.Store.Apply | gateway/app/firstmate_decisions.py:686-905 | The loops over events and over previously open rows, with rollback, end in exactly the specified state and pending set |
| DecisionStore.Store.PrepareConfirmation | gateway/app/firstmate_decisions.py:1063-1157 | In place: the specified refusals, outcome or new one-use confirmation |
| DecisionStore.Store.TakeClaim | gateway/app/firstmate_decisions.py:1159-1324 | In place: the specified resumed or first claim, confirmation use and state change |
| DecisionStore.Store.Finish | gateway/app/firstmate_decisions.py:1326-1410 | In place: the specified outcome and the decision change that goes with it |
| DecisionOutcomes.ConfirmationOfferedExactlyWhen | gateway/app/firstmate_decisions.py:1063-1157 | A confirmation is offered exactly for the newest unanswered message, no older than a pending decision it is about as it stands, with a live request in scope or none outside personal mode, and no risk; it names all of these |
| DecisionOutcomes.ClaimedExactlyWhen | gateway/app/firstmate_decisions.py:1230-1324 | A first claim is granted exactly for such a message with an unused, unexpired confirmation of the same call, and opens the answer, uses the confirmation and holds the decision |
| DecisionOutcomes.ReclaimedExactlyWhen | gateway/app/firstmate_decisions.py:1159-1229 | A claim is handed on exactly when the lease of an open answer ran out and the same call is still about the decision as it stands; otherwise the same call only reads the answer |
| DecisionOutcomes.FinishedExactly | gateway/app/firstmate_decisions.py:1326-1410 | Field by field, what the claim holder's report makes of its answer and, unless a newer revision replaced it, of the decision |
| ActivityProofs.LedgerStaysConsistent | gateway/app/activity_store.py:275-451 | Over every run of writes, change numbers are 1 to n without gaps, each record's changes are its revisions 1 to the current one in order, sequences are dense |
| ActivityProofs.LedgerOnlyExtends | gateway/app/activity_store.py:393-451 | Records keep identity and sequence, the log keeps its entries, and every new or changed record is announced by a new entry |
| ActivityOutcomes.UpsertTakenExactlyWhen | gateway/app/activity_store.py:312-386 | A record is taken exactly when its texts pass, its kind may show its phase and it names what its kind has to name |
| ActivityOutcomes.UpsertWrites | gateway/app/activity_store.py:387-451 | An upsert leaves a record that shows the content already, revises one in place or adds one at the end, and touches no other |
| ActivityProofs.PagesAreServed | gateway/app/activity_store.py:882-966 | A page is never refused and holds exactly the newest rows below its bound, newest first, with the right cursor and continuation |
| ActivityProofs.ReplaysAreServed | gateway/app/activity_store.py:969-1022 | A replay succeeds exactly for cursors inside the log and gives the current row of each of the next changes |
| ActivityClient.ClientEndsWithServerRecords | gateway/app/activity_store.py:882-1022 | A client that pages while writers commit, then replays from its first page's cursor until there is no more, keeping higher revisions, ends with exactly the server's records |
| ActivitySnapshots.AcceptedSnapshotShows | gateway/app/activity_store.py:711-795 | An accepted snapshot leaves each listed record as listed, or closed if its own open set omits it, and no decision waiting that the set omits |
| ActivityOutcomes.AcceptedSnapshotLeaves | gateway/app/activity_store.py:716-788 | At every key of the ledger an accepted snapshot leaves what it lists or what was there; a waiting decision of its own source that it does not name as open is resolved, without attention, under the closing text, with its other fields kept |
| ActivityOutcomes.AcceptedSnapshotSpares | gateway/app/activity_store.py:750-762 | Records of other sources, and unlisted ones that do not wait or are named as open, keep content, revision, place and time |
| ActivityOutcomes.LateSnapshotChangesNothing | gateway/app/activity_store.py:703-710 | A snapshot older than the last of its source changes nothing |
| ActivityOutcomes.SourcesNeverGoBack | gateway/app/activity_store.py:703-715 | Over every run of writes the observation time of a source never falls, and one time has one content |
| ActivitySnapshots.ReapplyingIsSilentExactlyWhen | gateway/app/activity_store.py:706-795 | Applying it again changes nothing if and only if it lists no waiting decision outside its open set |
| ActivitySnapshots.OmittedDecisionKeepsChanging | gateway/app/activity_store.py:716-788 | From an empty feed, a snapshot that lists a waiting decision and omits it from its open set is accepted on every application, and after n applications the record has 2n revisions, each in the change log |
| FleetSnapshots.NormalizedSettlesAtOnce | gateway/app/firstmate_activity.py:1129-1235 | After any accepted snapshot of the adapter every listed record shows exactly as listed, every waiting decision of the source is one the snapshot lists as open, and applying it again changes nothing |
| FleetSnapshots.NormalizedIsTakenExactlyWhen | gateway/app/firstmate_activity.py:1236-1272 | The store takes a snapshot of the adapter if and only if it has at most 5000 records and is either older than the last one, and so ignored, or passes the store's screening and does not reuse a time with other content |
| FleetSnapshots.TaskIsShown | gateway/app/firstmate_activity.py:1117-1228 | A task gives one waiting record for each open decision, in order, and one for itself exactly when it shows a phase, field by field |
| FleetSnapshots.ShownPhase | gateway/app/firstmate_activity.py:992-1013 | Which phase a task shows: waiting exactly while a decision is open, then its backlog record, then its runtime state if its source means it |
| FleetSnapshots.NamesAreDistinct | gateway/app/firstmate_activity.py:1138-1222 | Distinct tasks with distinct decision keys never give two records one name |
| FleetSnapshots.DraftsAreShaped | gateway/app/firstmate_activity.py:1129-1222 | Every record is valid for the store and names a task of the snapshot, and every decision record is open under its task and key |
| ActivityStore.Store.UpsertActivity | gateway/app/activity_store.py:312-451 | In place: inserts, revises or leaves a record and notes the change, as specified |
| ActivityStore.Store.ReconcileSnapshot | gateway/app/activity_store.py:656-795 | Both loops, with rollback, end in exactly the specified tables |
| ActivityStore.Store.SnapshotActivity | gateway/app/activity_store.py:882-966 | The page the specification gives |
| ActivityStore.Store.ListActivity | gateway/app/activity_store.py:969-1022 | The replay the specification gives, including its refusals |
| IngestionProofs.JournalIsIngestedOnce | gateway/app/activity_store.py:534-653 | Whatever the journal reads return, wherever faults and crashes fall and workers race: stored events are exactly the journal records after the bootstrap position up to the cursor, once each, in order; cursor is bootstrap plus accepted; no duplicates; nothing acknowledged beyond the cursor |
| IngestionProofs.EveryRunIngestsOnce | gateway/app/firstmate_activity.py:641-697 | The same as an invariant, with every acknowledged position naming the record committed there and every waiting worker's view a prefix of what was taken |
| IngestionOutcomes.EventsReachTheLedger | gateway/app/activity_store.py:578-642 | Over every run the stored events are, in order, those of the commits that went through, and every key of the activity ledger shows what the last of them projects there, and nothing if none does |
| IngestionOutcomes.BatchIsShown | gateway/app/activity_store.py:626-642 | A batch of new events leaves at each key what the last of them projects there, and elsewhere every record untouched |
| IngestionOutcomes.BatchIsStored | gateway/app/activity_store.py:578-653 | It stores each event in order, moves the cursor, clears the fault and counts the events |
| IngestionOutcomes.TakenBatchIsConsecutive | gateway/app/activity_store.py:578-590 | Whatever a caller offers, a batch that is taken holds consecutive positions |
| IngestionOutcomes.TakenBatchRepeats | gateway/app/activity_store.py:600-609 | An event stored before comes in a taken batch only with the same content at the same position |
| IngestionOutcomes.CommitsExactlyWhen | gateway/app/activity_store.py:534-653 | A worker that checked its journal commits exactly when nobody moved the cursor meanwhile and the ledger takes every record it projects |
| IngestionOutcomes.FirstWorkerBindsAndTakes | gateway/app/firstmate_activity.py:823-938 | An undisturbed first worker binds the source as its policy says and takes in what comes after |
| IngestionOutcomes.CaptainWorkerTakesAndAcknowledges | gateway/app/firstmate_activity.py:641-697 | An undisturbed captain worker asserts the acknowledgement it finds, takes in the next stretch and acknowledges its end |
| IngestionOutcomes.InitializedExactly | gateway/app/activity_store.py:478-531 | Binding is accepted exactly for a cursor its policy allows and a digest that goes with it, and takes effect exactly on a missing or only ever faulty source |
| IngestionProofs.StoredEventsStay | gateway/app/activity_store.py:578-653 | No later run rewrites, reorders or drops a stored event |
| IngestionProofs.PrefixCheckIsExact | gateway/app/firstmate_activity.py:847-851 | The prefix check passes if and only if the journal still begins with what was taken |
| IngestionProofs.RewrittenPrefixIsRefused | gateway/app/activity_store.py:561-571 | A worker whose journal does not begin with what was taken commits nothing, whatever it saw before |
| IngestionProofs.MoveGrows | gateway/app/activity_store.py:498-531 | Every move only extends what was taken and stored, and the bootstrap position is fixed once there is more than a fault marker |
| IngestionProofs.BootstrapIsAccepted | gateway/app/firstmate_activity.py:793-803 | The cursor a bootstrap policy computes always passes the checks of source initialisation |
| IngestionProofs.RebindingMovesExactlyWhen | gateway/app/activity_store.py:505-527 | Initialising again moves the bootstrap position if and only if the source looks uninitialised and the policy starts after some records |
| IngestionProofs.RecordAfterBindingIsSkipped | gateway/app/firstmate_activity.py:831-846 | A source bound at the tail of an empty journal, then faulty, is bound past a record that arrived in between |
| Ingestion.Target | gateway/app/firstmate_activity.py:681-682 | One reconcile takes what is left of the journal, or 500 records of it |
| IngestionStore.PrefixDigest | gateway/app/firstmate_activity.py:783-791 | The digest loop covers exactly the records up to the position |
| IngestionStore.SourceStore.InitializeSource | gateway/app/activity_store.py:478-531 | In place: the specified insert, reset or no-op |
| IngestionStore.SourceStore.ApplySourceEvents | gateway/app/activity_store.py:534-653 | The batch loop with its counters stores all events and moves the cursor as specified, or changes nothing |
| IngestionStore.SourceStore.Mark | gateway/app/activity_store.py:798-830 | In place: marks or creates the source as faulty and changes nothing else |
| IngestionStore.SourceStore.ReconcileBranch | gateway/app/firstmate_activity.py:823-938 | An undisturbed reconcile refuses a rewritten prefix and otherwise leaves exactly the journal's prefix taken |
| IngestionStore.SourceStore.ReconcileCaptain | gateway/app/firstmate_activity.py:641-697 | As above, and after success with a positive cursor the producer is acknowledged at that cursor with the id of the record there, outside explicit-path mode |
| CreditProofs.CreditsAreConserved | gateway/app/billing.py:317-629 | Over every run with careful keys: available + reserved + settled cost = funding; reserved = open estimates; available = sum of the ledger; each row's balance is its running sum; refunds stay within the actual cost |
| CreditProofs.BooksAlwaysBalance | gateway/app/billing.py:301-629 | The same as an invariant, with unique keys and each reserved key owned by its operation |
| CreditOutcomes.SettledExactlyWhen | gateway/app/billing.py:506-556 | A settlement changes the books exactly when the usage has a cost, the hold is open and the event is new; it charges exactly that cost, returns the estimate and counts the cost as spend |
| CreditOutcomes.SettledHoldsChargeTheirUsage | gateway/app/billing.py:480-556 | Over every run each settled hold charges the measured cost of the usage it keeps, and each hold was reserved at the rate of a plan |
| CreditOutcomes.GrantsGiveWhatPlansInclude | gateway/app/billing.py:321-353 | Over every run each included grant gives what a plan includes: the catalog's to a plan without a subscription under its month, an invoice's to a subscription plan |
| CreditOutcomes.GrantedExactlyWhen | gateway/app/billing.py:321-353 | Access to an account posts exactly the grant that is due, with a new month's spend |
| CreditOutcomes.ReservedExactlyWhen | gateway/app/billing.py:407-456 | A new reservation is placed exactly when entitlement, concurrency, balance, spend limit and the objective allow it, and moves what the plan reserves |
| CreditOutcomes.ReleasedExactly | gateway/app/billing.py:458-478 | A release gives back the whole estimate of an open hold, and does nothing otherwise |
| CreditOutcomes.RefundedExactlyWhen | gateway/app/billing.py:558-605 | A refund under a new key is posted exactly when it is positive and, with earlier refunds, within what was charged |
| CreditOutcomes.ToppedUpExactly | gateway/app/billing.py:607-629 | A top-up is posted once under a new key, and only its repetition is accepted under a used one |
| CreditOutcomes.SubscriptionChangedExactly | gateway/app/billing.py:930-977 | A subscription change is accepted exactly when it is this account's by customer, owner, plan and price; field by field, what it sets |
| CreditOutcomes.InvoiceExactly | gateway/app/billing.py:979-1024 | Field by field, what an invoice of the account's subscription does, paid and unpaid, once per period |
| CreditOutcomes.CheckoutExactly | gateway/app/billing.py:911-922 | A paid checkout of a known pack posts its credits once per event; no other is accepted |
| CreditOutcomes.WebhookHandledOnce | gateway/app/billing.py:874-929 | An event is noted and handled once; the same event again does nothing, another one under its id is refused |
| CreditOutcomes.PeriodsAreToldApart | gateway/app/billing.py:979-1024 | Different period starts never share the key text of a grant |
| CreditProofs.KeysAreTexts | gateway/app/billing.py:301-314 | Reading a key text by its prefix is one to one with the key |
| CreditLimits.LimitsHold | gateway/app/billing.py:423-556 | Over every run on plans within the limits, whatever keys: spend + reserved <= limit + overage, available >= -overage, open reservations <= concurrency |
| CreditLimits.CatalogLimitsHold | gateway/app/billing.py:423-556 | The same bounds over every run at all, with the most generous limits of the catalog |
| CreditOutcomes.UseStaysWithinPlans | gateway/app/billing.py:423-556 | The same, counted out: the number of open holds, and what settlements cost above their estimates |
| CreditLimits.ReservationPostsExactlyWhen | gateway/app/billing.py:431-456 | A reservation keeps balance and ledger together if and only if its ledger key was free or it reserves nothing |
| CreditLimits.ReleasePostsExactlyWhen | gateway/app/billing.py:458-478 | The same for a release and its key, or nothing reserved |
| CreditLimits.SettlementPostsExactlyWhen | gateway/app/billing.py:506-556 | The same for a settlement and its key, or a cost equal to the estimate |
| CreditLimits.CheckoutPostsExactlyWhen | gateway/app/billing.py:911-922 | The same for a paid checkout and its key, or an empty pack |
| CreditLimits.ReservedPrefixBreaksTheLedger | gateway/app/billing.py:607-629 | For each of the four prefixes a run from a new account, with a top-up under the reserved key first, makes the balance leave the ledger |
| CreditStore.Ledger.EnsureGrant | gateway/app/billing.py:321-353 | In place: the monthly grant as specified |
| CreditStore.Ledger.ReserveHold | gateway/app/billing.py:407-456 | In place, with rollback: the specified reservation, replay or refusal |
| CreditStore.Ledger.ReleaseHold | gateway/app/billing.py:458-478 | In place: the specified release |
| CreditStore.Ledger.SettleHold | gateway/app/billing.py:506-556 | In place: the specified settlement, replay or conflict |
| CreditStore.Ledger.RefundSettled | gateway/app/billing.py:558-605 | In place: the specified refund, replay or refusal |
| CreditStore.Ledger.TopUpAccount | gateway/app/billing.py:607-629 | In place, with rollback: the specified top-up, replay or conflict |
| CreditStore.Ledger.Process | gateway/app/billing.py:874-1024 | In place, with rollback: the specified effect of a webhook or of its duplicate |
| WebhookOrder.DeliveryOrderDoesNotMatter | gateway/app/billing.py:896-977 | Two deliveries of the same valid subscription changes, in any order, with any repeats and other work between, end in the same plan, status, subscription, period and cancel flag |
| WebhookOrder.RunConverges | gateway/app/billing.py:930-977 | What they end in is what the newest valid change asks for, unless the account already showed a newer one |
| Pricing.CostBracketsThePrice | gateway/app/billing.py:480-504 | The charge is at least the exact rational price P and less than P + (2k+1)·10^6/u + 1 |
| Pricing.PricedExactlyWhen | gateway/app/billing.py:480-495 | Usage is priced exactly when its rate is configured and nothing in it is negative |
| Pricing.PricedExactly | gateway/app/billing.py:496-504 | The price is the four nested ceilings: tokens and compute to a US micro each, then the margin, then the credits |
| Pricing.CostIsMonotone | gateway/app/billing.py:480-504 | More tokens or compute never cost less |
| Pricing.SplittingNeverSaves | gateway/app/billing.py:480-504 | Reporting usage in two parts never costs less than in one |
| Objectives.ProjectionIsSound | gateway/app/deployment_mode.py:202-265 | Every projection satisfies the contract validator |
| Objectives.ProjectedExactlyWhen | gateway/app/deployment_mode.py:202-265 | For each state, exactly the facts that project to it |
| Objectives.ProjectedWith | gateway/app/deployment_mode.py:228-265 | The progress and the cancellation a projection shows with its state |
| Objectives.StoredExactly | gateway/app/deployment_mode.py:268-305 | An accepted update replaces the record, but that an uncertain one keeps the progress seen before; a refused one leaves it |
| Objectives.NormalizedStaysValid | gateway/app/deployment_mode.py:268-297 | The normalised record satisfies the contract validator |
| Objectives.AcceptedExactlyWhen | gateway/app/deployment_mode.py:268-305 | An update is accepted if and only if identity, revision, rank, terminal and cancellation rules allow it |
| Objectives.TableIsImplied | gateway/app/deployment_mode.py:191-200 | Whatever the rank and terminal rules allow, the transition table allows |
| Objectives.RunFollows | gateway/app/contracts.py:73-85 | Over every run, revision and progress never fall, a terminal state never changes, cancellation never returns to none, a same-revision replay changes nothing |

## Left out

- One owner's rows at a time: tables are qualified by owner, and operations of different owners do not meet. A billing account without a row behaves as one with the default row.
- The native session is one append-only branch whose entries are named by position; sessions are not switched, and the agent and user never write the extension's own markers.
- One clock reading per stretch between two waits, where the source reads the clock more than once.
- A journal write that fails, other than for a full journal, is not told apart from the process dying there; record and frame sizes are inputs that say whether evidence and response fit.
- OwnershipRuns.SentAtMostOncePerRecord: per record lifetime, because an acknowledgement deletes the record and a later request under the same identity may send again.
- OwnershipRuns.FinalizedRecordsArePlaced: user entries after the bind and a second final marker are not excluded, because a turn end looks for neither.
- Encryption, HMAC, SHA-256, file permissions, sockets, framing and JSON canonical form; request shape checks other than the nonce window.
- Text screening, Unicode and URL checks, and field bounds appear as a flag where a refusal rolls a transaction back.
- Pricing.CostBracketsThePrice: the ceilings are exact, where the source takes `math.ceil` of a floating-point quotient. The two agree while the numerator is below 2^53; above that the source's quotient may round down to a whole number, and its charge may then fall below the exact price.
- FleetSnapshots.NormalizedIsTakenExactlyWhen: the adapter's other refusals of malformed fields, and the sizes of its raw lists, are not modelled; its refusals are not told apart.
- The runtime checks of decision requests against other tables (project, run, repository) and the risk pattern are inputs of a call; objective state persisted along with a decision is not followed.
- The list of changed records that a snapshot or batch publishes, diagnostics and summaries, and the truncation of focus records.
- IngestionStore.SourceStore.ReconcileCaptain: the position acknowledged last equals the cursor for an undisturbed reconcile; racing workers may acknowledge an earlier committed position after a later one.
- The producer scripts behind the captain-event journal: validity of the records a read returns is an input.
- WebhookOrder.DeliveryOrderDoesNotMatter: invoice events are excluded, because a stale `invoice.paid` is dropped with its grant; grace end and balances are excluded for the same reason.
- Stripe signatures, checkout sessions, catalog loading and the older Stripe path; account erasure; the attention actions that repeat the decision protocol in a weaker form.
