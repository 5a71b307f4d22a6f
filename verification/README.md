# A model of the serving recipe's coordination and launch logic

Dafny models of the parts of the recipe in which a small mistake would go unnoticed, with proofs of
what those parts are for. `dafny verify dfyconfig.toml` checks the project.

**The lease coordinators.** Before the scheduler loads or stores a cached object it reserves it on
every rank. `Coordination` has what both coordinators share: tickets, identities, vetoes, credits,
and the effect of each critical section on the coordinator's own fields. `RemoteProtocol` is the
remote coordinator as a machine: any number of operations in progress, each step one critical
section, one reply of a rank (granted, refused, lost, granted without being seen, carried out
without being acknowledged), or something outside (time, expiry, a call that arrives late, leases
granted to others). An invalidation that reaches a rank revokes the writing leases of the pair there.
`RemoteInvariant` and `RemoteSteps` prove what every step keeps; the conclusions over whole runs are
in `RemoteTheorems` (credits, vetoed tickets and reservations), `RemoteLedger` (the cleanup log),
`RemoteDeadlines` and `RemoteExposure` (windows, deadlines, and when a lease behind a live deadline
can be revoked), `RemoteOrder` and `RemoteIdentity` (one ticket per identity) and `RemoteVetoes`
(when a veto lifts). `RemoteRaces` has reachable states that show where these conclusions end.
`RemoteCleanup` says what one operation run from start to end does to the books, `RemoteCalls` which
calls it makes, `RemoteWalks` that uninterrupted steps of the machine do just that, and `RemoteCoordinator`
is the object with its fields, loops and public operations, calling ranks that may refuse, fail or
lose any call. `LocalStores` are those ranks, or the stores of the in-process coordinator, with a
record of every call and its answer, so that an operation's outcome is stated as what the answers
lead to and not only as what a success implies. `LocalBooks`, `StoreLeases` and `LocalCoordinator` do
the same for that one. `MetadataRpc` is the
idempotency table of a rank's server with handlers racing for it.

**Mixture-of-experts routing.** Slots are sorted by expert; experts with few rows go to one fused
launch, the others to one of several tiers. `ExpertTables` has the table arithmetic (prefix sums,
right-sided search, row, segment and tile tables), `ExpertRouting` the map from global ids and the
sort, `ExpertTiers` the tiers as methods that add into one output buffer, and `ExpertDispatch` the
choice between them. The main result: whichever tiers are taken, the output is the direct per-token
sum, under a condition that is also necessary.

**Prefill splitting.** `PrefillSplitter` has the greedy two-level chunker and the sizing formula that
must not change its output.

**Speculative decoding and cache layout.** `VocabTopK` (top-k over vocabulary shards), `SelectorWalk`
(the candidate walk against scoring the chain directly), `GroupedConv` (one flat convolution against
one per block), `DraftLogitCache` (dense logits kept sparse), `DrafterLayout` (sharing cache pages
with the target model), `AdaptiveK` (the draft length policy) and `DecodePadding` (the padded decode
grid). `Basics`, `FlatIndex`, `Sums`, `Credits` and `ExpertSums` are shared helpers.

Numbers are exact throughout: integers, and reals where the program has floats. Time is a real that
may advance at any step.

## Where the code differs from what is said of it

- There can be two tickets for one identity. The lookup, the second look at an existing ticket and the
  admission are separate critical sections, so it happens when two reservations overlap
  (`RemoteRaces.TwoTicketsForOneIdentity`), and also with reservations strictly one at a time, when
  a release takes the ticket from under one of them (`TicketUnderRelease`); the end of that release
  then removes the index entry of the other ticket (`OrphanedTicket`). The correspondence breaks in
  exactly the steps that commit a reservation for an identity the index already has
  (`RemoteIdentity.PairedExactly`), and never if no reservation of the identity overlaps another one or
  a release or completed store of it (`RemoteIdentity.OneTicketPerIdentity`).
- The veto need not stand while an invalidation runs. It lifts as soon as the pair is drained and
  recorded as acknowledged, no matter for which invalidation (`RemoteVetoes.VetoLiftsExactly`): by
  another invalidation that overlaps (`RemoteRaces.VetoLiftedUnderInvalidation`), or, with
  invalidations that never overlap, by the acknowledgement an earlier one left behind
  (`VetoLiftedUnderOnlyInvalidation`). A record left without a veto lifts the next one
  (`StaleLift`). It stands if invalidations of the pair come one at a time and none begins while an
  acknowledgement is still recorded (`RemoteVetoes.VetoStands`). A ticket that was out, or a
  reservation that was in flight, at the time of the veto is lost all the same.
- So a lease can be revoked behind a live deadline: when the veto has lifted, a call of the other
  invalidation revokes the lease of a new writing ticket (`RemoteRaces.LeaseRevoked`). That can
  follow from a state without a veto exactly if an invalidation of the pair is still owed, logged or
  under way in it (`RemoteExposure.ExposedExactly`). Otherwise, and for reading tickets always, whoever acts
  before a deadline finds the leases held (`RemoteDeadlines.DeadlineLasts`).
- In the in-process coordinator an acknowledgement outlives a later refused invalidation of the same
  pair, so the veto may lift although the last invalidation was refused: exactly if the pair was
  already recorded as acknowledged (`LocalBooks.RefusedInvalidation`).
- After a lost receipt, an operation that had already passed its check of the replay log may still
  drop its ticket and report success (`RemoteRaces.SuccessAfterLoss`); no other can
  (`RemoteLedger.LostIsForever`).
- A batch that fits the fused kernel is launched once, without a fat tier. If tokens name one expert
  twice, that expert may exceed the kernel's rows and be skipped (`ExpertDispatch.TwiceNamed`). The
  legacy loop takes an id beyond the expert map for a local expert, while the sort takes it for none
  (`ExpertRouting.LoopAgrees`, `ExpertDispatch.BeyondTheMap`). `ExpertDispatch.ExactlyOnce` is the exact condition.
- A drafter kept as it is, because it failed the exact fit, is still made to share the target's
  tensors if its own page happens to have the target's size (`DrafterLayout.SharesWhen`).
- A candidate length below one makes the policy give length one, which has no graph unless one is a
  candidate too (`AdaptiveK.AllCaptured`).

## Model

| member | source | states |
|---|---|---|
| RemoteSteps.StepKeeps | exl3-persistence/persistence/recipe_persistence/coordinator_http.py:859-1188 | every step of every interleaving (critical section, rank reply, revocation of writing leases, clock, late delivery) keeps the invariant of tickets, leases, windows, credits, vetoes and the cleanup log |
| Coordination.GroupNamed | exl3-persistence/persistence/recipe_persistence/coordinator_http.py:911-912 | the last four bytes of a key name its group, the first of them counting most, whatever precedes them; a shorter key is taken as a whole |
| Coordination.KeyNamesSizes | exl3-persistence/persistence/recipe_persistence/coordinator_http.py:909-913 | a well-formed request is looked at if and only if the number its key ends in is one of the groups, and the sizes have to be those of that group |
| RemoteTheorems.CreditConservation | exl3-persistence/persistence/recipe_persistence/coordinator_http.py:947-963 | in every reachable state the byte count is the charges of the tickets plus those of the pending reservations, both bounds hold, and an identity is pending exactly while an operation holds its credits |
| RemoteTheorems.ChargedWhileHeld | exl3-persistence/persistence/recipe_persistence/coordinator_http.py:1070-1089 | a ticket whose lease some rank still holds is still in the books: credits come back only after every rank gave its lease up |
| RemoteDeadlines.SentExactly | exl3-persistence/persistence/recipe_persistence/coordinator_http.py:859-906 | a release is recorded as sent if and only if it was called or replayed, whatever the answer |
| RemoteDeadlines.WindowSafety | exl3-persistence/persistence/recipe_persistence/coordinator_http.py:966-1003 | before the end of a validity window no release of the ticket's lease has been sent to any rank, and every rank holds it beyond the window unless an invalidation has revoked it, which happens to writing leases only |
| RemoteDeadlines.DeadlineSafety | exl3-persistence/persistence/recipe_persistence/coordinator_http.py:1059-1065 | before the returned deadline every rank holds the lease, for the margin longer than the deadline, and was not asked for it back: for reading tickets in every run, for writing tickets in every run in which no invalidation of the pair is still owed, logged or under way when its veto lifts |
| RemoteDeadlines.DeadlineLasts | exl3-persistence/persistence/recipe_persistence/coordinator_http.py:1059-1065 | the same at every later moment before a deadline once read, unless the ticket was released in between or, for a writing ticket, its pair vetoed |
| RemoteExposure.ExposedExactly | exl3-persistence/persistence/recipe_persistence/storage.py:653-662 | in any reachable state with no veto on the pair, nothing of it out and room for a store: some continuation leads, without another veto of the pair, to a live deadline whose lease a rank does not hold if and only if an invalidation of the pair is still owed, logged or under way |
| RemoteTheorems.VetoDoomsTicket | exl3-persistence/persistence/recipe_persistence/coordinator_http.py:1093-1158 | a ticket that is out when its pair is vetoed never again has a deadline, passes a renewal check or has a renewal recorded, in any continuation |
| RemoteTheorems.VetoDoomsTornRead | exl3-persistence/persistence/recipe_persistence/coordinator_http.py:1059-1065 | the deadline snapshot takes no lock: even if the vetoes are read first and the tickets later, a ticket out under a veto that has since lifted is gone |
| RemoteTheorems.VetoDoomsReservation | exl3-persistence/persistence/recipe_persistence/coordinator_http.py:947-1023 | a reservation in flight when its pair is vetoed never becomes a ticket, under every interleaving |
| RemoteTheorems.SpentAlong | exl3-persistence/persistence/recipe_persistence/coordinator_http.py:1042-1049 | a ticket that is vetoed, gone or closed out stays so along every run: the veto cannot clear while a ticket or pending identity for the pair exists |
| RemoteLedger.LedgerStep | exl3-persistence/persistence/recipe_persistence/coordinator_http.py:859-906 | one step loses no cleanup call unless a rank acknowledges that very call or a receipt overflows |
| RemoteLedger.LedgerPersists | exl3-persistence/persistence/recipe_persistence/coordinator_http.py:878-906 | an unacknowledged release or invalidation stays with its operation or in the replay log until a rank acknowledges it or a receipt is lost |
| RemoteLedger.QuiescentLedger | exl3-persistence/persistence/recipe_persistence/coordinator_http.py:1070-1091 | with nothing in progress, every lease given up but still held by its rank is in the replay log, or a receipt was lost |
| RemoteLedger.LostIsForever | exl3-persistence/persistence/recipe_persistence/coordinator_http.py:878-887 | after a lost receipt the coordinator is closed for good, nothing that had not passed the log check ever reports success, and tickets leave only through operations that had |
| RemoteLedger.LostStep | exl3-persistence/persistence/recipe_persistence/coordinator_http.py:859-876 | with a lost receipt no operation newly passes the check of the replay log |
| RemoteIdentity.PairedExactly | exl3-persistence/persistence/recipe_persistence/coordinator_http.py:908-1003 | one step breaks the correspondence of tickets and index for an identity if and only if it commits a reservation for an identity the index already has |
| RemoteIdentity.OneTicketPerIdentity | exl3-persistence/persistence/recipe_persistence/coordinator_http.py:908-1003 | at most one ticket for an identity, and the index knows it, in every run in which no reservation of it overlaps another one or a release or completed store of it, all other traffic arbitrary |
| RemoteIdentity.SerialPaired | exl3-persistence/persistence/recipe_persistence/coordinator_http.py:908-1003 | so tickets and identities correspond one to one in every run without overlapping operations |
| RemoteVetoes.VetoLiftsExactly | exl3-persistence/persistence/recipe_persistence/coordinator_http.py:1042-1049 | a veto lifts in a step if and only if the step ends a ticket, a reservation or an invalidation of the pair, nothing of the pair is left, and the pair is recorded as acknowledged, by this step or earlier |
| RemoteVetoes.StaleAcknowledgement | exl3-persistence/persistence/recipe_persistence/coordinator_http.py:1042-1049 | a recorded acknowledgement stays until the pair is next found drained, vetoed or not, and then lifts whatever veto stands |
| RemoteVetoes.VetoLifts | exl3-persistence/persistence/recipe_persistence/coordinator_http.py:1093-1123 | in every run a veto lifts only when nothing of the pair is left and after every rank acknowledged an invalidation of it whose record stood until then |
| RemoteVetoes.VetoStands | exl3-persistence/persistence/recipe_persistence/coordinator_http.py:1093-1123 | if invalidations of a pair come one at a time, each begun with no acknowledgement still recorded, the veto stands from its raising to the end of the invalidation and only vetoed pairs are recorded as acknowledged |
| RemoteVetoes.VetoLiftsSingly | exl3-persistence/persistence/recipe_persistence/coordinator_http.py:1093-1123 | then a veto that lifts was acknowledged by every rank while it stood, and no invalidation of the pair is in progress afterwards |
| RemoteRaces.TwoTicketsForOneIdentity | exl3-persistence/persistence/recipe_persistence/coordinator_http.py:916-963 | lookup and admission are separate sections: a reachable state with two tickets for one identity after two overlapping reservations |
| RemoteRaces.TicketUnderRelease | exl3-persistence/persistence/recipe_persistence/coordinator_http.py:930-963 | with reservations one at a time, a release that overlaps the second look of one: again two tickets for one identity |
| RemoteRaces.OrphanedTicket | exl3-persistence/persistence/recipe_persistence/coordinator_http.py:1081-1088 | when that release ends it removes the index entry of the other ticket |
| RemoteRaces.VetoLiftedUnderInvalidation | exl3-persistence/persistence/recipe_persistence/coordinator_http.py:1093-1123 | two overlapping invalidations: the veto lifts and a new ticket, for reading or for writing, gets a deadline while the other invalidation still has a rank to call |
| RemoteRaces.LeaseRevoked | exl3-persistence/persistence/recipe_persistence/storage.py:653-662 | that call then revokes the lease of a writing ticket whose deadline is live |
| RemoteRaces.AcknowledgedWithoutVeto | exl3-persistence/persistence/recipe_persistence/coordinator_http.py:1119-1122 | the second of the two leaves the pair recorded as acknowledged without a veto |
| RemoteRaces.StaleLift | exl3-persistence/persistence/recipe_persistence/coordinator_http.py:1042-1049 | such a record lifts the next veto of the pair while the invalidation that raised it still has its rank to call |
| RemoteRaces.VetoLiftedUnderOnlyInvalidation | exl3-persistence/persistence/recipe_persistence/coordinator_http.py:1093-1123 | with invalidations that never overlap, the acknowledgement left by the first lifts the veto under the second, and the second is recorded without a veto |
| RemoteRaces.SuccessAfterLoss | exl3-persistence/persistence/recipe_persistence/coordinator_http.py:1079-1089 | a release that had passed its check when a receipt was lost still drops its ticket and reports success |
| RemoteCleanup.DrainVerdict | exl3-persistence/persistence/recipe_persistence/coordinator_http.py:859-876 | the replay loop reports success exactly when no receipt was lost, one pass covers the log, and every call is acknowledged; then the log is empty |
| RemoteCleanup.DrainKeeps | exl3-persistence/persistence/recipe_persistence/coordinator_http.py:859-876 | a refused replay keeps every other call in order and puts the refused one last |
| RemoteCleanup.CallsVerdict | exl3-persistence/persistence/recipe_persistence/coordinator_http.py:891-906 | rank calls touch nothing but the log; all were acknowledged exactly if the verdict says so, and what was not is logged unless a receipt was lost |
| RemoteCalls.ReplaysInOrder | exl3-persistence/persistence/recipe_persistence/coordinator_http.py:859-876 | a pass over the log makes the logged calls in order, up to the first that is refused |
| RemoteWalks.CallsRun | exl3-persistence/persistence/recipe_persistence/coordinator_http.py:891-906 | the protocol's call steps, run without interruption under any rank answers, leave the books and the verdict of the object's loops |
| RemoteWalks.DrainRuns | exl3-persistence/persistence/recipe_persistence/coordinator_http.py:859-876 | so do its drain steps |
| RemoteWalks.ReleaseRuns | exl3-persistence/persistence/recipe_persistence/coordinator_http.py:1070-1091 | a release run without interruption leaves the books the object's Release leaves |
| RemoteWalks.InvalidateRuns | exl3-persistence/persistence/recipe_persistence/coordinator_http.py:1093-1125 | an invalidation run without interruption leaves the books the object's Invalidate leaves |
| RemoteWalks.CompleteRuns | exl3-persistence/persistence/recipe_persistence/coordinator_http.py:1162-1190 | a completed store run without interruption leaves the books the object's CompleteStore leaves: the veto first, and the ticket dropped only if it was acknowledged |
| RemoteWalks.RenewsAtOnce | exl3-persistence/persistence/recipe_persistence/coordinator_http.py:1136-1142 | a renewal inside the proved window, or of a ticket that is not good, asks nobody and changes nothing |
| RemoteWalks.RenewRuns | exl3-persistence/persistence/recipe_persistence/coordinator_http.py:1143-1158 | otherwise, for any replies and any time that passes before the second look, it leaves the books the object's Renew leaves, and its verdict is the same |
| RemoteWalks.RenewDecides | exl3-persistence/persistence/recipe_persistence/coordinator_http.py:1145-1157 | a renewal decides only after every rank has replied, and the window moves if and only if all of them renewed, the ticket is still live and unvetoed and the new window open |
| RemoteWalks.Rechecks | exl3-persistence/persistence/recipe_persistence/coordinator_http.py:930-946 | the second look ends a reservation if and only if the index still names the ticket and it is neither being released nor vetoed; otherwise a new ticket is sought |
| RemoteWalks.RefuseRuns | exl3-persistence/persistence/recipe_persistence/coordinator_http.py:1014-1023 | a reservation that does not become a ticket leaves the books the object's Obtain leaves |
| RemoteWalks.LooksUp | exl3-persistence/persistence/recipe_persistence/coordinator_http.py:908-929 | a reservation is over at once if and only if its group is unknown, its sizes are not those of the group, the coordinator is closed, the pair vetoed or the ticket found being released; otherwise a ticket that is found is renewed, and without one credits are sought |
| RemoteWalks.Decides | exl3-persistence/persistence/recipe_persistence/coordinator_http.py:983-1013 | a reservation that every rank has answered becomes a ticket if and only if all granted, the coordinator is open, the pair is not vetoed and the window counted from its start is still open; otherwise it turns to giving back what it was granted |
| RemoteWalks.Obtains | exl3-persistence/persistence/recipe_persistence/coordinator_http.py:964-1003 | an admitted reservation that every rank grants becomes a ticket |
| RemoteCoordinator.RemoteCoordinator.constructor | exl3-persistence/persistence/recipe_persistence/coordinator_http.py:807-838 | a new coordinator has empty books and the invariant holds |
| RemoteCoordinator.RemoteCoordinator.ClearVetoIfDrained | exl3-persistence/persistence/recipe_persistence/coordinator_http.py:1042-1049 | the two scans lift the veto exactly when it is acknowledged and no ticket or pending identity has the pair |
| RemoteCoordinator.RemoteCoordinator.ReplayLater | exl3-persistence/persistence/recipe_persistence/coordinator_http.py:878-887 | a call already logged is not logged again; a full log drops its oldest entry, records the loss and closes |
| RemoteCoordinator.RemoteCoordinator.RetryCleanup | exl3-persistence/persistence/recipe_persistence/coordinator_http.py:859-876 | whatever the ranks answer, the loop makes the logged calls in order and leaves the books and the verdict of the replay function; success means that every call logged before has been carried out |
| RemoteCoordinator.RemoteCoordinator.RollBack | exl3-persistence/persistence/recipe_persistence/coordinator_http.py:891-906 | every granted lease is released once, in rank order, ranks without one skipped; each is at its rank no more, or its release was refused and logged |
| RemoteCoordinator.RemoteCoordinator.Release | exl3-persistence/persistence/recipe_persistence/coordinator_http.py:1067-1091 | the ticket's leases are called back in rank order and the log is replayed once; success means that no rank holds any of them and nothing is left in the log, and only then is the ticket dropped; otherwise what a rank may still hold is logged unless a receipt was lost |
| RemoteCoordinator.RemoteCoordinator.Invalidate | exl3-persistence/persistence/recipe_persistence/coordinator_http.py:1093-1125 | every rank is called in order and the log is replayed once; success means that no rank holds a writing lease of the pair and nothing is left in the log; otherwise a rank that may still hold one is logged unless a receipt was lost; a malformed pair calls nobody, nor do too many vetoes, which close the object |
| RemoteCoordinator.RemoteCoordinator.Renew | exl3-persistence/persistence/recipe_persistence/coordinator_http.py:1127-1160 | a good ticket is renewed if and only if the window already proved is still open, or every rank answered yes and the window counted from before the first call is still open at the second look; then the window moves there; each rank is asked once, and a ticket that is not good asks nobody |
| RemoteCoordinator.RemoteCoordinator.LeaseDeadline | exl3-persistence/persistence/recipe_persistence/coordinator_http.py:1059-1065 | before the deadline every rank holds the lease, and for at least the margin longer |
| RemoteCoordinator.RemoteCoordinator.CompleteStore | exl3-persistence/persistence/recipe_persistence/coordinator_http.py:1162-1190 | the pair is vetoed if and only if the store was not successful or some rank, each of them asked, did not answer yes; the veto comes before the release, the ticket goes only if the veto was acknowledged everywhere, and success means that no rank holds its leases, or after a veto any writing lease of the pair |
| RemoteCoordinator.RemoteCoordinator.Obtain | exl3-persistence/persistence/recipe_persistence/coordinator_http.py:947-1023 | admitted if and only if open, not vetoed, not pending and within both bounds; then a ticket if and only if every rank granted and the window counted from before the first call is still open; otherwise the books are as before but for the log, and every lease a rank may still hold was never seen or is logged, unless a receipt was lost; every rank is asked exactly once |
| RemoteCoordinator.RemoteCoordinator.Reserve | exl3-persistence/persistence/recipe_persistence/coordinator_http.py:908-1023 | unknown groups, other sizes, a closed object, a veto or a ticket being released: nothing, and no rank is asked; an existing ticket is returned if and only if it renews and the object stayed open, and given up if it does not renew; otherwise as Obtain |
| LocalBooks.BooksAlong | exl3-persistence/persistence/recipe_persistence/coordinator.py:99-243 | over any history of operations with any store answers: tickets and identities in bijection, validity only for tickets not being released, exact byte charge, all bounds |
| LocalBooks.VetoLifts | exl3-persistence/persistence/recipe_persistence/coordinator.py:168-173 | a veto lifts only when no ticket of the pair is left and after an invalidation that every store acknowledged while the veto stood |
| LocalBooks.RefusedInvalidation | exl3-persistence/persistence/recipe_persistence/coordinator.py:211-229 | after a refused invalidation, draining the last ticket lifts the veto exactly if the pair was already recorded as acknowledged |
| LocalBooks.LiftedAfterRefusal | exl3-persistence/persistence/recipe_persistence/coordinator.py:211-229 | a history in which a veto lifts although the last invalidation of its pair was refused |
| LocalCoordinator.Create | exl3-persistence/persistence/recipe_persistence/coordinator.py:77-97 | construction succeeds exactly for some store, positive bounds and a positive size for every rank of every group |
| LocalCoordinator.LocalCoordinator.constructor | exl3-persistence/persistence/recipe_persistence/coordinator.py:77-97 | window and margin come from the shortest lease; the books are empty and the invariant holds |
| LocalCoordinator.LocalCoordinator.ClearVetoIfDrained | exl3-persistence/persistence/recipe_persistence/coordinator.py:168-173 | the scan lifts the veto exactly when it is acknowledged and no ticket has the pair |
| LocalCoordinator.LocalCoordinator.Gather | exl3-persistence/persistence/recipe_persistence/coordinator.py:117-127 | stores are asked in rank order until one refuses or fails; success if and only if every store granted and the window counted from before the first call is still open, and then every lease outlasts it |
| LocalCoordinator.LocalCoordinator.GiveBack | exl3-persistence/persistence/recipe_persistence/coordinator.py:128-134 | every lease of a failed reservation is released once; none stays at a store unless its grant was never seen or its release not acknowledged |
| LocalCoordinator.LocalCoordinator.Grant | exl3-persistence/persistence/recipe_persistence/coordinator.py:114-140 | stores are asked if and only if there is room; a ticket with exactly the leases they granted, if and only if all did within the window; otherwise unchanged books and every lease given back |
| LocalCoordinator.LocalCoordinator.Again | exl3-persistence/persistence/recipe_persistence/coordinator.py:109-113 | an existing ticket is handed out again if and only if it renews, left alone if a store raised, and otherwise given up |
| LocalCoordinator.LocalCoordinator.Reserve | exl3-persistence/persistence/recipe_persistence/coordinator.py:99-140 | every case exactly: refused without asking a store, renewed, given up, raised, no room, granted or given back, with the calls each makes and the books each leaves |
| LocalCoordinator.LocalCoordinator.ReserveLoad | exl3-persistence/persistence/recipe_persistence/coordinator.py:142-146 | a key whose last four bytes name no group gets nothing and asks nobody; otherwise as Reserve for reading |
| LocalCoordinator.LocalCoordinator.ReserveStore | exl3-persistence/persistence/recipe_persistence/coordinator.py:148-152 | nor does one whose sizes are not those of its group; otherwise as Reserve for writing |
| LocalCoordinator.LocalCoordinator.Renew | exl3-persistence/persistence/recipe_persistence/coordinator.py:231-243 | stores are asked in order up to the first that does not renew; success if and only if all did and the window counted from before the first call is still open, and then the window moves there; a store that raises leaves the books as they were, anything else withdraws the window |
| LocalCoordinator.LocalCoordinator.Release | exl3-persistence/persistence/recipe_persistence/coordinator.py:190-209 | every store is asked for its lease in order; acknowledged if and only if all did, and then no store holds any of them; only then is the ticket dropped |
| LocalCoordinator.LocalCoordinator.Invalidate | exl3-persistence/persistence/recipe_persistence/coordinator.py:211-229 | the veto stands from before the first store is called; every store is called, and success, if and only if all acknowledged, means that no store holds a writing lease of the pair; too many vetoes close the coordinator and call nobody |
| LocalCoordinator.LocalCoordinator.CompleteStore | exl3-persistence/persistence/recipe_persistence/coordinator.py:154-166 | the pair is vetoed if and only if the store was not successful or some store, asked in order up to the first that does not have it, did not say yes; the veto comes before the release, and the ticket goes only if it was acknowledged |
| LocalCoordinator.LocalCoordinator.LeaseDeadline | exl3-persistence/persistence/recipe_persistence/coordinator.py:178-185 | before the deadline every store holds the ticket's lease, and for at least the margin longer |
| StoreLeases.DeadlineLasts | exl3-persistence/persistence/recipe_persistence/coordinator.py:178-185 | the same at every later moment before a deadline once read, across any later operations, each of which promises `Lasting`, unless the ticket was released, its pair vetoed or a store failed in between |
| MetadataRpc.PurgeExact | exl3-persistence/persistence/recipe_persistence/coordinator_http.py:549-555 | the purge that stops at the first live receipt removes exactly the expired ones |
| MetadataRpc.MetadataServer.Idempotent | exl3-persistence/persistence/recipe_persistence/coordinator_http.py:537-573 | one turn of the idempotency check: cached result, ownership, mismatch, no capacity or wait |
| MetadataRpc.MetadataServer.Reserve | exl3-persistence/persistence/recipe_persistence/coordinator_http.py:613-678 | the first part of both handlers: what a repeat is answered at once |
| MetadataRpc.MetadataServer.Remember | exl3-persistence/persistence/recipe_persistence/coordinator_http.py:575-582 | a result becomes the newest receipt and its request is no longer pending |
| MetadataRpc.MetadataServer.Forget | exl3-persistence/persistence/recipe_persistence/coordinator_http.py:584-589 | a failed computation leaves no receipt |
| MetadataRpc.StepKeeps | exl3-persistence/persistence/recipe_persistence/coordinator_http.py:537-589 | every step keeps receipts ordered by expiry and apart from pending requests, pending requests matched one to one with computing handlers, and the capacity |
| MetadataRpc.OneOwner | exl3-persistence/persistence/recipe_persistence/coordinator_http.py:537-573 | in every run at most one handler computes for a request id, and pending requests plus receipts stay within the capacity |
| MetadataRpc.ReceiptKept | exl3-persistence/persistence/recipe_persistence/coordinator_http.py:575-582 | no live receipt is ever evicted, whatever else arrives |
| MetadataRpc.RepeatGetsSame | exl3-persistence/persistence/recipe_persistence/coordinator_http.py:656-678 | every repeat of an answered request within the lease gets that very answer; other parameters under the same id are turned away |
| MetadataRpc.RepeatAnswered | exl3-persistence/persistence/recipe_persistence/coordinator_http.py:613-678 | so a repeat with the same parameters is answered with the recorded lease while the store honours it, or with none, never with another; other parameters are refused |
| MetadataRpc.RepeatWaits | exl3-persistence/persistence/recipe_persistence/coordinator_http.py:563-573 | in every run, while a handler computes for an id, a repeat with the same parameters is told to wait, and other parameters are refused |
| MetadataRpc.FreshOwns | exl3-persistence/persistence/recipe_persistence/coordinator_http.py:549-566 | in every run an id that nobody computes and that has no live receipt is the asker's to compute if and only if the computations in progress and the other live receipts leave room; otherwise the asker is told to come again |
| MetadataRpc.NoSecondGrant | exl3-persistence/persistence/recipe_persistence/coordinator_http.py:537-573 | a second computation for an answered request starts only after its receipt has expired |
| ExpertRouting.LoopAgrees | exl3-persistence/patches/overlay/exl3.py:778-833 | the per-expert loop and the sort give an id the same expert exactly when it does not lie beyond the expert map |
| ExpertRouting.SortedRuns | exl3-persistence/patches/overlay/exl3.py:1432-1444 | in any order that sorts by local expert, the routed slots come first and each lies in its own expert's run of the counts |
| ExpertRouting.RowsAreSlots | exl3-persistence/patches/overlay/exl3.py:1432-1450 | for any weights and expert outputs, the rows of some experts add up to exactly what the slots routed to them are worth |
| ExpertTables.Located | exl3-persistence/patches/overlay/exl3.py:1122-1124 | right-sided search over inclusive sums finds the run a position lies in |
| ExpertTables.LocatedOnly | exl3-persistence/patches/overlay/exl3.py:1122-1124 | no other run holds that position |
| ExpertTables.RowsJoin | exl3-persistence/patches/overlay/exl3.py:1122-1124 | taking some rows of every expert and then the next ones takes each row exactly once |
| ExpertTables.ThinAndFat | exl3-persistence/patches/overlay/exl3.py:1301-1348 | the launch that skips oversized experts and the fat slices together take every row exactly once |
| ExpertTables.GroupedRows | exl3-persistence/patches/overlay/exl3.py:1127-1172 | live rows are the fat experts' sorted slices back to back in expert order; neither clamp changes a live entry |
| ExpertTables.SegsFit | exl3-persistence/patches/overlay/exl3.py:1150-1154 | the segments in use never exceed the segment table |
| ExpertTables.SegNext | exl3-persistence/patches/overlay/exl3.py:1154-1159 | each segment begins where the one before ends and the last ends at the last row |
| ExpertTables.GroupedSegments | exl3-persistence/patches/overlay/exl3.py:1154-1159 | live segments cut the live rows into pieces of one to tile rows, each of a single expert |
| ExpertTables.TileAdds | exl3-persistence/patches/overlay/exl3.py:1378-1389 | one tile launches exactly the next rows of every expert |
| ExpertTables.TilesCover | exl3-persistence/patches/overlay/exl3.py:1370-1403 | over all tiles every row of every expert is launched exactly once |
| ExpertTables.TileGathers | exl3-persistence/patches/overlay/exl3.py:1380-1389 | a tile's kernel sees the right row for the right expert at every entry, never an oversized expert, and no source index leaves the buffer |
| ExpertTiers.Launch | exl3-persistence/patches/overlay/exl3.py:1301-1348 | the fused kernel, by contract: it adds exactly the rows of the experts within its capacity |
| ExpertTiers.SortedFat | exl3-persistence/patches/overlay/exl3.py:844-879 | running offsets add exactly the fat experts' rows |
| ExpertTiers.RowTiles | exl3-persistence/patches/overlay/exl3.py:1351-1403 | all tiles together add every row once |
| ExpertTiers.GateUp | exl3-persistence/patches/overlay/exl3.py:1218-1232 | the first segment table gives every fat row's activations to its own expert |
| ExpertTiers.GroupedFat | exl3-persistence/patches/overlay/exl3.py:1175-1246 | gather, gate-up and down over two different segment tables add exactly the fat experts' rows |
| ExpertTiers.PythonLoop | exl3-persistence/patches/overlay/exl3.py:803-842 | the loop over distinct raw ids adds every slot it selects exactly once |
| ExpertTiers.TileAdded | exl3-persistence/patches/overlay/exl3.py:1378-1403 | a launch on gathered buffers adds exactly the rows of the sorted buffer the tile owes |
| ExpertDispatch.Fused | exl3-persistence/patches/overlay/exl3.py:1406-1596 | whichever tiers the switches select, every slot is run at most once and the output is what the plan's slots are worth |
| ExpertDispatch.ExactlyOnce | exl3-persistence/patches/overlay/exl3.py:1459-1596 | every slot with a local expert is run by it exactly once and no other slot is run, if and only if no launch without a fat tier has an oversized expert and the legacy loop meets no id beyond the map of a fat expert |
| ExpertDispatch.FusedIsDirect | exl3-persistence/patches/overlay/exl3.py:1406-1596 | then the output of every token is the direct sum over its choices |
| ExpertDispatch.DistinctFits | exl3-persistence/patches/overlay/exl3.py:1459-1464 | if no token names one expert twice, a batch that fits the kernel has no oversized expert |
| ExpertDispatch.TwiceNamed | exl3-persistence/patches/overlay/exl3.py:1459-1464 | a batch that fits the kernel but names one expert twice: its only launch skips the expert |
| ExpertDispatch.BeyondTheMap | exl3-persistence/patches/overlay/exl3.py:803-842 | a batch beyond the kernel's rows whose third token names an id the expert map does not hold: the legacy loop runs a fat expert on it that the sort does not route to |
| PrefillSplitter.Split | exl3-persistence/patches/overlay/patch_indexer_workspace.py:212-247 | the nested loops produce the greedy chunk list |
| PrefillSplitter.GroupsTile | exl3-persistence/patches/overlay/patch_indexer_workspace.py:225-243 | the request groups cut the batch into consecutive runs; several requests share a group only within both budgets, and only as many as fit |
| PrefillSplitter.SubsCut | exl3-persistence/patches/overlay/patch_indexer_workspace.py:243-246 | the sub-ranges cut a group's query rows into consecutive pieces of at most the allowed rows |
| PrefillSplitter.SubsFull | exl3-persistence/patches/overlay/patch_indexer_workspace.py:243-246 | all sub-chunks but the last of a group have the same number of rows, and one more row would exceed the budget; a group without columns is not cut |
| PrefillSplitter.SubWithinBudget | exl3-persistence/patches/overlay/patch_indexer_workspace.py:243-246 | rows times columns of a sub-chunk stay within the logits budget unless it is a single row |
| PrefillSplitter.SeveralIsOne | exl3-persistence/patches/overlay/patch_indexer_workspace.py:225-246 | a group of several requests fits the workspace and is one chunk, or none if it has no rows |
| PrefillSplitter.ChunksAscend | exl3-persistence/patches/overlay/patch_indexer_workspace.py:225-247 | chunks come in the order of groups and rows and never overlap |
| PrefillSplitter.RowInOneChunk | exl3-persistence/patches/overlay/patch_indexer_workspace.py:225-247 | every query row of every group is in exactly one chunk |
| PrefillSplitter.SameChunks | exl3-persistence/patches/overlay/patch_indexer_workspace.py:225-247 | any two workspaces that hold the whole batch give the same chunks |
| PrefillSplitter.WorkspaceIdentity | exl3-persistence/patches/overlay/patch_indexer_workspace.py:178-200 | for every configuration and every batch the scheduler may form, the right-sized workspace gives the chunk list of the stock one and is never larger |
| PrefillSplitter.GroupsFit | exl3-persistence/patches/overlay/patch_indexer_workspace.py:178-200 | a workspace below stock holds every group of every legal batch |
| PrefillSplitter.AnyMode | exl3-persistence/patches/overlay/patch_indexer_workspace.py:141-200 | whatever mode is accepted, the workspace is at most stock and every legal batch is split as with stock; accepted are exactly the unset mode and the two names |
| PrefillSplitter.BufferSizeIs | exl3-persistence/patches/overlay/patch_indexer_workspace.py:162-200 | stock is forty entries per token of the longest sequence; the right-sized workspace is the smaller of that and what the most requests of one step can need |
| VocabTopK.ValuesUnique | overlay-dflash2/patch_registry_and_select.py:351-351 | the values of a top-k do not depend on how ties are broken |
| VocabTopK.MaskPadding | overlay-dflash2/patch_registry_and_select.py:346-349 | padding is masked in place, nothing else changes |
| VocabTopK.TwoStage | overlay-dflash2/patch_registry_and_select.py:351-359 | with at least k finite logits, the k best of the shards' k best are a top-k of the whole vocabulary: ids distinct, unpadded, carrying their values, nothing better left out |
| VocabTopK.TwoStageAny | overlay-dflash2/patch_registry_and_select.py:351-359 | for every vocabulary, however few finite logits it has: the selection carries its values, takes no entry twice, and leaves out nothing better than a value taken |
| VocabTopK.AllFiniteTaken | overlay-dflash2/patch_registry_and_select.py:351-359 | so with fewer than k finite logits every one of them is selected |
| VocabTopK.AllTakenFinite | overlay-dflash2/patch_registry_and_select.py:351-359 | with at least k finite logits no padded or masked entry is selected |
| VocabTopK.WinnersSuffice | overlay-dflash2/patch_registry_and_select.py:361-366 | a monotone map applied to the winners alone gives a top-k of the mapped vocabulary |
| VocabTopK.FinishMonotone | overlay-dflash2/patch_registry_and_select.py:361-366 | a positive scale followed by an increasing cap is monotone |
| VocabTopK.NegativeScaleReverses | overlay-dflash2/patch_registry_and_select.py:337-342 | a negative scale would turn the best into the worst: the refusal is needed |
| VocabTopK.GetTopKTokens | overlay-dflash2/patch_registry_and_select.py:320-366 | all ranks together: an error exactly for a scale that is not positive; otherwise, for every vocabulary, the finished values of such a selection, and with k finite logits a top-k of the finished vocabulary |
| SelectorWalk.LanesAreValues | overlay-dflash2/dflash2/speculator.py:22-61 | masked lanes never win: the block's argmax is the argmax of its live lanes |
| SelectorWalk.InBounds | overlay-dflash2/dflash2/speculator.py:88-122 | every flat index of a step stays inside its table |
| SelectorWalk.StartImmaterial | overlay-dflash2/qwen3_dflash2.py:164-184 | at the first step all predecessors are the anchor, so where the walk starts does not matter |
| SelectorWalk.LoadedIsChain | overlay-dflash2/qwen3_dflash2.py:164-184 | from the place chosen before, the edge table gives the scores of the token actually chosen |
| SelectorWalk.StepValueIs | overlay-dflash2/dflash2/speculator.py:100-111 | a candidate's value is its score if the request is greedy, and otherwise the score per temperature plus noise keyed by the request's seed, the position before and the candidate's token |
| SelectorWalk.Step | overlay-dflash2/dflash2/speculator.py:88-122 | one step stores the chain's scores and token and touches nothing else |
| SelectorWalk.Walk | overlay-dflash2/dflash2/speculator.py:65-122 | a live row's stored scores and tokens are those of direct chain scoring at every step; a padded row stores nothing; other rows are untouched |
| SelectorWalk.WalkAll | overlay-dflash2/dflash2/speculator.py:186-208 | after the launch every live row follows its own chain |
| GroupedConv.MaskIsModulus | overlay-dflash2/qwen3_dflash2.py:36-39 | masking with one less than a power of two is the remainder |
| GroupedConv.SingleBit | overlay-dflash2/qwen3_dflash2.py:36-36 | only powers of two pass the single-bit test |
| GroupedConv.Convolve | overlay-dflash2/qwen3_dflash2.py:23-43 | the flat shifted pass gives every token the causal convolution of its own block |
| DraftLogitCache.ClearedEmpty | overlay-dflash2/dflash2/speculator.py:144-151 | erasing the remembered ids empties a row that held nothing else |
| DraftLogitCache.WrittenSparse | overlay-dflash2/dflash2/speculator.py:144-155 | after a write a row holds nothing but the new candidates, and with distinct candidates exactly the map from candidates to scores |
| DraftLogitCache.RowUpdated | overlay-dflash2/dflash2/speculator.py:140-151 | a store to one row changes no other row, for any stride |
| DraftLogitCache.DraftLogits.constructor | overlay-dflash2/dflash2/speculator.py:161-184 | minus infinity everywhere and remembered ids zero satisfy the invariant |
| DraftLogitCache.DraftLogits.Write | overlay-dflash2/dflash2/speculator.py:126-155 | one program rewrites exactly its own row and remembers its candidates |
| DraftLogitCache.DraftLogits.Run | overlay-dflash2/dflash2/speculator.py:210-226 | a launch that writes no row twice leaves every live row as its candidates with their scores, every other row as it was, and the invariant intact |
| DrafterLayout.FitFills | overlay-dflash2/patch_glm5_drafter_group.py:181-206 | a fitted drafter fills the target's page to the byte, in blocks of 64, and is accepted |
| DrafterLayout.FittedWhen | overlay-dflash2/patch_glm5_drafter_group.py:181-206 | a drafter is fitted if and only if a multiple of 64 of its tokens fills the target's page exactly, one block size divides the other, and there is a target layer for each of its own |
| DrafterLayout.SharesWhen | overlay-dflash2/patch_glm5_drafter_group.py:307-316 | the later sites share tensors exactly if the drafter was fitted or its own page happens to be the target's |
| DrafterLayout.SharesUnfitted | overlay-dflash2/patch_glm5_drafter_group.py:307-316 | a drafter that failed the fit, shares all the same, and cannot be split into kernel blocks |
| DrafterLayout.KernelInside | overlay-dflash2/patch_glm5_drafter_group.py:197-202 | under any clean split a kernel block lies inside its manager block's page, at the stated offset |
| DrafterLayout.PagesApart | overlay-dflash2/patch_glm5_drafter_group.py:197-202 | kernel blocks of different manager blocks never overlap |
| DrafterLayout.ViewCovers | overlay-dflash2/patch_glm5_drafter_group.py:188-202 | for kernel blocks of 16, 32 and 64 the view covers the shared tensor exactly |
| DrafterLayout.FitLcm | overlay-dflash2/patch_glm5_drafter_group.py:192-194 | the common block size is the larger of the two |
| DrafterLayout.PoolBytesPerBlock | overlay-dflash2/patch_glm5_drafter_group.py:356-372 | the pool's cost per block, as the other two sites compute it |
| DrafterLayout.MaxMemoryBytes | overlay-dflash2/patch_glm5_drafter_group.py:522-541 | demand in blocks times the same cost per block |
| DrafterLayout.CacheConfig | overlay-dflash2/patch_glm5_drafter_group.py:422-480 | the tensors use exactly the accounted bytes for as many blocks as the memory holds, and no more than available |
| DrafterLayout.TensorSizes | overlay-dflash2/patch_glm5_drafter_group.py:440-480 | tensor sizes sum to blocks times the cost per block, in both modes |
| DrafterLayout.EveryLayerHoused | overlay-dflash2/patch_glm5_drafter_group.py:440-480 | every drafter layer lives in exactly one tensor |
| DrafterLayout.TargetHoused | overlay-dflash2/patch_glm5_drafter_group.py:440-480 | so does every attention layer, index layer and tail of the target |
| DrafterLayout.PagesFit | overlay-dflash2/patch_glm5_drafter_group.py:440-480 | every tensor has one page per block for each layer in it |
| AdaptiveK.LengthIs | exl3-persistence/patches/overlay/patch_adaptive_k.py:136-147 | a length lies between one and k and, for positive candidates, is k or a candidate |
| AdaptiveK.LengthMeans | exl3-persistence/patches/overlay/patch_adaptive_k.py:144-147 | for every average plus margin: the largest candidate that is at most k and less than one above it, held to at least one; if there is none, the smallest candidate held between one and k |
| AdaptiveK.LengthUnique | exl3-persistence/patches/overlay/patch_adaptive_k.py:144-147 | there is only one such length |
| AdaptiveK.Chosen | exl3-persistence/patches/overlay/patch_adaptive_k.py:136-147 | a length exactly for an enabled policy and an unstructured, sufficiently observed request, and it is that one |
| AdaptiveK.CapturedIs | exl3-persistence/patches/overlay/patch_adaptive_k.py:306-318 | which lengths have a graph |
| AdaptiveK.AllCaptured | exl3-persistence/patches/overlay/patch_adaptive_k.py:306-318 | whatever the averages, every length has a graph exactly if no candidate is below one or length one has a graph anyway |
| AdaptiveK.GapAfter | exl3-persistence/patches/overlay/patch_adaptive_k.py:122-134 | each fully accepted step takes at least alpha off the gap to the maximum until it is below one |
| AdaptiveK.FullObserved | exl3-persistence/patches/overlay/patch_adaptive_k.py:125-126 | with saturation at the maximum a fully accepted step of any length counts as a full one |
| AdaptiveK.Approaches | exl3-persistence/patches/overlay/patch_adaptive_k.py:122-134 | an outcome moves the average of its own request, and of no other, by the share alpha towards what was seen |
| AdaptiveK.Recovers | exl3-persistence/patches/overlay/patch_adaptive_k.py:122-147 | over any sequence of outcomes of all requests: from any average, enough fully accepted steps of a request give it the largest candidate not above k |
| AdaptiveK.Policy.Reload | exl3-persistence/patches/overlay/patch_adaptive_k.py:87-120 | nothing unless the policy was on at boot and the file is another one; keys are taken up to the first that cannot be read, the candidates stay among those of boot time, and averages are forgotten only if all could be read |
| AdaptiveK.Policy.Observe | exl3-persistence/patches/overlay/patch_adaptive_k.py:122-134 | the average and step count of one request after an outcome |
| AdaptiveK.Policy.Least | exl3-persistence/patches/overlay/patch_adaptive_k.py:158-165 | the shortest length asked for, unless one request must stay at full length |
| AdaptiveK.Policy.BatchK | exl3-persistence/patches/overlay/patch_adaptive_k.py:172-193 | the shortest length any scheduled request asks for, or k if there is none or one must stay at full length, after the reload that may be due; every length has a captured graph |
| AdaptiveK.Policy.Apply | exl3-persistence/patches/overlay/patch_adaptive_k.py:149-170 | after the reload that may be due: if every request may be trimmed all drafts are cut to the shortest length asked for, otherwise none is cut and the longest is counted |
| DecodePadding.StartsAreBegins | docker/sparse_attn_indexer_kpool_sm121.py:125-128 | the shifted cumulative sum is where each request's tokens begin |
| DecodePadding.ScatterIndices | docker/sparse_attn_indexer_kpool_sm121.py:105-134 | token v goes to its own request at its own place in it |
| DecodePadding.ScatterApart | docker/sparse_attn_indexer_kpool_sm121.py:105-134 | different tokens go to different cells |
| DecodePadding.Scatter | docker/sparse_attn_indexer_kpool_sm121.py:137-161 | the grid holds each request's tokens in order and padding after them, nothing else |
| DecodePadding.GatherBack | docker/sparse_attn_indexer_kpool_sm121.py:137-161 | reading the grid back at the scatter indices gives the tokens again |
| DecodePadding.DecodeSeqLens | docker/sparse_attn_indexer_kpool_sm121.py:164-198 | in both layouts row (b, t) gets one more than its own token's position, and padding gets zero |
| DecodePadding.FlatMisaligns | docker/sparse_attn_indexer_kpool_sm121.py:175-183 | cutting the flat positions into equal rows gives a row its own tokens exactly if every earlier request is full |

## Left out

- RemoteDeadlines.DeadlineSafety: a rank takes a writing lease back only on an invalidation, a release or expiry; that a rank whose disk or index fails also loses its leases is not part of the remote machine.
- RemoteExposure.ExposedExactly: stated for a pair that can be reserved for writing at the moment and has no ticket or pending identity; without room for a store there is no new deadline to lose.
- RemoteCoordinator.RemoteCoordinator.LeaseDeadline: the object's method reads all fields at once; that a snapshot torn between vetoes and tickets is still safe is `RemoteTheorems.VetoDoomsTornRead`.
- RemoteCoordinator.RemoteCoordinator.Reserve: the object's operations run from start to end; what can happen between their sections, also a permanent RPC error that closes the object, is what the machine is about. The refusal counters are diagnostics.
- RemoteDeadlines.WindowSafety: clocks of the ranks are the coordinator's clock; drift between them is what the margin is for and is not modelled.
- LocalStores.Ranks.Reserve: the stores are known only by the calls the coordinators make and by lease expiry; their files, indexes and locks are not part of this model.
- LocalStores.Ranks.Invalidate: a tombstoned object that is still read keeps its reading leases; reading its bytes is not part of this model.
- LocalCoordinator.LocalCoordinator.Reserve: operations run one at a time; the source holds its lock during them.
- MetadataRpc.RepeatAnswered: whether the store honours a lease is an arbitrary predicate, and the durable index an arbitrary answer; waiting handlers simply ask again.
- HTTP parsing, sockets, credentials, endpoint parsing, the rank census, connection permits, server shutdown and logging: every RPC is an arbitrary reply.
- Exceptions that abort an operation of the remote coordinator between two of its sections.
- ExpertTiers.Launch: the fused kernel is modelled by its contract, skipping experts with more rows than its buffers hold; trellis decoding, half precision and atomic accumulation are not modelled.
- ExpertTiers.PythonLoop: the distinct ids are taken in any order, as exact sums do not depend on it.
- ExpertDispatch.Fused: one output coordinate; scratch buffers, streams, statistics and graph capture are left out.
- PrefillSplitter.WorkspaceIdentity: parsing of the configuration objects and the check of the compress ratio at boot are left out.
- VocabTopK.GetTopKTokens: the soft cap is any increasing function with a lower bound instead of the hyperbolic tangent; all ranks are one method.
- SelectorWalk.Walk: noise is an arbitrary function of seed, position and token; its distribution is not modelled.
- GroupedConv.Convolve: one channel; the projection that makes the coefficients is left out.
- DraftLogitCache.DraftLogits.Run: programs run one after another; as no row is written twice their order does not matter.
- DrafterLayout.CacheConfig: the recurrent layers that also share the attention tensors, and the building of the other groups, are left out; the standalone tensors of the other variant of the patch are not modelled.
- AdaptiveK.Policy.Reload: parsing of the environment and of the override file is reduced to which keys are missing, unreadable or good.
- AdaptiveK.Policy.constructor: the source also looks at the override file once at the end of its constructor; here that is a call of `Reload`.
- The indexer's kernels, cache insertion and top-k over pools.
- The file patchers, launch scripts, benchmarks, probes, weight edits and container recipes.
- Small helpers that would only add easy members: memory budget division, timestamp alignment, environment parsing, tier resolution.
