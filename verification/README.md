# Ledger, dictation, media and protocol models

A Dafny project about the parts of the repository whose guarantees span whole runs. Objects that the source updates in place are classes with the source's fields, loops are loops, and every method is proved against a specification function or a declarative statement; the theorems are lemmas about those.

- **Manna ledger** (`Ledger.dfy`, `LedgerInvariants.dfy`, `LedgerReceipts.dfy`, `LedgerCaps.dfy`, `LedgerReservations.dfy`, `LedgerAdmission.dfy`). Two pots per account and an append-only list of rows. Amounts are integers in units of 10^-4 manna; one database transaction is one atomic step, so the clock value of a call is also the creation time of its row. `Sound` is the invariant of every run.
- **Durable dictation** (`DictationStore.dfy`, `DictationWorld.dfy`, `DictationInvariant.dfy`, `DictationTheorems.dfy`, `DictationLookalike.dfy`, `DictationFinalize.dfy`, `DictationSignOut.dfy`, `DictationSession.dfy`, `DictationCompletion.dfy`, `DictationProgress.dfy`, `DictationComposer.dfy`, `DictationDelivery.dfy`). The store's transactions, then a step relation over the shared store, the fence and epoch in local storage, any number of tabs, a network that delays, repeats and drops, and a server that accepts each recording's chunks in order. Every store call of a session is an admission and a later commit with anything in between. Assumptions: a session awaits each append, phase and finish call to the store before the next, a fence value is raised once, as each is drawn fresh, and the server acknowledges contiguous prefixes (`packages/db/src/schema.ts:1340-1341`, `apps/web/lib/dictation-transport.ts:113-117`).
- **Media** (`StagingCache.dfy`, `ObjectService.dfy`, `Multipart.dfy`, `ResumableUpload.dfy`, `JpegProbe.dfy`). The pinned cache and hydration over it, immutable objects and multipart assembly with the client loop that feeds it, and the JPEG marker walk. The digest is an uninterpreted function; where two contents could share a digest the statements say so by speaking of the digest.
- **Protocols** (`Sse.dfy`, `Lease.dfy`, `Base64Url.dfy`, `Capability.dfy`, `Requesters.dfy`). The incremental frame splitter, the timed authorization lease with its keepalive timer, and the capability ids. The keyed message authentication code is an uninterpreted function from text to 32 bytes.
- **Tables** (`Metering.dfy`, `RouteInventory.dfy`). Effective-dated selection of prices and ceilings, and the route inventory verifier.
- `Prelude.dfy` and `JsText.dfy` hold shared vocabulary. `dfyconfig.toml` names the files.

What the proofs brought out about the code:

- The spend queries have a lower time bound only, so both caps bound every window in every run whatever clock values the calls carry; no monotone clock is needed. An underscore in a scope id makes the LIKE prefix match further keys, which can only over-count (`LikeIsExactIffNoUnderscore`).
- Settling at the full reservation writes no row. Only then can a second settlement at a smaller charge still apply (`SettlePostsIff`, `SettledOnce`).
- A keyed credit is idempotent exactly when its key is not empty: an empty key skips the replay lookup but is still written to the unique column, so a second one is refused (`CreditReplaysIffKeyNotEmpty`, `EmptyKeyIsRefused`).
- The plain `refund` credits the durable pot with everything still held, so it restores a reservation's two pots only when no subscription share was drawn (`PlainRefundRestoresSplitIff`); the reservation theorem is about settling and reversing with the share the reservation reported.
- `append` refuses only once the session is closed. A chunk appended after the finishing flush found the store empty is named by the finalize request although it may never have been uploaded (`LateAppendIsNamedUnaccepted`). What `finish` would have to look at before the request is whether anything of the draft is stored: with nothing stored the server has all the request names in every run that leaves the browser as it is, and otherwise some run leaves the browser just so and the server without a named chunk (`FinalizeIsSafeIffNothingPending`, `LeaseHolderFinalizesEverythingIff`). The chunk itself is not lost while the draft is stored (`NoAudioLost`).
- No recording and no transcript is ever stuck: from every reachable world in which no sign-out stands, a new tab of the account can take a draft over that is current and at most six hours old, get every chunk accepted, complete it, deliver it and remove it (`EveryRecordingCanBeCompleted`, `EveryTranscriptCanBeDelivered`).
- The compare-and-set of the dictation store looks at the generation alone: two overlapping appends of one session would both commit and lose a chunk (`OverlappingAppendsLoseAudio`).
- The composer remembers thirty earlier deliveries beyond the latest; one more and an edit forgets the oldest (`ThirtyOneOthersAndAnEditForget`).
- The splitter's frames are literally the non-blank pieces of the text, except when behind the last blank line come more than white space, a line end, and a bare CR that ends the text; the last frame then keeps both line ends, and the lines it carries are the same (`FramesAreSplitIff`, `FramesAreTheBlocks`).
- The route verifier compares guard lists after sorting and joining with a bar, so one identifier that itself contains the bar passes for two (`JoinsToTwo`).

## Model

| member | source | states |
|---|---|---|
| `MannaLedger.Drain` | packages/core/src/manna.ts:498-517 | The subscription pot pays first and the durable pot only what it cannot; the two together lose exactly the amount and, when it is covered, neither goes below zero. |
| `MannaLedger.TopUp` | packages/core/src/manna.ts:595-609 | A credit raises only the pot it names, by its amount. |
| `MannaLedger.FindKey` | packages/core/src/manna.ts:362-369 | Finds a row with the key, and answers none only when no row has it. |
| `MannaLedger.LatestLeg` | packages/core/src/manna.ts:904-915 | The linked row `refund` falls back to has the latest time of all rows linked to the debit. |
| `MannaLedger.Ledger.CheckCaps` | packages/core/src/manna.ts:406-484 | The cap checks, in the order of the source, refuse exactly as the specification says. |
| `MannaLedger.Ledger.Debit` | packages/core/src/manna.ts:390-551 | Updates the two tables step by step to the books, and the reply, that the specification names. |
| `MannaLedger.Ledger.Credit` | packages/core/src/manna.ts:577-644 | The same for credits, including the unique-index refusal of a repeated empty key. |
| `MannaLedger.Ledger.RefundLeg` | packages/core/src/manna.ts:723-876 | The same for the one refund primitive: replay checks first, then remainder, split and row. |
| `MannaLedger.Ledger.Refund` | packages/core/src/manna.ts:890-922 | The same for the full refund and its fall-back to the latest leg. |
| `MannaLedger.Ledger.SettleReservation` | packages/core/src/manna.ts:946-983 | The same for settling at the final charge. |
| `MannaLedger.Ledger.ReverseReservation` | packages/core/src/manna.ts:1003-1040 | The same for giving a reservation back. |
| `LedgerInvariants.PostKeepsSound` | packages/core/src/manna.ts:706-876 | Posting any row the operations may post keeps keys unique, links good, refunds within their debit, reversals full and pots non-negative. |
| `LedgerInvariants.CallPosts` | packages/core/src/manna.ts:390-1040 | Every call either replies that nothing happened and leaves the books alone, or posts exactly one good row. |
| `LedgerInvariants.RunKeepsSound` | packages/core/src/manna.ts:706-876 | Over every run linked refunds never exceed their debit, reversals stay full, keys stay unique, and the ledger only grows. |
| `LedgerInvariants.StepConserves` | packages/core/src/manna.ts:498-536 | One call changes what an account holds by exactly what it records for it. |
| `LedgerInvariants.BalancesMatchLedger` | packages/core/src/manna.ts:498-536 | From any opening balances, after any run, both pots are non-negative and sum to the opening total plus the account's rows. |
| `LedgerInvariants.IdleCallsAreRedundant` | packages/core/src/manna.ts:390-644 | Deleting every failed, replayed or empty call from a run leaves final accounts and ledger the same, row for row. |
| `LedgerInvariants.ReversedIsFinal` | packages/core/src/manna.ts:651-664 | Once a linked row stands under `refund:<key>`, the debit is fully returned for good and no later settle, reverse or refund moves anything. |
| `LedgerInvariants.KeyPostsOnce` | packages/core/src/manna.ts:393-402 | After a key is used, no debit or credit under it posts again, through any further run. |
| `LedgerInvariants.CreditReplaysIffKeyNotEmpty` | packages/core/src/manna.ts:573-643 | A credit repeated under its key, after any run, is answered as a replay of its row iff the key is not empty, and refused by the unique index iff it is. |
| `LedgerInvariants.EmptyKeyIsRefused` | packages/core/src/manna.ts:580-591 | The failing input: the same credit under the empty key twice. |
| `LedgerInvariants.RefundNullIffUnknown` | packages/core/src/manna.ts:890-922 | `refund` answers null exactly when neither the debit nor its refund key is known. |
| `LedgerInvariants.ClampsNeverBind` | packages/core/src/manna.ts:296-355 | The `greatest(..., 0)` in both spend queries never changes a term. |
| `LedgerReceipts.DebitReceiptIsTrue` | packages/core/src/manna.ts:393-536 | A debit's reply names its row, shows the account as it stands, and its subscription share is what that pot lost. |
| `LedgerReceipts.CreditReceiptIsTrue` | packages/core/src/manna.ts:577-644 | A credit's reply names its row and pots; only the named pot moved. |
| `LedgerReceipts.LegReceiptIsTrue` | packages/core/src/manna.ts:740-833 | A leg's reply reports what is still held, what its key gave back, and the debited account's pots. |
| `LedgerAdmission.DebitAppliedIff` | packages/core/src/manna.ts:390-536 | A debit of a positive amount under a new key with valid caps is applied iff both pots together hold the amount, the account's own spend of the UTC day net of refunds leaves room under the daily cap, and the scope's window under the rolling cap. |
| `LedgerAdmission.AppliedDebitPosts` | packages/core/src/manna.ts:498-536 | An applied debit posts one row with the caller's type and time, takes from the subscription pot as far as it goes and the rest from the durable one, and touches no other account. |
| `LedgerAdmission.DebitRefusalIsTrue` | packages/core/src/manna.ts:391-517 | A refused debit changes nothing and names a cause that holds, with the true total; a used key is answered with its row. |
| `LedgerAdmission.CreditAppliedIff` | packages/core/src/manna.ts:577-644 | A credit is applied iff its amount is positive and its key, if any, is new; it posts one row and raises only the named pot. |
| `LedgerAdmission.LegPostedIff` | packages/core/src/manna.ts:740-876 | A leg under a new key is posted iff what it asks for is positive and still held; it returns just that under its own type and time, at most the wanted share to the subscription pot. |
| `LedgerAdmission.OnlyDebitsAreReturned` | packages/core/src/manna.ts:740-800 | Of an unknown key nothing is returned, a row that is no debit is refused, and settling and reversing need a reservation. |
| `LedgerAdmission.LegReplayedIff` | packages/core/src/manna.ts:723-760 | A used leg key is a replay iff its row returned this very debit and, if an amount is asked for, that amount. |
| `LedgerAdmission.OrphanLegIsReplayed` | packages/core/src/manna.ts:740-766 | A used leg key shown with an unknown debit is answered with what its row gave back, and nothing left to return. |
| `LedgerAdmission.RefundPostsIff` | packages/core/src/manna.ts:890-922 | A refund returns all that is held to the durable pot iff something is held and the refund key is new. |
| `LedgerAdmission.ReversePostsIff` | packages/core/src/manna.ts:1003-1040 | A reversal does the same and gives the reported share back to the subscription pot. |
| `LedgerAdmission.SettlePostsRow` | packages/core/src/manna.ts:946-983 | Settling returns all but the charge, the part of the share the charge left to the subscription pot, iff charge and remainder allow it and the settlement key is new. |
| `LedgerAdmission.LegLowersSpend` | packages/core/src/manna.ts:296-355 | A leg lowers the day's spend of the debit it returns by its amount iff its type is `refund...`, and the scope's spend whatever its type. |
| `LedgerAdmission.DebitRaisesSpend` | packages/core/src/manna.ts:296-355 | An applied debit raises exactly the totals it belongs to, by its amount. |
| `LedgerCaps.OldRefundFreesNothing` | packages/core/src/manna.ts:289-322 | Refunding a debit outside a total leaves that total unchanged. |
| `LedgerCaps.LikeIsExactIffNoUnderscore` | packages/core/src/manna.ts:330-355 | The LIKE pattern selects exactly the keys of the scope iff the prefix has no underscore. |
| `LedgerCaps.RollingCapBoundsEveryWindow` | packages/core/src/manna.ts:433-484 | If every debit of a scope carries the same cap, after any run every window of the cap's length, wherever it starts, holds at most the limit net of refunds. |
| `LedgerCaps.DailyCapBoundsEveryDay` | packages/core/src/manna.ts:453-466 | With a constant daily cap every UTC day of an account holds at most the limit of `spend...` debits net of `refund...` rows. |
| `LedgerReservations.LegMoves` | packages/core/src/manna.ts:797-833 | A posted leg returns its amount from what is held, subscription share first, the rest to the durable pot. |
| `LedgerReservations.RunMovesSplit` | packages/core/src/manna.ts:946-1040 | Over any run the calls naming a reservation move each pot by the difference of the splits of what is held. |
| `LedgerReservations.ReservationTracksDirectDebit` | packages/core/src/manna.ts:924-1040 | Reserving, then anything interleaved: each pot has moved exactly as a direct debit of what is still held would have moved it at reservation time. |
| `LedgerReservations.SettleHoldsChargeReverseHoldsNothing` | packages/core/src/manna.ts:946-1040 | Settling leaves exactly the charge held, reversing exactly nothing. |
| `LedgerReservations.PlainRefundRestoresSplitIff` | packages/core/src/manna.ts:890-922 | The plain refund puts everything held into the durable pot, so it restores both pots exactly iff no subscription share was drawn. |
| `LedgerReservations.SettlePostsIff` | packages/core/src/manna.ts:788-797 | Settling writes a row iff nothing is back yet, part is unused and the settlement key is free. |
| `LedgerReservations.SettledOnce` | packages/core/src/manna.ts:656-664 | After a settlement with an unused part no run lets a second settlement move anything. |
| `DictationStore.PartitionDrafts` | apps/web/lib/dictation-storage.ts:373-391 | Admits exactly the owner's current drafts, newest first, and lists the ids of all others. |
| `DictationStore.PartitionCovers` | apps/web/lib/dictation-storage.ts:373-391 | Every draft is admitted or listed for purging; admitted are exactly those of the owner and epoch, claimed at least once and at most six hours old. |
| `DictationStore.DictationDraftStore.PutDraft` | apps/web/lib/dictation-storage.ts:463-476 | Stores a new draft iff no fence stands and its epoch is current, and tells the two refusals apart. |
| `DictationStore.DictationDraftStore.ClaimDraft` | apps/web/lib/dictation-storage.ts:479-497 | Hands out the stored draft under the next generation iff the store is open and the record is the one shown. |
| `DictationStore.DictationDraftStore.AppendChunk` | apps/web/lib/dictation-storage.ts:500-539 | Commits the chunk and the advanced cursor iff the store is open and the generation is held; empty audio changes nothing. |
| `DictationStore.DictationDraftStore.CompareAndPut` | apps/web/lib/dictation-storage.ts:561-581 | Replaces the record iff the store is open and the generation is held. |
| `DictationStore.DictationDraftStore.UpdatePhase` | apps/web/lib/dictation-storage.ts:541-546 | Moves the phase through the compare-and-put. |
| `DictationStore.DictationDraftStore.Complete` | apps/web/lib/dictation-storage.ts:548-559 | Stores the transcript through the compare-and-put. |
| `DictationStore.DictationDraftStore.Acknowledge` | apps/web/lib/dictation-storage.ts:593-603 | Deletes exactly the chunks up to the acknowledged index. |
| `DictationStore.DictationDraftStore.DeleteDraft` | apps/web/lib/dictation-storage.ts:653-677 | Deletes draft and chunks, and nothing else, unless another generation holds it, and says which it was. |
| `DictationStore.DictationDraftStore.BeginPurgeFence` | apps/web/lib/dictation-storage.ts:107-122 | Draws a fresh epoch and raises it as the fence. |
| `DictationStore.DictationDraftStore.ClearPurgeFence` | apps/web/lib/dictation-storage.ts:335-341 | Removes the fence only if it is the value the caller read. |
| `DictationStore.AcknowledgeShrinksPending` | apps/web/lib/dictation-session.ts:153-170 | A reply covering a pending chunk strictly shrinks what is pending and keeps every later chunk. |
| `DictationInvariant.StepKeepsConsistent` | apps/web/lib/dictation-storage.ts:460-677 | Every step of tabs, store, local storage, network and server keeps the whole invariant. |
| `DictationInvariant.RunKeepsConsistent` | apps/web/lib/dictation-storage.ts:460-677 | So does every run. |
| `DictationTheorems.NoAudioLost` | apps/web/lib/dictation-storage.ts:500-539 | For every stored draft, in every reachable world, an index lies below the cursor iff its chunk is stored or accepted by the server, and both copies are what was recorded. |
| `DictationTheorems.DraftsLeaveOnlyByRemoval` | apps/web/lib/dictation-session.ts:240-265 | A draft leaves the store only by a purge, a rejection at recovery, a cancel, or a consume whose delivery committed. |
| `DictationFinalize.FinalizeIsSafeIffNothingPending` | apps/web/lib/dictation-session.ts:196-214 | A session whose draft is stored, appends during the finish included, can be sure that the server has all a finalize request names iff no such chunk is stored any more: it has them then in every run that ends in the same database, local storage and tabs, and otherwise in some such run it has not. |
| `DictationFinalize.DrainedChunksAreAccepted` | apps/web/lib/dictation-session.ts:196-214 | Of every finalize request of any run the server has the chunks below its drain mark, hence all it names when nothing was appended since the drain. |
| `DictationLookalike.StoredChunkMayBeUnaccepted` | apps/web/lib/dictation-session.ts:144-170 | While a chunk is stored the browser cannot know that the server has it: another run ends in the same browser state with the server at most at the chunks below it. |
| `DictationLookalike.RunCuts` | apps/web/lib/dictation-session.ts:144-170 | Leaving out of a run what only the server knows of a chunk still stored at its end leaves a run, and all else as it was. |
| `DictationLookalike.RunKeepsGone` | apps/web/lib/dictation-storage.ts:500-603 | Through any run a recorded chunk that has left the store does not come back. |
| `DictationFinalize.OnlyADrainMarks` | apps/web/lib/dictation-session.ts:144-151 | The mark this is measured from moves only when a finishing flush finds nothing stored, and then to the cursor. |
| `DictationFinalize.LateAppendIsNamedUnaccepted` | apps/web/lib/dictation-session.ts:203-214 | A reachable world, for every account, draft and audio, in which a chunk appended behind the drain is named and the server does not have it. |
| `DictationFinalize.LeaseHolderFinalizesEverythingIff` | apps/web/lib/dictation-session.ts:196-214 | A lease holder's finalize names the last chunk recorded; it can be sure that the server has the whole recording iff nothing of its draft is stored. |
| `DictationTheorems.HolderAgreesWithStore` | apps/web/lib/dictation-session.ts:106-142 | The holder of the lease has exactly the stored record in hand, cursor included. |
| `DictationTheorems.OvertakenHoldersNeverWrite` | apps/web/lib/dictation-storage.ts:479-581 | Once the record is past generation g, through any run nothing a holder of g or older does changes the store. |
| `DictationTheorems.ClaimOvertakes` | apps/web/lib/dictation-storage.ts:479-497 | A committed claim gives the claimant the next generation and overtakes every older one. |
| `DictationSignOut.OldEpochsStayOld` | apps/web/lib/dictation-storage.ts:102-122 | A replaced epoch never becomes current again. |
| `DictationSignOut.SignOutEndsCustody` | apps/web/lib/dictation-storage.ts:94-122 | While a fence stands no writer is admitted, and none is ever admitted under a replaced epoch. |
| `DictationSignOut.OfferedDraftsAreOwnAndCurrentOrDead` | apps/web/lib/dictation-storage.ts:605-638 | Recovery offers only drafts of its own account; each is of the current epoch or can never be claimed. |
| `DictationSignOut.OffersComeFromOnePartition` | apps/web/lib/dictation-storage.ts:605-638 | Through any run, what a view comes to offer is exactly what one partition admitted for its account and the epoch of that moment. |
| `DictationSignOut.OffersFollowAFreeRead` | apps/web/lib/dictation-storage.ts:609-620 | Through any run, a view comes to offer drafts only by a recovery that read the fence while none stood. |
| `DictationSignOut.NothingOfferedUnderFence` | apps/web/lib/dictation-storage.ts:609-620 | While a fence stands throughout a run, a view at rest never comes to offer a draft. |
| `DictationSignOut.SessionsKeepTheirOwner` | apps/web/lib/dictation-session.ts:82-113 | A session only works on a draft its own account created, under the epoch it was created in. |
| `DictationSignOut.FenceOutlivesPurge` | apps/web/lib/dictation-storage.ts:335-357 | However many sign-outs a run has: if no fence stands at its end, a recovery that had read the last fence raised emptied the store while it stood. |
| `DictationSignOut.EveryRunPurgesBehindItsFence` | apps/web/lib/dictation-storage.ts:335-357 | The same for every run from a fresh browser in which any fence was raised. |
| `DictationSignOut.RecoveryUnderFenceOffersNothing` | apps/web/lib/dictation-storage.ts:344-357 | Through any run, a recovery that found a fence offers nothing before the view has come to rest again. |
| `DictationTheorems.OverlappingAppendsLoseAudio` | apps/web/lib/dictation-storage.ts:500-539 | Why each append is awaited: two appends of one unrefreshed copy both commit and the second replaces the first. |
| `DictationCompletion.CompletingStoresTranscript` | apps/web/lib/dictation-storage.ts:548-559 | Whatever other tabs do meanwhile, completing under a lease still held stores just this transcript, in the record and in the copy. |
| `DictationCompletion.CompleteDraftsKeepTheirTranscript` | apps/web/lib/dictation-storage.ts:548-559 | In every reachable world and through any later run a complete draft keeps the transcript it has until it is removed. |
| `DictationProgress.CreatedDraftIsStored` | apps/web/lib/dictation-session.ts:82-104 | A new recording is stored empty under its account, the current epoch and generation one. |
| `DictationProgress.HeldAppendIsRecorded` | apps/web/lib/dictation-storage.ts:500-539 | Under the lease an append always lands: its audio lies at the old cursor and ends the recording, and record and copy move on by one. |
| `DictationProgress.HeldPutLands` | apps/web/lib/dictation-storage.ts:541-581 | Under the lease a phase write lands in record and copy, and the session moves on. |
| `DictationProgress.NewTabTakesOver` | apps/web/lib/dictation-storage.ts:479-497 | A new tab can take over any stored draft of its account that is current and at most six hours old, whatever its earlier holders are doing. |
| `DictationProgress.EveryRecordingCanBeCompleted` | apps/web/lib/dictation-session.ts:144-221 | No recording is ever stuck: in every reachable world an unfinished draft that recovery admits can be completed by a new tab with every chunk ever recorded at the server, then delivered and removed. |
| `DictationProgress.EveryTranscriptCanBeDelivered` | apps/web/lib/dictation-session.ts:196-265 | Nor is a transcript: a complete draft that recovery admits can be delivered by a new tab as it is, and removed. |
| `DictationProgress.CancelRemoves` | apps/web/lib/dictation-session.ts:250-265 | Under the lease a cancel, possible until the draft is handed over, removes just that draft and its chunks. |
| `DictationProgress.RejectedIsDropped` | apps/web/lib/dictation-storage.ts:629-637 | A rejected draft goes with its chunks, and nothing else does. |
| `DictationProgress.SignOutPurges` | apps/web/lib/dictation-storage.ts:107-122 | A sign-out puts a new epoch and its fence in place and purges everything; the next recovery purges once more and takes that fence down. |
| `DictationSession.UploadPending` | apps/web/lib/dictation-session.ts:144-179 | Stored afterwards are exactly the chunks above every index acknowledged, in the order of the answers; other drafts are untouched, the pauses are the doubling ones, it ends drained iff nothing is left and gives up only at a refusal, and as many acknowledgements as pending chunks always suffice. |
| `DictationSession.AfterAcknowledgement` | apps/web/lib/dictation-session.ts:153-170 | Each acknowledgement removes just what it covers and strictly shrinks what is pending, whatever came before. |
| `DictationSession.PausesFollowFailures` | apps/web/lib/dictation-session.ts:173-176 | The pauses are 250, 500, 1000, 2000 and 4000 ms behind the first failures in a row and 5000 behind every further one; an acknowledgement makes none and starts over. |
| `DictationSession.ChunksGoInOrder` | apps/web/lib/dictation-session.ts:146-163 | A server that acknowledges just what it was sent gets the stored chunks from the lowest up, none twice and none passed over. |
| `DictationComposer.ComposerStore.CommitTranscript` | apps/web/lib/dictation-storage.ts:269-308 | Appends a transcript once under the current epoch; a replay answers with the value already composed. |
| `DictationComposer.ComposerStore.PersistDraft` | apps/web/lib/dictation-storage.ts:232-262 | An edit replaces the text and keeps the remembered delivery ids. |
| `DictationComposer.ComposerStore.LoadDraft` | apps/web/lib/dictation-storage.ts:196-229 | Restores one composer and drops every record of another account or epoch, or past its time. |
| `DictationComposer.ComposerStore.ClearDraft` | apps/web/lib/dictation-storage.ts:310-329 | Clears exactly the record of that account, epoch and view. |
| `DictationComposer.RememberedNotAppended` | apps/web/lib/dictation-storage.ts:269-308 | While few enough other deliveries come in, a remembered delivery is never appended again. |
| `DictationComposer.DeliveredOnce` | apps/web/lib/dictation-storage.ts:232-308 | Through any deliveries and edits from any tabs a transcript is appended at most once, if at most thirty others are appended. |
| `DictationComposer.ThirtyOneOthersAndAnEditForget` | apps/web/lib/dictation-storage.ts:232-262 | Thirty is the limit: after thirty-one others one edit forgets the id and it would be appended again. |
| `DictationComposer.ComposeExtends` | apps/web/lib/dictation-storage.ts:269-308 | A delivery keeps the text that was there as a prefix and ends in the trimmed transcript. |
| `DictationDelivery.DeliveryExtendsText` | apps/web/lib/dictation-storage.ts:297-306 | A delivery that is no replay leaves the text that was there, its separator and the trimmed transcript; a blank transcript changes no text. |
| `DictationDelivery.DeliveryIsRemembered` | apps/web/lib/dictation-storage.ts:301-304 | It is remembered last, behind the latest thirty-one before it, at its own time. |
| `DictationDelivery.ReplayChangesNothing` | apps/web/lib/dictation-storage.ts:293-296 | A replay leaves the whole record as it was. |
| `DictationDelivery.EditLeavesItsText` | apps/web/lib/dictation-storage.ts:255-258 | An edit leaves exactly its own text and keeps the latest thirty-one ids. |
| `DictationDelivery.TextIsEachTranscriptOnce` | apps/web/lib/dictation-storage.ts:269-308 | From an empty composer, without edits and with replays that come within thirty-one others, the text is the non-blank trimmed transcripts, each once, in the order they first came, one blank between them. |
| `Sse.SseFrameSplitter.Push` | apps/web/lib/sse.ts:39-52 | Emits the non-blank complete parts of buffer and chunk and keeps the open part and a held-back CR. |
| `Sse.SseFrameSplitter.Flush` | apps/web/lib/sse.ts:54-58 | Emits what is left unless it is blank, and empties the buffer. |
| `Sse.StreamFrames` | apps/web/lib/sse.ts:85-116 | The reader loop sees exactly the frames of pushing every read, then the decoder's tail, then flushing. |
| `Sse.PushedDependsOnText` | apps/web/lib/sse.ts:36-61 | Frames and buffer depend only on the text received so far. |
| `Sse.ChunkingIsIrrelevant` | apps/web/lib/sse.ts:36-61 | Any two ways of cutting the same text, empty chunks and cuts through CRLF included, give the same frames. |
| `Sse.FramesAreTheBlocks` | apps/web/lib/sse.ts:36-61 | The frames carry, in order, exactly the blocks of lines delimited by blank lines under CRLF, CR and LF (section 9.2.5 of the WHATWG HTML standard), leaving out white space. |
| `Sse.FramesAreSplitIff` | apps/web/lib/sse.ts:36-61 | They are literally the non-blank pieces of the unified text iff it is not the case that behind its last blank line come more than white space, a line end, and a bare CR that ends the text. |
| `Lease.SessionEventAuthorizationLease.Create` | apps/api/src/events-bus.ts:123-136 | Refuses every timeout outside the admitted range. |
| `Lease.SessionEventAuthorizationLease.BeginCheck` | apps/api/src/events-bus.ts:138-149 | Single flight: starts a check with its deadline iff active and none is running. |
| `Lease.SessionEventAuthorizationLease.EndCheck` | apps/api/src/events-bus.ts:150-161 | Reports authorization or denial as the machine says, for every way the callback ends. |
| `Lease.SessionEventAuthorizationLease.Deny` | apps/api/src/events-bus.ts:168-176 | Ends the lease and reports only the first denial. |
| `Lease.SessionEventAuthorizationLease.Stop` | apps/api/src/events-bus.ts:163-166 | Ends the lease silently. |
| `Lease.AuthorityIsFresh` | apps/api/src/events-bus.ts:79-189 | At every moment the stream is active, admission or a successful check began at most fifteen seconds earlier, for every admitted interval and timeout. |
| `Lease.GoodIsASuccess` | apps/api/src/events-bus.ts:138-161 | The moment counted from is always the beginning of a check that answered yes. |
| `Lease.BoundIsTight` | apps/api/src/events-bus.ts:79-82 | Fifteen seconds are reached at the production settings. |
| `Lease.ReportsAreOrderly` | apps/api/src/events-bus.ts:138-189 | Reports are authorizations followed by at most one denial; an ended lease reports nothing. |
| `Lease.DeniedAtMostOnce` | apps/api/src/events-bus.ts:163-176 | Over a whole stream denial is reported at most once and nothing after denial or stop. |
| `Lease.ActiveIffNothingEnded` | apps/api/src/events-bus.ts:138-189 | A stream is active iff no close, deadline, refusal, or stopping or throwing callback has come. |
| `Lease.ActiveLogIsItsPings` | apps/api/src/events-bus.ts:150-161 | While it is active its reports are exactly one authorization for each check that succeeded and wrote. |
| `Lease.SuccessIsReadyAgain` | apps/api/src/events-bus.ts:154-160 | After each such check the stream is still ticking and ready for the next. |
| `Lease.ActiveStreamProceeds` | apps/api/src/events-bus.ts:138-161 | An active stream is never stuck: time can pass, a tick is due or a deadline is; a running check can be answered. |
| `Lease.ChecksAreSingle` | apps/api/src/events-bus.ts:138-140 | A second check never starts while one runs. |
| `Lease.FailureEndsAuthority` | apps/api/src/events-bus.ts:150-189 | A refusal, an overdue check or a close ends authority and the timer on the spot. |
| `Base64Url.DecodeEncode` | packages/gateway/src/channel-secret-capability.ts:93-102 | Decoding undoes encoding, so encoding is injective. |
| `Base64Url.DigitsAreTheAlphabet` | packages/gateway/src/channel-secret-capability.ts:93-95 | The digits are those of table 2 of RFC 4648, in its order. |
| `Base64Url.ThreeAreFour` | packages/gateway/src/channel-secret-capability.ts:93-95 | Three bytes and their four digits are the same number. |
| `Base64Url.BlocksFollow` | packages/gateway/src/channel-secret-capability.ts:93-95 | Blocks of three bytes are encoded one behind the other. |
| `Base64Url.ReencodesIffCanonical` | packages/gateway/src/channel-secret-capability.ts:93-102 | A string re-encodes to itself iff it has no leftover character and no leftover bits (section 5 of RFC 4648). |
| `Capability.ParseIffPrinted` | packages/gateway/src/channel-secret-capability.ts:244-251 | An id parses to given parts iff it is their print and they have the right shapes. |
| `Capability.ParseLegacyIffPrinted` | packages/gateway/src/channel-secret-capability.ts:244-251 | The same for legacy ids. |
| `Capability.JoinNulInjective` | packages/gateway/src/channel-secret-capability.ts:210-218 | Joining non-empty NUL-free parts loses nothing, whatever the numbers of parts. |
| `Capability.CanonicalScopeInjective` | packages/gateway/src/channel-secret-capability.ts:210-218 | The canonical scope text determines the scope. |
| `Capability.ScopeText` | packages/gateway/src/channel-secret-capability.ts:210-223 | The text a code covers: the domain and the five fields in their order with a NUL between, and none if a field is empty or has a NUL. |
| `Capability.MintSucceedsIff` | packages/gateway/src/channel-secret-capability.ts:234-242 | Minting succeeds iff connection, epoch and scope are valid; the self-parse never fails. |
| `Capability.AcceptedIff` | packages/gateway/src/channel-secret-capability.ts:278-331 | What verification accepts for any row: the print of the row's own code at the id's epoch. |
| `Capability.GrantedIffMinted` | packages/gateway/src/channel-secret-capability.ts:278-331 | With the row looked up by the id's connection, an id is granted iff it is the one minted for the row's scope. |
| `Capability.VerifiedIffMinted` | packages/gateway/src/channel-secret-capability.ts:313-331 | The same at any epoch: revoked epochs are told apart from forgeries. |
| `Capability.VerifiesIff` | packages/gateway/src/channel-secret-capability.ts:278-331 | With the row looked up by the id's connection, an id verifies iff it is the one minted for the row's scope at its current epoch, or an unscoped id while those are allowed. |
| `Capability.ReasonsAreTrue` | packages/gateway/src/channel-secret-capability.ts:290-330 | Each reason is given exactly when what it says holds, and only the two grants verify. |
| `Capability.VerdictNamesConnection` | packages/gateway/src/channel-secret-capability.ts:290-330 | The connection named is the id's own, and none is named exactly for malformed ids. |
| `Capability.MalformedIffPrintsNothing` | packages/gateway/src/channel-secret-capability.ts:244-251 | An id is malformed iff it is the print of neither kind. |
| `Capability.NoCrossScopeReplay` | packages/gateway/src/channel-secret-capability.ts:267-331 | An id minted for one scope is granted against a row only for the row's own scope, or on a collision of the truncated code. |
| `Capability.EpochIdsAreDistinct` | packages/gateway/src/channel-secret-capability.ts:58-63 | Exactly the generations 1 to 999999 have an epoch id, each its own, and minting accepts it. |
| `Requesters.CollectParts` | packages/gateway/src/channel-secret-capability.ts:184-190 | Refuses exactly duplicates and invalid contexts, otherwise collects every context in order. |
| `Requesters.CanonicalProofInput` | packages/gateway/src/channel-secret-capability.ts:171-192 | Succeeds exactly on valid batches with the NUL-joined parts. |
| `Requesters.BatchTextInjective` | packages/gateway/src/channel-secret-capability.ts:142-192 | The text of a batch of any size determines the whole batch. |
| `Requesters.ValidBatchIff` | packages/gateway/src/channel-secret-capability.ts:142-192 | Exactly these batches have a proof input: a challenge of 43 digits, a process id, 1 to 128 requesters of distinct ids, each with the path and field its channel and account demand. |
| `Requesters.BatchPartsAt` | packages/gateway/src/channel-secret-capability.ts:146-191 | The parts of a proof input: domain, challenge, process, then the seven fields of each requester in turn. |
| `Requesters.DomainsAreApart` | packages/gateway/src/channel-secret-capability.ts:35-37 | No proof input is the text of a capability. |
| `StagingCache.EvictionIsUnique` | packages/core/src/media-store.ts:1186-1201 | The eviction rule (shortest prefix in order of use and id that makes room) leaves no choice. |
| `StagingCache.VictimsAreOldest` | packages/core/src/media-store.ts:1186-1201 | What is evicted was used before anything that stays, the lower id first among equally old ones. |
| `StagingCache.RoomKeepsAll` | packages/core/src/media-store.ts:1186-1201 | Giving a pin back with room for all that is then unpinned keeps every entry and every file. |
| `StagingCache.StagingCache.Load` | packages/core/src/media-store.ts:1146-1174 | Starts from the files found, unpinned, less exactly the victims the eviction rule names. |
| `StagingCache.StagingCache.EvictFor` | packages/core/src/media-store.ts:1186-1201 | Removes exactly the victims the rule names, never a pinned or preserved entry, and fails iff room cannot be made. |
| `StagingCache.StagingCache.DropUntilFits` | packages/core/src/media-store.ts:1192-1197 | The loop deletes the shortest prefix of the queue that makes room. |
| `StagingCache.StagingCache.Acquire` | packages/core/src/media-store.ts:1203-1232 | Pins iff the staged file is the described object, and drops it otherwise. |
| `StagingCache.StagingCache.EvictBeside` | packages/core/src/media-store.ts:1238-1240 | Eviction on behalf of an entry about to be pinned removes nothing, because the unpinned bytes fit the quota already. |
| `StagingCache.StagingCache.Publish` | packages/core/src/media-store.ts:1234-1259 | Stages bytes iff their digest is the one named, pinned once more, and changes no other entry or file; the table stays true of the disk iff the bytes fit an entry already there. |
| `StagingCache.StagingCache.Release` | packages/core/src/media-store.ts:1261-1268 | One pin is given back, and what goes then are exactly the victims of the eviction rule. |
| `StagingCache.StagingCache.Remove` | packages/core/src/media-store.ts:1270-1277 | Removes exactly one unpinned object and refuses a pinned one. |
| `ObjectService.ObjectService.UnreleasedHandlesMatch` | packages/core/src/media-store.ts:1442-1482 | While a handle is unreleased its staged file has the descriptor's checksum and size. |
| `ObjectService.ObjectService.Hydrate` | packages/core/src/media-store.ts:1442-1482 | Succeeds iff the object is available, staged or genuinely fetched, and projected; yields a handle owning one pin, or leaves every pin count as it was. |
| `ObjectService.ObjectService.Obtain` | packages/core/src/media-store.ts:1445-1463 | Pins the object iff it was staged or some answer is genuine; it is then staged, no other file differs, and otherwise no pin has changed. |
| `ObjectService.ObjectService.Fetch` | packages/core/src/media-store.ts:1447-1461 | Stages an answer of the right size and checksum iff there is one, beside everything that was there, and changes nothing otherwise. |
| `ObjectService.ObjectService.Release` | packages/core/src/media-store.ts:1474-1478 | Only the first release of a handle gives its pin back; the cache is then the touched table less the victims of the eviction rule, and a repeated release changes neither table nor disk. |
| `ObjectService.ObjectService.Prefetch` | packages/core/src/media-store.ts:1484-1495 | Hydrates the whole manifest in order iff every object is available, projected, and staged before or genuinely fetched for it or an earlier mention; otherwise leaves every pin count as it was. |
| `ObjectService.ObjectService.ReleaseAll` | packages/core/src/media-store.ts:1491-1493 | Releasing everything acquired restores the earlier pin counts, and keeps every file when all fits the quota. |
| `ObjectService.ObjectService.HydrateAgain` | packages/core/src/media-store.ts:1442-1482 | Hydrating again behind a release that left everything within the quota succeeds without any answer from the store. |
| `Multipart.LocalObjectBackend.Put` | packages/core/src/media-store.ts:494-510 | Writes a new key and never changes the bytes of an existing one; refused are exactly a checksum of other bytes and a key stored with other content. |
| `Multipart.LocalObjectBackend.CreateMultipart` | packages/core/src/media-store.ts:546-558 | Opens an upload bound to its key unless the key exists. |
| `Multipart.LocalObjectBackend.UploadPart` | packages/core/src/media-store.ts:575-594 | Stores a part iff its number, binding and checksum hold and it does not conflict with a stored one; every refusal names its cause. |
| `Multipart.LocalObjectBackend.CompleteMultipart` | packages/core/src/media-store.ts:624-641 | Succeeds iff the upload is bound to the key, the list is non-empty without duplicates, every listed part is stored with its etag, and the key is free or holds the same content; then stores the parts joined in part order, and changes nothing on failure. |
| `Multipart.LocalObjectBackend.JoinParts` | packages/core/src/media-store.ts:631-637 | Joins the listed parts iff each is stored with the listed digest, and otherwise names the fault of the first that is not. |
| `Multipart.TagNamesDigest` | packages/core/src/media-store.ts:635 | An entity tag names the digest with or without its quotation marks. |
| `Multipart.SortKeepsDistinct` | packages/core/src/media-store.ts:627-630 | Sorting by number neither creates nor removes duplicates. |
| `Multipart.SlicesAssemble` | apps/web/lib/resumable-upload.ts:160-161 | The slices of a file one behind the other are the file. |
| `Multipart.CompletionJoinsTheFile` | packages/core/src/media-store.ts:624-641 | Whatever order the parts are listed in, what is joined is the file the slices were cut from. |
| `ResumableUpload.UploadPart` | apps/web/lib/resumable-upload.ts:187-235 | Succeeds iff the number is valid and some attempt is confirmed; what arrives at the backend is this part, once for each attempt not lost up to the confirmed one, and no other part or upload changes. |
| `ResumableUpload.CallsStopAtConfirmed` | apps/web/lib/resumable-upload.ts:195-232 | What arrives of a part are the attempts that get through, up to the first one confirmed and none behind it. |
| `ResumableUpload.ReachesIffThrough` | apps/web/lib/resumable-upload.ts:195-232 | A part gets stored iff its number is one of 1 to 10000 and some attempt gets through. |
| `ResumableUpload.MissingIsExact` | apps/web/lib/resumable-upload.ts:158-159 | The missing parts are exactly those absent, each once, ascending. |
| `ResumableUpload.ReportsAreHonest` | apps/web/lib/resumable-upload.ts:147-156 | Every progress report shows exactly the parts done and the bytes in them. |
| `ResumableUpload.LoopSendsMissing` | apps/web/lib/resumable-upload.ts:146-167 | However the attempts turn out, the loop has sent the missing parts in order up to the first that is never confirmed, and counted, reported and stored just those. |
| `ResumableUpload.SendMissing` | apps/web/lib/resumable-upload.ts:146-167 | Succeeds iff every missing part has a confirmed attempt. What arrives at the backend are the slices of the missing parts in order, repeated only by their own retries, up to the one that failed; what was stored stays, nothing else is added, other uploads are untouched. |
| `ResumableUpload.UploadThenComplete` | packages/core/src/media-store.ts:494-641 | After the last slice, completion in any listed order stores exactly the file under the key, closes just this upload, and later puts cannot change it. |
| `ResumableUpload.UploadFile` | apps/web/lib/resumable-upload.ts:146-172 | From any already completed subset: succeeds iff every missing part is confirmed, has then sent exactly those, ends at the file size and stores the file; on failure no object has changed and other uploads never do. |
| `JpegProbe.ProbeJpeg` | packages/core/src/media-store.ts:122-152 | The cursor loop terminates, reads in bounds and answers what the walk on the remaining bytes answers. |
| `JpegProbe.ProbeIffDeclared` | packages/core/src/media-store.ts:122-152 | For every buffer a size is answered iff the buffer is SOI, fill bytes, standalone markers and non-frame segments, then a frame header with that size (sections B.1.1 and B.2.2 of ITU-T T.81). |
| `JpegProbe.DimensionsAreUnique` | packages/core/src/media-store.ts:122-152 | No buffer has two readings, and nothing behind the dimensions changes the one it has. |
| `Metering.PrefixIsIrrelevant` | packages/core/src/metering.ts:371-375 | White space around a model id and one leading `provider/` make no difference to the row it finds. |
| `Metering.TextOrderIsCalendarOrder` | packages/core/src/metering.ts:431-441 | Comparing YYYY-MM-DD texts compares the dates. |
| `Metering.AssertUnambiguousEffectiveRows` | packages/core/src/metering.ts:407-430 | Passes iff all dates are real days and all versions differ; otherwise complains about the first row that breaks this, about its date iff that is no day. |
| `Metering.AmbiguityIsExact` | packages/core/src/metering.ts:407-430 | For plain provider and unit names the joined version text rejects exactly doubly claimed cells. |
| `Metering.LatestEligible` | packages/core/src/metering.ts:432-442 | Answers the first of the latest entries not after the day, and none iff there is none. |
| `Metering.SelectEntry` | packages/core/src/metering.ts:455-496 | Answers as the declarative statement allows: bad date, first bad row, no row in force, or a chosen row. |
| `Metering.AnswerIsUnique` | packages/core/src/metering.ts:721-759 | An accepted table has at most one answer to a question. |
| `Metering.RowOrderIsIrrelevant` | packages/core/src/metering.ts:450-496 | Permuting an accepted table changes neither acceptance nor the answer. |
| `Metering.LaterRowsChangeNothing` | packages/core/src/metering.ts:450-496 | Rows dated later, added anywhere, do not change the answer for a day. |
| `Metering.ExactRowsComeFirst` | packages/core/src/metering.ts:470-490 | When an exact row is in force the answer is exact and is that row or a later one. |
| `Metering.AnswerIsLatestInForce` | packages/core/src/metering.ts:432-496 | By the calendar: the row that names the model and came into force last, be it on that very day; failing that the last one for every model; failing that nothing. |
| `Metering.BadDatesAreRefused` | packages/core/src/metering.ts:379-405 | A date is refused iff it is no real day. |
| `RouteInventory.JoinsToOne` | apps/api/scripts/route-auth-inventory.ts:327-333 | The sorted, joined guards equal a text without a bar iff the list is that text alone. |
| `RouteInventory.JoinsToTwo` | apps/api/scripts/route-auth-inventory.ts:327-345 | They equal two texts joined by a bar iff the list is those two in either order, or the one text with the bar inside. |
| `RouteInventory.CheckContract` | apps/api/scripts/route-auth-inventory.ts:319-359 | Accepts exactly the guard contract of the entry's class. |
| `RouteInventory.CheckManifest` | apps/api/scripts/route-auth-inventory.ts:307-360 | Reports nothing iff keys are distinct and every entry is good. |
| `RouteInventory.CheckRoute` | apps/api/scripts/route-auth-inventory.ts:378-423 | Reports nothing iff the route carries exactly what its entry says. |
| `RouteInventory.Bind` | apps/api/scripts/route-auth-inventory.ts:404-415 | Reports nothing iff identifier and guard are bound to nothing or to each other. |
| `RouteInventory.CheckRoutes` | apps/api/scripts/route-auth-inventory.ts:362-424 | Reports nothing iff routes are distinct, classified, exact, and pairwise agree on identifiers and guards. |
| `RouteInventory.CheckCoverage` | apps/api/scripts/route-auth-inventory.ts:425-427 | Reports nothing iff every manifest key was captured. |
| `RouteInventory.LoopsDecideSound` | apps/api/scripts/route-auth-inventory.ts:301-432 | What the loops establish with their maps is the declarative statement about the two lists. |
| `RouteInventory.MatchIsLookup` | apps/api/scripts/route-auth-inventory.ts:373-377 | In a good manifest the map lookup finds the one entry that stands for a route. |
| `RouteInventory.VerifyRouteAuthInventory` | apps/api/scripts/route-auth-inventory.ts:301-432 | Passes iff the declarative statement holds: distinct equal keys, exact guards, identifiers and guards one to one. |
| `RouteInventory.KeyNamesTheRoute` | apps/api/scripts/route-auth-inventory.ts:286-288 | The key of a good entry gives back method and path. |
| `RouteInventory.AuthenticatedExactly` | apps/api/scripts/route-auth-inventory.ts:382-423 | After a pass a route runs `requireAuth` alone iff its class demands it, and has a service guard iff it is a service route. |
| `RouteInventory.PassedRoutesCarryTheirClass` | apps/api/scripts/route-auth-inventory.ts:301-432 | After a pass every route has one entry of its own method and path, and guards, handlers and markers are just those its class allows. |
| `RouteInventory.ContractIsOfClass` | apps/api/scripts/route-auth-inventory.ts:319-359 | The guard contract of each class in its own words, whatever the order of the guards. |

## Left out

- SQL, row and advisory locks, savepoints and unique-violation retries: a transaction is one atomic step that commits or changes nothing.
- Floating point in the ledger: rounding to four decimals, the 1e-9 tolerances and non-finite numbers; amounts are integers.
- `getBalance`, `taskExternalId`, the Stripe and voucher columns of a row and their unique indexes, the operation-id check of `scopedLedgerIdempotencyKey`.
- IndexedDB requests, events and upgrades; the legacy local-storage import; the memory-only fence used when storage is unavailable; fields that only label a draft (`remoteId`, `finalizeKey`, `mimeType`, `createdAt`).
- Dictation: the ten-minute limit on a chunk's end time, subscriptions to the fence, and the contents of audio and transcripts; a draft's remote session is named by the draft's id. A cancel is the moment its deletion commits; it may also come for a recovered, already completed draft, which the source ignores, and appends may be admitted between the cancel call and that moment, which the source refuses.
- UploadPending: acknowledgements and failures come as a list of answers, each acknowledgement reaching at least the uploaded chunk as the transport checks; cancellation during the loop is a step of the world model instead.
- The parsing of events inside frames, the decoder's handling of partial UTF-8, and cancellation of the reader; chunks are decoded text.
- The lease's timers fire on time; sockets, headers and the channel map of `EventsBus` are not modelled, nor is what a session check looks up.
- SHA-256, HMAC, key derivation, timing-safe comparison and the vault key; two different scopes may share a truncated code, and `NoCrossScopeReplay` says so.
- Capability text is a sequence of characters, so lone surrogates and their encoding are not captured.
- StagingCache: each method is one atomic step, and files change only through it; ids are lower case.
- ObjectService: an object's checksum and size are fixed for its id.
- The sandbox projection of a hydrated object is one yes-or-no answer; legacy redirects, bounded reads and private deletion are not modelled.
- R2ObjectBackend, presigning, listing and aborting of uploads; the upload service between client and backend, whose reply to a finished upload and whose list of parts are parameters.
- ResumableUpload.UploadFile: the hash of the whole file, the 64 MiB limit and the check of the server's declared size, hash and type come before the part of the client that is modelled.
- The PNG, GIF and WebP probes and the choice between probes.
- Metering: conversion of prices to manna, cost estimates, and `Date` values other than by the day they print; omitted dates are the day of the clock.
- RouteInventory: capitalisation outside ASCII, the texts of the failure messages, and the capture of routes from the server.
