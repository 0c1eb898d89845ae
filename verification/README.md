# stelfin in Dafny

A model of the parts of stelfin where money, approvals or what a person is shown could go
wrong, and proofs of what those parts promise. `dafny verify dfyconfig.toml` checks all of it.

## What is modelled

**The ledger and ingestion.** `Ledger` says what one atomic `Post` does to the books: the
validation in Go, the column checks, the balance trigger row by row, the unique key, the
fingerprint. `LedgerStore` is the store itself, a class with loops, proved against it.
`Ingestion`, `CrashSafety` and `IngestionRuns` say what a record makes the ledger do, commit by
commit, when the process may die at any commit: `Power` counts the commits left, so the same
definitions cover the run that never dies and every run that does. `Ingester` is the
ingester as it runs, with its memo of counterparties and its cursor. `Bookkeeping`, `Openings`,
`NoWedge`, `StreamBooks` and `IngestionTheorems` derive the closed form of the books, and
`WhatIsBooked` says, from the records and the tracking map alone, which transactions a run leaves;
`IngestionLimits` and `TwoStreams` show exactly where the guarantees end. `Horizon` translates the network's
operations and shows that they are streams the theorems apply to. `Keys` and `Fingerprint`
justify identifying requests by their keys and content.

**Approvals and submissions.** `Signatures` attributes stored signatures and weighs them.
`Proposals`, `Sends`, `MemberCalls` and `Enrollments` are transition systems: every database
statement, every read of the chain and every answer of the network is one step, any number of
callers interleave, a caller may stop anywhere, and theorems are about every run. The network
answers only what is so; whether it answers at all is up to the run. It includes an envelope
only if somebody submitted it, and a proposal's only with signatures that reach the medium
threshold of the signers the account has then. `ProposalTheorems` and `ProposalHistory` hold what
is true of every run of a proposal and `ProposalRuns` the runs that show what is not promised.

**Algorithms.** `Multisig` (signer changes), `Words`, `Replies` and `ReplyLayout` (splitting a reply),
`Canonical` (the text both implementations must agree on), `RateLimit`, `Money` and
`TabularAmount` (strict amounts), `Batches` and `Payroll` (from spreadsheet cells to a
described total).

`Common`, `SetSums`, `Decimal`, `Splitting` and `Sorting` hold shared vocabulary.

## What the proofs found

- A record that both moves money and closes an address can never be got through again after a
  crash between the closing and the cursor, if and only if one of its movements joins the
  closed address to another tracked address of the same org (`IngestionLimits.ClosedReplayIff`,
  `IngestionLimits.PayAndCloseWedges`). Neither source produces such a record: those made from
  Horizon operations never do both (`Horizon.RecordsReplaySafely`), and `ingestion/soroban.go`
  never closes an address.
- With two streams over the same books, one can book an opening and die, the other spend it, and
  the first then comes back to the same shortfall under the same key; it takes the opening for a
  replay and its payment is refused at every attempt (`TwoStreams.TwoStreamsWedge`). A short
  payment is refused for good exactly when the key of its opening is taken
  (`TwoStreams.WedgedIffOpeningTaken`). On one stream that is new to the books, nothing but a
  balance beyond 64 bits stops ingestion, crashed or not (`IngestionTheorems.OnlyOverflowStops`).
- `Executed` means that the envelope is on the ledger, not that it succeeded: a submission whose
  answer was lost is looked up, and the lookup does not ask whether what it found succeeded
  (`ProposalRuns.ExecutedMayHaveFailed`). Recorded from the network's acceptance it does mean
  success, and only a lookup can record a failure as executed (`ProposalTheorems.ExecutedTells`).
- A proposal closed as failed may have landed (`ProposalRuns.FailedMayHaveLanded`,
  `ProposalRuns.RefusedMayHaveLanded`). Closed by the sequence guard, it has landed if and only if
  it was on the ledger when the guard read the account, by a submission made before that whose
  outcome was never recorded; with nothing submitted before, failed means never landed
  (`ProposalTheorems.FailedTells`). Either way it cannot land afterwards.
- The signer set an execution is judged by can change between being read and the envelope being
  sent (`ProposalRuns.SignersMayChangeBeforeSending`). The weight was there at some moment since
  the execution began, is there when the envelope is sent if nobody changed the signers in
  between, and was there in the network's eyes if it lands (`ProposalTheorems.WeightAtSubmission`,
  `ProposalTheorems.CurrentWeightAtSubmission`, `ProposalTheorems.LandedWithWeight`).
- The reason a refused send is given is false exactly when the send could by then be claimed,
  which is possible only if it was recorded between the claim and the reading of the row
  (`Sends.ReasonIsTrueUnlessJustIssued`, `Sends.JustIssuedReadsAsExpired`).
- Releasing a grant deletes by org and address. When two members of an org ask for the same
  address, an account that was created can lose its grant
  (`Enrollments.SharedAddressLosesGrant`); when no two do, it never does
  (`Enrollments.GrantsCoverSpending`).
- `api/batch.go:177` calls a failing second reading of an amount unreachable. It is reached by
  every amount that does not fit in 64 bits and by no other (`TabularAmount.OutputDenotes`,
  `TabularAmount.SecondReadingCanFail`).
- With a limit of one unit, splitting a reply never gets past a character of two
  (`Replies.CuttingEndsIff`); for every other limit it ends.

## Model

| member | source | states |
|---|---|---|
| `Ledger.RowsMoveBalances` | ledger/migrations/00001_core.sql:353-380 | inserting the rows of a request moves every balance by exactly its lines and leaves nobody overdrawn who may not be |
| `Ledger.PostKeepsValid` | ledger/ledger.go:184-249 | any call of Post, accepted or refused, new or replayed, keeps keys unique, entries balanced and single-org, the balance table equal to the fold of all entries, and only counterparties negative |
| `Ledger.RegisterKeepsValid` | ledger/ledger.go:333-371 | registering an account keeps the books valid |
| `Ledger.ReachedIsValid` | ledger/ledger.go:184-249 | after any list of posts and registrations from empty books, whatever they ask for, the books are valid |
| `Ledger.EveryLedgerConserves` | ledger/migrations/00001_core.sql:254-380 | in every ledger so reached each org's balances in each asset sum to zero, nothing crosses orgs, only counterparties are below zero, and the balance table is the fold of the log |
| `Ledger.EveryEntryIsProper` | ledger/migrations/00001_core.sql:178-230 | in every ledger so reached each transaction has an org, a key, one of the eight kinds, a reference that is empty or 64 lower-case hexadecimal digits, a time, and lines none of which is zero, all in its own org, that cancel in each asset; and every balance fits 64 bits |
| `Ledger.RowsGoIff` | ledger/migrations/00001_core.sql:353-380 | lines go in exactly while each finds its account registered, the balance it makes, after the lines before it, in 64 bits and, unless the account is external or trading, not below zero; the first that does not is the reason given |
| `Ledger.ColumnsTell` | ledger/migrations/00001_core.sql:190-195 | the columns let through exactly the eight kinds, and references that are empty or hexadecimal |
| `Ledger.Conservation` | ledger/ledger.go:373-408 | in every valid ledger each org's balances in each asset sum to zero, no transaction touches another org, and only external and trading accounts are below zero |
| `Ledger.ReplayIsHarmless` | ledger/ledger.go:184-272 | after an accepted Post, sending the request again returns the same id and changes nothing |
| `Ledger.RecordedIsForever` | ledger/ledger.go:184-249 | later Posts only append, and what is recorded stays recorded |
| `Ledger.ReusedKeyIsRefused` | ledger/ledger.go:254-272 | a key sent again with any other meaning is refused and nothing is written |
| `LedgerStore.CheckedSum` | internal/money/money.go:228-238 | the checked sum is the true sum, or nothing exactly when some running total overflows |
| `LedgerStore.GroupByAsset` | ledger/ledger.go:390-397 | finds a zero amount if there is one, and otherwise each asset's amounts in order |
| `LedgerStore.CheckGroups` | ledger/ledger.go:398-407 | accepts exactly when every asset's lines cancel without overflow, and names a true fault otherwise |
| `LedgerStore.Validate` | ledger/ledger.go:373-408 | accepts exactly the valid requests and names a true fault of the others |
| `LedgerStore.InsertRows` | ledger/migrations/00001_core.sql:353-380 | inserting row by row through the trigger gives the balances of the whole request, or the first failure |
| `LedgerStore.Store.constructor` | ledger/ledger.go:177 | new books are empty |
| `LedgerStore.Store.EnsureAccount` | ledger/ledger.go:333-371 | registers an account under the key of its kind, exactly members having an owner and exactly counterparties going negative; asking again, for a treasury in any spelling of its name, finds the same account and changes nothing |
| `LedgerStore.AccountsApart` | ledger/migrations/00001_core.sql:155-167 | two rows are one account exactly when they agree on org and kind and, for members, on the owner, for treasuries on the name in lower case |
| `LedgerStore.Store.ResolveReplay` | ledger/ledger.go:254-272 | for a request whose key is taken, hands back the original exactly when it is this request, answers as Post does, and writes nothing |
| `LedgerStore.Store.Post` | ledger/ledger.go:184-249 | the loop inside a transaction is one atomic Post on the books, in state and answer |
| `LedgerStore.Store.Balance` | ledger/ledger.go:279-295 | a balance is the fold of the account's entries, and zero to another org |
| `Fingerprint.EncodingDecides` | ledger/ledger.go:413-456 | the hashed bytes of two requests agree exactly when org, kind, reference, time and the multiset of lines agree |
| `Fingerprint.FingerprintIsContent` | ledger/ledger.go:413-456 | so they agree exactly when two requests have the same content in the ledger's sense, for any one-to-one numbering of accounts and assets |
| `Fingerprint.WriteFingerprint` | ledger/ledger.go:413-456 | sorting a copy and writing a running hash writes those bytes |
| `Keys.KeysAreInjective` | ingestion/ingestion.go:279-285 | idempotency keys are equal exactly when record, movement index and opening amount are |
| `Keys.OwnersDiffer` | ingestion/ingestion.go:353-358 | keys of different movements, and of the openings made for them, never meet |
| `Ingestion.WorkIsShaped` | ingestion/ingestion.go:406-455 | every entry of a record is two opposite lines in one asset and one org, the payer's own or a counterparty's |
| `Ingestion.RunActionsKeep` | ingestion/ingestion.go:225-237 | however far a process gets, the books stay valid and only grow |
| `CrashSafety.ShortNoMore` | ingestion/ingestion.go:335-374 | once the shortfall is newly booked the payer is not short and the payment's key is still free |
| `CrashSafety.SettleResumes` | ingestion/ingestion.go:287-312 | a settlement cut off at any commit, opening included, and done again ends where an undisturbed one ends |
| `CrashSafety.RunResumes` | ingestion/ingestion.go:225-313 | the same for the whole work of a record |
| `CrashSafety.RunStopsAlike` | ingestion/ingestion.go:225-313 | a process that is refused something is refused what an undisturbed one would be |
| `IngestionRuns.ExactlyOnce` | ingestion/ingestion.go:190-218 | for every stream and every placement of deaths and restarts, the books lie between those of the undisturbed run before and after the record at the cursor, and at the end of the stream the state is the undisturbed one |
| `IngestionRuns.Recovers` | ingestion/ingestion.go:190-218 | one undisturbed call brings any crashed run to the undisturbed end |
| `IngestionRuns.ClosedReplayDoesNothing` | ingestion/ingestion.go:382-388 | replaying a close-safe record after its address was forgotten does nothing |
| `Bookkeeping.MaxDeficitIsLeast` | ingestion/ingestion.go:315-374 | the largest prefix deficit is the least amount that keeps every prefix of a flow covered |
| `Bookkeeping.MaxDeficitHolding` | ingestion/ingestion.go:335-348 | what is held to begin with is so much less to open with |
| `NoWedge.RetryIsNeverShort` | ingestion/ingestion.go:287-312 | the post retried after an opening is never refused for funds |
| `IngestionTheorems.LeastOpenings` | ingestion/ingestion.go:287-374 | from any books a stream is new to, what is newly booked as opening for an account and asset is exactly the largest deficit over all prefixes of what the stream moves, less what was held, the balance is what was held plus the net movement plus that, and the log grows otherwise by the movements in order |
| `IngestionTheorems.EveryRunKeepsTheseBooks` | ingestion/ingestion.go:190-374 | the same after every run with deaths anywhere, once the stream is consumed |
| `IngestionTheorems.BooksFromEmpty` | ingestion/ingestion.go:287-374 | from empty books the opening is the largest deficit itself and the balance the net movement plus that |
| `IngestionTheorems.OneTransactionEach` | ingestion/ingestion.go:190-313 | in every state of every run over every close-safe stream, whatever the books held before and whatever comes later, of each record the cursor is past each affected org has each movement in exactly one transaction, with its content |
| `IngestionTheorems.OneTransactionEachAsAsked` | ingestion/ingestion.go:190-313 | and for a stream new to the books that transaction is the request itself |
| `IngestionTheorems.CrossingLeavesAPair` | ingestion/ingestion.go:397-455 | in every run a consumed movement between tracked addresses of two orgs is one transaction in each under the movement's key, in the asset the movement names: the payer down and its counterparty up by the amount, the payee up and its counterparty down, and no other account touched |
| `WhatIsBooked.EachMovementIsTold` | ingestion/ingestion.go:239-313 | in every state of every run, each org that a movement of a consumed record concerns has exactly one transaction under the record's id, numbered if there are several movements: a send where both ends are its own, else a withdrawal where it pays and a deposit where it is paid; with the record's hash and time; moving the movement's amount, in lumens or in the asset its code and issuer name, between the tracked accounts or the counterparty |
| `WhatIsBooked.NothingElseIsBooked` | ingestion/ingestion.go:239-374 | in every state of every run, every transaction the log did not hold at the start tells so of a movement in a record up to the one in hand, or opens its payer: under that name with its amount, of the opening kind, without reference, at the record's time, from outside, in the movement's asset, with more than nothing and no more than the movement's amount |
| `IngestionTheorems.OnlyOverflowStops` | ingestion/ingestion.go:287-374 | in every run over a stream new to the books, with deaths anywhere, the next attempt at whatever record it has got to, half done or not, takes it, dies, or meets a balance beyond 64 bits: no refusal for funds, no reused key |
| `IngestionTheorems.UndisturbedOnlyOverflows` | ingestion/ingestion.go:287-374 | in particular an undisturbed process is stopped by nothing else |
| `IngestionTheorems.NothingWedges` | ingestion/ingestion.go:190-374 | when what the books hold and what the stream moves fit 64 bits, the stream is fully consumed, from wherever any crashed run has got to |
| `IngestionLimits.ClosedReplayIff` | ingestion/ingestion.go:225-237 | after a crash between closing and cursor, the record can be got through again if and only if it is close-safe |
| `IngestionLimits.UnsafeCloseWedges` | ingestion/ingestion.go:225-237 | from books with nothing posted yet, every readable record that is not close-safe gets through the first time and never again |
| `IngestionLimits.PayAndCloseWedges` | ingestion/ingestion.go:225-237 | in particular every record in which a wallet pays another watched account of its org and is merged away |
| `IngestionLimits.UnsafeCloseExists` | ingestion/ingestion.go:225-237 | there are such records, tracked addresses and books |
| `TwoStreams.WedgedIffOpeningTaken` | ingestion/ingestion.go:335-374 | a short payment ends refused for funds or for a reused key exactly when the key of its opening is already taken |
| `TwoStreams.SpentOpeningWedges` | ingestion/ingestion.go:287-374 | one process books an opening and dies, another spends it from the same account, and the first payment is refused at every later attempt |
| `TwoStreams.TwoStreamsWedge` | ingestion/ingestion.go:190-374 | the same for every two streams with such payments, record by record, the cursor never moving again |
| `Ingester.Source.Fetch` | ingestion/horizon.go:46-68 | the records that follow the one the cursor names, in order and none left out: as many as were asked for, or all that are left |
| `Ingester.Ingester.ExternalFor` | ingestion/ingestion.go:119-136 | with its memo it does what registering the counterparty each time would do |
| `Ingester.Ingester.TryPost` | ingestion/ingestion.go:287-300 | a Post over a connection that may be lost before the commit: all or nothing |
| `Ingester.Ingester.Open` | ingestion/ingestion.go:335-374 | books exactly the shortfall, if there is one |
| `Ingester.Ingester.SettleEntry` | ingestion/ingestion.go:287-312 | posts, and on a shortfall opens and posts once more |
| `Ingester.Ingester.Counterparties` | ingestion/ingestion.go:406-455 | registers the counterparties the entries need, in order |
| `Ingester.Ingester.SettleAll` | ingestion/ingestion.go:279-313 | settles every entry in order up to the first failure |
| `Ingester.Ingester.ApplyMovement` | ingestion/ingestion.go:239-313 | does the commits of one movement, in order |
| `Ingester.Ingester.ApplyMovements` | ingestion/ingestion.go:225-237 | does those of every movement of a record |
| `Ingester.Ingester.ApplyClose` | ingestion/ingestion.go:382-388 | forgets a closed address |
| `Ingester.Ingester.ApplyRecord` | ingestion/ingestion.go:225-237 | leaves the state, the commits left and the answer that one record leaves |
| `Ingester.Ingester.ConsumeRecord` | ingestion/ingestion.go:205-216 | moves the cursor past a record only once it is applied |
| `Ingester.Ingester.ConsumePage` | ingestion/ingestion.go:199-218 | the loop over a page stops at the first failure, having counted what it consumed |
| `Ingester.Ingester.Once` | ingestion/ingestion.go:190-218 | one call does to the durable state what the theorems about runs speak of |
| `Horizon.TranslatePage` | ingestion/horizon.go:46-68 | one record for each operation, with its token, hash and close time: a payment from its payer to its payee in its own asset, a creation in lumens from its funder unless it is of nothing, a path payment as what is sent from the payer and what is received by the payee, a merge closing exactly the merged account, a failed or unknown operation nothing; or no page exactly when some amount that is read does not parse |
| `Horizon.RecordTells` | ingestion/horizon.go:76-183 | the same of one operation |
| `Horizon.RecordsReplaySafely` | ingestion/horizon.go:76-150 | every record made from an operation is close-safe |
| `Horizon.IdsCarryOver` | ingestion/horizon.go:76-150 | record ids are chain ids, equal exactly when the operations' ids are |
| `Horizon.GenuinePagesQualify` | ingestion/horizon.go:76-183 | pages of genuine operations are streams the theorems apply to |
| `Money.ParsesIff` | internal/money/money.go:55-97 | a text parses exactly when it is perhaps a minus, digits, and perhaps a point and one to seven more, and the number fits 64 bits |
| `Money.ParseDigits` | internal/money/money.go:55-97 | and then as that number; as too large exactly when it does not fit |
| `Money.FormatSpells` | internal/money/money.go:112-121 | an amount is written with a minus only below zero, no needless zero in front, and all seven decimals, and spells itself |
| `Money.RoundTrip` | internal/money/money.go:112-121 | every 64-bit amount survives being written and read, the most negative included |
| `Signatures.AttributeOne` | signer/external.go:125-143 | one signature counts for at most one signer, not counted before, and for some signer if it checks out under any |
| `Signatures.SummaryTells` | settlement/account.go:35-44 | the signers that count are the account's, at their weights, and its own key at its master weight where that is not zero |
| `Signatures.Attribute` | signer/external.go:101-145 | only current signers with a signature that checks out, each once at its current weight; all of them where no signature checks out under two keys |
| `Signatures.Rebuild` | api/proposal.go:626-643 | the same from stored rows, checking the signatures and not trusting the rows |
| `Signatures.Tally` | api/proposal.go:294-301 | the weight of those signed, and two lists that partition the signers |
| `Signatures.ViewOf` | api/proposal.go:269-307 | a signing state true of the rows and the account, its lists sorted: signed and missing partition the current signers, each signed one is backed by a stored signature, the weight is theirs, and being ready means that it reaches a medium threshold above zero; exact where no signature checks out under two keys |
| `Signatures.ViewIsOnRecord` | api/proposal.go:269-307 | no such state overstates the weight on record, and a ready one has enough |
| `Signatures.MoreRows` | api/proposal.go:646-663 | more stored rows never weigh less |
| `Signatures.StrangersCountNothing` | api/proposal.go:619-643 | a row that checks out under no current signer counts for nothing |
| `Signatures.AuthorisedIsSigned` | api/proposal.go:407-416 | nothing is authorised that no current signer signed |
| `Proposals.RunKeeps` | api/proposal.go:397-532 | every step of every executor and of everything around them keeps what the theorems below rest on |
| `ProposalHistory.SubmittersLoadedOpen` | api/proposal.go:397-450 | in every run, whatever an executor submitted it submitted after loading the proposal while it was open, and after then reading a sequence number the envelope was still ahead of, with stored signatures that are enough for some signer set the account had had |
| `ProposalHistory.ClosedIsNotSent` | api/proposal.go:407-413 | in every run, an executor that first comes to a proposal after it was closed submits nothing |
| `ProposalHistory.ClosedBecause` | api/proposal.go:418-632 | in every run, nothing closes a proposal but its cancelling, its window, and an executor that heard of its submission or found the sequence number passed: executed only on acceptance or a lookup that found it, expired only on its window or a reply that it was too late, failed only on a reply that the envelope is spent or trapped or on the guard |
| `ProposalHistory.ReplyDecides` | api/proposal.go:503-573 | a reply that was heard, and whatever happens before it is recorded: a proposal still open is then closed as exactly what the reply means, and a lost answer or a refusal that may pass is never recorded and leaves it open |
| `ProposalHistory.GuardDecides` | api/proposal.go:418-438 | an account past the sequence number of the envelope fails a proposal that is still open when that is recorded |
| `ProposalHistory.OutsideDecides` | api/proposal.go:590-632 | an open proposal can be cancelled at any time, and expires exactly once its window has passed; a closed one stays as it is |
| `ProposalHistory.TheWorldMoves` | api/proposal.go:575-589 | clocks, signers, sequence and signatures may move at any time, the envelope be submitted by whoever holds signatures, and an executor stop anywhere |
| `ProposalHistory.InclusionIff` | settlement/settlement.go:154-172 | a submission is included exactly while the envelope is next in sequence, in time and authorised by the signatures it carries, and moves the sequence to its own |
| `ProposalHistory.SigningAdds` | api/proposal.go:315-388 | a signature is taken exactly while the proposal is open and its window has not passed, and kept unless its signer has signed |
| `ProposalHistory.EachSignsOnce` | api/proposal.go:315-388 | in every run a signer is stored once |
| `ProposalTheorems.ProposalIsFinal` | api/proposal.go:397-573 | in every run a proposal is closed at most once and stays as closed, its envelope is included at most once however many execute it, Executed means that it is on the ledger, and once closed by the sequence guard, a spent rejection or a failed call it is never included afterwards |
| `ProposalTheorems.ExecutedTells` | api/proposal.go:503-532 | in every run Executed recorded from acceptance means that the envelope succeeded, and an executed proposal whose envelope failed was recorded from a lookup |
| `ProposalTheorems.FailedTells` | api/proposal.go:418-438 | in every run a proposal closed by the guard is on the ledger exactly if it was when the guard read the account, by a submission before that reading; of failed proposals only these and those refused for their sequence can have succeeded |
| `ProposalTheorems.DeadNeverLands` | api/proposal.go:418-438 | past its sequence number or its time an envelope never lands |
| `ProposalTheorems.LandedWithWeight` | settlement/settlement.go:154-172 | in every run what landed had been submitted, with signatures that somebody gave, reaching the medium threshold of the signers the account had when it landed |
| `ProposalTheorems.CanStillLandIff` | api/proposal.go:575-589 | closed or not, with the signatures there are and the signers the account has, an envelope can still land exactly while it is in sequence and in time and those signatures reach the threshold |
| `ProposalTheorems.WeightAtSubmission` | api/proposal.go:397-450 | an executor about to send holds signatures that, for a signer set the account has had since it loaded the proposal, reach the medium threshold, above zero |
| `ProposalTheorems.CurrentWeightAtSubmission` | api/proposal.go:397-450 | and for the account as it is then, in every run in which nobody changed the signers since the executor read them |
| `ProposalRuns.OpenedMayExecute` | api/proposal.go:397-532 | a run from opening to executed in which the envelope succeeded once |
| `ProposalRuns.FailedMayHaveLanded` | api/proposal.go:418-438 | a run from opening to failed in which a submission nothing was heard of landed |
| `ProposalRuns.RefusedMayHaveLanded` | api/proposal.go:546-573 | a run in which a second submission is refused for the sequence the first one moved |
| `ProposalRuns.ExecutedMayHaveFailed` | settlement/settlement.go:195-237 | a run from opening to executed in which the envelope failed and the lookup found it |
| `ProposalRuns.SignersMayChangeBeforeSending` | api/proposal.go:407-450 | a run in which the envelope is sent after the signers changed to any set for which the signatures are not enough |
| `ProposalRuns.OwnKeyIsEnough` | settlement/account.go:35-44 | such runs exist: the account's own key alone can be enough |
| `Sends.OnePassesPerHash` | api/submit.go:143-166 | in every run at most one submitter ever passes for a hash, and it is the org and owner the send was issued to, before it expired |
| `Sends.RightfulClaimPasses` | api/submit.go:143-166 | a claim passes exactly when it is the issuing org's and owner's, of a send that is recorded, unclaimed and not expired; and then nobody can claim it again |
| `Sends.RecordedSendPasses` | api/submit.go:143-166 | a recorded send can be claimed by its owner at any time before it expires |
| `Sends.PassedStays` | api/submit.go:143-166 | whatever happens later, who passed has passed |
| `Sends.ReasonIsTrueUnlessJustIssued` | api/submit.go:168-193 | the reason given is true exactly when the submitter could not by then claim the send, and it never can if the send was there when the claim was refused |
| `Sends.JustIssuedReadsAsExpired` | api/submit.go:168-193 | a send recorded between the two statements is reported as expired while it is good |
| `MemberCalls.RunKeeps` | api/daotreasury.go:1066-1113 | every step keeps each claim on its row and each sending last in its envelope's history |
| `MemberCalls.CallsLandOnce` | api/daotreasury.go:1066-1113 | in every run at most one submitter at a time has a call's envelope, it is sent again only after every earlier sending was turned away, it lands at most once although the network may include any sending it has not turned away, and what can be claimed or is being released has not landed |
| `MemberCalls.NeverSentAgain` | api/daotreasury.go:1083-1100 | in every run an envelope whose submitter heard that it landed, that it is stale or nothing at all, or died after sending, is never sent again |
| `MemberCalls.LandedNeverSentAgain` | api/daotreasury.go:1083-1100 | in every run an envelope is never sent again from the moment it lands, whatever its submitter has heard |
| `MemberCalls.AnswerDecides` | api/daotreasury.go:1082-1114 | in every run, whatever happens before the submitter acts on its answer: a call that was turned away is given back and can be claimed again by its owner until it expires, one that is on the ledger is recorded as landed and stays claimed, and after any other answer neither happens |
| `MemberCalls.FailedBumpGivesBack` | api/daotreasury.go:1071-1080 | in every run, a call whose fee bump failed can likewise be claimed again |
| `MemberCalls.RightfulClaimPasses` | ledger/store/member_call.go:118-131 | a claim passes exactly when it is the recorded org's and owner's, of a call unclaimed and not expired |
| `MemberCalls.SavingRecords` | ledger/store/member_call.go:75-93 | saving records a new call unclaimed and leaves one that is there as it is |
| `MemberCalls.TheWorldMoves` | api/daotreasury.go:1082-1101 | at any time the clock may go on, a submitter stop, and the network include any sending it has neither included nor turned away |
| `MemberCalls.CallMayLand` | api/daotreasury.go:1066-1113 | the ordinary run: recorded, claimed in time, sent, included, heard and recorded as landed |
| `Enrollments.RecordKeepsRows` | api/enroll.go:210-228 | recording replaces the owner's outstanding enrollment and touches no submitted one |
| `Enrollments.RecordingReplaces` | api/enroll.go:210-228 | an enrollment under a new hash is outstanding with its address and expiry, in place of any other its owner had |
| `Enrollments.OneEnrollmentOutstanding` | api/enroll.go:210-358 | in every run an owner never has two enrollments outstanding and no envelope is in two submitters' hands |
| `Enrollments.GrantsCoverSpending` | api/enroll.go:282-333 | in every run in which no two members of an org ask for one address, the operator signs only what has a grant on record and every account created still has its |
| `Enrollments.OneAccountEach` | api/enroll.go:282-333 | and in every such run each member has at most one account created for them |
| `Enrollments.RefusedClaimComesBack` | api/enroll.go:286-300 | in every run, a claim whose grant was refused is given back: the enrollment is outstanding again exactly if its owner has no other outstanding by then, and nothing else changes |
| `Enrollments.GrantOncePerMember` | api/enroll.go:283-300 | a grant is given exactly where the member has none, and is then theirs for this enrollment |
| `Enrollments.RightfulClaimPasses` | api/enroll.go:335-358 | a claim passes exactly when the enrollment is its org's and owner's, unclaimed and not expired, and then holds the address recorded for it |
| `Enrollments.NoEffectGivesGrantBack` | ledger/store/enrollment.go:276-285 | an enrollment that had no effect gives back the grant recorded for its org and address, and no other |
| `Enrollments.SharedAddressLosesGrant` | ledger/store/enrollment.go:276-285 | whenever two members of an org may ask for one address, there is a run in which an account is created and its grant deleted |
| `Multisig.TotalWeight` | settlement/ops_multisig.go:68-74 | in whatever order the map gives the weights, the total is the true weight modulo 2^32 |
| `Multisig.CheckLockout` | settlement/ops_multisig.go:213-236 | refuses by the first rule that is broken |
| `Multisig.LockoutIsSafe` | settlement/ops_multisig.go:200-236 | a set that passes truly reaches every threshold, in order, whatever its weights; and below 2^32 exactly such sets pass |
| `Multisig.ApplyChanges` | settlement/ops_multisig.go:151-198 | computes the set a request is to produce, or refuses a weight or threshold above 255 |
| `Multisig.LastChangeWins` | settlement/ops_multisig.go:164-175 | repeats included, an address is left with what its last change says, and an address not named keeps what it had |
| `Multisig.BuildMultisig` | settlement/ops_multisig.go:82-148 | builds one operation for each change and one for the rest, or refuses for the first reason; it refuses exactly requests that are for no account, blind to the signers of an account whose own key weighs nothing, out of a byte somewhere, locking the account, naming no signer or the own key, or changing nothing, and each reason is so |
| `Multisig.DomainArrives` | settlement/ops_multisig.go:124-146 | after the operations the home domain is the one asked for, or what it was if none was |
| `Multisig.OpsArrive` | settlement/ops_multisig.go:82-148 | the operations, applied one by one by the network, leave exactly the predicted set, unless some change along the way makes more than twenty signers, which is exactly when the network refuses; no weight is cut by narrowing |
| `Multisig.NetworkRefuses` | settlement/ops_multisig.go:82-148 | what the network refuses of an operation: another source, the account's own key as a signer, a signer more than twenty |
| `Multisig.BuiltIsRepairable` | settlement/ops_multisig.go:200-236 | what is built leaves an account whose true weight reaches every threshold |
| `Multisig.EveryChangeCanBeUndone` | settlement/ops_multisig.go:200-236 | a request that takes the changes back asks for exactly the old set, is accepted exactly when the old set passes the lockout check, can be authorised, and, if the network took the change, is taken and leads back |
| `Words.CountUnits` | chat/split.go:89-99 | counts UTF-16 units |
| `Words.TrimOf` | chat/split.go:27 | trimming takes the white space off both ends and nothing else |
| `Words.PartsHaveNoSeparator` | chat/split.go:55 | cutting at a separator leaves none of it in any part |
| `Replies.Cut` | chat/split.go:103-116 | cuts after the longest prefix that fits |
| `Replies.CutStalls` | chat/split.go:71-77 | a word that starts with a character longer than the limit is left as it was |
| `Replies.ChopIsFaithful` | chat/split.go:71-78 | the parts of a cut word put together are the word, each fits, and a word that fits is not cut |
| `Replies.CuttingEndsIff` | chat/split.go:71-77 | cutting gets a word down to parts that fit exactly when each of its characters fits |
| `Replies.ShortWordsStay` | chat/split.go:19-25 | words that fit are never broken |
| `Replies.Splitter.Flush` | chat/split.go:37-42 | the piece, trimmed, joins the output unless it is empty |
| `Replies.Splitter.Add` | chat/split.go:45-53 | appends, starting a new piece first when it would not fit |
| `Replies.Splitter.AddWord` | chat/split.go:71-78 | says the word next, cut only if it is longer than a message, and breaks nothing that was whole |
| `Replies.Splitter.AddWords` | chat/split.go:70-80 | says the words of a line next |
| `Replies.Splitter.AddLines` | chat/split.go:60-82 | says the words of a paragraph next, and leaves whole each line that fits |
| `Replies.Splitter.AddParagraphs` | chat/split.go:55-83 | says the words of every paragraph, and leaves whole each paragraph that fits |
| `Replies.SplitReply` | chat/split.go:26-86 | pieces are non-empty, trimmed and within the limit; their words in order are the words of the text with only overlong ones cut; a text that fits is sent whole; no paragraph that fits, nor a line that fits of one that does not, is broken |
| `ReplyLayout.PiecesAreCutOut` | chat/split.go:26-86 | each piece is cut out of the text as it stands, except that a line longer than the limit is set word by word with single spaces; and each but the last ends where the next paragraph, line, word or character would have taken it past the limit |
| `ReplyLayout.LaidOutIsText` | chat/split.go:55-83 | unless a line is longer than the limit, that layout is the trimmed text itself |
| `Canonical.EscapeText` | settlement/canonical.go:84-102 | escapes byte by byte |
| `Canonical.UnescapeInverts` | settlement/canonical.go:84-102 | any text is got back from its escaped form |
| `Canonical.EscapedIsFlat` | settlement/canonical.go:78-102 | escaped text holds no line break and no tab |
| `Canonical.TextReadsBack` | settlement/canonical.go:41-49 | any list of lines, with anything in their columns, is read back from what is written |
| `Canonical.CanonicalReadsBack` | settlement/canonical.go:38-76 | a reader that counts the operations and holds every field to its own operation gets every description back from its canonical text, summaries aside |
| `Canonical.CanonicalIsUnambiguous` | settlement/canonical.go:33-76 | two descriptions have the same bytes exactly when they agree on everything but the summaries |
| `Canonical.WriteLine` | settlement/canonical.go:41-49 | appends one escaped, tab-separated line |
| `Canonical.WriteFields` | settlement/canonical.go:65-67 | appends the lines of an operation's fields |
| `Canonical.WriteOps` | settlement/canonical.go:62-68 | appends every operation with its fields |
| `Canonical.WriteCanonical` | settlement/canonical.go:38-76 | the writer produces the text the theorems are about |
| `RateLimit.RateLimiter.Allow` | connector/rate.go:49-73 | answers as the history of calls says and extends it |
| `RateLimit.RateLimiter.Sweep` | connector/rate.go:81-87 | leaves exactly the windows that have not expired |
| `RateLimit.SweepingIsInvisible` | connector/rate.go:49-87 | on every run with a clock that never runs backwards, whatever the limits, each call is answered as by a limiter that never sweeps and knows one key |
| `RateLimit.KeysAreIndependent` | connector/rate.go:30-62 | the other keys' calls may be left out of a run without changing an answer |
| `RateLimit.HourlyBound` | connector/rate.go:49-73 | with a fixed limit no key gets more than twice the limit less one through in any half-open hour |
| `RateLimit.HourlyBoundIsTight` | connector/rate.go:49-73 | for every limit a run reaches that bound |
| `TabularAmount.CheckDigits` | connector/amount.go:168-178 | whether every character is a digit |
| `TabularAmount.StripGrouping` | connector/amount.go:150-166 | takes separators out exactly when the groups are one to three digits and then threes |
| `TabularAmount.NormalizeTabularAmount` | connector/amount.go:45-144 | accepts with the canonical text or refuses for the first reason |
| `TabularAmount.AcceptedIff` | connector/amount.go:45-166 | a cell is accepted exactly when it is a strict decimal above zero: digits in one run or grouped in threes, at most seven decimals |
| `TabularAmount.AcceptedAsItStandsIff` | connector/amount.go:45-166 | the same of the cell as it stands in the sheet, with white space around it and perhaps a leading apostrophe |
| `TabularAmount.OutputReads` | connector/amount.go:128-144 | what the strict reader makes of an accepted cell, told by the cell alone |
| `TabularAmount.OutputDenotes` | connector/amount.go:128-144 | the strict reader gets from the output the number the cell spells, and fails exactly when that does not fit 64 bits |
| `TabularAmount.OutputIsStable` | connector/amount.go:128-144 | reading the output again returns it unchanged |
| `TabularAmount.SecondReadingCanFail` | api/batch.go:175-182 | a cell the first reading accepts and the second does not |
| `Batches.PaidRowPaysTheCell` | api/batch.go:168-208 | a row that resolves pays exactly what its cell spells, and more than nothing |
| `Batches.CheckedTotal` | api/batch.go:150-159 | the wrapped-addition test fails exactly when the true total does not fit |
| `Batches.SortByLine` | api/batch.go:145-148 | the failures, in order of line, none lost |
| `Batches.ResolveRows` | api/batch.go:133-143 | every row is attempted, resolved rows and failures kept in order |
| `Batches.RowResolvesIff` | api/batch.go:168-257 | a row resolves exactly when its amount is accepted and fits 64 bits, its destination is a valid address or does not start with G and is saved, and its trimmed memo has at most 28 characters; it then pays the amount its cell spells, to that address under itself or to the saved address under its label, with its line, its memo and its own words; and each reason for failing is true of the row |
| `Batches.ResolveBatch` | api/batch.go:116-164 | succeeds exactly when there are one to ninety rows, all can be paid and the true total fits, with, row for row, the payments the draft asks for and their true total; otherwise exactly the rows that cannot be paid are reported, each in its line for a true reason, sorted |
| `Payroll.BuildPayroll` | settlement/ops_payroll.go:43-74 | exactly when the sender is valid, there are one to 95 lines and each has a valid address, a positive amount and an asset: one operation for each line in order, from the sender, to its address, of its amount written out and in its asset; otherwise the first bad line is named with what is wrong with it |
| `Payroll.SplitPayroll` | settlement/ops_payroll.go:83-100 | chunks in order that lose nothing, all full but perhaps the last, none too large |
| `Payroll.TotalPayroll` | settlement/ops_payroll.go:107-121 | the exact total for each asset in use, issuers apart where no code has a colon in it, or a refusal exactly when some running total overflows or an asset has no name |
| `Payroll.WrittenOnce` | settlement/describe.go:587-599 | the text of an asset, "native" or its code, a colon and its issuer, names one asset where no code has a colon in it |
| `Payroll.DescribeTx` | settlement/describe.go:95-155 | exactly when there are operations and each has an amount that reads and an asset with a name: the envelope's network, hash, source, sequence, fee, times and memo each in its place, and each payment shown, in order |
| `Payroll.PaymentIsShown` | settlement/describe.go:213-228 | a payment is shown with the source it names, or else the envelope's, an amount field that reads as its amount, its asset's text, its destination, and one sentence that names the amount, the asset's code and the destination |
| `Payroll.BatchIsWhatIsPaid` | settlement/describe_batch.go:78-137 | an envelope that is described and shown as a batch is one: every payment is from its account and, where no code has a colon in it, in the one asset, and destinations and amounts are their own |
| `Payroll.PaymentFields` | settlement/describe_batch.go:142-154 | the last value under each caption |
| `Payroll.FieldIsLast` | settlement/describe_batch.go:142-154 | which is the value of the last field that has it, or nothing where none has |
| `Payroll.ReadRow` | settlement/describe_batch.go:85-119 | accepts exactly a positive payment from the envelope's account in the batch's asset |
| `Payroll.AsBatch` | settlement/describe_batch.go:78-137 | any description is shown as a batch exactly when every operation is such a payment and the true total fits, and then with the true total and every payment in order |
| `Payroll.RowComesBack` | settlement/describe.go:213-228 | an operation that shows what a row asks for is read back as that row: its amount, its destination, in its asset |
| `Payroll.ProposeBatch` | api/batch.go:317-353 | for every resolved batch, being addresses is all the treasury and destinations need: no size limit refuses it, the description gives back the same destinations and amounts in order, and the totals never disagree |

## Left out

- IngestionTheorems.LeastOpenings: one stream at a time, new to the books, whose movements of tracked addresses are readable and positive, tracking changed only by closed records; `TwoStreams` shows how interleaved streams break it.
- IngestionTheorems.NothingWedges: asks that what is held and moved fits 64 bits; `OnlyOverflowStops` says that this is the only thing that can stop it.
- IngestionTheorems.OneTransactionEach: asks for a close-safe stream; `IngestionLimits.ClosedReplayIff` says exactly what happens otherwise.
- Ingester.Ingester.TryPost: a commit whose acknowledgement is lost is a commit followed by a death.
- ProposalTheorems.WeightAtSubmission: speaks of a signer set the account has had since the execution began, because the set can change before the envelope is sent; `CurrentWeightAtSubmission` is the case in which it does not.
- ProposalTheorems.ProposalIsFinal: does not say that a failed proposal never landed, which is false; `FailedTells` says when.
- ProposalTheorems.LandedWithWeight: the network's medium threshold; the higher one it asks for signer changes, and its refusal of signatures it does not need, are not modelled.
- Sends.ReasonIsTrueUnlessJustIssued: the reason is not always true; the lemma says exactly when.
- Enrollments.GrantsCoverSpending: needs that no two members of an org ask for one address, and a fixed assignment of chat identities to members; caps, ages and float checks of a grant are one yes or no.
- Replies.SplitReply: text is valid Unicode; malformed UTF-8 is not modelled. With a limit of one unit it asks for text without two-unit characters, because the original does not end on others.
- Signatures.ViewOf: weights are added without a 32-bit bound, which 21 weights of at most 255 stay far below.
- Multisig.OpsArrive: the reserve the network asks for each signer, and signers that are not keys, are not modelled; signatures are taken to be checked before the first operation, as the network does.
- RateLimit.RateLimiter.Allow: times are unbounded nanoseconds; the saturation of very long durations is not modelled.
- WhatIsBooked.EachMovementIsTold: asks for a close-safe stream, as `OneTransactionEach` does.
- Payroll.TotalPayroll: two assets whose codes have colons in them can share a text and then a total, as in the original, which does not check codes there.
- Payroll.DescribeTx: payments only; the other operation types, memo rendering and hashing are given or left out.
- Payroll.ProposeBatch: spend ceilings, the check that destinations can receive, and storing the proposal.
- Proposals.RunKeeps: one proposal and its account; any signature somebody made may be stored with an open proposal, which includes whatever Approve lets through; the one-open-proposal-per-treasury index, the contract pin check and the swap check before sending are left out.
- The proposal, send, member-call and enrollment paths are modelled as state machines over their statements and not as methods, so update in place shows as steps on a value.
- Accounts and assets are named by what makes them unique, not by surrogate ids, and a transaction's id is its place in the log; EnsureAsset and request metadata are left out.
- Hashes, signatures and address checks are parameters; the hash of a fingerprint is taken to be one to one.
- HTTP handlers, chat transports and wording, Horizon and RPC clients, fee bumping, retries, backoff, connectors and their sealing, spend ceilings, and the on-chain contracts: thin layers over other systems, which add little to prove.
