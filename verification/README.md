# The money engine, modelled in Dafny

This project models the payments module of the creator-campaign platform: a double-entry ledger and the
state machines that post to it. A brand tops up a wallet or pays by card, funds a campaign and publishes it.
Settlement passes credit creators from their latest views. Closing returns what nobody earned, and creators
withdraw. The same facts are stored twice, as table rows and as ledger entries, and the central theorem is
that after every run of calls, with postings that throw anywhere, the two differ on every side of every account
by exactly the lines that were lost, so they agree exactly when nothing was.

`dafny verify dfyconfig.toml` checks everything.

## How it is laid out

- `Money`, `LedgerTransaction`, `Ledger`: amounts, balanced transactions, and the ledger service as a class
  over an account table and an append-only entry table. A *journal* is the entry table read with each
  account named by its unique key.
- `Entitlement`, `EarningTable`, `Settlement`: what a creator is entitled to, the running totals with their
  conditional writes, and one settlement pass as the greedy loop it is.
- `ClaimInterleaving`, `LonePass`, `ClaimRaces`, `CampaignPasses`: any number of settlement passes, one database
  statement or ledger posting at a time, with postings that may throw; the proof that a pass left alone is
  exactly the loop; schedules that show what interleaving can do, and when it keeps to a campaign's budget.
- `KeyedLock`, `WalletFunding`, `LoneWallet`: the promise chain per key, wallet payments racing under it, and the
  proof that a payment left alone is the one-step call.
- `WebhookDelivery`: payment events repeated, reordered and interleaved at the conditional update.
- `Payments`: every service call as one step on the tables (`Step`), and runs of calls (`Run`). Beside tables
  and ledger a state keeps what neither holds: the lines of postings that threw after their row was written,
  and the money the gateway has moved.
- `PaymentsBooks`, `PaymentsInvariant`, `LostPostings` and `Transfers` prove what each call keeps, `RefundLoop`
  what the refund loop comes to; `PaymentsTheorems`, `CampaignMoney`, `BrandBalance`, `CallEffects`, `History`
  and `ClosedCampaigns` state what follows for every reachable state and for runs from it. `UnpostedRows` and
  `DoublePayments` say what a posting that throws leaves behind.
- `StoredRows`, `CampaignRows`, `WithdrawalDecisions` and `SettledTotals` say of each call when it is accepted and
  exactly which columns of which row it leaves, in plain terms rather than the call's own. `PlatformLedger` does
  for the platform's accounts what `PaymentsTheorems` does for the others. `PostedLines` and `PostedRuns` trace
  every ledger line to its row.
- `PaymentsService`: the services as one object with mutable tables over the ledger object, loops included.
  Each method is proved to leave exactly the tables and the outcome of its step, so the theorems about
  runs of steps are theorems about runs of calls on the object.
- `Metrics`, `Csv`, `BusinessDays`: snapshot aggregation, the report printer against an independent reader,
  and the response-deadline loop against a closed form.

Row ids are positions in their table, so creation order is position order. Reference strings are datatypes
(`earning:campaign:creator:total` is `EarningReference`, a payment reference says who made it up).
The network, clocks and other services appear as parameters: a gateway outcome per refund, the readings a
settlement pass starts from, how a payout ends, which postings throw, whether the plan allows publishing. A
bypassed gateway counts as one that answers.

## Findings

Where code and documentation disagree, the model follows the code.

- `LedgerTransaction.create` promises one debit and one credit, but accepts two zero debits
  (`ZeroDebitsAreAccepted`). `OneSidedOnlyWhenEmpty` gives the exact condition; positive amounts exclude it.
- A draft's currency can be edited after it was funded. Its money then stays in the balance of the old
  currency. `OneCurrencyUnlessRedenominated` says exactly when this happens, `RedenominatingMisplacesTheMoney`
  by how much, and `FundedDraftCanBeRedenominated` gives such a draft. The ledger/table theorems hold
  regardless, because they go by the currency of each row.
- The update schema is described as content and scheduling only, but it and the service let a draft's money
  terms change; the model lets them change too, and only in a draft.
- Creating a campaign refuses a cap above the budget; updating a draft does not check it again
  (`CapFitsUntilUpdated`, `UpdateCanLeaveCapAboveBudget`). What is credited still respects both.
- If another pass claims on top of a claim whose posting then throws, the rollback finds a different total
  and gives nothing back, so the table runs ahead of the ledger. `LedgerMatchesUnlessRollbackLost` is an
  equivalence: with nothing in flight, ledger and table agree exactly when no rollback lost its race.
  `RollbackLosesItsRace` gives such a schedule for any creator whose entitlement grows between two passes.
- Each pass keeps to the budget it started with (`EachPassKeepsToItsBudget`), but two passes begun together
  may each spend it: `OverlappingPassesAddUp` gives schedules whose credits add up to what both owe, more than
  there was exactly when both together owe more. As long as a pass on a campaign begins only when no other is
  under way, the campaign keeps to its budget in every schedule (`SeparatePassesKeepToTheBudget`).
- A row whose posting throws after it was written stays, and nothing posts it later: payments marked
  succeeded, wallet payments and returns to the wallet. `LedgerIsTablesUnlessLost` says that ledger and tables
  agree exactly when no line was lost, `LostForGood` that no later call mends it, and the lemmas of
  `UnpostedRows` which lines each call loses, and when. `PostingCanBeLost`, `WalletPaymentCanGoUnposted` and
  `ReturnCanGoUnposted` reach such states.
- A card refund and a payout reach the gateway before their posting. If the posting throws, the money has been
  sent and nothing records it: the refund row is marked failed, the withdrawal stays requested, and the next
  call sends the money again. `GatewaySendsWhatIsRefunded` says when a refund sends more than it records and how
  much, `SentIsRefundedAndUnrecorded` and `PaidOutIsPaidAndUnrecorded` the same over whole runs;
  `CardCanBeRepaidTwice` and `WithdrawalCanBePaidTwice` are reachable.
- When the settlement pass of a closing campaign throws, nothing is returned, and when the posting of a return
  throws, the older payments are not returned; either way some of the money is left with nobody, although the
  campaign is closed all the same. `ClosingSplitsTheMoney` says exactly when: the creator whose posting throws
  has a credit due in their turn, or a return throws while older payments hold more than was earned.
  `ClosingCanThrow` and `ReturnCanFallShort` are reachable closings of these kinds.
- A platform account is looked up by its system key alone, so one row serves all currencies and its balance
  adds them up; `PlatformAccountMixesCurrencies` says when it is right for one of them. No caller reads such a
  balance. Trial balance per currency is therefore stated over entries, not over account rows.
- A report with no rows, or with an empty row, reads back as one empty field (`Csv.ReadBack`).

## Model

| member | source | states |
|---|---|---|
| LedgerTransactions.CreateAcceptsExactlyBalanced | src/modules/payments/domain/ledger-transaction.ts:34-60 | A transaction exists if and only if its two or more lines are in one valid currency and net to zero; so none that is unbalanced can be built |
| LedgerTransactions.CreateErrors | src/modules/payments/domain/ledger-transaction.ts:39-47 | Which error each refused set of lines gets, in the order the checks are made |
| LedgerTransactions.OneSidedOnlyWhenEmpty | src/modules/payments/domain/ledger-transaction.ts:39-48 | Lines that are all debits or all credits are accepted if and only if they add up to nothing; with positive amounts an accepted transaction has both sides |
| LedgerTransactions.ZeroDebitsAreAccepted | src/modules/payments/domain/ledger-transaction.ts:39-41 | Two zero debits are accepted without any credit, against the error message |
| Ledger.SimplePostingsBalance | src/modules/payments/application/ledger.service.ts:24-110 | Funding, refund, top-up, return, earning and withdrawal postings balance for every amount in a valid currency |
| Ledger.WalletFundingBalances | src/modules/payments/application/ledger.service.ts:51-65 | The wallet payment balances if and only if its fee is not negative and, when charged, in the budget's currency; covers the branch without a fee line |
| Ledger.WalletFundingMoves | src/modules/payments/application/ledger.service.ts:51-65 | The wallet is debited budget and fee, the brand credited the budget, fee revenue the fee, and no other side of any account moves |
| Ledger.PostingEffect | src/modules/payments/application/ledger.service.ts:112-125 | Posting moves each side of each account by what the postings say about that account and by nothing else |
| Ledger.StoredSideIsJournalSide | src/modules/payments/infrastructure/prisma-ledger.repository.ts:51-75 | Sums grouped by account id are the figures of the account with that key, because keys are unique |
| Ledger.TrialBalanceOverAnyRun | src/modules/payments/domain/ledger-transaction.ts:22-26 | After any sequence of accepted transactions debits equal credits in every currency |
| Ledger.AllBalancesCancel | src/modules/payments/infrastructure/prisma-ledger.repository.ts:51-57 | The derived balances of all accounts, platform accounts included, add up to zero |
| Ledger.LedgerService.ResolveAccountId | src/modules/payments/infrastructure/prisma-ledger.repository.ts:10-31 | Finds or appends the account with the key; known keys change nothing, and no key ever has two rows |
| Ledger.LedgerService.Post | src/modules/payments/infrastructure/prisma-ledger.repository.ts:33-49 | Appends exactly the transaction's lines and keeps the trial balance |
| Ledger.LedgerService.BalanceMinor | src/modules/payments/infrastructure/prisma-ledger.repository.ts:51-57 | The balance of the account's key in the journal; 0 for an id nobody has |
| Ledger.LedgerService.PostBalanced | src/modules/payments/application/ledger.service.ts:112-125 | Succeeds if and only if the postings balance; appends all of their lines or none |
| Ledger.LedgerService.WalletBalanceMinor | src/modules/payments/application/ledger.service.ts:75-80 | The wallet's balance in the journal, which reading leaves as it was |
| Ledger.LedgerService.CreatorBalanceMinor | src/modules/payments/application/ledger.service.ts:105-110 | The creator's balance in the journal, which reading leaves as it was |
| Ledger.PlatformAccountMixesCurrencies | src/modules/payments/infrastructure/prisma-ledger.repository.ts:59-67 | For any journal, a platform account's balance, asked for in any currency, is the sum of its nets in all of them, and right for the one asked for exactly when the others net to nothing |
| Ledger.TwoCurrenciesMeet | src/modules/payments/infrastructure/prisma-ledger.repository.ts:59-67 | After a brand's fundings in two currencies the platform account's balance is the two amounts added together, while the brand's are apart |
| Entitlement.PerViewRoundsDown | src/modules/payments/domain/earnings-calculator.ts:40-59 | Never more than the rate promises and never a whole unit less: 1000·E ≤ rate·views < 1000·(E+1) |
| Entitlement.SplitViews | src/modules/payments/domain/earnings-calculator.ts:53-59 | Counting views at once or in two parts differs by at most one minor unit |
| Entitlement.EntitlementIsMonotone | src/modules/payments/domain/earnings-calculator.ts:45-59 | More views never lower an entitlement, for either reward type and any cap |
| Entitlement.EntitlementWithinCap | src/modules/payments/domain/earnings-calculator.ts:45-51 | When an entitlement is computed at all, and that the cap binds it and nothing else lowers it |
| Entitlement.EntitlementIsExactInADouble | src/modules/payments/domain/earnings-calculator.ts:57-58 | For rate and views below 2^31 the result is below 2^53, so converting it to a number is exact |
| Entitlement.FeeIsNearest | src/modules/entitlements/services/entitlements.service.ts:47-50 | The fee is the one integer nearest the exact share, upwards on a tie |
| Entitlement.FeeWithinBudget | src/modules/entitlements/services/entitlements.service.ts:47-50 | A plan's fee is between nothing and the budget it is charged on |
| Entitlement.EntitledIsPromised | src/modules/payments/application/earnings-settlement.service.ts:206-215 | In plain arithmetic: what a pass takes as the entitlement is the flat reward or the cap if smaller, or the one E with 1000·E ≤ reward·views < 1000·(E+1) or the cap if smaller, and no other amount is |
| EarningTable.ClaimWinsOnlyUnchanged | src/modules/payments/application/earnings-settlement.service.ts:258-299 | A claim is won if and only if the running total still is what the pass read; it then writes that total and no other row |
| EarningTable.ClaimMovesSums | src/modules/payments/application/earnings-settlement.service.ts:258-299 | A won claim moves every aggregate that covers the row by the claimed amount; a lost one moves none |
| Settlement.AccrueEffect | src/modules/payments/application/earnings-settlement.service.ts:228-256 | Uninterrupted, accruing credits the amount, or leaves the total as it was when it lost or its posting threw |
| Settlement.PassIsSound | src/modules/payments/application/earnings-settlement.service.ts:154-180 | After any number of creators, aborted or not: credits sum to the budget spent, no total falls or passes what its creator is owed, other campaigns are untouched |
| Settlement.CreditsMatchRows | src/modules/payments/application/earnings-settlement.service.ts:154-180 | Whatever rows are grouped by, a group grows by exactly the credits made to it |
| Settlement.CreditsExactlyWhatIsOwed | src/modules/payments/application/earnings-settlement.service.ts:143-189 | A pass credits in all exactly the smaller of its budget and what unpaused creators are owed, in any order and with duplicates |
| Settlement.LeavesNoOneShort | src/modules/payments/application/earnings-settlement.service.ts:153-180 | If budget remains, every approved unpaused creator has reached their entitlement |
| Settlement.ServedInListOrder | src/modules/payments/application/earnings-settlement.service.ts:153-180 | Each creator gains what they are owed, as far as those listed before them leave budget |
| Settlement.CreditsAreTrue | src/modules/payments/application/earnings-settlement.service.ts:228-249 | At every stage of a pass, cut short or not, no creator is credited twice, each credit is the change of the stored total and names that total, and whoever is not credited keeps theirs |
| Settlement.SecondPassCreditsNothing | src/modules/payments/application/earnings-settlement.service.ts:143-189 | Running the same pass again credits nothing and changes nothing |
| Settlement.ReportIsTrue | src/modules/payments/application/earnings-settlement.service.ts:173-179 | Each line repeats the views read and the paused flag, with the creator's stored total after the pass and the change the pass made; a creator listed again gets a second line that credits nothing and shows the total read |
| Settlement.AbortsExactlyWhenDue | src/modules/payments/application/earnings-settlement.service.ts:157-173 | A throwing posting ends a pass if and only if its creator, listed there first, is owed something and those before were owed less than the budget; some budget is then left |
| Settlement.TotalIsPeakEntitlement | src/modules/payments/application/earnings-settlement.service.ts:154-164 | No drift: over any series of passes with enough budget a total is the running maximum of the entitlements at unpaused passes |
| ClaimInterleaving.TotalIsPostedPlusOpen | src/modules/payments/application/earnings-settlement.service.ts:228-256 | In every interleaving a running total is the posted credits plus claims won and not yet posted or given back, so credits never exceed it |
| ClaimInterleaving.TotalWithinEntitlement | src/modules/payments/application/earnings-settlement.service.ts:154-164 | In every interleaving a running total is at most an entitlement computed by some pass on that campaign that lists the creator unpaused; so no schedule credits anyone else |
| ClaimInterleaving.NoReferencePostedTwice | src/modules/payments/application/earnings-settlement.service.ts:228-249 | Two concurrent passes cannot both credit the same amount: posted references are pairwise distinct and their amounts positive |
| ClaimInterleaving.RollbackTakesOnlyItsOwn | src/modules/payments/application/earnings-settlement.service.ts:251-254 | A rollback removes its own claim, the newest one, or nothing at all |
| ClaimInterleaving.LedgerMatchesUnlessRollbackLost | src/modules/payments/application/earnings-settlement.service.ts:228-256 | With nothing in flight, posted credits equal the running total if and only if no rollback lost its race |
| ClaimRaces.EachPassKeepsToItsBudget | src/modules/payments/application/earnings-settlement.service.ts:153-180 | In every interleaving the credits one pass posts come to what it took from its budget, never more than it started with |
| ClaimRaces.RollbackLosesItsRace | src/modules/payments/application/earnings-settlement.service.ts:250-256 | For any creator entitled to more at a second pass than at a first, a schedule ends with nothing in flight, the table at the larger entitlement and the ledger short by the first |
| ClaimRaces.OverlappingPassesAddUp | src/modules/payments/application/earnings-settlement.service.ts:153-164 | For any two passes over different creators, a schedule in which the campaign accrues what both owe, more than it had to spend exactly when that is less than both together |
| CampaignPasses.SeparatePassesKeepToTheBudget | src/modules/payments/application/earnings-settlement.service.ts:143-180 | In every schedule in which a pass on a campaign begins only when no other pass on it is under way, and may spend up to a limit, the campaign's creators together never have more than the limit, whatever passes on other campaigns do and whichever postings throw |
| LonePass.TurnIsSettleOne | src/modules/payments/application/earnings-settlement.service.ts:155-180 | One creator's statements, uninterrupted, do what the loop's turn does: rows, budget, posting, abort |
| LonePass.LonePassIsTheLoop | src/modules/payments/application/earnings-settlement.service.ts:143-189 | A pass no other pass disturbs leaves the rows, postings and budget of the loop, in the same order |
| KeyedLocks.MutualExclusion | src/modules/payments/application/keyed-lock.ts:10-21 | In every schedule at most one call per key is running |
| KeyedLocks.ArrivalOrder | src/modules/payments/application/keyed-lock.ts:10-21 | A call runs only after every earlier call of its key has ended |
| KeyedLocks.FailureNeverBlocks | src/modules/payments/application/keyed-lock.ts:11-13 | A waiting call may start if and only if the earlier ones have ended, whether they threw or not |
| KeyedLocks.EntryGoesOnlyWhenIdle | src/modules/payments/application/keyed-lock.ts:15-19 | An entry is deleted only when nothing of its key runs or waits |
| KeyedLocks.FreshArrivalIsAlone | src/modules/payments/application/keyed-lock.ts:10-14 | An arrival that finds no entry overlaps no call of its key |
| KeyedLocks.SomeTaskCanStep | src/modules/payments/application/keyed-lock.ts:10-21 | No deadlock, key by key: until every call of a key has returned, one of them can take a step |
| KeyedLocks.ScheduleEnds | src/modules/payments/application/keyed-lock.ts:10-21 | Every step but an arrival uses up one of a bounded number of steps |
| KeyedLocks.NoEntryOnceAllGone | src/modules/payments/application/keyed-lock.ts:17-19 | A key has no entry once its own calls have returned, however busy other keys are |
| KeyedLocks.EmptyOnceAllGone | src/modules/payments/application/keyed-lock.ts:17-19 | The map is empty once all calls have returned |
| KeyedLocks.KeyedLock.Begin | src/modules/payments/application/keyed-lock.ts:10-14 | The part of `run` before its first await, on the object, is the arrival step |
| KeyedLocks.KeyedLock.TryStart | src/modules/payments/application/keyed-lock.ts:12 | The work starts exactly when the promise before it has settled |
| KeyedLocks.KeyedLock.Settle | src/modules/payments/application/keyed-lock.ts:12-16 | Work ending, well or badly, is the finishing step |
| KeyedLocks.KeyedLock.End | src/modules/payments/application/keyed-lock.ts:17-19 | The `finally` block is the clean-up step |
| WalletSpending.WalletNeverNegative | src/modules/payments/application/funding.service.ts:119-152 | However wallet payments, top-ups and returns interleave, also between the two sums of a balance read and with postings failing anywhere, no wallet goes below zero |
| WalletSpending.CheckStaysGood | src/modules/payments/application/funding.service.ts:119-125 | A payment that passed its balance check is still covered when it comes to post |
| WalletSpending.WalletPaysForItsCalls | src/modules/payments/application/funding.service.ts:118-143 | In every schedule a wallet has been debited exactly the amounts and fees of its calls that ended well |
| LoneWallet.LoneCallIsTheStep | src/modules/payments/application/funding.service.ts:118-143 | A call nobody interrupts ends as the one-step payment does: refused or through alike, one row or none, the same lines or none on the same ledger |
| LoneWallet.NothingAskedNothingDone | src/modules/payments/application/funding.service.ts:106-108 | A call for nothing or less never gets to the lock |
| WebhookDelivery.CreditedAtMostOnce | src/modules/payments/controllers/stripe-webhook.controller.ts:39-47 | For any stream of events each row is credited at most once, and only if it has succeeded, so never after failing |
| WebhookDelivery.FirstVerdictDecides | src/modules/payments/application/funding.service.ts:173-196 | The first update that finds the row fixes its status, whatever later events say |
| WebhookDelivery.DecidedForGood | src/modules/payments/application/top-up.service.ts:89-110 | A decided status, the amount and a lost posting never change again |
| WebhookDelivery.LostStaysUncredited | src/modules/payments/application/funding.service.ts:173-189 | A row whose posting threw is not credited by any later delivery |
| WebhookDelivery.OnlyTheOwnerIsCredited | src/modules/payments/controllers/stripe-webhook.controller.ts:39-47 | Both handlers see every event, but a table without the reference is never credited for it |
| WebhookDelivery.CreditedUnlessLost | src/modules/payments/application/top-up.service.ts:89-103 | With nothing under way, a row has been credited exactly once if it has succeeded and its posting did not throw, and otherwise never |
| WebhookDelivery.PostingCanBeLost | src/modules/payments/application/funding.service.ts:173-189 | For any reference and amount a run that ends with the funding succeeded and never credited |
| WebhookDelivery.CreditedMoneyMatches | src/modules/payments/controllers/stripe-webhook.controller.ts:39-47 | Then the credited amounts of each table add up to its succeeded amounts less those whose posting threw |
| WebhookDelivery.ThroughLeavesNonePending | src/modules/payments/controllers/stripe-webhook.controller.ts:39-47 | A delivery that is through and did not throw has left every row with its reference, in either table, decided, whatever else was delivered meanwhile |
| WebhookDelivery.FourStepsAreEnough | src/modules/payments/controllers/stripe-webhook.controller.ts:39-47 | After four statements of its own a delivery is through |
| PaymentsTheorems.StepKeeps | src/modules/payments/application/refund.service.ts:39-50 | Every call, postings that throw included, keeps the whole invariant: rows well formed, books equal to tables but for lost lines, every campaign within its money, wallets and creators covered |
| PaymentsTheorems.RunKeeps | src/modules/payments/application/ledger.service.ts:112-125 | The invariant holds after every run of calls from empty tables |
| PaymentsTheorems.BrandLedgerAgrees | src/modules/payments/application/ledger.service.ts:24-103 | A brand's credits are its succeeded fundings, its debits its refunds plus what its campaigns accrued, but for lost lines |
| PaymentsTheorems.WalletLedgerAgrees | src/modules/payments/application/ledger.service.ts:39-80 | A wallet's balance is top-ups plus returns less wallet payments with their fees, but for lost lines |
| PaymentsTheorems.CreatorLedgerAgrees | src/modules/payments/application/ledger.service.ts:82-110 | A creator's credits are the running totals, the debits the paid withdrawals: no line is ever lost here |
| PlatformLedger.PlatformLedgerAgrees | src/modules/payments/application/ledger.service.ts:24-110 | Both sides of the three platform accounts from row columns, but for lost lines: fee revenue has the fees of succeeded wallet payments and no debits, the payout source the paid withdrawals and no debits, the funding source is debited payments from outside and top-ups and credited card refunds |
| PostedRuns.EveryLineIsExplained | src/modules/payments/application/ledger.service.ts:24-125 | After any run every line, posted or lost, names a settled row that has its account, side, amount and currency, or a campaign and creator it credits |
| PostedRuns.SettledRowsArePostedOnce | src/modules/payments/application/ledger.service.ts:112-125 | After any run every settled row is posted or lost exactly once on each side, with its amount, under its own id, and no other row at all |
| PostedRuns.RefundLinesNameTheirRow | src/modules/payments/application/refund.service.ts:124-164 | The lines of a refund refer to its row, which has succeeded, with its amount and currency, and tell cards from wallets |
| PostedRuns.CreditsCountUpToTheTotal | src/modules/payments/application/earnings-settlement.service.ts:240-249 | After any run a credit to a creator follows its debit and its reference ends in the sum of the creator's credits on that campaign so far; all of them are the stored total |
| PostedRuns.EarningReferencesAreDistinct | src/modules/payments/application/earnings-settlement.service.ts:240-249 | After any run no two credits share a reference |
| PaymentsBooks.RefundKeepsBooks | src/modules/payments/application/refund.service.ts:99-164 | A refund keeps tables equal to ledger and lost lines, whether it succeeds, the gateway fails or the posting fails |
| PaymentsBooks.PassKeepsBooks | src/modules/payments/application/earnings-settlement.service.ts:228-256 | A settlement pass, aborted or not, keeps tables equal to ledger and lost lines on every account |
| PaymentsInvariant.CampaignChangeKeeps | src/modules/campaigns/services/campaign.service.ts:86-107 | Editing a draft, publishing a funded one and closing keep every campaign within its money |
| PaymentsInvariant.RefundDownKeeps | src/modules/payments/application/refund.service.ts:65-78 | The refund loop keeps the invariant at every stop, failures included |
| PaymentsInvariant.RefundDownEffect | src/modules/payments/application/refund.service.ts:65-78 | The loop's reported sum, with the return whose posting threw, is exactly what the campaign's refunds grew by, and it never takes more than remained |
| BrandBalance.BrandBalanceIsItsCampaigns | src/modules/payments/application/ledger.service.ts:127-129 | A brand's balance is the sum over its campaigns of funded less refunded less accrued, less the lines that were lost, and that sum is never negative, as long as fundings are in their campaign's currency |
| BrandBalance.OneCurrencyUnlessRedenominated | src/modules/campaigns/services/campaign.service.ts:86-96 | Exactly one kind of call ends that condition: giving a funded draft another currency |
| BrandBalance.OneCurrencyOverRun | src/modules/campaigns/services/campaign.service.ts:86-96 | The condition holds after every run in which no call does that |
| BrandBalance.RedenominatingMisplacesTheMoney | src/modules/campaigns/services/campaign.service.ts:215-218 | Then the balance in the new currency misses exactly what the draft holds |
| BrandBalance.FundedDraftCanBeRedenominated | src/modules/campaigns/services/campaign.service.ts:210-218 | A concrete reachable draft of that kind |
| CampaignMoney.CampaignStaysWithinItsMoney | src/modules/campaigns/services/campaign.service.ts:241-257 | After every run: accrued is at most the budget and at most funded less refunded, each creator is within the cap, a published campaign still has its budget, a draft has accrued nothing |
| CampaignMoney.RefundReturnsExactlyTheUnspent | src/modules/payments/application/refund.service.ts:52-93 | A refund that goes through returns exactly funded less refunded less accrued, no funding's rows beyond its amount, and an immediate second call is refused |
| RefundLoop.RefundTakesNewestFirst | src/modules/payments/application/refund.service.ts:60-78 | Where a refund took from a funding, every newer succeeded funding of the campaign has nothing left to give back |
| RefundLoop.LoopInClosedForm | src/modules/payments/application/refund.service.ts:61-78 | Where the loop stops and what it comes to, without the loop: everything asked for if nothing is in the way, else what the fundings newer than the first one that throws have left |
| CampaignMoney.FailedRefundCountsWhatWentThrough | src/modules/payments/application/refund.service.ts:65-139 | A failure midway: refunds grow by what was counted and by the return whose posting threw, the gateway has sent what was counted and the refund whose posting threw, and all but what was given back can be asked for again |
| CampaignMoney.RefundThrowsExactlyWhenBlocked | src/modules/payments/application/refund.service.ts:65-78 | A refund throws if and only if a funding with something left throws at its turn and the campaign has accrued less than it and the older ones have left |
| CampaignMoney.RefundLeavesNothingExactly | src/modules/payments/application/refund.service.ts:65-78 | A refund leaves nothing behind if and only if it is not stopped short: no funding throws while less has accrued than it and the older ones have left, or, for a return whose row stands, than the older ones have left |
| RefundLoop.LeftIsWhatStayed | src/modules/payments/application/refund.service.ts:166-173 | What the fundings can still give back, added up, is what the campaign holds |
| CampaignMoney.ClosingSplitsTheMoney | src/modules/payments/application/campaign-close.handler.ts:25-30 | Closing a wallet-currency campaign leaves funded equal to accrued plus refunded if and only if its pass was not due to credit the creator whose posting throws, and no return throws while older fundings hold more than will have accrued; otherwise something is left over |
| CampaignMoney.SpentCampaignCreditsNothing | src/modules/payments/application/earnings-settlement.service.ts:216-220 | A campaign with nothing left credits nothing, whatever the pass reads |
| ClosedCampaigns.SpentStaysSpent | src/modules/payments/application/earnings-settlement.service.ts:216-220 | A campaign with nothing left still has nothing left after any run of calls that brings it no funding |
| ClosedCampaigns.ClosedCampaignStaysSplit | src/modules/payments/application/campaign-close.handler.ts:25-30 | After such a closing and any further calls, until new funding arrives, every settlement pass changes nothing and the split stands |
| ClosedCampaigns.ClosingCanThrow | src/modules/payments/application/campaign-close.handler.ts:25-30 | A reachable campaign and readings whose closing throws in settlement |
| ClosedCampaigns.ReturnCanFallShort | src/modules/payments/application/campaign-close.handler.ts:25-30 | A reachable campaign paid twice whose closing stops at a return |
| CampaignMoney.SummaryIsTrue | src/modules/payments/application/earnings-settlement.service.ts:182-188 | The reported total is the sum of all running totals afterwards, and the pass moved it by the smaller of budget and what was owed |
| CampaignMoney.SettlingAgainChangesNothing | src/modules/payments/application/earnings-settlement.service.ts:143-189 | Settling a campaign again on the same readings, with budget and totals read afresh, leaves every table and the ledger as they are |
| SettledTotals.PromisesExist | src/modules/payments/domain/earnings-calculator.ts:40-59 | For any terms and readings there is exactly one amount promised to each creator, so the next two say what every total becomes |
| SettledTotals.SettledInListOrder | src/modules/payments/application/earnings-settlement.service.ts:143-180 | From any reachable state, a settlement that goes through adds to each listed creator what the terms promise for the views read beyond their total, nothing if paused, as far as those listed before leave budget and funds |
| SettledTotals.SettledInFull | src/modules/payments/application/earnings-settlement.service.ts:143-180 | With money to spare afterwards, every listed unpaused creator has the larger of their old total and what the terms promise for the views read, 0 if none; everyone else keeps theirs |
| SettledTotals.OthersKeepTheirTotal | src/modules/payments/application/earnings-settlement.service.ts:154-164 | Paused and unlisted creators and other campaigns keep their totals |
| SettledTotals.SettlesUnlessItThrows | src/modules/payments/application/earnings-settlement.service.ts:157-173 | A settlement goes through if and only if the posting that throws is not due |
| SettledTotals.SummaryLineIsTrue | src/modules/payments/application/earnings-settlement.service.ts:173-179 | Each line of the summary tells the views read, the paused flag, the total stored afterwards and what it grew by; a repeated creator's line credits nothing |
| SettledTotals.SummaryTotalsAreTrue | src/modules/payments/application/earnings-settlement.service.ts:182-188 | The summary's totals are what all creators have and what is left to credit, read afresh |
| SettledTotals.DraftSettlesNothing | src/modules/payments/application/earnings-settlement.service.ts:143-151 | A draft has no approved creators, so a settlement changes nothing |
| SettledTotals.ClosingCreditsAlike | src/modules/payments/application/campaign-close.handler.ts:25-30 | Closing a dollar campaign leaves the totals a settlement just before would have left |
| CallEffects.WalletPaysExactlyWhatItHolds | src/modules/payments/application/funding.service.ts:101-153 | A wallet pays if and only if its top-ups and returns, less what the ledger lost, cover budget and fee, and is left with the rest |
| CallEffects.TopUpsOfRun | src/modules/payments/application/top-up.service.ts:39-46 | No top-up outside the limits, or in another currency than the wallet's, is ever stored |
| CallEffects.AmountsOfRun | src/modules/campaigns/dto/campaign.dto.ts:38-41 | No campaign is ever stored with a budget, reward or cap of zero |
| CallEffects.CapFitsUntilUpdated | src/modules/campaigns/dto/campaign.dto.ts:48-66 | A draft created with its cap within the budget keeps that through an update exactly when the merged cap is at most the merged budget; the update itself is accepted either way |
| CallEffects.UpdateCanLeaveCapAboveBudget | src/modules/campaigns/dto/campaign.dto.ts:66 | A concrete update that leaves the cap above the budget |
| CallEffects.WebhookDecidesItsOwn | src/modules/payments/application/funding.service.ts:173-196 | An event decides the pending payment with its reference, in either table, and no other row; a funding's posting that throws keeps it from the top-ups |
| CallEffects.WithdrawalGrantedExactly | src/modules/payments/application/withdrawal.service.ts:28-49 | A withdrawal is granted if and only if earned less paid less open covers it, and takes exactly its amount out of reach |
| CallEffects.DecisionsMoveOnlyTheirOwn | src/modules/payments/application/withdrawal.service.ts:83-162 | Only rejecting returns money to what a creator can ask for; holding, releasing and paying out leave it alone |
| CallEffects.WithdrawalMoves | src/modules/payments/application/withdrawal.service.ts:83-162 | The only status changes there are, each by its own call, and a decision that is accepted makes its change; paying needs a destination and a successful payout |
| WithdrawalDecisions.RequestStores | src/modules/payments/application/withdrawal.service.ts:28-49 | A request is granted exactly when it is positive and earned less paid less open covers it, and is stored open, as asked, changing nothing else |
| WithdrawalDecisions.HoldHolds | src/modules/payments/application/withdrawal.service.ts:83-92 | Accepted if and only if the withdrawal is requested; it is then held, and nothing else changes |
| WithdrawalDecisions.ReleaseReleases | src/modules/payments/application/withdrawal.service.ts:94-108 | Accepted if and only if it is held; it is then requested, and nothing else changes |
| WithdrawalDecisions.RejectRejects | src/modules/payments/application/withdrawal.service.ts:110-126 | Accepted if and only if it is requested or held; it is then rejected, and nothing else changes |
| WithdrawalDecisions.ApprovePays | src/modules/payments/application/withdrawal.service.ts:128-162 | Accepted if and only if it is requested, has a destination and the payout was made and posted; it is then paid, sent once and posted, and no other row changes |
| WithdrawalDecisions.NoPayoutWhileHeld | src/modules/payments/application/withdrawal.service.ts:83-130 | After a hold and any calls but a release of it, approving is refused and changes nothing |
| WithdrawalDecisions.ReleaseUndoesHold | src/modules/payments/application/withdrawal.service.ts:83-108 | Releasing what was just held restores everything |
| StoredRows.CheckoutStores | src/modules/payments/application/funding.service.ts:44-94 | Accepted if and only if the amount is positive, the campaign exists and the reference is free; it then stores one pending payment with the campaign, its brand and currency, the amount asked for, the nearest-integer fee and the reference, and changes nothing else |
| StoredRows.BypassStores | src/modules/payments/application/funding.service.ts:56-86 | With the gateway bypassed the same row, succeeded, whether or not its posting throws |
| StoredRows.WalletPaymentStores | src/modules/payments/application/funding.service.ts:101-143 | Accepted if and only if the amount is positive, the campaign in dollars, the reference free and the wallet covers amount and fee; it then stores that one row, succeeded |
| StoredRows.TopUpStores | src/modules/payments/application/top-up.service.ts:33-83 | Accepted if and only if the amount is 5000 to 2500000 and the reference free; it then stores one pending top-up of that amount for that brand in dollars, and changes nothing else |
| StoredRows.BypassedTopUpStores | src/modules/payments/application/top-up.service.ts:50-83 | With the gateway bypassed the same row, succeeded |
| StoredRows.EventPays | src/modules/payments/application/funding.service.ts:173-196 | The success event of a pending payment raises what its campaign was paid by exactly its amount, and no other campaign's; a failure raises nothing |
| StoredRows.CheckoutThenPaid | src/modules/payments/application/funding.service.ts:44-94 | A checkout, any calls, and its success event while it is still pending: the event pays the campaign exactly the amount asked for |
| StoredRows.EventThrowsExactly | src/modules/payments/controllers/stripe-webhook.controller.ts:31-48 | An event throws if and only if it brings success to a waiting payment or top-up whose posting throws |
| CampaignRows.CreateCampaignStores | src/modules/campaigns/services/campaign.service.ts:46-63 | Accepted if and only if budget, reward and cap are positive and the cap fits; it then stores one draft with exactly these terms |
| CampaignRows.UpdateStores | src/modules/campaigns/services/campaign.service.ts:86-96 | Accepted if and only if every amount given is positive and the campaign is a draft, or live and no money term is given; each column given then has its new value, and every other its old |
| CampaignRows.PublishStores | src/modules/campaigns/services/campaign.service.ts:98-107 | A draft is published if and only if its budget was paid in and stayed and the plan allows it; only its status changes |
| CampaignRows.CloseStores | src/modules/payments/application/campaign-close.handler.ts:25-30 | Accepted if and only if the campaign is published; it is then closed, and in another currency than dollars nothing else changes |
| CampaignRows.RefundStores | src/modules/payments/application/refund.service.ts:99-164 | Every row a refund adds belongs to a settled payment of the campaign, copies its brand and currency, and ends as the gateway answered, with its refund id, or succeeded without one for the wallet |
| CampaignRows.RefundIsRefused | src/modules/payments/application/refund.service.ts:52-60 | A refund is refused exactly for a campaign that does not exist, is live, or has nothing unspent |
| UnpostedRows.LedgerLacksExactlyTheLost | src/modules/payments/application/ledger.service.ts:112-125 | After any run each side of each account is in the tables what it is in the ledger and in the lost lines together |
| UnpostedRows.LedgerIsTablesUnlessLost | src/modules/payments/application/ledger.service.ts:112-125 | Ledger and tables agree on every account if and only if no posting was lost: lost lines never cancel out |
| UnpostedRows.LostForGood | src/modules/payments/application/funding.service.ts:173-189 | Once a line is lost, no further run of calls makes ledger and tables agree |
| UnpostedRows.UnpostedFundingIsMissing | src/modules/payments/application/funding.service.ts:173-189 | When an event's posting throws, the ledger lacks exactly the funding's two lines, and delivering the event again adds nothing |
| UnpostedRows.UnpostedTopUpIsMissing | src/modules/payments/application/top-up.service.ts:89-103 | The same for a top-up the event reaches |
| UnpostedRows.UnpostedWalletPaymentIsMissing | src/modules/payments/application/funding.service.ts:118-143 | A wallet payment that would go through keeps ledger and tables in agreement if and only if its posting does not throw; if it does, the campaign is funded, the ledger as before, and exactly the payment's lines are lost |
| UnpostedRows.UnpostedReturnIsMissing | src/modules/payments/application/refund.service.ts:52-93 | A refund to the wallet keeps ledger and tables in agreement if and only if no posting of it throws; if one does, the lines of its last row are lost, which counts as refunded |
| UnpostedRows.WalletPaymentCanGoUnposted | src/modules/payments/application/funding.service.ts:118-143 | A reachable wallet payment whose posting throws |
| UnpostedRows.ReturnCanGoUnposted | src/modules/payments/application/refund.service.ts:142-164 | A reachable return whose posting throws |
| Transfers.SentIsRefundedAndUnrecorded | src/modules/payments/application/refund.service.ts:113-138 | After any run, what was sent back for a funding is what its rows say and what went unrecorded; it is what the rows say, and so at most what was paid, if and only if no transfer went unrecorded |
| Transfers.PaidOutIsPaidAndUnrecorded | src/modules/payments/application/withdrawal.service.ts:128-162 | After any run, a withdrawal has been paid out once if it is paid, not otherwise, and once more for each payout that went unrecorded |
| DoublePayments.GatewaySendsWhatIsRefunded | src/modules/payments/application/refund.service.ts:99-139 | A card refund sends exactly what it records if and only if no turn that comes has its posting fail, and otherwise more by that turn's amount |
| DoublePayments.UnpostedRefundIsSentAgain | src/modules/payments/application/refund.service.ts:99-139 | After such a refund, one that goes through sends the unrecorded amount a second time |
| DoublePayments.CardCanBeRepaidTwice | src/modules/payments/application/refund.service.ts:116-138 | A reachable payment of 100 for which 200 were sent back |
| DoublePayments.UnpostedPayoutIsSentAgain | src/modules/payments/application/withdrawal.service.ts:128-162 | After a payout whose posting threw, approving again pays a second time and posts once |
| DoublePayments.WithdrawalCanBePaidTwice | src/modules/payments/application/withdrawal.service.ts:128-162 | A reachable withdrawal of 10 for which 20 were paid out |
| History.StepEvolves | src/modules/campaigns/services/campaign.service.ts:215-239 | No call undoes history: terms freeze after the draft, closed stays closed, decided payments and paid or rejected withdrawals are final, totals, refunds, ledger and lost lines only grow |
| History.HistoryStands | src/modules/payments/infrastructure/prisma-ledger.repository.ts:33-49 | The same over any further run of calls |
| History.RefusalsChangeNothing | src/modules/campaigns/services/campaign.service.ts:98-134 | A refused call leaves everything as it was, unless a posting or the gateway threw in the middle |
| History.ThrownPayoutStoresNothing | src/modules/payments/application/withdrawal.service.ts:128-162 | A payout that throws leaves every table and the ledger as they were, whether or not the money was sent |
| History.WalletViewAddsUp | src/modules/payments/application/wallet.service.ts:115-131 | Lifetime earned is available plus pending plus held plus paid, equals the running totals, pending and held are the requested and the held withdrawals, and no part is negative |
| History.WalletIsNeverOverdrawn | src/modules/payments/application/funding.service.ts:119-125 | No run of calls overdraws a brand's wallet |
| PaymentsService.PaymentsService.Handle | src/modules/payments/controllers/stripe-webhook.controller.ts:31-48 | Whichever call comes, the object's tables and the outcome are those of the step, so it stays in a reachable state |
| PaymentsService.PaymentsService.CreateCampaign | src/modules/campaigns/services/campaign.service.ts:46-63 | Stores a draft, or refuses amounts and caps that do not fit |
| PaymentsService.PaymentsService.UpdateCampaign | src/modules/campaigns/services/campaign.service.ts:86-96 | Edits a draft; a live campaign's money terms and a closed campaign are refused |
| PaymentsService.PaymentsService.Publish | src/modules/campaigns/services/campaign.service.ts:98-107 | Publishes a draft whose whole budget has been paid in and stayed |
| PaymentsService.PaymentsService.Close | src/modules/campaigns/services/campaign.service.ts:129-146 | Closes a published campaign whatever its listener does |
| PaymentsService.PaymentsService.ReturnUnspentBudget | src/modules/payments/application/campaign-close.handler.ts:25-30 | Settle first, then return the rest; a settlement that throws stops it |
| PaymentsService.PaymentsService.TotalSucceeded | src/modules/payments/application/funding.service.ts:198-211 | Paid in less refunds that have not failed |
| PaymentsService.PaymentsService.MarkFundingSucceeded | src/modules/payments/application/funding.service.ts:173-189 | A pending funding succeeds and is posted, or is left succeeded and unposted when the posting throws; any other reference changes nothing |
| PaymentsService.PaymentsService.MarkFundingFailed | src/modules/payments/application/funding.service.ts:191-196 | A pending funding fails; any other reference changes nothing |
| PaymentsService.PaymentsService.MarkTopUpSucceeded | src/modules/payments/application/top-up.service.ts:89-103 | A pending top-up succeeds and is posted, or is left succeeded and unposted when the posting throws; any other reference changes nothing |
| PaymentsService.PaymentsService.MarkTopUpFailed | src/modules/payments/application/top-up.service.ts:105-110 | A pending top-up fails; any other reference changes nothing |
| PaymentsService.PaymentsService.HandleWebhook | src/modules/payments/controllers/stripe-webhook.controller.ts:31-48 | One event goes to both handlers, fundings first; a posting that throws for a funding keeps it from the top-ups |
| PaymentsService.PaymentsService.CreateForCampaign | src/modules/payments/application/funding.service.ts:44-94 | Stores a pending funding with its fee; with the gateway bypassed it succeeds at once, and stays so unposted when the posting throws |
| PaymentsService.PaymentsService.FundFromWallet | src/modules/payments/application/funding.service.ts:101-153 | Checks the wallet for budget and fee, stores a succeeded funding and posts it; a posting that throws leaves the row and loses its lines |
| PaymentsService.PaymentsService.CreateTopUp | src/modules/payments/application/top-up.service.ts:33-83 | Stores a pending top-up within the limits; with the gateway bypassed it succeeds at once, and stays so unposted when the posting throws |
| PaymentsService.PaymentsService.SumOfAccrued | src/modules/payments/application/earnings-settlement.service.ts:153 | The loop over running totals in any order gives the campaign's accrued total |
| PaymentsService.PaymentsService.ClaimTotal | src/modules/payments/application/earnings-settlement.service.ts:258-299 | Conditional update, then first row, is the claim |
| PaymentsService.PaymentsService.AccrueCredit | src/modules/payments/application/earnings-settlement.service.ts:228-256 | Claim, post, and give the claim back if the posting throws |
| PaymentsService.PaymentsService.RunPass | src/modules/payments/application/earnings-settlement.service.ts:154-180 | The loop's rows, budget, report and ledger lines are those of the specified pass, also when a posting ends it early |
| PaymentsService.PaymentsService.SettleCampaign | src/modules/payments/application/earnings-settlement.service.ts:143-189 | Reads budget and totals, runs the pass and reports it |
| PaymentsService.PaymentsService.Refundable | src/modules/payments/application/refund.service.ts:39-50 | Funded less refunded less accrued, at least nothing |
| PaymentsService.PaymentsService.WalletReturnOf | src/modules/payments/application/refund.service.ts:142-164 | A succeeded refund row and its posting back to the wallet; a posting that throws leaves the row and loses its lines |
| PaymentsService.PaymentsService.RefundFunding | src/modules/payments/application/refund.service.ts:99-139 | A pending row ends succeeded with its posting, or failed without one while the error passes on, in one case after the gateway sent the money |
| PaymentsService.PaymentsService.TakeBack | src/modules/payments/application/refund.service.ts:65-74 | One funding gives back what it still can, up to what remains; a wallet return whose posting throws stops the loop with its row written |
| PaymentsService.PaymentsService.RefundFundings | src/modules/payments/application/refund.service.ts:65-78 | The loop over fundings, newest first, stopping at a failure |
| PaymentsService.PaymentsService.RefundUnspent | src/modules/payments/application/refund.service.ts:52-93 | Refuses live campaigns and empty refunds, otherwise runs the loop on the whole unspent budget |
| PaymentsService.PaymentsService.RequestWithdrawal | src/modules/payments/application/withdrawal.service.ts:28-49 | Stores a request covered by the available balance |
| PaymentsService.PaymentsService.Decide | src/modules/payments/application/withdrawal.service.ts:83-126 | Hold, release and reject: a status change guarded by the current status |
| PaymentsService.PaymentsService.Approve | src/modules/payments/application/withdrawal.service.ts:128-162 | Payout, posting and paid row; if the payout or the posting throws, the tables are as they were, in the second case with the money sent |
| Metrics.LatestViewsByCreator | src/modules/social/services/metric.service.ts:76-88 | The map holds exactly the campaign's measured creators, each with the newest reading of every platform added up; of readings taken at the same time one counts, the later row |
| Metrics.LatestReadingsByCreator | src/modules/social/services/metric.service.ts:91-113 | The same for views, likes, comments and shares side by side |
| Metrics.LatestViewsByCampaignForCreator | src/modules/social/services/metric.service.ts:116-128 | The same counts asked for by creator, so both queries agree on every campaign and creator |
| Metrics.TotalViewsForCampaign | src/modules/social/services/metric.service.ts:130-133 | The campaign total is its creators' counts, once each |
| Metrics.ReadingsHoldTheirColumns | src/modules/social/services/metric.service.ts:76-113 | The maps hold the newest views, likes, comments and shares of each platform, each from its own column |
| Metrics.QueryFindsLatest | src/modules/social/services/metric.service.ts:77-82 | Newest first with one row per key gives one row for every series, its newest |
| Metrics.NewerReadingReplacesItsShare | src/modules/social/services/metric.service.ts:74-75 | A newer reading replaces its own platform's share and touches no other count |
| Metrics.OlderReadingChangesNothing | src/modules/social/services/metric.service.ts:74-75 | A reading older than the newest of its series changes no count |
| Metrics.StorageOrderDoesNotMatter | src/modules/social/services/metric.service.ts:77-82 | Unless a series has two different readings of one time, the counts do not depend on the order rows were stored in |
| Csv.RoundTrip | src/modules/analytics/services/analytics.service.ts:124-137 | For any rows of any text, a reader for section 2 of RFC 4180 gets exactly the neutralised cells back |
| Csv.CellReads | src/modules/analytics/services/analytics.service.ts:131-137 | A printed cell, quoted or not, reads as one field with the neutralised text |
| Csv.NoTextOpensAFormula | src/modules/analytics/services/analytics.service.ts:130-135 | No text field of the report, as read, starts a spreadsheet formula |
| Csv.PrintIsInjective | src/modules/analytics/services/analytics.service.ts:124 | Reports with the same text came from the same fields |
| Csv.FieldsReadBack | src/modules/analytics/services/analytics.service.ts:130-137 | As many rows and fields are read as were printed, and each field is the cell's own text, with an apostrophe in front exactly when a text starts with =, +, - or @ |
| Csv.SameReportSameCells | src/modules/analytics/services/analytics.service.ts:124-137 | Reports with the same text have the same numbers, and the same texts that open with neither a formula character nor an apostrophe, in the same places |
| BusinessDays.AddBusinessDays | src/modules/disputes/domain/response-deadline.ts:8-20 | The loop ends, on the first moment with that many business days behind it; nothing is added for zero or fewer |
| BusinessDays.ResponseDueFor | src/modules/disputes/domain/response-deadline.ts:22-24 | The first reply is due on a business day two to four days after opening |
| BusinessDays.LandsInClosedForm | src/modules/disputes/domain/response-deadline.ts:9-20 | The result in closed form from the weekday alone, and at most days + 2·⌈days/5⌉ calendar days later |
| BusinessDays.LandsOnce | src/modules/disputes/domain/response-deadline.ts:9-20 | There is one such moment |
| BusinessDays.LandsCompose | src/modules/disputes/domain/response-deadline.ts:9-20 | Adding one number of days and then another adds both |
| BusinessDays.LandsShifts | src/modules/disputes/domain/response-deadline.ts:9-20 | Whole weeks move start and end alike |
| BusinessDays.DeadlineByCalendar | src/modules/disputes/domain/response-deadline.ts:8-24 | Counted from Monday the first of January 2024, over any weeks and at any time of day: the reply is due 2, 2, 2, 4, 4, 3 or 2 days after opening on Monday to Sunday |

## Left out

- Concurrent withdrawal requests and approvals: they check and then act without a lock, so each call is one
  atomic step here.
- Database writes that fail: a status update that throws after its posting, for one. Postings, gateway calls
  and conditional writes that match no row are the failures modelled.
- A refund row that is still pending between two statements of one call: calls do not interleave in `Payments`.
- Which creators have approved submissions, their views and the paused ones: read from other modules and passed
  in as `Readings`; a draft has none, because applications need a published campaign.
- Membership, permissions, plan limits (one boolean), schedules, wording, notifications, return URLs.
- The payment gateway, mail and metric platforms: network calls, seen only as success or failure.
- The activity list and the read models of the wallet screens beyond the creator's totals, with their 200-row
  limits; `describeOrganizationEntry` and `calculateEarnings` would add only easy members.
- An owner account without an owner id, which the repository refuses: the account types cannot express one.
- Floating point in the fee quotient and in number-to-text conversion: minor units are integers, a printed
  number is its text, and only the bound that makes the entitlement exact in a double is stated.
- Subscriptions, sign-in, tokens, media and social adapters: outside the money core.
