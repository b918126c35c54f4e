# Verified model of the buykoins money ledger

This project models the part of the buykoins backend that moves money, and the request lifecycles
around it, and proves what holds over every run.

The backend keeps two mutable balance columns per user (`earnings` in USD, `wallet` in NGN) next to an
append-only `transactions` table. Seven operations in four services move money: approving a credit
request, processing or manually completing a payout, verifying a Paystack payment, moving earnings to
the wallet, funding a card and completing a widget deposit; two more reject credit requests and payouts.
The columns are a fast form of replaying the log, and the central results say so for every reachable
state.

## How it is built

| Part | Files |
|---|---|
| Amounts, quotes, rounding | Money |
| Tables as one value, replaying the log | Database, Ledger |
| The requests as functions on that value | MoneyOps, Profiles, Cards, Accounts, Requests, Widget, Platform |
| The services as classes over one mutable store | Store, PaymentsService, AdminsService, CardsService, RequestServices, BankAccountsService, WidgetService |
| What each request does to the tables | MoneyEffects, RequestEffects, BankEffects, WidgetEffects |
| What each request keeps | LedgerProofs, LifecycleProofs, WidgetProofs, BankProofs |
| Runs that end in a payout and in a funded card | Journeys |
| What every run keeps | Safety, History, NonNegative, Completion, CardRecords, PayoutAccounts, Verification, PaymentHistory, Reports |
| Failures, repeats and overlaps | Atomicity, Repeats, Interleaving, Overlaps, Scenarios |
| Three separate algorithms | Dashboard, Migrations, SocketIndex |

Each service method of the source is a method that writes the tables of `Store.Store` one by one, with
a parameter `fault` that makes any one of its database writes fail; it is proved to have exactly the
effect of the function that specifies the request. What that function does is then stated apart from
it, in terms of the tables: when the request succeeds, every row and record it then leaves, and that
nothing else changes (the four modules of effects). The table below names the methods that do more than
check and write one row; the others (rejections, session and request creation, deleting an account) are
proved in the same way. `Platform.Run` is a sequence of requests of all services with arbitrary external
answers, and the invariants are proved of these functions.

A money operation is split into reading and checking rows (`Read`) and committing absolute values
(`Apply`). For overlapping requests `Interleaving` has three moments: an operation begins and reads the
row it is about, fetches the user's row, and commits. Most operations fetch right away and then call out;
verifyPayment asks Paystack first and fetches inside its transaction.

Amounts are whole hundredths of their currency, the exchange rate hundredths of a naira per dollar, the
fee percentage hundredths of a percent. Rounding happens where the source stores a figure in a DECIMAL
column. External services (Paystack, Sudo) and the clock are parameters of the request; the answers of
database queries with more than one right answer are parameters constrained to the right ones.

## Where the code differs from its comments, or from what one would expect

Where an expected property fails, the condition under which it holds is proved to be exact.

- `verifyBankAccount` says it makes the first verified account primary
  (src/bank-accounts/bank-accounts.service.ts:219). It never does: the count runs after the update
  (`BankProofs.VerifyingMakesNoPrimary`). The model follows the code.
- `completeDeposit` says it credits the wallet (src/widget/widget.service.ts:335). It credits earnings,
  and checks only that the amount is not missing or 0, so a negative one is debited. Balances stay
  non-negative exactly if no such deposit overdraws (`NonNegative.NonNegativeIffNothingOverdraws`).
- "Completed" does not imply "paid": a session finished by five submissions alone moves no money. A
  completed session was paid exactly if it was completed earlier, unless its fifth submission met a
  payment (`Completion.CompletedIsPaidIff`).
- `completeSession` saves the session row after its work is committed. If that save fails, calling it
  again credits a deposit again (`Atomicity.FailedSavePaysTwice`), and repeats a withdrawal once its
  first payout has been decided (`Atomicity.FailedSaveWithdrawsAgain`). Sessions pay at most once
  exactly if no such call happens (`Repeats.OneEffectIffNothingPaidAgain`).
- `addBankAccount` mails the code after writing the row (src/bank-accounts/bank-accounts.service.ts:81
  and 124), and mailing may fail (src/email/email.service.ts:73-76); the request then fails and the row
  stays (`Atomicity.FailedBankRequests`).
- `completeOnboarding` of the admins inserts a missing request before its transaction opens, so a
  rollback keeps it (`Atomicity.FailedOnboardingKeepsTheRequest`).
- Rows are read without locks, so overlapping requests can overwrite each other's balances
  (`Overlaps.OverlapLosesAnUpdate`) and settle a row twice (`Overlaps.VerifyingTwiceRecordsTwice`).
  Which commits do is exact: `Overlaps.ReplaysIffNothingOverwritten` and
  `Overlaps.RecordsIffNothingResettled`.
- A socket that closes while its token is checked is entered all the same and never removed
  (`SocketIndex.OnlyLateSocketsLinger`).
- The migration script ignores a failure to record a migration that "already exists"
  (scripts/run-migrations.js:148), so the recorded names can have a gap (`Migrations.RunKeepsPrefix`).
- The dashboard can miss rows, because each table is cut to its own limit before merging
  (`Dashboard.HarmlessExactly`).
- `transferEarningsToWallet` moves the same number from a USD column to an NGN column without
  converting it.
- A direct remittance writes a CREDIT record without touching earnings, so the model tags it apart.

## Model

| member | source | states |
|---|---|---|
| `Safety.ReachableInv` | src/admins/admins.service.ts:220-438 | In every state any run can reach, balances replay the log, settled rows are recorded exactly once and truthfully, payouts are sound, nobody has two pending requests, sessions are in order and bank accounts are sound |
| `Safety.StepKeepsInv` | src/admins/admins.service.ts:901-1127 | Every request of every service, with any external answers, keeps that invariant; and keeps "a session pays once" when the final session save succeeds |
| `Safety.SessionsPayOnce` | src/widget/widget.service.ts:85-361 | Over any run with a clock that never goes back, a DEPOSIT session credits at most once, a WITHDRAWAL session makes at most one payout, and no paid session is active again |
| `Repeats.OneEffectIffNothingPaidAgain` | src/widget/widget.service.ts:244-269 | Whatever saves fail, over any run each session credits at most once and makes at most one payout exactly if no completion with success meets a session in time that was paid and is not completed |
| `Repeats.StepEffect` | src/widget/widget.service.ts:264-266 | The same for one request: a session gets a second effect exactly by such a completion |
| `Completion.CompletedIsPaidIff` | src/widget/widget.service.ts:166-172 | In every run, whatever saves fail: in every state a completed DEPOSIT session has a credit, and a completed WITHDRAWAL session a payout, iff it was completed before its fifth submission; this holds exactly if no fifth submission is accepted of a session that was paid already |
| `Completion.StepKeepsCompletedIff` | src/widget/widget.service.ts:128-187 | The same for one request |
| `Completion.CompletedIsPaidOrSubmitted` | src/widget/widget.service.ts:166-172 | In particular in every run whose final saves succeed |
| `Completion.FiveSubmissionsPayNothing` | src/widget/widget.service.ts:128-187 | Five submissions of any amount complete a session, and nothing is credited, recorded or paid out |
| `Completion.ProcessingPays` | src/widget/widget.service.ts:251-262 | Processing a DEPOSIT or WITHDRAWAL session with success pays for that session and for no other |
| `History.RunsGoForward` | src/admins/admins.service.ts:220-438 | Along any run every state is later than every earlier one: the log only grows, final statuses of payouts, credit requests and payments never change, onboarding never reverts, no user loses a primary account |
| `History.StepIsLater` | src/admins/admins.service.ts:901-1127 | One request, whatever it is, only moves the state forward in that order |
| `Platform.RunExtends` | src/admins/admins.service.ts:220-228 | A run extended by one allowed request is a run, and ends where that request leads |
| `Journeys.NewUsersCanBePaid` | src/admins/admins.service.ts:901-1017 | From whatever state, rate and fee, if they leave something: a run of eleven requests signs up a new user, onboards them, credits any amount from a dollar on, adds and verifies their bank account, and pays all of it out to that account, with its two records and every other user as before |
| `Journeys.DepositsReachACard` | src/cards/cards.service.ts:384-511 | From whatever state, what a user with a non-negative wallet pays in through Paystack can be put on a new card to the kobo, with its two records and the users as before |
| `Journeys.LeadsTogether` | src/admins/admins.service.ts:220-228 | A run that goes on where another ended leads where it leads |
| `LedgerProofs.PlansBalance` | src/payments/payments.service.ts:118-219 | For each of the nine money operations, what it posts to the log is exactly what it does to the two balance columns, for every user |
| `LedgerProofs.BalancedKeepsReplay` | src/payments/payments.service.ts:184-219 | Committing balanced writes keeps the columns equal to the replay of the log |
| `LedgerProofs.PerformKeepsReplay` | src/admins/admins.service.ts:277-328 | Every money operation, run alone, keeps earnings and wallet equal to the replay of the transactions table |
| `LedgerProofs.SessionsKeepReplay` | src/widget/widget.service.ts:244-361 | So do all widget calls, including the deposit inside completeSession |
| `LedgerProofs.RequestsKeepReplay` | src/admins/admins.service.ts:597-675 | So do onboarding, credit, payout and payment requests |
| `LedgerProofs.ProfilesKeepReplay` | src/users/entities/user.entity.ts:115-130 | So do sign-up (both balances start at 0 with no record), profile, settings and card changes |
| `Ledger.ReplayAppend` | src/transactions/entities/transaction.entity.ts:60-78 | One more record changes the replayed balances of its own user only, by its own deltas, and the reference count of its own row only |
| `Ledger.ReferencedIff` | src/transactions/entities/transaction.entity.ts:60-78 | A row is referenced exactly when some record carries its key |
| `Ledger.OneRecord` | src/transactions/entities/transaction.entity.ts:60-78 | A reference count of at most one means at most one record |
| `NonNegative.NonNegativeIffNothingOverdraws` | src/widget/widget.service.ts:324-354 | In every run, no balance is ever negative exactly if no event overdraws, that is, completes in time a deposit session whose amount would take the earnings below 0 |
| `NonNegative.StepBalances` | src/widget/widget.service.ts:325-341 | The same for one request of any kind: balances stay non-negative exactly if it does not overdraw |
| `NonNegative.NeverNegative` | src/widget/widget.service.ts:324-354 | In particular in every run in which no session submits a negative amount |
| `NonNegative.PlansStayNonNegative` | src/admins/admins.service.ts:923-929 | The balance checks and settings bounds force every balance an operation writes to be non-negative |
| `NonNegative.DepositIsCreditedAsIs` | src/widget/widget.service.ts:325-341 | Overdrawing happens: every amount but 0 submitted to a deposit session is credited as it is, so a negative one leaves a new user below 0 |
| `MoneyEffects.ApprovingCredit` | src/admins/admins.service.ts:220-328 | approveCreditRequest succeeds exactly if the request is pending, its user exists, for DIRECT has a verified primary account, and no write fails; BALANCE adds the amount (the override unless it is missing or 0) to the earnings, DIRECT changes no user; one record is added, the request is completed, and nothing else changes |
| `MoneyEffects.RejectingCredit` | src/admins/admins.service.ts:381-409 | rejectCreditRequest marks exactly a pending request of an existing user rejected, and changes nothing else |
| `MoneyEffects.ProcessingPayout` | src/admins/admins.service.ts:901-1017 | processPayout succeeds exactly if the payout is pending, its user can pay for it, the bank details are complete, the transfer was sent and no write fails; then the payout is completed, its amount leaves the earnings and its figures and rate are recorded; otherwise nothing changes |
| `MoneyEffects.CompletingPayout` | src/admins/admins.service.ts:1060-1089 | completeManualPayout does the same without bank details and transfer |
| `MoneyEffects.RateIsNearest` | src/admins/admins.service.ts:999-1006 | The recorded rate is the stored NGN over the stored USD to the nearest fourth decimal |
| `MoneyEffects.RejectingPayout` | src/admins/admins.service.ts:1101-1120 | rejectPayout marks exactly a pending payout rejected, and changes nothing else |
| `MoneyEffects.VerifyingPayment` | src/payments/payments.service.ts:86-175 | verifyPayment leaves a successful payment alone, marks a declined one failed, and for a paid one credits the wallet of its user with the kobo reported, with one record; nothing else changes |
| `MoneyEffects.TransferringEarnings` | src/payments/payments.service.ts:180-217 | transferEarningsToWallet succeeds exactly if the earnings cover the amount; what leaves the earnings enters the wallet, with one record |
| `MoneyEffects.SyncIsReported` | src/cards/cards.service.ts:254-292 | The synced card has the balance and number Sudo reports, and its own where Sudo reports none |
| `MoneyEffects.FundingCard` | src/cards/cards.service.ts:384-511 | fundCardFromWallet succeeds exactly if the card is the user's, the wallet covers the amount, the transfer was sent and no write fails; the wallet pays, and the card has the balance Sudo reports afterwards or else the amount more than when synced; a failure leaves only the saved sync |
| `MoneyEffects.DepositingFromWidget` | src/widget/widget.service.ts:324-361 | The transaction of completeDeposit adds the amount to the earnings, with one record, or changes nothing |
| `MoneyEffects.EditingProfiles` | src/settings/settings.service.ts:156-206 | Requests on users, settings and cards write only the row or the settings they are about; a new user and a new card start at 0 |
| `RequestEffects.AskingToBeOnboarded` | src/onboarding/onboarding.service.ts:33-105 | createOnboardingRequest adds one open request exactly if the user exists, is not onboarded, has TikTok linked and a real email, and has no open request |
| `RequestEffects.CompletingOnboarding` | src/admins/admins.service.ts:597-640 | completeOnboarding succeeds exactly if the user exists and is not onboarded, a request is found or can be inserted, and the transaction commits; then the user is onboarded, with both balances and gates kept, and that request of theirs is closed; nothing else changes |
| `RequestEffects.OnboardedHaveNothingOpen` | src/admins/admins.service.ts:611-640 | Whoever had at most one open request then has none |
| `RequestEffects.AskingForCredit` | src/credit-requests/credit-requests.service.ts:60-108 | createCreditRequest adds one pending request of the amount exactly if the user is onboarded and has none pending |
| `RequestEffects.AskingToPay` | src/payments/payments.service.ts:37-80 | initializePayment adds one payment of the amount exactly if the user exists and Paystack accepts |
| `RequestEffects.CreatingPayout` | src/payouts/payouts.service.ts:56-171 | createPayout succeeds exactly if the user is onboarded, the earnings cover the amount, none is pending, the account asked for (or, without one, some account) is theirs and verified, and the converted amount exceeds the fee; it adds one pending row with the nearest-kobo figures and the bank details of the chosen account, and changes nothing else |
| `RequestEffects.AskingForPayout` | src/payouts/payouts.service.ts:56-171 | The same for the request to it |
| `PayoutAccounts.PayoutsGoToVerifiedAccounts` | src/payouts/payouts.service.ts:92-171 | Over every run each payout has the bank details of an account that, when an event inserted the payout, was of its user and verified, and was the one asked for if one was |
| `PayoutAccounts.StepInserts` | src/payouts/payouts.service.ts:154-171 | One request of any kind: every payout afterwards is either an old one with the same user and bank details, or inserted by it in that way |
| `LifecycleProofs.PlansPost` | src/admins/admins.service.ts:220-438 | Every money operation records a row exactly when it settles it, moves only rows that are not final, and its record agrees with the row |
| `LifecycleProofs.PostingRecordsOnce` | src/admins/admins.service.ts:986-1017 | So one PAYOUT, CREDIT or DEPOSIT record references each completed, approved or successful row and none references any other |
| `LifecycleProofs.PerformKeepsLifecycle` | src/admins/admins.service.ts:901-1127 | Every money operation keeps: one record per settled row, records that agree, sound rows, one pending request per user |
| `LifecycleProofs.RequestsKeepLifecycle` | src/payouts/payouts.service.ts:56-171 | Creating requests keeps the same, whichever of the paths creates them |
| `LifecycleProofs.AdminOnboardKeepsLifecycle` | src/admins/admins.service.ts:608-640 | The admin path to an onboarding request leaves at most one open request per user |
| `LifecycleProofs.CreateOnboardingKeepsLifecycle` | src/onboarding/onboarding.service.ts:62-105 | So does the user path |
| `LifecycleProofs.CompleteOnboardingKeepsLifecycle` | src/widget/widget.service.ts:279-293 | So does the widget path |
| `LifecycleProofs.CreateCreditKeepsLifecycle` | src/credit-requests/credit-requests.service.ts:74-108 | A new credit request belongs to an onboarded user who had none pending |
| `LifecycleProofs.CreatePayoutKeepsLifecycle` | src/payouts/payouts.service.ts:64-171 | A new payout belongs to an onboarded user who had none pending, is positive, and stores the quote of the settings in force |
| `Verification.CreditedOnce` | src/payments/payments.service.ts:86-175 | For any sequence of verify calls whose answers may change, the wallet is credited at most once, with the amount of the first successful stored answer, by one record, and the payment is SUCCESS exactly then |
| `PaymentHistory.DepositIsFirstStored` | src/payments/payments.service.ts:86-175 | In every run of the platform, whatever happens between the verifications of a reference: its payment is SUCCESS exactly if one was stored, and then its one deposit record carries the first amount stored |
| `Verification.OneCall` | src/payments/payments.service.ts:97-175 | One more call changes nothing once the payment is SUCCESS, and otherwise only a successful stored answer credits |
| `Atomicity.MoneyIsAllOrNothing` | src/cards/cards.service.ts:415-510 | Of an operation that refuses or fails nothing remains but the FAILED mark of a declined payment; that a failing write leaves nothing is proved write by write of the service methods below |
| `Atomicity.SessionIsAllOrNothing` | src/widget/widget.service.ts:303-361 | A widget call that fails moves no money and creates no request, if the final save succeeds |
| `Atomicity.RequestIsAllOrNothing` | src/payouts/payouts.service.ts:56-171 | A refused request leaves balances, rows, log, cards and payments as they were |
| `Atomicity.FailedSessions` | src/widget/widget.service.ts:251-268 | A widget call that fails leaves all money as it was exactly if it is not completeSession failing in its last save after its work |
| `Atomicity.FailedBankRequests` | src/bank-accounts/bank-accounts.service.ts:80-127 | A bank request that ends in an error leaves the rows as they were exactly if it did not fail after its write: the code could not be mailed, or the verified row not reloaded |
| `Atomicity.FailedRequestsMoveNoMoney` | src/admins/admins.service.ts:986-1053 | For any request that ends in an error: balances, requests, payouts and records are as they were exactly if it is not completeSession failing in its last save after its work; the cards are, except that a funding leaves its card synced if it saved that; the bank accounts are exactly if the request did not fail after writing them |
| `Atomicity.FailedFunding` | src/cards/cards.service.ts:274-291 | A funding that fails leaves everything as it was but the synced card, if the sync was saved |
| `Atomicity.FailedOnboardingKeepsTheRequest` | src/admins/admins.service.ts:611-624 | A failed onboarding transaction leaves the database unchanged exactly when the request already existed; otherwise the inserted one stays |
| `Atomicity.CompletingNeedsAnAmount` | src/widget/widget.service.ts:303-333 | A deposit session in time completes exactly when an amount other than 0 was submitted, a withdrawal session only then; otherwise the call is refused and changes nothing |
| `Atomicity.CompletingCredits` | src/widget/widget.service.ts:324-354 | Completing an active deposit session in time credits the collected amount with one record |
| `Atomicity.FailedSavePaysTwice` | src/widget/widget.service.ts:264-266 | The assumption on the final save is needed: whenever it fails after the deposit commits, calling again credits the same session twice |
| `Atomicity.FailedSaveWithdrawsAgain` | src/widget/widget.service.ts:303-319 | After a failed save a withdrawal is made again exactly if its first payout is no longer pending and everything createPayout asks for holds again; while it is pending the call is refused |
| `CardRecords.FundingsAgree` | src/cards/cards.service.ts:464-491 | After every run the card transactions that fundings write are the CARD_FUNDING records of the log, one for one and in order |
| `Interleaving.NonOverlappingIsSerial` | src/admins/admins.service.ts:227-328 | Any interleaving in which operations sharing a user, request, payout, payment or card row do not overlap ends in the database of the serial run in commit order |
| `Interleaving.NonOverlappingKeepsLedger` | src/payments/payments.service.ts:184-219 | So the replay and the lifecycle invariants hold after every such interleaving |
| `Interleaving.NonOverlappingBalances` | src/payments/payments.service.ts:189-203 | And in every such interleaving no balance is ever negative exactly if no commit of a widget deposit overdraws |
| `Interleaving.StaysUpToDate` | src/payments/payments.service.ts:184-219 | In every such interleaving the rows a running operation read are as they were, and what it computed is what it would compute now |
| `Interleaving.ReadsOnlyItsRows` | src/cards/cards.service.ts:389-412 | What an operation checks and computes depends only on its rows and the bank accounts |
| `Interleaving.WritesOnlyItsRows` | src/cards/cards.service.ts:415-491 | Committing changes no other row |
| `Overlaps.ReplaysIffNothingOverwritten` | src/payments/payments.service.ts:126-139 | In any interleaving whatever, the balances replay the log after every action exactly if no commit overwrites a balance column that changed since its operation read the user; verifyPayment reads the user after Paystack has answered |
| `Overlaps.StaleOperation` | src/admins/admins.service.ts:227-328 | For each of the nine operations, whenever it read its row and later the user: committing what was computed keeps the replay exactly if the balance columns written still hold the values read |
| `Overlaps.VerifyingOverwritesNothing` | src/payments/payments.service.ts:103-139 | Whatever operation on the same user runs from beginning to end while Paystack is asked, its effect on the balances stays, the wallet is credited on top of it, and the replay holds |
| `Overlaps.VerifyingTwiceRecordsTwice` | src/payments/payments.service.ts:97-154 | Two verifications of one reference that overlap credit the wallet twice: the replay holds, but the payment has two records |
| `Overlaps.RecordsIffNothingResettled` | src/admins/admins.service.ts:227-328 | In any interleaving whatever, settled rows keep exactly one record each, and others none, exactly if no commit writes a row settled since its operation began |
| `Overlaps.CommitKeepsRecordsIff` | src/admins/admins.service.ts:986-1017 | The same for one commit |
| `Overlaps.OverlapLosesAnUpdate` | src/payments/payments.service.ts:189-203 | Two overlapping transfers of one user, of any affordable amounts, both succeed, and the balance no longer replays the log |
| `Overlaps.BothAtOnceLead` | src/payments/payments.service.ts:184-219 | Two operations that both read before either commits write what each computed from the same state; this overlaps when they share a row |
| `Interleaving.SerialKeepsLedger` | src/payments/payments.service.ts:184-219 | Any serial run keeps the replay and the lifecycle invariants |
| `Money.Round` | src/payouts/entities/payout.entity.ts:52-71 | Storing a figure keeps a nearest whole unit, a tie going up |
| `Money.AcceptedIsPositive` | src/payouts/payouts.service.ts:150-154 | Under the settings bounds the net-amount guard alone forces a positive amount |
| `Money.QuoteAddsUp` | src/payouts/payouts.service.ts:141-162 | The three stored columns add up to within one kobo, exactly for a fixed fee |
| `Money.SplitGain` | src/payouts/payouts.service.ts:39-51 | n accepted parts pay at most n/2 kobo (rounded down) more than the single payout, for both fee types and all n; for a percentage fee at most that much less too |
| `Money.SplitGainIsTight` | src/payouts/payouts.service.ts:141-162 | For every n some settings reach that bound |
| `Money.NetOfParts` | src/payouts/payouts.service.ts:39-51 | Before rounding, splitting costs a fixed fee once per extra part and nothing under a percentage fee |
| `Money.StoredNetsNearNets` | src/payouts/entities/payout.entity.ts:66-71 | The stored nets of n parts differ from the exact nets by at most n/2 kobo |
| `Money.RateRecovered` | src/admins/admins.service.ts:999-1006 | The recovered exchange rate is within 1/(2c) naira, plus half of the fourth decimal, of the rate quoted (c = cents), and exact for a whole number of naira |
| `Reports.NetBalanceIsEarnings` | src/admins/admins.service.ts:1492-1520 | The unfiltered net balance is the sum of all earnings plus all transfers to wallets plus all direct remittances |
| `Reports.CompletedNetIsNet` | src/admins/admins.service.ts:1530-1545 | The completed net balance equals the net balance under any date filter |
| `Reports.FinanceReportAddsUp` | src/admins/admins.service.ts:1577-1645 | For any date filter, converted amounts less fees less nets is within one kobo per transaction of 0, and 0 when the payouts in range had fixed fees |
| `Reports.FinanceReportIsPayouts` | src/admins/admins.service.ts:1603-1645 | The report reads only the log, yet counts each payout settled between the two dates, both included, once and totals the columns of its row; without a filter those are exactly the COMPLETED payouts |
| `Reports.AdjacentPeriods` | src/admins/admins.service.ts:1588-1598 | The report and both net balances of two periods that meet add up to those of the whole period |
| `Reports.StoredRateIsRequestRate` | src/admins/admins.service.ts:999-1010 | The stored rate is within the rounding bounds of the rate in force when the payout was requested, whatever settings changes came between |
| `Reports.ReportsOfAnyRun` | src/admins/admins.service.ts:1438-1645 | After every run from an empty database: the net balance, the completed net balance, the one-kobo bound and its fixed-fee case, the totals of the settled payouts, and the bounds of every stored rate |
| `Reports.RecordsAreQuoted` | src/admins/admins.service.ts:999-1015 | The figures of every payout record are the quote of the settings its payout was requested under |
| `WidgetProofs.SubmissionAdvances` | src/widget/widget.service.ts:128-239 | An accepted submission completes exactly the next step of the flow; a next step always exists, so the fallback is never taken; the fifth one finishes the session |
| `WidgetProofs.SubmissionKeepsAmount` | src/widget/widget.service.ts:145-148 | No later submission changes the amount collected |
| `WidgetProofs.AcceptedIsNotAbandoned` | src/widget/widget.service.ts:97-107 | A session getSession accepts was never abandoned: an abandoned one has been idle for over an hour |
| `WidgetProofs.GettingKeepsSessions` | src/widget/widget.service.ts:85-110 | Abandoning by idleness, even of a completed session, keeps sessions sound and paid once |
| `WidgetProofs.SubmittingKeepsSessions` | src/widget/widget.service.ts:128-187 | Submitting keeps every session a prefix of its flow with exactly the data of the completed steps, and keeps sessions paid once |
| `WidgetProofs.ProcessingPaysOnce` | src/widget/widget.service.ts:251-262 | Processing an active session gives it at most its one credit or payout, of the amount it collected |
| `WidgetProofs.CompletingKeepsSessions` | src/widget/widget.service.ts:244-269 | completeSession keeps sessions sound, and paid once if its final save succeeds |
| `WidgetProofs.SessionsKeepSessions` | src/widget/widget.service.ts:38-361 | So do all widget calls |
| `WidgetEffects.Starting` | src/widget/widget.service.ts:38-80 | initSession adds one active session at the first step of its kind exactly if the user exists |
| `WidgetEffects.Getting` | src/widget/widget.service.ts:85-110 | getSession returns exactly a session of the user that was active within the last hour; an idle one is marked abandoned, and nothing else changes |
| `WidgetEffects.Submitting` | src/widget/widget.service.ts:128-187 | An accepted submission of step k moves the session to step k + 1 of its path, completes it after the fifth, stores the data and the time; asking for credentials also adds an onboarding request if the user may ask; nothing else changes |
| `WidgetEffects.FittingIsOnThePath` | src/widget/widget.service.ts:134-142 | In every reachable state an accepted submission is for the step after the completed ones |
| `WidgetEffects.RefusingSubmission` | src/widget/widget.service.ts:128-142 | Any other submission is refused and changes at most the status of an idle session |
| `WidgetEffects.CompletingNothing` | src/widget/widget.service.ts:244-249 | Completing a session that is missing, idle or completed already does no work |
| `WidgetEffects.CompletingOnboarding` | src/widget/widget.service.ts:274-298 | Completing an onboarding session adds an open request exactly if the user exists and has none, and completes the session if its own save succeeds |
| `WidgetEffects.CompletingWithdrawal` | src/widget/widget.service.ts:303-319 | Completing a withdrawal session creates the payout of the collected amount under the conditions of createPayout, tagged with the session, and completes the session if its own save succeeds; if the work fails nothing changes |
| `WidgetEffects.CompletingDeposit` | src/widget/widget.service.ts:324-361 | Completing a deposit session adds the collected amount to the earnings with one record, and completes the session if its own save succeeds; if the work fails nothing changes |
| `WidgetEffects.CompletingWithoutAmount` | src/widget/widget.service.ts:303-333 | Without a collected amount other than 0 both are refused and change nothing |
| `BankProofs.VerifyingMakesNoPrimary` | src/bank-accounts/bank-accounts.service.ts:219-236 | Verifying an account never makes one primary: the count already sees the account just verified |
| `BankProofs.CountSeesTheUpdate` | src/bank-accounts/bank-accounts.service.ts:205-225 | The count that follows the update in the same transaction is never 0 |
| `BankProofs.BankOpsKeepBanks` | src/bank-accounts/bank-accounts.service.ts:29-355 | Every bank request keeps at most one primary per user, primaries verified, one row per user, number and bank; nobody loses a primary |
| `BankProofs.ChoiceWithoutId` | src/payouts/payouts.service.ts:110-136 | Without an id a payout finds an account exactly when the user has a verified one, and the primary if there is one |
| `BankProofs.ChoiceExists` | src/payouts/payouts.service.ts:110-129 | The query always has an answer |
| `BankEffects.SettingPrimary` | src/bank-accounts/bank-accounts.service.ts:278-331 | setPrimaryBankAccount succeeds exactly if the account is one of the user that are verified and the database answers; then of the accounts of the user that one is primary and no other, and nothing else about any account changes |
| `BankEffects.PayoutsGoToThePrimary` | src/payouts/payouts.service.ts:110-117 | After that a payout without an account id goes to that account and to no other |
| `BankEffects.PayoutsGoToTheNewest` | src/payouts/payouts.service.ts:119-129 | Without a primary one it goes to a newest verified account |
| `BankEffects.Adding` | src/bank-accounts/bank-accounts.service.ts:29-135 | addBankAccount succeeds exactly if the row can be written and the mail sent; it adds an unverified account that is not primary, or gives one that is not verified the new code |
| `BankEffects.Verifying` | src/bank-accounts/bank-accounts.service.ts:140-252 | verifyBankAccount marks the account verified and drops its code exactly if it is the user's, not verified yet, and the code is right and not expired; the primary flags stay |
| `BankEffects.Deleting` | src/bank-accounts/bank-accounts.service.ts:336-355 | deleteBankAccount removes exactly an account of the user that is not primary |
| `Store.Store.constructor` | src/users/entities/user.entity.ts:115-130 | A new database is empty |
| `Store.Store.Rollback` | src/payments/payments.service.ts:170-174 | A rollback restores every table that a transaction writes |
| `PaymentsService.PaymentsService.InitializePayment` | src/payments/payments.service.ts:37-80 | initializePayment is exactly the specified step: same checks in the same order, same writes, and the state before when any write fails |
| `PaymentsService.PaymentsService.VerifyPayment` | src/payments/payments.service.ts:86-175 | verifyPayment is exactly the specified step; and when the user of a paid payment is missing, the error is that of the first write if it fails, else not found |
| `PaymentsService.PaymentsService.CreditWallet` | src/payments/payments.service.ts:118-174 | The three writes of a successful payment are made together or not at all, with the error of the first thing that fails |
| `PaymentsService.PaymentsService.TransferEarningsToWallet` | src/payments/payments.service.ts:180-242 | transferEarningsToWallet is exactly the specified step: same checks in the same order, same writes, and the state before when any write fails |
| `AdminsService.AdminsService.ApproveCreditRequest` | src/admins/admins.service.ts:220-328 | approveCreditRequest is exactly the step whose effect MoneyEffects.ApprovingCredit states, with the state before when any write fails |
| `AdminsService.AdminsService.WriteApproval` | src/admins/admins.service.ts:277-375 | The writes of an approval, whose sum MoneyEffects.ApprovingCredit states, are made together or not at all |
| `AdminsService.AdminsService.CheckPayout` | src/admins/admins.service.ts:906-929 | No problem is found exactly if the payout is pending, its user exists, and completing it leaves earnings that are not negative; not found exactly if a row is missing |
| `AdminsService.AdminsService.ProcessPayout` | src/admins/admins.service.ts:901-968 | processPayout is exactly the step whose effect MoneyEffects.ProcessingPayout states, also when the transfer is refused or any write fails |
| `AdminsService.AdminsService.CompleteManualPayout` | src/admins/admins.service.ts:1060-1089 | completeManualPayout is exactly the step whose effect MoneyEffects.CompletingPayout states, also when any write fails |
| `AdminsService.AdminsService.ApplyPayoutCompletion` | src/admins/admins.service.ts:974-1053 | The three writes of a completion are made together or not at all |
| `AdminsService.AdminsService.CompleteOnboarding` | src/admins/admins.service.ts:597-675 | completeOnboarding is exactly the step whose effect RequestEffects.CompletingOnboarding states: a failure rolls back the two saves but not the request inserted before them |
| `CardsService.CardsService.GetCardById` | src/cards/cards.service.ts:254-292 | Finds the card only for its owner, synced in balance and number with what Sudo reports, if it answers; the row is synced exactly if saving it succeeds |
| `CardsService.CardsService.TryFunding` | src/cards/cards.service.ts:418-493 | Inside the transaction all local writes and the transfer succeed, or it fails |
| `CardsService.CardsService.MoveToCard` | src/cards/cards.service.ts:415-510 | The four local writes around the external transfer happen together or not at all |
| `CardsService.FundingIsSpecified` | src/cards/cards.service.ts:453-491 | Funding from the card held in memory is the specified step from the synced card, whether or not the sync was saved |
| `CardsService.CardsService.FundCardFromWallet` | src/cards/cards.service.ts:384-511 | fundCardFromWallet is exactly the specified request: it succeeds as specified from the synced card, and whatever fails, only the sync remains, if it was saved |
| `RequestServices.PayoutsService.FindBankAccount` | src/payouts/payouts.service.ts:92-136 | Answers with the verified account asked for, else a primary, else a newest verified one |
| `RequestServices.PayoutsService.CalculateProcessingFee` | src/payouts/payouts.service.ts:39-51 | A percentage fee is exactly that share of the converted amount, between 0 and all of it; a fixed fee is stored as it was set, whatever the amount |
| `RequestServices.FeeIsDetermined` | src/payouts/payouts.service.ts:141-148 | What the fee calculation promises leaves only one fee for an amount |
| `RequestServices.PayoutsService.CreatePayout` | src/payouts/payouts.service.ts:56-171 | createPayout passes the gates in order and is exactly the step whose effect RequestEffects.CreatingPayout states |
| `BankAccountsService.BankAccountsService.FindByDetails` | src/bank-accounts/bank-accounts.service.ts:35-42 | Finds the row of this user, number and bank exactly when there is one |
| `BankAccountsService.BankAccountsService.AddBankAccount` | src/bank-accounts/bank-accounts.service.ts:29-135 | addBankAccount inserts an unverified row, reissues the code of an unverified one, or refuses a verified one; if the code cannot be mailed it fails and the row stays |
| `BankAccountsService.BankAccountsService.VerifyBankAccount` | src/bank-accounts/bank-accounts.service.ts:140-252 | verifyBankAccount is exactly the specified step: nothing is written when any write fails, and the account stays verified when only reloading it fails |
| `BankAccountsService.BankAccountsService.SetPrimaryBankAccount` | src/bank-accounts/bank-accounts.service.ts:278-331 | setPrimaryBankAccount is exactly the step whose effect BankEffects.SettingPrimary states, with the state before when any write fails |
| `WidgetService.WidgetService.SubmitStep` | src/widget/widget.service.ts:128-187 | submitStep is the specified step, swallowing the errors of the onboarding request it may make |
| `WidgetService.WidgetService.CompleteDeposit` | src/widget/widget.service.ts:324-361 | completeDeposit writes balance and record together or not at all |
| `WidgetService.WidgetService.CompleteWithdrawal` | src/widget/widget.service.ts:303-319 | completeWithdrawal creates the payout of the collected amount or changes nothing |
| `WidgetService.WidgetService.CompleteOnboarding` | src/widget/widget.service.ts:274-298 | completeOnboarding leaves an open request for an existing user |
| `WidgetService.WidgetService.Process` | src/widget/widget.service.ts:251-262 | The work done is that of the session trigger |
| `WidgetService.WidgetService.CompleteSession` | src/widget/widget.service.ts:244-269 | completeSession is the specified step: nothing again for a completed session, the work first, the session row last |
| `Dashboard.ShownIsSorted` | src/users/users.service.ts:83-148 | At most ten activities, newest first, each a row of one of the three tables |
| `Dashboard.NoNewerTransactionLeftOut` | src/users/users.service.ts:60-65 | No transaction left out is newer than any entry shown |
| `Dashboard.TruncationIsHarmless` | src/users/users.service.ts:60-148 | If the newest ten of all rows hold at most five credit requests and five payouts, the dates shown are the true newest ten |
| `Dashboard.HarmlessOnlyThen` | src/users/users.service.ts:67-81 | With distinct dates the true newest ten are shown exactly under that condition |
| `Dashboard.HarmlessExactly` | src/users/users.service.ts:60-148 | Whatever dates coincide, the dates shown are the true newest ten exactly if, for every date, at most five credit requests and five payouts are that new or the three queries still return ten rows that new |
| `Dashboard.ShownHoldsFive` | src/users/users.service.ts:67-81 | The dashboard never shows more than five credit requests or five payouts |
| `Dashboard.NewestCounts` | src/users/users.service.ts:60-81 | A query for the newest k holds, for every date, min(k, n) of the n rows since then |
| `Dashboard.SameDates` | src/users/users.service.ts:147-148 | Two lists sorted newest first with as many entries since every date show the same dates |
| `Migrations.OrderedMigrations` | scripts/run-migrations.js:83-88 | The list is duplicate-free, holds exactly the .sql files of the directory, known ones in their order and the rest after them by name |
| `Migrations.OrderIsDetermined` | scripts/run-migrations.js:83-88 | No other list does: the contents of the directory fix it, however the listing came |
| `Migrations.KnownNamesAreDistinct` | scripts/run-migrations.js:55-77 | The known order names no file twice |
| `Migrations.Runner.Migrate` | scripts/run-migrations.js:127-156 | The loop leaves exactly the recorded names, counters and statements of the specified run |
| `Migrations.RunKeepsPrefix` | scripts/run-migrations.js:127-156 | A run resumed from a prefix of the list ends with a prefix exactly when it leaves no gap, that is, does not lose one row and then record a later one |
| `Migrations.RunsRecordAPrefix` | scripts/run-migrations.js:127-156 | Over any sequence of runs from an empty table, each stopping anywhere, the recorded names are a prefix after every run exactly when no run leaves a gap |
| `Migrations.NothingLostNoGap` | scripts/run-migrations.js:147-148 | A run in which no insert is swallowed leaves no gap |
| `Migrations.EveryRun` | scripts/run-migrations.js:127-156 | In every run rows are only added, none twice, nothing recorded is sent again, and the run finished exactly when ran plus skipped is the length of the list |
| `Migrations.FinishedRecordsAll` | scripts/run-migrations.js:127-156 | A finished run that lost no row has every name recorded |
| `Migrations.FinishesIff` | scripts/run-migrations.js:127-156 | A run finishes exactly when every file and row can be read and every name not recorded yet goes through or is found to be applied already |
| `Migrations.FinishedHasSent` | scripts/run-migrations.js:140-150 | A finished run has sent exactly the names not recorded before, in order, and counts as ran those that went through at the first try |
| `Migrations.FinishedHasNoted` | scripts/run-migrations.js:140-150 | And it has recorded exactly those besides the old ones whose insert went through |
| `Migrations.NextRunIsIdle` | scripts/run-migrations.js:131-138 | After such a run the next one sends nothing, records nothing and skips the whole list |
| `SocketIndex.NotificationsGateway.HandleConnection` | src/notifications/notifications.gateway.ts:46-86 | After the token check a fresh authenticated socket is entered in the auth map and under its id; both maps stay the exact inverse; a failed one leaves no trace |
| `SocketIndex.OnlyLateSocketsLinger` | src/notifications/notifications.gateway.ts:46-117 | In whatever order sockets open, authenticate and close, both maps stay the inverse, and the sockets kept that are no longer open are exactly those that authenticated after closing |
| `SocketIndex.OnlineIsOpenOrLate` | src/notifications/notifications.gateway.ts:263-272 | So a user or admin is shown online exactly if they have an open socket or one that authenticated too late |
| `SocketIndex.NotificationsGateway.HandleDisconnect` | src/notifications/notifications.gateway.ts:91-117 | The socket and a set it leaves empty are removed; both maps stay the exact inverse |
| `SocketIndex.NotificationsGateway.IsUserOnline` | src/notifications/notifications.gateway.ts:263-265 | Agrees with a scan of the auth map |
| `SocketIndex.NotificationsGateway.IsAdminOnline` | src/notifications/notifications.gateway.ts:270-272 | Agrees with a scan of the auth map |
| `SocketIndex.NotificationsGateway.constructor` | src/notifications/notifications.gateway.ts:34-41 | Three empty maps, which are inverse |
| `SocketIndex.ConnectingKeepsInverse` | src/notifications/notifications.gateway.ts:49-70 | Connecting a fresh socket keeps both maps the inverse of the auth map, with no empty set |
| `SocketIndex.DisconnectingKeepsInverse` | src/notifications/notifications.gateway.ts:91-117 | So does disconnecting any connected socket |
| `SocketIndex.DisconnectUndoesConnect` | src/notifications/notifications.gateway.ts:46-117 | Disconnecting a socket that just connected restores the maps |
| `SocketIndex.ReuseBreaksTheIndex` | src/notifications/notifications.gateway.ts:49-56 | Freshness is needed: a socket id that connects again keeps the map inverse exactly when it was not on that side under another id |

## Left out

- Interleaving.NonOverlappingIsSerial: covers the nine money operations; requests that create rows, widget calls and bank requests are run one at a time, and the card sync of a funding comes before it begins.
- Safety.SessionsPayOnce: assumes that the final save of completeSession succeeds; `Repeats.OneEffectIffNothingPaidAgain` is exact without it.
- Completion.CompletedIsPaidOrSubmitted: assumes the same; `Completion.CompletedIsPaidIff` is exact without it.
- NonNegative.NeverNegative: assumes that no session submits a negative amount; `NonNegative.NonNegativeIffNothingOverdraws` is exact without it.
- Reports.NetBalanceIsEarnings: the WITHDRAWAL type is not modelled, because no operation writes such a record.
- HTTP controllers, guards, tokens and DTO classes: only the DTO bounds appear, as what is allowed of a request.
- Paystack, Sudo, S3, mail and TikTok clients: each is an arbitrary answer; emails, notifications, websocket messages and logging have no effect on the tables, except that a code that cannot be mailed makes addBankAccount fail.
- Floating point: the source computes in doubles before the database rounds; the model is exact, with whole-cent and whole-kobo amounts, and an amount that is not a number does not occur.
- A database failure after a successful Sudo transfer: the transfer itself is not undone by the source, and the model tracks only the tables.
- Identifiers are numbers instead of UUIDs, and a Paystack payment is keyed by its reference.
- The transaction row of a widget deposit has no reference column; the model takes the session from its description, and keeps a payout's settings and session as tags that the source does not store.
- expiresAt, session data other than the amount, getUserSessions and the authentication codes of the support flow: nothing that is proved depends on them.
- CardRecords.FundingsAgree: does not cover syncCardTransaction (src/cards/cards.service.ts:592-643), which inserts card transactions of any type without a record in the log and has no caller.
- Card status, default card and Sudo status maps: lookups and flags that move no money.
- Minimum, maximum, daily and monthly payout limits: stored in the settings and not used by createPayout.
- Type filters, average exchange rate, volumes, counts and formatting in the reports; the end-of-day adjustment of the date filter is taken as done.
- Suspending users, administrators, support chat, pagination, search, settings getters, fraud queries and the overview dashboard: they would only add easy members.
- Migrations: connecting, creating the table and finding the directory happen before the modelled loop, the order of extra names compares characters where the script compares UTF-16 code units, and what the SQL itself does is not modelled.
