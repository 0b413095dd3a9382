# Finanças, credits, idempotency and realtime: a verified model

A Dafny model of the money core of the billing service and of the protocols around it, with proofs about every
interleaving of the operations. `dafny verify dfyconfig.toml` checks the whole project.

**Cards and statements** (`Card*.dfy`, `Installments`, `Calendar`). A card has an open month, a version, purchases with
their plans, statement items, frozen statements and statement bills, beside the ledger. Every operation is a read
followed by one all-or-nothing commit whose conditions look at what was read. `CardModel` gives each commit as a function
of the store and of the rows read; `CardRuns` lets any number of operations be in flight: a run is the sequence of stores
committed, and each commit may use rows read anywhere earlier, each on its own. The one order assumed is a close's: its
consistent query sums items no older than its card row. `CardHistory` proves what holds in every run, `CardPurchases` and
`CardBooks` what holds exactly while advances are not repeated and reopenings read the row they should, `CardTheorems` and
`CardLimits` what follows and where it ends, `CardMoves` where each operation puts its items, what it moves on every
account and exactly when it commits. `CardRepository` is the same operations as methods with loops over fields
updated in place.

**Bills** (`Bill*.dfy`, `Ledger`). Payables and receivables with recognition, edits, settlement, cancellation, undoing,
paid invoices and credit notes, in the same style: `Bills` (commits), `BillInvariant` and `BillSteps`, `BillRuns`
(interleavings), `BillTheorems` and `BillCredits` (what follows), `BillMoves` (what each operation moves, account by account,
and exactly when it commits), `BillRepository` (methods).

**Protocols and views.** `LedgerMerge` (folding ADD updates), `Idempotency` (claim, lease, answer), `CreditNotes`
(compare-and-set on an invoice), `Resume`, `Hub`, `Delivery` and `RateLimits` (realtime), `Purge` (crash-resumable erasure),
`StatementKeys`, `StatementRange` and `StatementShown` (paging by key range, and what a page shows), `Rebuild` (cache repair).

Modelling choices: amounts are unbounded integers; a transaction's id is its place in the log; an account's class is part
of its name; a bill id of a statement is the pair (month, card version); idempotent ids are injective; rows the database
may return late are reads from an earlier point of the run.

## Where the code does less than is said of it

Each is kept as the code has it, with the exact condition proved and a failing case shown.

- Advancing, reopening and advancing again bills more than is owed, because items are deleted by installment tag only
  (`AdvanceConservesIff`, `SecondAdvanceBreaks`, `DoubleAdvanceBreaks`).
- A reopening reads the statement row with an eventually consistent read and its commit does not check it: on a row of an
  earlier close the month reopens while its bill is still owed (`ReopenKeepsIff`, `StaleReopenBreaks`, `StaleReopenRun`).
  These two are all that can break conservation (`ConservedIff`).
- A credit retried across a close is recorded twice (`CreditRetry`).
- Restoring a canceled statement bill never commits (`NeverRestored`), and canceling an archived card's statement bill leaves
  its amount owed and on no list (`DebtIsBilledIff`, `CanceledStaysOwed`, `AbandonedIff`).
- Two racing edits of a bill can both win (`SecondEditRefusedIff`), and can leave a bill on the auto-settle work list after
  auto-settle was turned off (`EditKeepsScheduleIff`, `ScheduleDrifts`); the job settles whatever that list names.
- A credit note in flight while its bill is reopened, lowered and paid again passes the bill (`WithinIff`,
  `CreditPassesAmount`); a replayed note is refused instead of acknowledged when what is left does not cover it again
  (`ReplayAcknowledgedIff`).
- Only a page of 100 notes is summed: an old invoice row with more can be credited past its total, and any row with more
  is never credited again (`OldRowRightIff`, `OldRowPasses`, `PastAPageNoneCommits`).
- `mergeAdds` tells groups by text alone and folds anything that begins with ADD (`NamesFoldIff`, `SetFoldIff`,
  `ConditionFoldIff`); the ledger's own updates meet the condition of `MergePreservesMeaning`.
- A handler that outlives its lease releases its successor's claim (`SecondRunsIff`, `LateReleaseFreesAnother`).
- The replay read is not a consistent one, so a change can be missed without a gap (`MissedIff`, `StaleReadMisses`).

## Model

| member | source | states |
|---|---|---|
| `Calendar.DueDate` | api/internal/domain/finance/card.go:103-108 | a statement always falls due on a real day strictly after it closes, in its own month or the next |
| `Calendar.StatementForIsThePeriod` | api/internal/domain/finance/installments.go:53-59 | a purchase goes on statement m if and only if its day lies after the previous closing date and not after m's |
| `Calendar.MonthsMakeTheYear` | api/internal/domain/brcal/date.go:123-126 | the days of a year's months add up to it, by the Gregorian count of days before a year |
| `Installments.SplitInstallments` | api/internal/domain/finance/installments.go:30-44 | refused exactly when n or the total is out of range; the parts are positive and sum to the total; the first carries the remainder, so it exceeds the rest by less than n cents, and the rest are equal |
| `Installments.PlaceInstallments` | api/internal/domain/finance/installments.go:83-95 | refused exactly when the closing day, n or the total is out of range; parts on consecutive months, numbered from one, none before the open month (which month is PlacedInItsPeriod's) |
| `Installments.OnePeriod` | api/internal/domain/finance/installments.go:53-59 | every day lies in the period of exactly one statement: after the previous closing date, not after its own |
| `Installments.PlacedInItsPeriod` | api/internal/domain/finance/installments.go:60-95 | part i is billed i months after the later of the open statement and the one whose period holds the purchase's day; all parts are equal but the first, which is the total less the others and exceeds them by less than n |
| `Installments.PlacedPlanSumsToTotal` | api/internal/domain/finance/installments.go:83-95 | a placed plan sums to the purchase total, whatever month it starts on |
| `Installments.AdvancePlan` | api/internal/domain/finance/installments.go:100-109 | every part past the open month moves onto it, the rest stays; the total is kept |
| `Installments.RefundPlan` | api/internal/domain/finance/installments.go:116-125 | credit and removed parts split the plan: what was billed before the open month is credited, the rest removed, and together they are the total |
| `Ledger.NewTransaction` | api/internal/domain/finance/ledger.go:118-150 | a transaction is made if and only if it has 2 to 8 legs on distinct accounts, each non-zero and within the limit, that sum to zero |
| `Ledger.ReverseUndoes` | api/internal/domain/finance/ledger.go:156-173 | every valid transaction that is not itself a reversal can be reversed, and its reversal cancels it on every account |
| `Ledger.SettleNets` | api/internal/domain/finance/posting.go:77-110 | a settlement clears the bill's own amount from the account it clears, whatever was paid |
| `Ledger.SettleMoves` | api/internal/domain/finance/posting.go:77-110 | a settlement clears the bill, moves the paying account by exactly what was paid, and puts any gap on the difference category |
| `Ledger.CreditIsTheOpposite` | api/internal/domain/finance/posting.go:112-132 | a credit is, on every account, the opposite of recognising and settling a bill of its amount |
| `Ledger.RecognizeNets` | api/internal/domain/finance/posting.go:60-70 | recognition moves the amount between the category and the control account and touches no other account |
| `Ledger.CardNets` | api/internal/domain/finance/posting.go:150-165 | a card purchase adds its total to the category and the card's debt alike, and a credit takes its amount off both |
| `Ledger.SettleNetsEach` | api/internal/domain/finance/posting.go:77-110 | on every account: the cleared one moves by the bill's amount, the paying one by what was paid, the difference by the gap, any other by nothing |
| `Ledger.CreditNetsEach` | api/internal/domain/finance/posting.go:112-132 | on every account: the paying one and the category move by the credit, one against the other, any other by nothing |
| `Ledger.CardNetsEach` | api/internal/domain/finance/posting.go:150-165 | on every account: category and card move by the amount, one against the other, any other by nothing |
| `Ledger.AdjustNets` | api/internal/domain/finance/posting.go:190-223 | the single net transaction of an edit moves, on every account, the new recognition less the old |
| `Ledger.NetByAccount` | api/internal/domain/finance/posting.go:199-213 | the running nets are the legs' sums per account, and the order lists each account once by first mention |
| `Ledger.BuildAdjustment` | api/internal/domain/finance/posting.go:190-223 | the loop builds exactly the adjustment that AdjustNets is about, and refuses in the same cases |
| `CardInvariant.BuyKeeps` | api/internal/repositories/cards_purchases.go:210-305 | a purchase planned on any card row its guard accepts keeps the whole card invariant and every frozen month |
| `CardInvariant.CreditKeeps` | api/internal/repositories/cards_credit.go:32-104 | so does a standalone credit |
| `CardInvariant.AdvanceKeeps` | api/internal/repositories/cards_close.go:25-97 | so does an advance of a plan with nothing past the open month advanced before |
| `CardInvariant.AdvanceConservesIff` | api/internal/repositories/cards_close.go:44-97 | a committed advance keeps debt equal to billing if and only if no part past the open month was already advanced |
| `CardInvariant.RefundKeeps` | api/internal/repositories/cards_purchases.go:465-547 | a refund keeps the invariant: items left sum to zero, nothing on a closed month changes, the debt falls by the total |
| `CardInvariant.EditKeeps` | api/internal/repositories/cards_purchases.go:567-663 | an edit replaces the purchase's transaction and keeps the invariant |
| `CardInvariant.CloseKeeps` | api/internal/repositories/cards_close.go:105-166 | closing keeps the invariant: a positive total becomes a bill, a negative one a credit on the next month |
| `CardInvariant.ReopenKeeps` | api/internal/repositories/cards_close.go:183-247 | reopening keeps the invariant: bill canceled or carried credit removed, and no other closed month changes |
| `CardBills.SettleKeeps` | api/internal/repositories/bills.go:612-658 | settling a statement bill takes its amount off the card's debt and off the unpaid bills alike |
| `CardBills.UnsettleKeeps` | api/internal/repositories/bills.go:924-969 | undoing that payment restores both |
| `CardBills.CancelKeeps` | api/internal/repositories/bills.go:663-725 | canceling an archived card's statement bill keeps the invariant, its amount staying owed under a frozen statement |
| `CardBills.EditBillKeeps` | api/internal/repositories/bills.go:790-919 | a statement bill's account and due date can change without touching the books |
| `CardBills.RestoreNeverCommits` | api/internal/repositories/bills.go:730-772 | restoring a canceled statement bill never commits: its last transaction, if it has one, is a reversal |
| `CardRuns.RunLater` | api/internal/repositories/cards_close.go:99-166 | over any run versions, revisions and transaction lists only grow, and an unchanged version means unchanged items and frozen rows |
| `CardHistory.RunFrozen` | api/internal/repositories/cards_close.go:99-166 | at every point of every run every closed month's frozen total is the sum of its items |
| `CardHistory.FrozenNeverChanges` | api/internal/repositories/cards_close.go:99-166 | in every run, from close until reopen no committed operation adds, removes or changes an item of the month or its row |
| `CardHistory.StatementHistory` | api/internal/repositories/cards.go:91-126 | in every run closed rows are exactly the months from the first to before the open one; while reopenings name the live bill they should, each month has at most one live bill, for the frozen total |
| `CardHistory.LiveBillsNamedIff` | api/internal/repositories/cards_close.go:191-234 | every live bill is named by its month's row up to any point if and only if every reopening until then read a row that names the live bill stored |
| `CardHistory.CloseCommitsIff` | api/internal/repositories/cards_close.go:105-166 | a close on current reads never meets a bill id used before: it commits if and only if the total is a valid bill amount and no credit of the month was left behind |
| `CardHistory.CloseCommits` | api/internal/repositories/cards_close.go:105-166 | in every run whose reopenings knew of the credit their month carried, it commits if and only if the total is a valid bill amount |
| `CardHistory.NeverRestored` | api/internal/repositories/bills.go:730-772 | in no run is a canceled statement bill ever restored |
| `CardHistory.RowInOrder` | api/internal/repositories/cards_close.go:191-206 | a statement row read no earlier than the card row is the stored one when the reopening commits |
| `CardBooks.ReopenKeepsIff` | api/internal/repositories/cards_close.go:183-247 | a committed reopening keeps the books, and money conserved, if and only if the row it read names the month's live bill and knows of the credit carried |
| `CardBooks.StaleReopenBreaks` | api/internal/repositories/cards_close.go:195-234 | on every card whose latest statement has a live bill, a reopening on the row of an earlier close at zero commits and breaks conservation |
| `CardBooks.RunKeepsInv` | api/internal/repositories/cards_close.go:25-247 | the card invariant holds at every point of every interleaving of all card and statement-bill operations, each read from anywhere earlier, whose advances and reopenings are faithful |
| `CardBooks.ConservedIff` | api/internal/repositories/cards_close.go:25-247 | money is conserved at every point of a run up to n if and only if no advance before n repeats one and every reopening before n read the row it should |
| `CardBooks.NeverReopenedFaithful` | api/internal/repositories/cards_close.go:44-97 | a run that reopens nothing never repeats an advance, so it is faithful |
| `CardPurchases.PurchaseConserved` | api/internal/repositories/cards_purchases.go:228-271 | in every run that repeats no advance a purchase's items are exactly those its plan names and sum to its total, or to zero once refunded; its standing transaction puts that total on its category |
| `CardPurchases.PurchasesRightIff` | api/internal/repositories/cards_close.go:44-82 | every purchase is right at every point up to n if and only if no advance before n repeats one |
| `CardTheorems.DebtIsBilledIff` | api/internal/repositories/bills.go:663-725 | the debt is the items from the open month on plus the forecast statement bills if and only if no bill is canceled under a frozen statement |
| `CardTheorems.CanceledStaysOwed` | api/internal/repositories/bills.go:663-725 | on every card with a forecast statement bill: archive, cancel it directly, both commit, and exactly its amount is owed and on no list |
| `CardTheorems.AbandonedIff` | api/internal/repositories/bills.go:663-725 | a bill is in that state exactly when it was canceled directly and its month not reopened since |
| `CardTheorems.DebtIsBilled` | api/internal/repositories/cards_close.go:44-247 | in every faithful run the debt in the ledger is the sum of all items from the open month on plus the forecast statement bills, carried credits included, if and only if every directly canceled bill has had its month reopened since |
| `CardTheorems.DebtIsBilledInOrder` | api/internal/repositories/cards_close.go:44-247 | with statement rows read in order, and no advance repeated, that equation holds if and only if no statement bill was ever canceled directly |
| `CardTheorems.InOrderFaithful` | api/internal/repositories/cards_close.go:183-247 | with statement rows read in order only a repeated advance makes a run unfaithful |
| `CardTheorems.SecondAdvanceBreaks` | api/internal/repositories/cards_close.go:44-82 | whenever a purchase advanced onto the open month is advanced again after a reopening, the advance commits and billing passes the debt |
| `CardLimits.DoubleAdvanceBreaks` | api/internal/repositories/cards_close.go:56-56 | on every new card: buy in three or more installments, close, advance, reopen, advance, a valid run that ends with conservation broken |
| `CardLimits.StaleReopenRun` | api/internal/repositories/cards_close.go:195-234 | on every new card: close at zero, reopen, buy, close, and reopen on the first close's row, a valid run that ends with conservation broken |
| `CardLimits.CreditRetry` | api/internal/repositories/cards_credit.go:25-104 | a retried credit is recorded a second time if and only if the open month has changed since, and then the debt falls twice |
| `CardMoves.BuyLands` | api/internal/repositories/cards_purchases.go:210-271 | a committed purchase adds exactly one item per installment, on consecutive statements from the later of the open one and the one whose period holds its day, with the parts' amounts; every other item stays |
| `CardMoves.BuyMoves` | api/internal/repositories/cards_purchases.go:210-305 | it posts one transaction on its date that puts the total on the category against the card and moves no other account, and records what was asked |
| `CardMoves.BuyCommitsIff` | api/internal/repositories/cards_purchases.go:210-305 | it commits if and only if card, category, closing day, installments and total are valid, the open month has not moved and the purchase is new |
| `CardMoves.CreditLands` | api/internal/repositories/cards_credit.go:32-104 | a standalone credit is one new item on the open statement, which falls by the amount; every other item stays |
| `CardMoves.CreditMoves` | api/internal/repositories/cards_credit.go:32-104 | the card gains the amount, the category gives it, no other account moves |
| `CardMoves.CreditCommitsIff` | api/internal/repositories/cards_credit.go:32-104 | it commits if and only if card, category and amount are valid, the open month has not moved and the credit is new on it |
| `CardMoves.AdvanceReplans` | api/internal/repositories/cards_close.go:44-82 | parts past the open month are now on it, numbers, amounts and earlier parts stay, nothing is posted |
| `CardMoves.AdvanceLands` | api/internal/repositories/cards_close.go:44-82 | a first advance empties the purchase's later statements onto the open one, which grows by exactly what they held; no other purchase's item changes |
| `CardMoves.AdvanceCommitsIff` | api/internal/repositories/cards_close.go:25-97 | with the rows as they stand it commits if and only if the purchase is not refunded and some part is past the open month |
| `CardMoves.RefundLands` | api/internal/repositories/cards_purchases.go:484-524 | a refund clears the purchase from the open and later statements but for one credit on the open one, leaves what was billed, and the purchase nets to zero |
| `CardMoves.RefundMoves` | api/internal/repositories/cards_purchases.go:465-547 | the reversal of the purchase's own transaction, marked as such: the card gains the total, its category gives it, no other account moves |
| `CardMoves.RefundCommits` | api/internal/repositories/cards_purchases.go:465-547 | with the rows as they stand it commits if and only if the purchase was not refunded before |
| `CardMoves.EditMoves` | api/internal/repositories/cards_purchases.go:567-663 | a new category takes the total from the old one; the card and every other account stay |
| `CardMoves.EditRecords` | api/internal/repositories/cards_purchases.go:567-663 | the purchase has the category asked for and is otherwise as it was; items, card, statements and bills stay; reversal and replacement are dated as the purchase |
| `CardMoves.EditCommitsIff` | api/internal/repositories/cards_purchases.go:567-663 | with the row as it stands it commits if and only if the purchase was not refunded and the new category, if any, takes expenses |
| `CardMoves.CloseMakes` | api/internal/repositories/cards_close.go:105-166 | a month that owes becomes one forecast bill of its total, paid from the card's paying account and due on the first due day after the closing date; a negative one is carried onto the next month; a null one makes neither |
| `CardMoves.SettingsReachTheBill` | api/internal/repositories/cards.go:248-321 | new closing day, due day and paying account are those of the next bill |
| `CardMoves.ReopenCommitsIff` | api/internal/repositories/cards_close.go:183-247 | with the rows as they stand the last closed month, and no other, reopens if and only if the card is active and its bill, if any, is unpaid |
| `CardMoves.SettlementMoves` | api/internal/repositories/bills.go:612-658 | paying a statement bill posts one settlement on its date: the paying account moves by what was paid, the card by the bill's amount, the difference category by the gap, any other account by nothing |
| `CardMoves.SettledRow` | api/internal/repositories/bills.go:612-658 | the bill is paid from that account with one transaction more; no item, month or other bill changes |
| `CardMoves.SettleCommitsIff` | api/internal/repositories/bills.go:585-658 | it commits if and only if the bill is a forecast as read, something is paid, and a gap has its category |
| `CardMoves.UnsettleMoves` | api/internal/repositories/bills.go:924-969 | undoing a payment gives every account back what it moved, and the bill is owed again |
| `CardMoves.UnsettleCommitsIff` | api/internal/repositories/bills.go:924-969 | with the bill as it stands it commits if and only if the bill is paid |
| `CardMoves.CancelMakes` | api/internal/repositories/bills.go:663-725 | a direct cancel commits if and only if the card is archived and the bill a forecast as read; nothing is posted and only its status changes |
| `CardMoves.EditBillMakes` | api/internal/repositories/bills.go:790-919 | an edit commits if and only if the bill is a forecast as read, and changes its account and due date to those asked for and nothing else |
| `CardRepository.Cards.constructor` | api/internal/repositories/cards.go:91-126 | a new card is an empty store with its first month open |
| `CardRepository.Cards.AddPurchase` | api/internal/repositories/cards_purchases.go:210-305 | answers and writes exactly what the modelled transaction does, refusals writing nothing |
| `CardRepository.Cards.PurchaseWrites` | api/internal/repositories/cards_purchases.go:228-271 | the loop puts one item per installment: the items the plan names |
| `CardRepository.Cards.AddCredit` | api/internal/repositories/cards_credit.go:32-104 | as the modelled transaction, refusals included |
| `CardRepository.Cards.Advance` | api/internal/repositories/cards_close.go:25-97 | as the modelled transaction, refusals included |
| `CardRepository.Cards.AdvanceWrites` | api/internal/repositories/cards_close.go:44-66 | the loop deletes the items past the open month, by installment tag, and sums them |
| `CardRepository.Cards.Refund` | api/internal/repositories/cards_purchases.go:465-547 | as the modelled transaction, refusals included |
| `CardRepository.Cards.RefundWrites` | api/internal/repositories/cards_purchases.go:484-524 | the loop deletes each unbilled item once, the advanced one included, and credits what was billed |
| `CardRepository.Cards.LinesExist` | api/internal/repositories/cards_purchases.go:567-663 | whether every item the plan names is there |
| `CardRepository.Cards.EditPurchase` | api/internal/repositories/cards_purchases.go:567-663 | as the modelled transaction, refusals included |
| `CardRepository.Cards.Statement` | api/internal/repositories/cards_purchases.go:408-460 | the loop's total is the sum of the month's items |
| `CardRepository.Cards.CommitClose` | api/internal/repositories/cards_close.go:105-166 | as the modelled transaction, refusals included |
| `CardRepository.Cards.Reopen` | api/internal/repositories/cards_close.go:183-247 | as the modelled transaction, refusals included |
| `CardRepository.Cards.CloseAt` | api/internal/repositories/cards_close.go:105-166 | on a card row read at any time, others buying in between: it closes exactly the month read, frozen at the sum of its items, or changes neither month nor frozen rows; with none buying it closes unless the total is no valid bill amount |
| `CardRepository.Cards.CloseDue` | api/internal/repositories/cards_close.go:249-279 | terminates while others buy; closes months in order with none skipped, each frozen at the sum of its items, counts them, and without an error leaves an active card's open month closing after today; with none buying there is an error only if a statement owes more than a bill may hold |
| `BillSteps.CreateKeeps` | api/internal/repositories/bills.go:217-264 | a new bill and its recognition keep control accounts and bills in agreement |
| `BillSteps.SettleKeeps` | api/internal/repositories/bills.go:612-658 | a committed settlement keeps the bill invariant however stale the read |
| `BillSteps.CancelKeeps` | api/internal/repositories/bills.go:700-725 | a committed cancellation keeps it, netting the bill to nothing |
| `BillSteps.EditKeeps` | api/internal/repositories/bills.go:790-919 | a committed edit keeps it, for money and other changes alike |
| `BillSteps.UndoKeeps` | api/internal/repositories/bills.go:730-969 | undoing a settlement or a cancellation keeps it |
| `BillSteps.RecordInvoiceKeeps` | api/internal/repositories/finance_invoices.go:82-182 | a bill recorded and settled at once keeps it |
| `BillSteps.CreditKeeps` | api/internal/repositories/finance_invoices.go:222-272 | a credit note keeps it and moves no control account |
| `BillRuns.RunLater` | api/internal/repositories/bills.go:472-498 | over any run a bill's transaction list only grows, and while its length is the same so are status, amount and category |
| `BillRuns.RunKeepsInv` | api/internal/repositories/bills.go:217-969 | the bill invariant holds at every point of every interleaving, other postings of the space included |
| `BillTheorems.ControlAccountsAgree` | api/internal/repositories/bills.go:217-264 | payables (receivables) hold exactly the sum of the forecast bills' current amounts, at every point of every run |
| `BillTheorems.BillsExplained` | api/internal/repositories/bills.go:700-725 | a forecast's transactions amount to its current recognition, a canceled bill's to zero on every account; the open list names exactly the forecasts by due date |
| `BillTheorems.UndoReversesTheRightFact` | api/internal/repositories/bills.go:924-969 | the last transaction of a paid (canceled) bill is its settlement (cancellation), and undoing it on current reads always commits and reverses exactly that |
| `BillTheorems.StalePlansNeverCommit` | api/internal/repositories/bills.go:472-498 | a settlement, cancellation or effective edit that commits had read the status, amount, category, account, due date and transactions still stored |
| `BillTheorems.OnePlanWins` | api/internal/repositories/bills.go:538-558 | of operations planned on one state of a bill that would append to it, at most one ever commits |
| `BillTheorems.SecondEditRefusedIff` | api/internal/repositories/bills.go:786-919 | of two edits planned on the same row the second is refused if and only if the first changed amount, category, account or due date |
| `BillTheorems.EditKeepsScheduleIff` | api/internal/repositories/bills.go:884-902 | an edit keeps the auto-settle work list right if and only if auto-settle is as it was read, or it sets it, or it leaves the date |
| `BillTheorems.ScheduleDrifts` | api/internal/repositories/bills.go:884-902 | for every auto-settling forecast: turned off while a date change is in flight, it ends up off and still on the work list |
| `BillTheorems.WorkListRight` | api/internal/repositories/bills.go:884-902 | in runs where every edit meets that condition the work list is right for every bill at every point |
| `BillCredits.InvoiceRecordedOnce` | api/internal/repositories/finance_invoices.go:64-182 | two recordings of an invoice never both commit, and the one that does posts exactly two transactions |
| `BillCredits.NotePostedOnce` | api/internal/repositories/finance_invoices.go:199-272 | a credit note is posted at most once in any run |
| `BillCredits.CreditedIsTheNotes` | api/internal/repositories/finance_invoices.go:199-272 | credited is the sum of the distinct notes posted against the bill, at every point |
| `BillCredits.ReplayAcknowledgedIff` | api/internal/repositories/finance_invoices.go:184-240 | a note replayed right after it was posted is acknowledged if and only if what is left covers it again; otherwise it is refused as invalid |
| `BillCredits.WithinIff` | api/internal/repositories/finance_invoices.go:199-272 | no bill is credited past its amount up to any point if and only if no edit set a bill under what it was credited and none overtook a credit in flight leaving less than that credit makes in all |
| `BillCredits.UnmovedCreditWithin` | api/internal/repositories/finance_invoices.go:222-272 | a committed credit stays within the bill whenever its transaction list is the one read |
| `BillCredits.CreditPassesAmount` | api/internal/repositories/finance_invoices.go:245-257 | for every paid bill: reopened, lowered and paid again while a credit is in flight, the credit commits and passes the bill |
| `BillCredits.CreditsNeverPass` | api/internal/repositories/finance_invoices.go:199-272 | in every run that lowers no amount no bill is ever credited past its amount |
| `BillMoves.SettlementMoves` | api/internal/repositories/bills.go:612-658 | for every committed settlement: one settlement is posted on its date, the paying account (the one given, else the bill's) moves by exactly what was paid, the difference category by the gap, the control account by the bill's amount, every other account by nothing |
| `BillMoves.SettledRow` | api/internal/repositories/bills.go:564-658 | the bill is paid from that account, off the lists, with one transaction more, and otherwise as stored |
| `BillMoves.SettleCommitsIff` | api/internal/repositories/bills.go:585-658 | it commits if and only if the bill read is a forecast and its guard holds, paid is positive and valid, a gap has a category, and a given account is cash |
| `BillMoves.CreditMoves` | api/internal/repositories/finance_invoices.go:235-259 | for every committed note: one transaction is posted on its date, the bill's account and its category move by the amount, one against the other, every other account by nothing |
| `BillMoves.CreditCommitsIff` | api/internal/repositories/finance_invoices.go:222-272 | it commits if and only if it is new, the bill is paid with credited as read, and what is left covers it |
| `BillMoves.CreditsPosted` | api/internal/repositories/finance_invoices.go:222-272 | over any run a bill's credit postings net, on the category of each, to minus what it says was credited (plus, for a receivable) |
| `BillMoves.CreateMakes` | api/internal/repositories/bills.go:217-264 | it commits if and only if the bill is valid and new: stored as drafted, a listed forecast, its amount recognised on its competence and on no other account |
| `BillMoves.InvoiceMakes` | api/internal/repositories/finance_invoices.go:82-182 | it commits if and only if the bill is valid and new: recognised on its competence and settled on the day paid, so cash stands against the category and no control account moves |
| `BillMoves.CancelMoves` | api/internal/repositories/bills.go:700-725 | it commits if and only if the bill read is a forecast and its guard holds, and takes back exactly what was recognised |
| `BillMoves.EditApplies` | api/internal/repositories/bills.go:790-919 | amount, category, account, due date, description and auto-settle each become what the edit asks for where it differs from what was read, and stay as stored otherwise; nothing else changes |
| `BillMoves.EditMoves` | api/internal/repositories/bills.go:860-875 | every account moves by the new recognition less the old, on the competence date; no posting when neither amount nor category changes |
| `BillMoves.EditCommitsIff` | api/internal/repositories/bills.go:790-919 | an edit commits if and only if the bill read is a forecast, the edited one is valid, and it changes nothing or the guard holds |
| `BillMoves.AdjustPosts` | api/internal/domain/finance/posting.go:190-223 | every change of amount or category between valid bills has a balanced net transaction |
| `BillRepository.Ledgered.Create` | api/internal/repositories/bills.go:217-264 | answers and writes exactly what the modelled transaction does on any row read, refusals writing nothing |
| `BillRepository.Ledgered.Edit` | api/internal/repositories/bills.go:790-919 | answers and writes exactly what the modelled transaction does on any row read, refusals writing nothing |
| `BillRepository.Ledgered.Settle` | api/internal/repositories/bills.go:541-658 | answers and writes exactly what the modelled transaction does on any row read, refusals writing nothing; what that moves is BillMoves.SettlementMoves |
| `BillRepository.Ledgered.Cancel` | api/internal/repositories/bills.go:663-725 | answers and writes exactly what the modelled transaction does on any row read, refusals writing nothing |
| `BillRepository.Ledgered.Unsettle` | api/internal/repositories/bills.go:924-969 | answers and writes exactly what the modelled transaction does on any row read, refusals writing nothing |
| `BillRepository.Ledgered.RestoreCancelled` | api/internal/repositories/bills.go:730-772 | answers and writes exactly what the modelled transaction does on any row read, refusals writing nothing |
| `BillRepository.Ledgered.PostNote` | api/internal/repositories/finance_invoices.go:222-272 | answers and writes exactly what the modelled transaction does on any row read, refusals writing nothing; what that posts is BillMoves.CreditMoves |
| `BillRepository.Ledgered.PutInvoice` | api/internal/repositories/finance_invoices.go:82-182 | answers and writes exactly what the modelled transaction does on any row read, refusals writing nothing |
| `BillTheorems.RacingEditsCommute` | api/internal/repositories/bills.go:861-902 | two racing edits that move no guarded attribute and change different ones give the same row in either order: each sets only what it changed, and the rest keeps the stored value |
| `BillRepository.Ledgered.RecordInvoice` | api/internal/repositories/finance_invoices.go:64-182 | with any other writers in between: invariant kept, created only if it was not there, and success means the bill is there; with none in between every valid invoice is recorded, or found recorded |
| `BillRepository.Ledgered.RecordInvoiceCredit` | api/internal/repositories/finance_invoices.go:199-272 | with any other writers in between: invariant kept, posted only if the note was new, and success means the note is there; with none in between the answer is that of one attempt on the bill as it stands, a repeat acknowledged |
| `LedgerMerge.MergePreservesMeaning` | api/internal/repositories/ledger_merge.go:20-49 | what the merged list does to any store, refusals included, is what the original means, when folded updates only ADD, name the same attributes and no condition compares a value |
| `LedgerMerge.MergedDistinct` | api/internal/repositories/ledger_merge.go:30-43 | folded updates have pairwise distinct table, key, expression and condition |
| `LedgerMerge.OthersUntouched` | api/internal/repositories/ledger_merge.go:24-29 | all other writes appear unchanged and in order |
| `LedgerMerge.MergeTwice` | api/internal/repositories/ledger_merge.go:20-49 | merging twice is merging once |
| `LedgerMerge.NamesFoldIff` | api/internal/repositories/ledger_merge.go:30-31 | two one-term updates with the same text fold right if and only if their aliases name the same attribute |
| `LedgerMerge.SetFoldIff` | api/internal/repositories/ledger_merge.go:17-27 | an expression that goes on with SET folds right if and only if the first value set is zero |
| `LedgerMerge.ConditionFoldIff` | api/internal/repositories/ledger_merge.go:30-47 | a condition that compares a value survives folding if and only if both values are zero |
| `LedgerMerge.JoinedTellsApart` | api/internal/repositories/ledger_merge.go:30-31 | texts free of NUL bytes share their joined group key if and only if they are the same texts |
| `LedgerMerge.UpdateItem.AddValues` | api/internal/repositories/ledger_merge.go:44-47 | the loop leaves name by name the sum, a missing value counting as zero |
| `LedgerMerge.MergeAdds` | api/internal/repositories/ledger_merge.go:20-49 | the loop with its index map computes the merge in new objects: nothing handed over is changed |
| `Idempotency.IdempotencyStore.Claim` | api/internal/repositories/idempotency.go:68-115 | runs exactly on a free key or a lapsed claim, otherwise replays, conflicts or waits; an answer is never overwritten |
| `Idempotency.IdempotencyStore.Complete` | api/internal/repositories/idempotency.go:117-133 | from then on every request with the body is told the answer and any other refused, at any time, and neither a claim nor a release changes the row, kept for its full time |
| `Idempotency.IdempotencyStore.Release` | api/internal/repositories/idempotency.go:135-151 | only a claim is removed, never an answer |
| `Idempotency.IdempotencyStore.Serve` | api/internal/middleware/idempotency.go:99-167 | a success is what every later request with the body is told, a failure frees the key, a lost record keeps it claimed for the lease |
| `Idempotency.OneRunsAtATime` | api/internal/repositories/idempotency.go:60-115 | for any number of processes and any interleaving at most one handler runs while none outlives its lease |
| `Idempotency.TwoMeansOutlived` | api/internal/repositories/idempotency.go:60-115 | two at once imply that a handler had outlived its lease |
| `Idempotency.SecondRunsIff` | api/internal/repositories/idempotency.go:87-97 | beside a running holder a claim runs a second handler if and only if the holder's lease had lapsed |
| `Idempotency.LateReleaseFreesAnother` | api/internal/repositories/idempotency.go:135-151 | a handler that outlives its lease releases its successor's claim, and a third, with another body, runs beside it |
| `Idempotency.AnsweredStays` | api/internal/repositories/idempotency.go:117-151 | an answered key stays answered until the table drops it, whatever late processes do |
| `Idempotency.NoneRunsOnceAnswered` | api/internal/repositories/idempotency.go:68-115 | meanwhile no request with the key runs |
| `Idempotency.AnswerReplayed` | api/internal/middleware/idempotency.go:115-136 | within leases every later request is told the committed answer if its body is the same and refused if not |
| `Idempotency.DifferentBodyNeverRuns` | api/internal/repositories/idempotency.go:105-115 | beside a running handler the same body waits and another conflicts |
| `CreditNotes.CreditsNeverPass` | api/internal/repositories/creditnotes.go:64-191 | in every interleaving the notes sum to credited_total and never exceed the invoice, old rows included, when the start has credited_total or at most a page of notes |
| `CreditNotes.OneNotePerListing` | api/internal/repositories/creditnotes.go:159-191 | of notes issued on one listing at most one commits |
| `CreditNotes.PastAPageNoneCommits` | api/internal/repositories/creditnotes.go:195-229 | a note commits only while the notes fit one page |
| `CreditNotes.IssueCommitsIff` | api/internal/repositories/creditnotes.go:64-191 | on current reads, with the notes on one page, a note commits if and only if the invoice is open, paid or uncollectible, the note is new and what is left covers it |
| `CreditNotes.NotesOnLiveInvoices` | api/internal/repositories/creditnotes.go:64-191 | whatever was read when, a committed note is on such an invoice, adds itself alone, and sets credited_total to the sum with it |
| `CreditNotes.OldRowRightIff` | api/internal/repositories/creditnotes.go:178-229 | on a row without credited_total the new one is the sum of the notes if and only if they fit one page |
| `CreditNotes.OldRowPasses` | api/internal/repositories/creditnotes.go:178-229 | with more, a note for all that the page leaves commits and the notes pass the invoice |
| `CreditNotes.ListNotes` | api/internal/repositories/creditnotes.go:195-229 | the first notes in key order, at most a page, each once |
| `CreditNotes.SumNotes` | api/internal/repositories/creditnotes.go:231-246 | the loop's total is the sum of the listed notes |
| `CreditNotes.Invoice.Commit` | api/internal/repositories/creditnotes.go:64-191 | answers and writes exactly what the modelled transaction does |
| `CreditNotes.Invoice.Issue` | api/internal/repositories/creditnotes.go:64-191 | with others issuing in between: invariant kept, and a note that commits leaves credited_total the sum of the notes; with none in between it is issued exactly when the invoice is live and covers it |
| `Resume.MissedIff` | api/internal/realtime/gateway.go:239-331 | a change is not queued after a replay if and only if no read of a shared scope showed it and each broadcast of it is still to come or came before registration |
| `Resume.NoneMissed` | api/internal/realtime/gateway.go:239-331 | when each read shows what was broadcast before registration, every change past the cursor is queued or still to be broadcast, unless a gap was sent or the connection is ending |
| `Resume.GapIff` | api/internal/realtime/gateway.go:292-323 | at every point of every trace a gap has been sent if and only if the replay was refused or the log could not be read, or the distinct changes past the cursor that the reads showed outnumber the limit |
| `Resume.ReplayedWhole` | api/internal/realtime/gateway.go:309-330 | with at most the limit of them, and nothing ending the connection, every one is queued once it is live, and no gap was sent |
| `Resume.ConsistentReadsSeeEarly` | api/internal/repositories/realtime_log.go:178-232 | consistent reads always meet that condition, because registration comes before the read and publishing after the commit |
| `Resume.StaleReadMisses` | api/internal/repositories/realtime_log.go:190-195 | with the eventually consistent read in use a change broadcast just before registration can be missed without a gap |
| `Hub.Hub.Reserve` | api/internal/realtime/hub.go:75-93 | in one critical section: counted in if and only if both caps have room, otherwise nothing; counters exact and caps kept |
| `Hub.Hub.Release` | api/internal/realtime/hub.go:103-122 | in one critical section: counted out, counters exact, its scopes still to be left |
| `Hub.Hub.Add` | api/internal/realtime/hub.go:75-99 | with others joining and leaving between its scopes: registered under exactly its scopes, or refused at a cap and registered under none; counters exact throughout |
| `Hub.Hub.Remove` | api/internal/realtime/hub.go:101-127 | with others in between: out of its counters and of every scope; a second call does nothing |
| `Hub.JoinThenLeave` | api/internal/realtime/hub.go:75-122 | a connection that joins and leaves restores the counters exactly |
| `Delivery.WrittenIsAPrefix` | api/internal/realtime/conn.go:95-182 | in every interleaving the queued frames written are a prefix, in order, of those Send accepted, and the queue is bounded |
| `Delivery.EverythingThenClose` | api/internal/realtime/conn.go:143-182 | with no slow close and no write error every accepted frame, then the final one, then one close frame is written |
| `Delivery.NothingAfterClose` | api/internal/realtime/conn.go:143-182 | a close frame is the last message, as section 5.5.1 of RFC 6455 asks |
| `Delivery.SocketOnlyGrows` | api/internal/realtime/conn.go:143-182 | what was written stays, and a stopped writer never writes again |
| `Delivery.FirstEndingWins` | api/internal/realtime/conn.go:118-133 | once ending no frame is accepted and the first ending is the one told |
| `Delivery.ToldFinishes` | api/internal/realtime/conn.go:157-182 | a writer told to finish always has a step that brings it nearer to the end |
| `Delivery.Conn.Send` | api/internal/realtime/conn.go:95-116 | accepts exactly when not ending and not full; a full queue ends the connection with a gap |
| `Delivery.Conn.End` | api/internal/realtime/conn.go:118-133 | the first call sets the ending, later ones nothing |
| `Delivery.Conn.WriteQueue` | api/internal/realtime/conn.go:162-173 | the drain loop writes the queue in order up to the first error |
| `Delivery.Conn.WriteRest` | api/internal/realtime/conn.go:157-182 | queue unless slow, final frame, close; after an error no close is written |
| `RateLimits.KeptIsHistory` | api/internal/realtime/gateway.go:472-497 | filtering in place and forgetting idle principals lose nothing that still counts |
| `RateLimits.AllowedIff` | api/internal/realtime/gateway.go:472-497 | a replay is allowed if and only if fewer than max were allowed in the window before it, ever |
| `RateLimits.AtMostMaxPerWindow` | api/internal/realtime/gateway.go:472-497 | no window anywhere in any run holds more than max replays of one principal |
| `RateLimits.FilterInPlace` | api/internal/realtime/gateway.go:478-483 | the array's front holds exactly the recent times, in order |
| `RateLimits.ForgetIdle` | api/internal/realtime/gateway.go:489-495 | exactly the principals with nothing recent are forgotten |
| `RateLimits.ReplayLimiter.Allow` | api/internal/realtime/gateway.go:472-497 | answers and remembers exactly as the limiter the theorems are about |
| `RateLimits.FrameBudget.Take` | api/internal/realtime/gateway.go:554-566 | answers and refills exactly as the bucket the theorems are about |
| `RateLimits.BurstPlusRate` | api/internal/realtime/gateway.go:540-566 | any stretch of frames is admitted at most twice the rate plus the rate times its length |
| `RateLimits.RefusedWasSpent` | api/internal/realtime/gateway.go:540-566 | a frame is refused only if those since some moment used up the burst and all refilled since |
| `Purge.Store.DeleteKeys` | api/internal/repositories/finance_purge.go:271-302 | only the given keys go, some at a time, all of them on success; a run nothing cuts succeeds |
| `Purge.Store.DeletePartition` | api/internal/repositories/finance_purge.go:204-229 | only rows of the partition go, and on success none is left, however it is paged |
| `Purge.Store.Children` | api/internal/repositories/finance_purge.go:75-140 | finds exactly the partitions of a kind that the space's rows name |
| `Purge.Store.PurgeKind` | api/internal/repositories/finance_purge.go:104-140 | only child rows of the space go, and on success none of the kind is left |
| `Purge.Store.PurgeSpace` | api/internal/repositories/finance_purge.go:63-151 | wherever it is cut, every child partition with rows is still named and no other space's row is touched; on success nothing of the space is left, and a run nothing cuts succeeds |
| `Purge.Store.PurgeAtLast` | api/internal/repositories/finance_purge.go:55-151 | any number of cut runs and one complete one leave exactly the rows of other spaces |
| `StatementKeys.MonthOrder` | api/internal/domain/finance/month.go:43-43 | months sort as text exactly as in time |
| `StatementKeys.ParseIffText` | api/internal/domain/finance/month.go:45-55 | a text is read as month m if and only if it is m written out |
| `StatementKeys.MonthReadBack` | api/internal/repositories/cards_range.go:133-141 | the month of a statement or item key is read back from it, and none from a purchase key |
| `StatementKeys.FifthDigitBreaks` | api/internal/domain/finance/month.go:43-43 | four-digit years are where the order ends: written the same way, a month of years 10000 to 19999 sorts before every one of years 2000 to 9999 |
| `StatementKeys.RangeIsTheMonths` | api/internal/repositories/cards_range.go:30-34 | a key lies between STATEMENT#lo and STATEMENT#hi$ if and only if it is a statement or item of a month from lo to hi |
| `StatementKeys.PrefixIsTheMonth` | api/internal/repositories/finance_keys.go:35-40 | a month's prefix holds exactly its statement and items |
| `StatementRange.RangeHoldsTheMonth` | api/internal/repositories/cards_range.go:91-102 | a month's rows in the range query are those of its own query, in the same order |
| `StatementRange.BuildStatement` | api/internal/repositories/cards_purchases.go:408-460 | the loop builds exactly the statement that OpenShowsItems, ClosedShowsRow and StatusShown describe |
| `StatementRange.OwnRowsOnly` | api/internal/repositories/cards_purchases.go:405-407 | rows of other months do not change a statement |
| `StatementRange.LastMonthIsGreatest` | api/internal/repositories/cards_range.go:116-131 | the last statement row in key order has the greatest month |
| `StatementRange.LastItemMonth` | api/internal/repositories/cards_range.go:118-131 | the later of the floor and that month |
| `StatementRange.PageWindow` | api/internal/repositories/cards_range.go:46-90 | the lazily looked-up end gives the same months and HasMore as the eager one, in both directions |
| `StatementRange.Range` | api/internal/repositories/cards_range.go:35-114 | refused exactly for a count outside 1 to 12; every statement of a page is the single-month one |
| `StatementRange.ForwardVisitsAll` | api/internal/repositories/cards_range.go:74-90 | following pages forward visits every month from the one asked to the end once, in order |
| `StatementRange.BackwardVisitsAll` | api/internal/repositories/cards_range.go:58-73 | and backward every month down to the first |
| `StatementShown.OpenShowsItems` | api/internal/repositories/cards_purchases.go:408-460 | when no row closes the month the total is the sum of exactly its item rows and there is no bill |
| `StatementShown.ClosedShowsRow` | api/internal/repositories/cards_purchases.go:416-424 | when a row closes it total and bill are that row's, whatever the items |
| `StatementShown.StatusShown` | api/internal/repositories/cards_purchases.go:445-453 | closed exactly when a row closes it or it is past, open exactly when it is the open month, future otherwise; the items are exactly the month's |
| `StatementShown.ReadAlone` | api/internal/repositories/cards_purchases.go:397-403 | the single-month read shows what the whole partition would |
| `StatementShown.EndIsTheLast` | api/internal/repositories/cards_range.go:116-131 | statements go on to month m if and only if it is within a year past the open month or some row is of m or later |
| `StatementShown.PageHolds` | api/internal/repositories/cards_range.go:46-114 | a page holds min(count, months left) statements, month after month from its start, newest first when backward, and says there are more exactly when more are left |
| `StatementShown.ShownIsKept` | api/internal/repositories/cards_purchases.go:408-460 | over the rows of a modelled card, what is shown is the card's statement total, its bill and its state |
| `StatementShown.ShownIsFrozen` | api/internal/repositories/cards_close.go:105-166 | a close at the total shown freezes it: shown closed afterwards, at the same total, with a bill exactly if it owes |
| `Rebuild.Derive` | api/internal/domain/finance/derive.go:27-47 | the loops give every account its ledger balance and every month its debits and credits |
| `Rebuild.Compare` | api/internal/repositories/ledger_rebuild.go:32-69 | each cached value that differs is reported once, with both values, and nothing else |
| `Rebuild.EmptyReportIff` | api/internal/repositories/ledger_rebuild.go:32-69 | the report is empty if and only if cache and transactions agree everywhere, missing counting as zero |
| `Rebuild.Cache.ApplyDrift` | api/internal/repositories/ledger_rebuild.go:116-145 | afterwards every account of the chart and every month is right, and no account was added |
| `Rebuild.Cache.Rebuild` | api/internal/repositories/ledger_rebuild.go:75-110 | reports the drift of the cache it found; repairs when asked, else changes nothing |
| `Rebuild.Cache.RebuildTwice` | api/internal/repositories/ledger_rebuild.go:75-145 | a second run after a repair reports exactly the non-zero balances of accounts absent from the chart |

## Left out

- The database, queues, HTTP and serialization: stores are maps with atomic conditional commits; continuation tokens appear only where paging is the point.
- Permission checks, audit rows, realtime rows inside transactions, memos, flows and updated_at: fields with no harder property.
- The schedule row of a card's close and the reopening grace of seven days: they decide when the daily job looks, not what a close does.
- Recurrences, imports, bank-line classification and synced accounts: they reach bills and cards through the operations modelled here.
- Late charges of an invoice: one more posting in the same write, which moves no control account.
- int64 overflow, wall-clock drift and lost broadcasts: integers are unbounded, the clock never goes back, every broadcast is made.
- Floating-point rounding in the frame budget: arithmetic is over reals.
- The stable sort of a statement's items and of a drift report: both are given in key order and in no order.
- The per-table counts a purge returns, its worker pool, and the 25-key chunking: batches are sets of keys deleted some at a time.
- The head cache, ticks, reauthorization and draining of the gateway: mostly timers around the connection modelled here.
- Delivery.Conn.Send: the method is one uninterrupted call; the steps between finding the queue full and ending the connection are interleaved only in the state machine.
- LedgerMerge.MergePreservesMeaning: group keys are compared field by field, which is the joined text's comparison (JoinedTellsApart) when no key holds a NUL byte.
- StatementRange.Range: years have four digits, as the month parser demands of every month it reads; past them keys no longer sort by time (FifthDigitBreaks).
- Resume: the order of replayed frames, and a replay limit of zero, with which the log is not read at all; the gateway's limit is 500.
- Catalog, customers, subscriptions, gateways, cryptography, templates and UI: not part of this model.
