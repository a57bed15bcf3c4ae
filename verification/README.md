# Verified model of the accounting engine, the appointment slots and the login-ceremony store

This project models, in Dafny, three parts of the product and proves what they promise:

1. **Accounting** (`product/accounting`): periods, journal entries, invoices, bills, credit notes,
   payments with allocations, bank statement lines. All of them share one ledger. Every service
   call is one transaction that commits whole or leaves the tables as they were.
2. **Appointments** (`product/appointments`): the slot generator over local wall-clock rules, and
   booking against the no-double-booking constraint.
3. **The login-ceremony store** (`login-service/app/ceremony.py`).

`dafny verify dfyconfig.toml` checks everything.

## How it is laid out

| file | what it holds |
|---|---|
| `Foundations.dfy` | options and results, sums over tables, queries |
| `Records.dfy` | the accounting rows; a table is a sequence of rows, a row's id its position; the whole database is one value |
| `Rounding.dfy` | half-up rounding and how far a line is off |
| `Journal.dfy`, `Documents.dfy`, `Payments.dfy`, `Banking.dfy` | every transaction as a function from tables to tables or an error, with the lemmas about it |
| `Operations.dfy` | the 23 service calls, a step, a run |
| `Subledger.dfy`, `Invariants.dfy` | what every step keeps, call by call |
| `Theorems.dfy` | what holds after every run |
| `JournalAnswers.dfy`, `DocumentAnswers.dfy`, `BankAnswers.dfy` | what every call answers, told from its arguments and the rows alone: when it is refused and why, and every field of the rows it writes |
| `Books.dfy` | the services as they run: a class whose methods change the tables statement by statement, with the loops of the code, and roll back on failure; each method is proved to do exactly its step |
| `Cancellation.dfy` | what becomes of a document after its cancellation, and after its entry was reversed by hand |
| `TwoPhase.dfy` | interleaved transactions that take exclusive locks one by one and hold them to the end |
| `Traffic.dfy` | the accounting transactions as they lock, read and write, and what any interleaving of them keeps |
| `Issuing.dfy` | gapless numbers on the rows, in any interleaving |
| `Continuations.dfy` | how an interleaved run can go on |
| `LateUpdates.dfy` | when the lines of a posted entry are balanced |
| `LateTotals.dfy` | when the total of a posted document is still the one booked |
| `OpenBalances.dfy` | what a document owes when services go past the key of its balance |
| `Projection.dfy` | the values behind the locks as the tables say them; a committed service changes them exactly as its transaction in `Traffic.dfy` does |
| `Mirror.dfy` | the other half, and whole runs: a service is refused exactly when its transaction is, so a run leaves the values its transactions leave |
| `Races.dfy`, `Overlaps.dfy` | interleavings no serial order explains, on values and on the tables of a reachable state, each with its exact condition |
| `Runs.dfy` | runs from an empty tenant that reach each of them |
| `Availability.dfy`, `Booking.dfy` | slots, booking, and their agreement |
| `AppointmentAnswers.dfy` | which slots are offered and how often, and what every appointment call answers, told the same way |
| `Ceremony.dfy` | the ceremony store |

Scales: money is whole cents, quantities and prices are hundredths, tax rates thousandths of a
percent, dates day numbers, instants microseconds. The column types are Numeric(18,2); allocation and
payment amounts are never quantized by the code, so whole cents is a precondition of the model.

The transactions are functions made of smaller ones. The lemmas in the `...Answers` modules, and those
of that name in `Ceremonies`, say what each call answers without those smaller functions: a posted
invoice's tax is told by the account of the tax code, a line's subtotal by being nearest to quantity
times price, a slot by its weekday counted from a Monday. Every method in `Books.dfy` and in the
classes of the other two parts is proved to do exactly such a call, so they hold of the methods too.

Ledger and sub-ledgers: a journal entry carries an auxiliary column `manual`, true when the entry
came from the journal service itself. `Theorems.BalanceIsAccountedFor` needs no restriction on the
run: every account's balance is the documents, plus the credit notes, plus the bank lines, plus the
manual entries. The receivable, payable and bank corollaries then assume that nothing else, in
particular no manual reversal, touches the account.

## Where the code falls short of a promise

- **Free lines.** A line with price 0 is accepted when a document is created, but its journal line
  has neither side positive, so posting aborts on the CHECK constraint.
  `Theorems.PostsExactlyWhen` gives the exact condition, `Theorems.FreeLineBlocksPosting` an input.
- **Reversing a document's entry by hand.** `reverse_journal_entry` looks at the status only, so it
  accepts an entry that belongs to a document (`Cancellation.ReversingByHandBlocks`). That document can
  then never be cancelled (`Theorems.CancelsExactlyWhen`, `Theorems.ReversedByHandNeverCancels`);
  `Cancellation.ReversedSaleCannotBeCancelled` is a run that gets there.
- **Reversing an allocation of a cancelled document** gives the document an outstanding amount again
  (a run: `Cancellation.CancelledSaleOwesAgain`). From the cancellation on it owes what was live then
  less what is live now, so nothing exactly when none of those allocations was reversed since:
  `Cancellation.CancelledOwesWhatWasReversed`.
- **Updating an entry takes no lock, and reversing copies what it finds.** The design says a posted
  entry's lines never change (`docs/ADR/0014-mini-accounting-foundation.md`, Decision 3).
  `update_journal_entry` checks the status without locking the row, so any draft that can be posted can
  be updated to unbalanced lines while it is (`Overlaps.UpdatingWhilePostingUnbalances`), and reversing
  it then posts a second unbalanced entry that nobody ever updated (`Overlaps.SpoiledIsReversed`; a run:
  `Runs.DraftIsSpoiled`). A reversing entry balances exactly when the reversed one does at that moment
  (`LateUpdates.ReversalBalancesExactlyWhen`). At the end of a run a posted entry is balanced exactly
  when the last change to its lines after the post left it so, be it an update or the reversal it came
  from (`LateUpdates.PostedIsBalancedExactlyWhen`), and it is safe from a state on exactly when no
  update to unbalanced lines that saw the draft is in flight (`LateUpdates.SafeExactlyWhen`). Two
  updates of one entry that overlap are outside this: there the code keeps the lines of both, so a
  later update repairs an entry only if it deleted after the earlier one had committed.
- **Updating an invoice or a bill takes no lock either.** Any draft that can be posted can be given
  another total while it is (`Overlaps.UpdatingWhilePostingMovesTotal`; a run: `Runs.SaleIsRewritten`):
  it owes and has booked the one, and shows the other. The total is the booked one exactly when no late
  update wrote another (`LateTotals.TotalIsBookedExactlyWhen`), and the sub-ledger is off the ledger by
  the sum of what late updates moved (`LateTotals.SubledgerIsLedgerPlusMoved`).
- **Reversing an allocation looks before it locks.** A reversal that is ready commits exactly when its
  look said the allocation was not reversed and the payment has room for the amount now
  (`Races.ReversalCommitsExactlyWhen`), so a second one that commits looked before the first committed
  (`Overlaps.LooksOverlap`). On the tables, one allocation can be reversed twice exactly when the
  payment's other live allocations come to at least its amount; otherwise the CHECK on payments stops
  the second (`Overlaps.TablesReverseTwiceExactlyWhen`). `Runs.HalfReversedTwice` is such a run; in
  series the second reversal is refused (`Races.SerialReversalHappensOnce`). In any interleaving at
  most one commits exactly when none commits on an outdated look (`Overlaps.ReversedOnceExactlyWhen`).
- **Confirming a match loads the document before locking its key.** Any two lines that can each be
  confirmed against one document can both be, at the same time (`Overlaps.TwoLinesSettleOneDocument`; a
  run: `Runs.TwoLinesSettleOneSale`), and an allocation can slip in before a confirmation
  (`Overlaps.ConfirmationOvertaken`, `Runs.OverpaidSaleOwesNothing`); the exact condition of one
  confirmation is `Overlaps.MatchCommitsExactlyWhen`.
- **Posting and cancelling set the outstanding amount without the document's key.** An allocation
  overtaken by a cancellation leaves the cancelled document owing what it owed less the amount
  (`Overlaps.AllocationOvertaken`, `Overlaps.AllocationCommitsExactlyWhen`; a run:
  `Runs.CancelledSaleOwes`).
- **What a document owes** at the end of any interleaving is what it should owe plus the drift: how far
  the readings that committed since the last post or cancellation were off. The equation of payments
  holds exactly when that is zero (`OpenBalances.OwesExpectedPlusDrift`).
- **The line digest is of the amount's spelling.** A row is dropped exactly when an earlier one has its
  date, its spelling and its description (`Banking.DroppedExactlyWhen`), so 10.5 and 10.50 are different
  lines (`Banking.SpellingEscapesDetection`).
- **The prefetch window of the slot query** is enough, whatever is booked, exactly when every grid slot
  of the query lies in it (`Availability.PrefetchSufficesExactlyWhen`), as it does when the zone's
  offsets over the queried dates differ by less than 24 hours (`Availability.PrefetchSuffices`); from
  +12 to -12 hours is too much (`Booking.ADayOfSpreadIsTooMuch`). A slot is as long as its duration
  only when both its ends have the same UTC offset, and overlapping rules can yield a slot more than
  once.

## Model

| member | source | states |
|---|---|---|
| `Theorems.TrialBalance` | product/accounting/journal.py:475-500 | after any run of service calls, per currency, debits equal credits over posted and reversed entries; each such entry has at least two one-sided lines and lies in the one period covering its date |
| `Theorems.HistoryIsFixed` | product/accounting/journal.py:378-404 | later calls only add: posted entries keep their lines and everything else but the move to reversed, issued documents, notes, allocations and reconciled lines stay |
| `Theorems.ReversalChains` | product/accounting/journal.py:561-628 | in any reachable ledger an entry has at most one reverser, is reversed exactly when it has one, reversals form finite chains ending in a posted entry, and a chain nets to the first entry's effect or to zero by the parity of its length |
| `Journal.ChainShape` | product/accounting/journal.py:595-626 | chains visit strictly later rows, each reversing the one before |
| `Journal.ChainNet` | product/accounting/journal.py:611-625 | the net effect of a chain on any account, by parity |
| `Journal.MirrorTotals` | product/accounting/journal.py:611-625 | a mirrored entry swaps the totals and undoes the effect on every account |
| `Theorems.BalanceIsAccountedFor` | product/accounting/invoices.py:556-679 | after any run every account's balance in every currency is documents + notes + bank lines + manual entries |
| `Theorems.ControlAccountAgreement` | product/accounting/invoices.py:738-773 | a receivable stands at posted invoices less posted credit notes less reconciled bank lines; a payable is the mirror image |
| `Theorems.BankAccountAgreement` | product/accounting/banking.py:807-849 | a bank's ledger account stands at the signed amounts of its reconciled lines |
| `Theorems.GaplessNumbers` | product/accounting/invoices.py:586-597 | after any run, failed posts included, invoice numbers are exactly 1..n on the posted and cancelled invoices, and credit notes have their own 1..m |
| `Theorems.Conservation` | product/accounting/payments.py:517-560 | payment amount = unallocated + live allocations; posted document outstanding = total - live allocations; 0 <= outstanding <= total in every status |
| `Theorems.ReversibleExactlyOnce` | product/accounting/payments.py:520-545 | in a reachable state an allocation can be reversed exactly when it is not a reversal and was not reversed, and then not again |
| `Theorems.BankLinesAreDistinct` | product/accounting/banking.py:480-514 | after any run no two lines of a bank account share a digest, and exactly the reconciled lines name an entry |
| `Theorems.TotalsAddUp` | product/accounting/invoices.py:275-291 | after any run every document's and note's total is the sum of its rounded line totals, and not negative |
| `Theorems.TotalIsClose` | product/accounting/invoices.py:191-216 | a created document of n lines differs from the unrounded total by at most n * (1 + maxRate/200) cents |
| `Documents.TotalRoundingBound` | product/accounting/invoices.py:191-216 | the same bound for any computed lines; that each line is the nearest cent is `DocumentAnswers.ComputeLinesAnswer` |
| `Rounding.LineRoundingBound` | product/accounting/invoices.py:205-215 | one line is off by at most half a cent, half a cent of tax, and the tax on half a cent |
| `Rounding.LineRoundingBoundIsReached` | product/accounting/invoices.py:205-215 | a line that is off by the whole bound |
| `Rounding.RoundHalfUp` | product/accounting/invoices.py:72-76 | the nearest cent, the upper one at the midpoint |
| `Rounding.RoundHalfUpUnique` | product/accounting/invoices.py:72-76 | nearest with ties upwards determines the result |
| `Theorems.LastEntryEditCounts` | product/accounting/journal.py:362-404 | updating a draft entry is as if it had been created that way, errors included |
| `Theorems.LastDocumentEditCounts` | product/accounting/invoices.py:454-507 | the same for a draft document and its totals |
| `Theorems.PostsExactlyWhen` | product/accounting/invoices.py:559-584 | a document posts exactly when it is a draft with lines, a positive total, no free line, and its date is in an open period |
| `Theorems.FreeLineBlocksPosting` | product/accounting/invoices.py:626-636 | a draft with a positive total and one free line cannot be posted in an open period |
| `Theorems.NotePostsExactlyWhen` | product/accounting/credit_notes.py:453-495 | the same condition for a credit note, with its invoice still posted |
| `Theorems.CancelsExactlyWhen` | product/accounting/invoices.py:753-773 | a posted document can be cancelled exactly when its entry is still posted and the date is in an open period; cancelling takes exactly its effect off every balance |
| `Theorems.ReversedByHandNeverCancels` | product/accounting/journal.py:564-568 | once its entry was reversed by hand no later run makes a document cancellable |
| `Cancellation.ReversingByHandBlocks` | product/accounting/journal.py:561-568 | any posted document whose entry is posted can have it reversed by hand, and then cancelling is refused |
| `Cancellation.ReversedSaleCannotBeCancelled` | product/accounting/invoices.py:753-773 | a run from an empty tenant: sell, reverse the entry by hand, and the invoice cannot be cancelled |
| `Cancellation.CancelledOwesWhatWasReversed` | product/accounting/payments.py:517-545 | along any run after a cancellation the document owes its live total at the cancellation less its live total now: nothing exactly when none of the allocations live then was reversed since |
| `Cancellation.CancelledSaleOwesAgain` | product/accounting/payments.py:517-545 | a run that ends with a cancelled invoice owing 5.00 |
| `Theorems.ConfirmsExactlyWhen` | product/accounting/banking.py:724-761 | a match is confirmed exactly when the line is unmatched, the document posted, of the right kind, owing exactly the amount, and the period open |
| `Theorems.AssignsExactlyWhen` | product/accounting/banking.py:954-985 | a line is assigned exactly when it is unmatched, the account exists and is active, and the period is open |
| `Theorems.ConfirmOutcome` | product/accounting/banking.py:783-860 | the payment is fully allocated, the document owes nothing, one posted two-line entry moves the amount, the line is reconciled |
| `Theorems.PayAndAllocate` | product/accounting/banking.py:783-804 | paying and allocating a matching amount inside the transaction always succeeds |
| `Theorems.PostsOnlyIntoOpenPeriods` | product/accounting/journal.py:487-500 | whatever call makes an entry live does so in an open period covering its date |
| `Theorems.ClosedPeriodStaysQuiet` | product/accounting/periods.py:177-209 | between a close and the next reopen nothing posts into the period |
| `Invariants.StepKeepsInv` | product/accounting/journal.py:454-501 | every call keeps all tables sound, numbers gapless and balances accounted for, and only adds to history |
| `Invariants.RunKeepsInv` | product/accounting/journal.py:553-628 | so does every run |
| `Periods.FindPeriod` | product/accounting/periods.py:158-174 | a period covering the date, or none covers it |
| `Periods.LookupIsStable` | product/accounting/journal.py:487-492 | looking the period up before locking it is safe: it stays the one covering the date |
| `Documents.AccumulateTotal` | product/accounting/invoices.py:625-642 | the tax dictionary sums to the tax total |
| `Documents.AccumulateByAccount` | product/accounting/invoices.py:637-642 | per account it holds the taxes of the lines whose tax code has that account |
| `Documents.EntryLinesBalance` | product/accounting/invoices.py:599-654 | the entry of any invoice or bill balances at the total, and moves every account by the total, the subtotals booked there and the taxes of the codes with that account |
| `Documents.NoteEntryLinesBalance` | product/accounting/credit_notes.py:527-566 | the same for a credit note |
| `Documents.EntryLinesOneSided` | product/accounting/models.py:332-340 | that entry passes the one-sided CHECK exactly when no line is free |
| `Documents.NoteEntryLinesOneSided` | product/accounting/models.py:332-340 | the same for a credit note |
| `Numbering.LastNumberIsCount` | product/accounting/invoices.py:591-597 | the highest number given out is how many were given out |
| `Numbering.NextKeepsGapless` | product/accounting/invoices.py:590-597 | handing out highest + 1 leaves no gap and no repeat |
| `Payments.AppendedLive` | product/accounting/payments.py:547-559 | a reversal takes exactly the original's amount off the live totals of its payment and document |
| `Payments.RowKeepsAllocationsOk` | product/accounting/payments.py:368-383 | moving an amount between the open balances and the live totals keeps every balance equation |
| `Banking.ImportIsUnion` | product/accounting/banking.py:480-514 | the stored digests become the union of old and file digests, without repeats, other bank accounts untouched |
| `Banking.ImportIsIdempotentAndCommutes` | product/accounting/banking.py:480-514 | importing a file again adds nothing; the order of two files does not matter for the digests and the number of lines |
| `Banking.ImportGrowsByNewDigests` | product/accounting/banking.py:490-513 | the imported count is the number of new digests |
| `Banking.DroppedExactlyWhen` | product/accounting/banking.py:361-365 | with a collision-free digest a row is dropped exactly when an earlier row has its date, its spelling of the amount, and its description |
| `Banking.SpellingEscapesDetection` | product/accounting/banking.py:361-365 | with a collision-free digest one movement of 10.50, written 10.5 and 10.50, is imported twice |
| `Banking.BankEntryLinesEffect` | product/accounting/banking.py:820-847 | the two lines balance at the amount and move its signed value from the counterpart to the bank |
| `JournalAnswers.LookupAnswer` | product/accounting/journal.py:487-495 | a date is refused when no period has it or the first one with it is closed; otherwise that period is open |
| `JournalAnswers.CreatePeriodAnswer` | product/accounting/periods.py:70-96 | a period is created exactly when it does not end before it starts and shares no day with another; it is open, and from then on exactly its dates are looked up to it |
| `JournalAnswers.SetPeriodAnswer` | product/accounting/periods.py:177-239 | closing needs an open period, reopening a closed one; only that flag of that row changes |
| `JournalAnswers.CreateEntryAnswer` | product/accounting/journal.py:190-281 | a draft is created exactly when it has two lines or more, each on one side of an account that is there and active; else the first bad line gives the error. The row has the date, currency and lines given |
| `JournalAnswers.UpdateEntryAnswer` | product/accounting/journal.py:362-404 | the same check on a draft; only its lines change |
| `JournalAnswers.PostEntryAnswer` | product/accounting/journal.py:454-501 | a draft of two or more balanced lines is posted into the open period of its date; only status and period change |
| `JournalAnswers.ReverseEntryAnswer` | product/accounting/journal.py:553-628 | a posted entry is reversed exactly when the date asked for is in an open period; one row more, with that date and period, posted, naming the original, in its currency and with its lines swapped; the original changes only its status, every other row stays |
| `DocumentAnswers.ComputeLinesAnswer` | product/accounting/invoices.py:191-242 | lines are computed exactly when each can be ordered; each keeps account, quantity, price and tax code, has the subtotal nearest to quantity times price and the tax nearest to the code's rate of it, halves upwards, and no tax without a code; else the first bad line gives the error |
| `DocumentAnswers.CreateDocumentAnswer` | product/accounting/invoices.py:268-316 | the new row has the kind, control account, currency and date given, is a draft that owes nothing, with no number and no entry, with those lines and their total |
| `DocumentAnswers.UpdateDocumentAnswer` | product/accounting/invoices.py:454-507 | only a draft's lines and total change, to those of the new input |
| `DocumentAnswers.CreateNoteAnswer` | product/accounting/credit_notes.py:251-330 | the same for a credit note, on a posted invoice only |
| `DocumentAnswers.PostDocumentAnswer` | product/accounting/invoices.py:556-679 | when an invoice or bill is refused and why; else its entry has its date and currency, lies in the open period, has the control line, one line per document line and one per tax account, and moves every account by its total, the subtotals booked there and the taxes of the codes with that account; the document is posted, owes its total, names the entry, and an invoice gets the next number |
| `DocumentAnswers.PostNoteAnswer` | product/accounting/credit_notes.py:453-590 | the same for a credit note, on the other side |
| `DocumentAnswers.CancelDocumentAnswer` | product/accounting/invoices.py:753-773 | in a reachable state a posted document whose entry is posted is cancelled exactly when the date asked for is in an open period; the reversing entry has that date; the document owes nothing |
| `BankAnswers.CreateAllocationAnswer` | product/accounting/payments.py:328-384 | when an allocation is refused and why; else the amount goes off what the payment has left and what the document owes, one row says so, and no other row changes |
| `BankAnswers.ReverseAllocationAnswer` | product/accounting/payments.py:517-561 | in a reachable state refused exactly for a missing row, a reversal, or one that was reversed; else the amount goes back on both |
| `BankAnswers.ImportAnswer` | product/accounting/banking.py:461-514 | an import is refused for an empty file, a zero amount or a missing bank account; else the old lines stay in place and exactly the rows whose digest is new, to the table and to the file, follow in order, each as an unmatched line with its date, signed amount, description and digest |
| `BankAnswers.EveryRowIsStored` | product/accounting/banking.py:490-513 | afterwards every row of the file has a line of the bank account with its digest |
| `BankAnswers.ConfirmMatchAnswer` | product/accounting/banking.py:724-860 | when a confirmation is refused and why; else the entry has the line's date and the document's currency and two lines between bank and control account, the payment is used up by one allocation, the document owes nothing, the line names them |
| `BankAnswers.AssignLineAnswer` | product/accounting/banking.py:954-1021 | the same for assigning a line to an account, in the bank account's currency |
| `Books.TenantBooks.CreatePeriod` | product/accounting/periods.py:70-96 | does its step |
| `Books.TenantBooks.ValidateLines` | product/accounting/journal.py:190-219 | the first error of the lines, or none |
| `Books.TenantBooks.CreateEntry` | product/accounting/journal.py:242-294 | does its step |
| `Books.TenantBooks.UpdateEntry` | product/accounting/journal.py:362-404 | deleting and re-inserting lines in a loop is replacing them |
| `Books.TenantBooks.PostEntryInSession` | product/accounting/journal.py:454-501 | posts, or raises and changes nothing |
| `Books.TenantBooks.ReverseEntryInSession` | product/accounting/journal.py:553-628 | the loop writes the mirrored entry and marks the original, or raises and changes nothing; what the rows are then is `JournalAnswers.ReverseEntryAnswer` |
| `Books.TenantBooks.ComputeLines` | product/accounting/invoices.py:219-242 | the loop with its tax-code cache computes every line, or the first error; what the lines are is `DocumentAnswers.ComputeLinesAnswer` |
| `Books.TenantBooks.CreateDocument` | product/accounting/invoices.py:245-316 | does its step, for an invoice or a bill |
| `Books.TenantBooks.UpdateDocument` | product/accounting/invoices.py:454-507 | does its step |
| `Books.TenantBooks.AddSubtotalLines` | product/accounting/invoices.py:625-642 | the loop writes one line per document line while it fills the tax dictionary |
| `Books.TenantBooks.AddTaxLines` | product/accounting/invoices.py:643-653 | the loop writes one line per tax account, in the dictionary's order |
| `Books.TenantBooks.PostDocument` | product/accounting/invoices.py:556-679 | does its step, or rolls everything back; the step is `DocumentAnswers.PostDocumentAnswer` |
| `Books.TenantBooks.CancelDocument` | product/accounting/invoices.py:753-773 | does its step, `DocumentAnswers.CancelDocumentAnswer` |
| `Books.TenantBooks.CreateNote` | product/accounting/credit_notes.py:251-330 | does its step |
| `Books.TenantBooks.PostNote` | product/accounting/credit_notes.py:453-590 | does its step, or rolls everything back |
| `Books.TenantBooks.CreateAllocation` | product/accounting/payments.py:328-404 | does its step |
| `Books.TenantBooks.ReverseAllocation` | product/accounting/payments.py:517-561 | does its step |
| `Books.TenantBooks.ImportStatement` | product/accounting/banking.py:461-514 | does its step, `BankAnswers.ImportAnswer`; imported + duplicates = parsed rows |
| `Books.TenantBooks.ConfirmMatch` | product/accounting/banking.py:724-860 | does its step, or rolls everything back |
| `Books.TenantBooks.AssignLine` | product/accounting/banking.py:954-1021 | does its step, or rolls everything back |
| `TwoPhase.LockedReadsStayCurrent` | product/accounting/payments.py:87-97 | in any interleaving no lock has two holders and what was read under a lock is current until its reader ends |
| `TwoPhase.LockedRunsAreSerial` | product/accounting/journal.py:454-501 | with everything read under its lock, any interleaving leaves the store of the committed transactions run in commit order |
| `TwoPhase.FreshRunsAreSerial` | product/accounting/banking.py:724-860 | the same whenever every commit acts on current values |
| `TwoPhase.NoDeadlock` | product/accounting/payments.py:87-97 | with locks taken in rank order no set of transactions waits in a circle |
| `Traffic.DocumentKeyFirst` | product/accounting/payments.py:87-97 | sorting the two key texts always puts the document's key first, whatever the ids |
| `Traffic.PlansAreRanked` | product/accounting/banking.py:724-849 | every service takes its locks in the one global order |
| `Traffic.NoDeadlocks` | product/accounting/payments.py:87-97 | under any interleaving nobody waits in a circle, and while one runs some transaction can take its next lock or finish |
| `Traffic.BodyOk` | product/accounting/journal.py:454-501 | on sound values every service writes sound values that only move forward |
| `Traffic.AnyTrafficIsSound` | product/accounting/periods.py:177-225 | any interleaving of all services, aborts included, keeps balances non-negative and payments within their amount, the list of issued numbers 1..n, posts inside open periods and their dates, statuses moving forward only |
| `Issuing.NumbersStayOnRows` | product/accounting/invoices.py:586-597 | in every state of every interleaving the invoice rows carry exactly 1..n, each number on exactly one posted or cancelled invoice, none on any other; credit notes their own 1..m |
| `Mirror.InvoicesAreNumbered` | product/accounting/invoices.py:586-597 | the tables of a reachable state are such a start |
| `Mirror.NotesAreNumbered` | product/accounting/credit_notes.py:498-510 | for credit notes too |
| `Traffic.LockedTalliesAddUp` | product/accounting/payments.py:328-384 | in any interleaving line bookings, entry reversals, issued numbers and each payment's unallocated amount equal their start plus what the committed transactions add |
| `Traffic.AtMostOneCommits` | product/accounting/banking.py:725-732 | at most one confirm or assign of a bank line commits, and at most one reversal of an entry |
| `Traffic.AllocationsAddUp` | product/accounting/payments.py:338-384 | while a document is only allocated to, what it owes is its start minus committed allocations plus committed reversals, never negative |
| `OpenBalances.OwesExpectedPlusDrift` | product/accounting/payments.py:338-384 | in any interleaving, posts, cancellations and confirmations included, a document owes what the last post or cancellation set, less allocations and confirmations, plus reversals, plus the drift of outdated readings; so that equation holds exactly when the drift is zero |
| `OpenBalances.CurrentReadsDoNotDrift` | product/accounting/payments.py:338-384 | commits on current readings do not drift |
| `Overlaps.ReversedOnceExactlyWhen` | product/accounting/payments.py:527-545 | in any interleaving at most one reversal of an allocation commits exactly when none commits on an outdated look at it |
| `Traffic.TrafficIsSerial` | product/accounting/journal.py:553-628 | fresh commits, or services that touch nothing without its lock, give a serial outcome |
| `LateUpdates.PostedIsBalancedExactlyWhen` | product/accounting/journal.py:376-404 | at the end of any interleaving, whatever else is stale, a posted or reversed entry has balanced lines exactly when it is not spoiled: the last change after its post was no update to unbalanced lines, and it was not created by reversing an entry spoiled by then |
| `LateUpdates.ReversalBalancesExactlyWhen` | product/accounting/journal.py:570-626 | in any state a committed reversal, by hand or by cancellation, leaves a new posted entry that balances exactly when the reversed one does at that moment |
| `LateUpdates.SafeExactlyWhen` | product/accounting/journal.py:376-404 | a posted, balanced entry stays so however the run goes on exactly when no update to unbalanced lines that saw the draft is in flight |
| `Overlaps.UpdatingWhilePostingUnbalances` | product/accounting/journal.py:376-404 | any draft that can be posted can be updated to unbalanced lines while it is, both committing; either serial order refuses one of the two |
| `Overlaps.SpoiledIsReversed` | product/accounting/journal.py:561-626 | an entry left unbalanced that way can be reversed, and the reversing entry is posted unbalanced though no update of it ever began |
| `Runs.DraftIsSpoiled` | product/accounting/journal.py:376-404 | both, after a run from an empty tenant |
| `LateTotals.TotalIsBookedExactlyWhen` | product/accounting/invoices.py:454-507 | at the end of any interleaving a posted or cancelled document's total is the one booked exactly when no update committed after the post, or the last one wrote that total again |
| `LateTotals.BookedByPost` | product/accounting/invoices.py:572-584 | the booked total is that of the post that committed |
| `LateTotals.SubledgerIsLedgerPlusMoved` | product/accounting/invoices.py:454-507 | over any documents the totals come to what was booked plus what late updates moved |
| `LateTotals.SafeExactlyWhen` | product/accounting/invoices.py:454-507 | a posted document keeps its total however the run goes on exactly when no update to another total that saw the draft is in flight |
| `Overlaps.UpdatingWhilePostingMovesTotal` | product/accounting/bills.py:434-482 | any draft document that can be posted can be updated to any other total while it is, both committing; it owes what was booked; after the post alone the update is refused |
| `Runs.SaleIsRewritten` | product/accounting/invoices.py:454-507 | a run from an empty tenant: an invoice of 5.00 is posted, owes 5.00 and shows 1.00 |
| `Races.TwiceExactlyWhen` | product/accounting/payments.py:527-545 | reversals of one allocation can commit twice exactly when the payment has room for the amount twice |
| `Races.ReversalsFit` | product/accounting/models.py:946-949 | however many reversals of one allocation commit, each takes its room in the payment |
| `Races.ReversalCommitsExactlyWhen` | product/accounting/payments.py:527-545 | in any state of any interleaving of all services, a ready reversal commits exactly when its look said not reversed and the payment has room now |
| `Races.SecondLookedBefore` | product/accounting/payments.py:527-534 | a reversal that commits looked at a moment when the allocation was not reversed |
| `Races.SerialReversalHappensOnce` | product/accounting/payments.py:527-534 | one after the other, the second reversal is refused |
| `Overlaps.LooksOverlap` | product/accounting/payments.py:527-545 | a reversal that commits after another one of the same allocation looked before that one committed |
| `Overlaps.TablesReverseTwiceExactlyWhen` | product/accounting/payments.py:527-545 | from the tables of a reachable state, an allocation can be reversed twice exactly when the payment's other live allocations come to at least its amount; otherwise at most one reversal commits |
| `Runs.HalfReversedTwice` | product/accounting/payments.py:527-545 | a run from an empty tenant and an interleaving after it: one of two allocations is reversed twice, and the payment counts as wholly unallocated |
| `Overlaps.TwoLinesSettleOneDocument` | product/accounting/banking.py:735-761 | any two lines that can each be confirmed against one document can both be, interleaved; either serial order refuses the second |
| `Runs.TwoLinesSettleOneSale` | product/accounting/banking.py:735-761 | a run from an empty tenant: two imported lines of 5.00 are both booked against one invoice of 5.00 |
| `Overlaps.ConfirmationOvertaken` | product/accounting/banking.py:735-804 | a document that can be allocated an amount and be confirmed can be both, interleaved: it owes nothing, though the two took more than it owed by the amount |
| `Runs.OverpaidSaleOwesNothing` | product/accounting/banking.py:735-804 | a run from an empty tenant that gets there |
| `Overlaps.MatchCommitsExactlyWhen` | product/accounting/banking.py:724-761 | in any state of any interleaving, a ready match is confirmed exactly when its looks said the document was posted and owed the amount, and the line, the new rows and the period are free now |
| `Overlaps.AllocationOvertaken` | product/accounting/invoices.py:753-773 | an allocation overtaken by a cancellation leaves the cancelled document owing; in either serial order it owes nothing |
| `Runs.CancelledSaleOwes` | product/accounting/invoices.py:753-773 | a run from an empty tenant: an invoice of 5.00 ends cancelled and owes 4.00 |
| `Overlaps.AllocationCommitsExactlyWhen` | product/accounting/payments.py:338-370 | in any state of any interleaving, a ready allocation commits exactly when it read a posted document owing enough and the payment has the amount now |
| `Projection.ProjectionIsSound` | product/accounting/models.py:942-950 | whatever the tables of a reachable state say under a lock is a sound value |
| `Projection.ProjectionBalances` | product/accounting/journal.py:479-485 | and its posted and reversed entries balance |
| `Projection.KeysAreFootprint` | product/accounting/payments.py:87-97 | the values each transaction reads are those of its lock plan and its early looks |
| `Projection.PostEntryPerforms` | product/accounting/journal.py:454-501 | a committed post changes the values behind the locks exactly as its interleaved transaction does, and no others |
| `Projection.UpdateEntryPerforms` | product/accounting/journal.py:376-404 | the same for updating a draft's lines |
| `Projection.VoidEntryPerforms` | product/accounting/journal.py:420-443 | the same for voiding |
| `Projection.ReverseEntryPerforms` | product/accounting/journal.py:553-628 | the same for a reversal |
| `Projection.SetPeriodPerforms` | product/accounting/periods.py:177-239 | the same for closing and reopening |
| `Projection.PostInvoicePerforms` | product/accounting/invoices.py:556-679 | the same for an invoice, its number and its outstanding amount included |
| `Projection.PostBillPerforms` | product/accounting/bills.py:524-628 | the same for a bill |
| `Projection.VoidDocumentPerforms` | product/accounting/invoices.py:524-541 | the same for voiding a document |
| `Projection.UpdateDocumentPerforms` | product/accounting/invoices.py:454-507 | the same for updating a draft document's lines and total |
| `Projection.VoidNotePerforms` | product/accounting/credit_notes.py:421-440 | the same for voiding a credit note |
| `Projection.CancelDocumentPerforms` | product/accounting/invoices.py:753-773 | the same for cancelling |
| `Projection.PostNotePerforms` | product/accounting/credit_notes.py:453-590 | the same for a credit note |
| `Projection.CreateAllocationPerforms` | product/accounting/payments.py:338-384 | the same for an allocation |
| `Projection.ReverseAllocationPerforms` | product/accounting/payments.py:517-561 | the same for its reversal |
| `Projection.AssignLinePerforms` | product/accounting/banking.py:954-1021 | the same for assigning a bank line |
| `Projection.ConfirmMatchPerforms` | product/accounting/banking.py:724-860 | the same for confirming a match |
| `Mirror.CallsAgree` | product/accounting/banking.py:724-860 | in a reachable state a call whose lookups succeed commits exactly when its transaction commits on what the tables say, and then to the same values; otherwise both refuse |
| `Mirror.BodyIgnoresLog` | product/accounting/journal.py:487-500 | what a transaction does depends on a period's dates and openness, not on its past |
| `Mirror.RunsMatch` | product/accounting/journal.py:454-501 | a run of calls, some refused, leaves behind the locks what their transactions, run alone in the same order, leave |
| `Diaries.Diary.ComputeAvailableSlots` | product/appointments/availability.py:194-298 | the loops, the per-day dictionary and the prefetch return exactly the slots of `Offers.SlotsAnswer`, as often as in `Offers.OfferedAsOftenAsPut`, or the first error; they terminate |
| `Diaries.Diary.AddSlots` | product/appointments/availability.py:268-294 | the cursor loop returns the free grid slots of one rule on one date, end of day included |
| `Diaries.Diary.GroupByDay` | product/appointments/availability.py:217-230 | the dictionary holds each weekday's rules in order |
| `Availability.SlotsAgainstMembers` | product/appointments/availability.py:257-298 | the result is sorted by start and contains exactly the grid slots that overlap no booking given; what a grid slot is, weekday included, is `Offers.SlotsAnswer` |
| `Offers.SlotsAnswer` | product/appointments/availability.py:194-298 | a query is answered exactly when it spans at most 91 days, the duration is 5 to 1440 minutes and the calendar is there; it offers, by start, exactly the slots that some rule of the calendar puts on a date of its weekday (day 1 a Monday) at a whole number of durations after its start and within its hours, each end converted on its own, and that no fetched confirmed appointment meets |
| `Offers.OfferedExactlyWhenFree` | product/appointments/availability.py:236-293 | with offsets less than 24 hours apart: and that no confirmed appointment of the calendar meets |
| `Offers.OfferedAsOftenAsPut` | product/appointments/availability.py:257-298 | a slot that is not taken is offered exactly once per date, rule and step that put it there |
| `BookingAnswers.AddRuleAnswer` | product/appointments/availability.py:90-120 | a rule is stored as passed exactly when day and hours are in range and its calendar is there |
| `BookingAnswers.BookAnswer` | product/appointments/booking.py:160-220 | a range is booked, as asked for and confirmed, unless empty, without calendar, or met by a confirmed appointment of it; which error |
| `BookingAnswers.MoveAnswer` | product/appointments/booking.py:541-568 | an appointment is moved unless the range is empty, it is not confirmed, or another one meets the range; only its range changes |
| `BookingAnswers.CloseAnswer` | product/appointments/booking.py:493-520 | closing needs a confirmed appointment, is never refused for another one, and changes only the status |
| `Availability.PrefetchSuffices` | product/appointments/availability.py:236-255 | with offsets less than 24 hours apart the fetched bookings give the same slots as all confirmed ones |
| `Availability.PrefetchSufficesExactlyWhen` | product/appointments/availability.py:236-255 | for every appointment table the fetched bookings give the same slots as all confirmed ones, exactly when every grid slot of the query lies in the window |
| `Availability.WindowSuffices` | product/appointments/availability.py:242-255 | for a slot in the window, overlapping a fetched booking is overlapping a confirmed one |
| `Availability.OutsideWindowMissesABooking` | product/appointments/availability.py:242-255 | for any slot that sticks out of the window there is a booking it collides with unnoticed |
| `Booking.ADayOfSpreadIsTooMuch` | product/appointments/availability.py:236-241 | where the offset falls from +12 to -12 hours a slot is offered that cannot be booked |
| `Booking.RunKeepsSound` | product/appointments/models.py:60-79 | over any run confirmed appointments of a calendar are pairwise disjoint half-open ranges, and closed ones never change |
| `Booking.BooksExactlyWhen` | product/appointments/booking.py:184-220 | a range can be booked exactly when it is not empty, the calendar exists and no confirmed appointment overlaps |
| `Booking.MovesExactlyWhen` | product/appointments/booking.py:551-568 | an appointment can be moved exactly where no other confirmed one is; its own old range is not in the way |
| `Booking.MovingSwapsRanges` | product/appointments/booking.py:551-568 | after a move the new range is taken and the old one, if disjoint, can be booked again |
| `Booking.OfferedExactlyWhenBookable` | product/appointments/availability.py:284-293 | a grid slot of positive length is offered exactly when booking it in the same state succeeds |
| `Booking.BookedSlotIsGone` | product/appointments/booking.py:196-220 | a booked slot is offered no more |
| `Booking.ClosingUndoesBooking` | product/appointments/booking.py:608-618 | booking and then cancelling, completing or marking as no-show leaves every slot query as it was |
| `Diaries.Diary.CreateRule` | product/appointments/availability.py:90-120 | does its step |
| `Diaries.Diary.Book` | product/appointments/booking.py:184-220 | does its step |
| `Diaries.Diary.Reschedule` | product/appointments/booking.py:541-568 | does its step |
| `Diaries.Diary.Cancel` | product/appointments/booking.py:497-520 | does its step |
| `Ceremonies.NeverOverCap` | login-service/app/ceremony.py:80-103 | after any calls the store holds at most the cap, one ceremony per id |
| `Ceremonies.HeldUntilCapStarts` | login-service/app/ceremony.py:75-131 | a ceremony neither consumed nor expired, whose id, flag and expiry no update touches, disappears only after at least the cap's number of later starts |
| `Ceremonies.StartedIsServed` | login-service/app/ceremony.py:90-112 | a started ceremony is served with its own id, request and token, unconsumed and ending ten minutes after its start, until it is consumed, expires, or the cap's number of others were started |
| `Ceremonies.GetAnswer` | login-service/app/ceremony.py:105-112 | a lookup keeps exactly the ceremonies neither consumed nor expired, in order, and serves the one of the id if it is among them |
| `Ceremonies.StartAnswer` | login-service/app/ceremony.py:90-103 | what a lookup would keep, without the oldest if that is the cap, and the new ceremony last |
| `Ceremonies.UpdateAnswer` | login-service/app/ceremony.py:114-121 | every field the update names gets its value, with precedence over what was there; nothing else changes |
| `Ceremonies.ConsumedIsNeverServed` | login-service/app/ceremony.py:123-131 | once consumed it is never served again, unless it is started again or an update sets its flag back |
| `Ceremonies.CeremonyStore.PurgeExpired` | login-service/app/ceremony.py:75-78 | collecting dead ids and deleting them one by one keeps exactly the live ceremonies, in order |
| `Ceremonies.CeremonyStore.EvictUntilRoom` | login-service/app/ceremony.py:80-88 | drops the oldest until there is room |
| `Ceremonies.CeremonyStore.Start` | login-service/app/ceremony.py:90-103 | purges, makes room, inserts (`Ceremonies.StartAnswer`), and returns the ceremony with each argument in its own field |
| `Ceremonies.CeremonyStore.Get` | login-service/app/ceremony.py:105-112 | purges and serves a live ceremony |
| `Ceremonies.CeremonyStore.Update` | login-service/app/ceremony.py:114-121 | changes the fields it is given, any but the id, and no other ceremony |
| `Ceremonies.CeremonyStore.Consume` | login-service/app/ceremony.py:123-131 | marks it consumed and changes nothing else |

## Left out

- Authorization, audit records, events, views, pagination, routes and idempotency keys: plumbing around the transactions.
- More than one tenant: the model is one tenant's tables. Row ids are positions, so they are fresh by construction.
- Texts: descriptions, references, currency codes and their length checks; due dates; contact roles; supplier references and their uniqueness.
- Amounts finer than a cent, the 18-digit column width and decimal context precision.
- CSV parsing, statement headers and line numbers: an import starts from parsed rows. sha256 is an arbitrary function of the bank account, date, spelled amount and description.
- The unique index as a backstop for two imports of one file at the same time.
- `suggest_matches`: a read-only ranking.
- Account, tax-code and bank-account administration: any change that keeps a tax code's account and a bank account's ledger account is one step of a run. Deactivating an account does not touch what was written.
- Bills and invoices share one model with a kind; `bills.py` and `credit_notes.py` differ in the ways modelled (numbering, side of the control account) and in the texts left out.
- Who did what and when: actor and timestamp columns.
- Traffic.NoDeadlocks: ranks the locks the services ask for; locks the database takes by itself when it writes a row or checks a foreign key are not modelled.
- Traffic.AnyTrafficIsSound: follows statuses, numbers, balances, bookings, period logs, whether an entry's lines balance, and documents' totals and whether they can be booked; single lines are not followed. The amounts of a transaction are its parameters.
- LateUpdates.PostedIsBalancedExactlyWhen: an entry's lines are followed as balanced or not, under one exclusive lock. Inserting lines takes a share lock on the entry's row, so in the code two updates of one entry can run side by side, and then the lines of both stay: the second deletes only the lines it saw. The model lets the second start its deleting after the first has committed. Entries of documents and bank lines are inserted with their lines and posted in one transaction.
- LateTotals.TotalIsBookedExactlyWhen: a document's lines and its total are one value, so two overlapping updates of one document exclude each other too.
- LateUpdates.SafeExactlyWhen: is about an entry that is there; a reversing entry still to come is decided when its reversal commits, by `LateUpdates.ReversalBalancesExactlyWhen`.
- Mirror.CallsAgree: leaves out the calls that only insert rows: creating periods, entries, documents, notes and payments, imports, the chart. What a transaction looks up before its locks (the rows it names, its period, the lines it books) is looked up in the state of the call.
- Overlaps.TablesReverseTwiceExactlyWhen: is about reversals of the one allocation; with other services in between, `Races.ReversalCommitsExactlyWhen` decides each commit.
- Theorems.PostsExactlyWhen: speaks about the calls one after the other; interleaved posts are in `Traffic.dfy`.
- Contacts, manage tokens, booking links and time-zone-naive inputs in booking: the public and the staff calls do the same to the appointment rows. Deleting rules and calendars is not modelled; rules are any rows that satisfy the CHECK constraints.
- The time zone database: the offset is an arbitrary function of the wall-clock time. The query for rules has no order; the model takes table order, which the sorted result does not show except among equal starts.
- Dates at the ends of the calendar, where date arithmetic overflows.
- Ceremonies.CeremonyStore.Update: the id of a ceremony cannot be changed; the code's update would accept it as a field name, and no caller does that.
- Ceremonies.StartedIsServed: takes it that a new random id is not in the store; the token comparison, the lock around the dictionary and the sharing of a returned ceremony object with its caller are not modelled.
- The login templates, cookies, routes and factor policy.
