/** The promises of the accounting package, over every run of service calls from a fresh tenant. */
module Theorems {
  import opened Wrappers
  import opened Sums
  import opened Records
  import opened Periods
  import opened Journal
  import opened Numbering
  import opened Documents
  import opened Payments
  import opened Banking
  import opened Subledger
  import opened Invariants
  import O = Operations

  // --- the trial balance -------------------------------------------------------------

  function DebitShare(c: Currency): Entry -> int
  {
    (e: Entry) => if Live(e) && e.currency == c then Debits(e.lines) else 0
  }

  function CreditShare(c: Currency): Entry -> int
  {
    (e: Entry) => if Live(e) && e.currency == c then Credits(e.lines) else 0
  }

  /** Per currency, debits equal credits over all posted and reversed entries; each of those has at
      least two one-sided lines and lies in the period that covers its date. */
  lemma {:induction false} TrialBalance(init: Db, calls: seq<O.Call>, c: Currency)
    requires O.Initial(init)
    ensures var db := O.Run(init, calls);
            && Sum(db.entries, DebitShare(c)) == Sum(db.entries, CreditShare(c))
            && forall i :: 0 <= i < |db.entries| && Live(db.entries[i]) ==>
                 && |db.entries[i].lines| >= 2 && AllOneSided(db.entries[i].lines)
                 && db.entries[i].period == FindPeriod(db.periods, db.entries[i].date)
  {
    InitialInv(init);
    RunKeepsInv(init, calls);
    var db := O.Run(init, calls);
    forall i | 0 <= i < |db.entries|
      ensures DebitShare(c)(db.entries[i]) == CreditShare(c)(db.entries[i])
      ensures Live(db.entries[i]) ==>
                && |db.entries[i].lines| >= 2 && AllOneSided(db.entries[i].lines)
                && db.entries[i].period == FindPeriod(db.periods, db.entries[i].date)
    {
      assert EntryOk(db.entries, db.periods, i);
      if Live(db.entries[i]) {
        OnlyCoveringPeriod(db.periods, db.entries[i].period.value, db.entries[i].date);
      }
    }
    SumEqual(db.entries, db.entries, DebitShare(c), CreditShare(c));
  }

  lemma OnlyCoveringPeriod(periods: seq<Period>, p: Id, date: Date)
    requires PeriodsOk(periods) && p < |periods| && Covers(periods[p], date)
    ensures FindPeriod(periods, date) == Some(p)
  {
    var q := FindPeriod(periods, date);
    if q.Some? && q.value != p {
      assert Overlap(periods[p], periods[q.value]) && Overlap(periods[q.value], periods[p]);
    }
  }

  /** Whatever happens after some point of a run only adds to what was there. */
  lemma {:induction false} HistoryIsFixed(init: Db, calls: seq<O.Call>, more: seq<O.Call>)
    requires O.Initial(init)
    ensures Grows(O.Run(init, calls), O.Run(O.Run(init, calls), more))
  {
    InitialInv(init);
    RunKeepsInv(init, calls);
    RunKeepsInv(O.Run(init, calls), more);
  }

  // --- reversal chains -----------------------------------------------------------------

  /** From any live entry of a reachable ledger, reversals form one finite line of entries, each
      reversing the one before, whose net effect on every account is the first entry's effect or
      zero, by the parity of its length. No entry has two reversers, and an entry is marked
      reversed exactly when it has one. */
  lemma {:induction false} ReversalChains(init: Db, calls: seq<O.Call>, e: Id, a: Id)
    requires O.Initial(init)
    requires e < |O.Run(init, calls).entries| && Live(O.Run(init, calls).entries[e])
    ensures var entries := O.Run(init, calls).entries;
            && OneReverserEach(entries)
            && (entries[e].status == EntryReversed <==> HasReverser(entries, e))
            && (forall k :: 0 <= k < |Chain(entries, e)| - 1 ==> Links(entries, Chain(entries, e)[k], Chain(entries, e)[k + 1]))
            && entries[Chain(entries, e)[|Chain(entries, e)| - 1]].status == EntryPosted
            && Sum(Chain(entries, e), EffectAt(entries, a))
               == if |Chain(entries, e)| % 2 == 1 then Effect(entries[e].lines, a) else 0
  {
    InitialInv(init);
    RunKeepsInv(init, calls);
    var db := O.Run(init, calls);
    ChainShape(db.entries, db.periods, e);
    ChainNet(db.entries, db.periods, e, a);
    assert EntryOk(db.entries, db.periods, e);
    if HasReverser(db.entries, e) {
      assert EntryOk(db.entries, db.periods, Reverser(db.entries, e));
    }
  }

  // --- ledger against sub-ledgers ----------------------------------------------------------

  /** Every account's balance, in every currency, after any run, is what its issued documents,
      credit notes, reconciled bank lines and manual entries come to. Cancelled documents
      contribute nothing. */
  lemma {:induction false} BalanceIsAccountedFor(init: Db, calls: seq<O.Call>, a: Id, c: Currency)
    requires O.Initial(init)
    ensures AgreesOn(O.Run(init, calls), a, c)
  {
    InitialInv(init);
    RunKeepsInv(init, calls);
  }

  predicate LinesAvoid(chart: Chart, lines: seq<DocumentLine>, a: Id)
  {
    forall i :: 0 <= i < |lines| ==> lines[i].account != a && (lines[i].tax != 0 ==> !TaxedTo(chart, lines[i], a))
  }

  /** No posted or reversed manual entry (so no manual reversal either) has a line on the account. */
  predicate NoManualEntryOn(db: Db, a: Id)
  {
    forall i :: 0 <= i < |db.entries| && Live(db.entries[i]) && db.entries[i].manual ==> !Touches(db.entries[i].lines, a)
  }

  predicate NoDocumentLineOn(db: Db, a: Id)
  {
    && (forall d :: 0 <= d < |db.documents| && db.documents[d].status == DocPosted ==>
          LinesAvoid(db.chart, db.documents[d].lines, a))
    && (forall n :: 0 <= n < |db.notes| && db.notes[n].status == DocPosted ==>
          LinesAvoid(db.chart, db.notes[n].lines, a))
  }

  /** The account is used as the control account of documents of one kind, and for nothing else. */
  predicate OnlyControls(db: Db, a: Id, kind: DocumentKind)
  {
    && NoManualEntryOn(db, a) && NoDocumentLineOn(db, a)
    && (forall d :: 0 <= d < |db.documents| && db.documents[d].control == a ==> db.documents[d].kind == kind)
    && (forall b :: 0 <= b < |db.chart.bankAccounts| ==> db.chart.bankAccounts[b].ledger != a)
    && (forall l :: 0 <= l < |db.bankLines| ==> db.bankLines[l].match_ != ToAccount(a))
  }

  function ControlTotal(a: Id, c: Currency): Document -> int
  {
    (d: Document) => if d.status == DocPosted && d.control == a && d.currency == c then d.total else 0
  }

  function CreditedTotal(documents: seq<Document>, a: Id, c: Currency): CreditNote -> int
  {
    (n: CreditNote) =>
      if n.status == DocPosted && n.invoice < |documents| && documents[n.invoice].control == a && n.currency == c
      then n.total else 0
  }

  /** Signed bank amount of the lines reconciled to documents with this control account. */
  function SettledByBank(documents: seq<Document>, a: Id, c: Currency): BankLine -> int
  {
    (l: BankLine) =>
      if l.match_.ToDocument? && l.match_.document < |documents|
         && documents[l.match_.document].control == a && documents[l.match_.document].currency == c
      then l.amount else 0
  }

  lemma {:induction false} AvoidingLinesCarryNothing(chart: Chart, lines: seq<DocumentLine>, a: Id)
    requires LinesAvoid(chart, lines, a)
    ensures Sum(lines, Carried(chart, a)) == 0
  {
    if lines != [] {
      AvoidingLinesCarryNothing(chart, lines[..|lines| - 1], a);
    }
  }

  lemma {:induction false} SumOfNegated<T>(rows: seq<T>, f: T -> int, g: T -> int)
    requires forall i :: 0 <= i < |rows| ==> g(rows[i]) == -f(rows[i])
    ensures Sum(rows, g) == -Sum(rows, f)
  {
    if rows != [] { SumOfNegated(rows[..|rows| - 1], f, g); }
  }

  lemma ManualSideIsZero(db: Db, a: Id, c: Currency)
    requires NoManualEntryOn(db, a)
    ensures ManualSide(db, a, c) == 0
  {
    forall i | 0 <= i < |db.entries| ensures ManualShare(a, c)(db.entries[i]) == 0 {
      if Live(db.entries[i]) && db.entries[i].manual { UntouchedHasNoEffect(db.entries[i].lines, a); }
    }
    SumEqual(db.entries, db.entries, ManualShare(a, c), Zero<Entry>());
    SumOfZeros(db.entries);
  }

  lemma ControlDocumentSide(db: Db, a: Id, c: Currency, kind: DocumentKind)
    requires TablesOk(db) && OnlyControls(db, a, kind)
    ensures DocumentSide(db, a, c) == Signed(kind == Invoice, Sum(db.documents, ControlTotal(a, c)))
  {
    forall d | 0 <= d < |db.documents|
      ensures DocumentShare(db.chart, a, c)(db.documents[d])
           == Signed(kind == Invoice, ControlTotal(a, c)(db.documents[d]))
    {
      assert DocumentOk(db.chart, db.entries, db.documents[d]);
      if db.documents[d].status == DocPosted { AvoidingLinesCarryNothing(db.chart, db.documents[d].lines, a); }
    }
    if kind == Invoice {
      SumEqual(db.documents, db.documents, DocumentShare(db.chart, a, c), ControlTotal(a, c));
    } else {
      SumOfNegated(db.documents, ControlTotal(a, c), DocumentShare(db.chart, a, c));
    }
  }

  lemma ControlNoteSide(db: Db, a: Id, c: Currency, kind: DocumentKind)
    requires TablesOk(db) && OnlyControls(db, a, kind)
    ensures NoteSide(db, a, c) == -Sum(db.notes, CreditedTotal(db.documents, a, c))
  {
    forall n | 0 <= n < |db.notes|
      ensures NoteShare(db.chart, db.documents, a, c)(db.notes[n]) == -CreditedTotal(db.documents, a, c)(db.notes[n])
    {
      assert NoteOk(db.chart, db.documents, db.notes[n]);
      if db.notes[n].status == DocPosted { AvoidingLinesCarryNothing(db.chart, db.notes[n].lines, a); }
    }
    SumOfNegated(db.notes, CreditedTotal(db.documents, a, c), NoteShare(db.chart, db.documents, a, c));
  }

  lemma ControlBankSide(db: Db, a: Id, c: Currency, kind: DocumentKind)
    requires TablesOk(db) && OnlyControls(db, a, kind)
    ensures BankSide(db, a, c) == -Sum(db.bankLines, SettledByBank(db.documents, a, c))
  {
    forall l | 0 <= l < |db.bankLines|
      ensures BankShare(db.chart, db.documents, a, c)(db.bankLines[l])
           == -SettledByBank(db.documents, a, c)(db.bankLines[l])
    {
      assert BankLineOk(db.chart, db.documents, db.bankLines[l]);
      assert db.bankLines[l].match_ != ToAccount(a);
    }
    SumOfNegated(db.bankLines, SettledByBank(db.documents, a, c), BankShare(db.chart, db.documents, a, c));
  }

  /** A receivable (kind Invoice) stands at its posted invoices, less the posted credit notes on its
      invoices, less the bank lines reconciled to them. A payable (kind Bill) is the mirror image:
      its posted bills in credit, and the outflows, negative, taken off. */
  lemma {:induction false} ControlAccountAgreement(init: Db, calls: seq<O.Call>, a: Id, c: Currency, kind: DocumentKind)
    requires O.Initial(init) && OnlyControls(O.Run(init, calls), a, kind)
    ensures var db := O.Run(init, calls);
            Balance(db, a, c) == Signed(kind == Invoice, Sum(db.documents, ControlTotal(a, c)))
                                 - Sum(db.notes, CreditedTotal(db.documents, a, c))
                                 - Sum(db.bankLines, SettledByBank(db.documents, a, c))
  {
    var db := O.Run(init, calls);
    InitialInv(init);
    RunKeepsInv(init, calls);
    BalanceIsAccountedFor(init, calls, a, c);
    ManualSideIsZero(db, a, c);
    ControlDocumentSide(db, a, c, kind);
    ControlNoteSide(db, a, c, kind);
    ControlBankSide(db, a, c, kind);
  }

  /** The account is the ledger account of a bank account, and used for nothing else. */
  predicate OnlyBanks(db: Db, a: Id)
  {
    && NoManualEntryOn(db, a) && NoDocumentLineOn(db, a)
    && (forall d :: 0 <= d < |db.documents| ==> db.documents[d].control != a)
    && (forall l :: 0 <= l < |db.bankLines| ==> db.bankLines[l].match_ != ToAccount(a))
  }

  function ReconciledAmount(chart: Chart, documents: seq<Document>, a: Id, c: Currency): BankLine -> int
  {
    (l: BankLine) =>
      if l.match_ != Unmatched && l.bankAccount < |chart.bankAccounts| && chart.bankAccounts[l.bankAccount].ledger == a
         && Counterpart(chart, documents, l).Some? && Counterpart(chart, documents, l).value.1 == c
      then l.amount else 0
  }

  lemma BankOnlyBankSide(db: Db, a: Id, c: Currency)
    requires BankLinesOk(db.chart, db.documents, db.bankLines) && OnlyBanks(db, a)
    ensures BankSide(db, a, c) == Sum(db.bankLines, ReconciledAmount(db.chart, db.documents, a, c))
  {
    forall l | 0 <= l < |db.bankLines|
      ensures BankShare(db.chart, db.documents, a, c)(db.bankLines[l])
           == ReconciledAmount(db.chart, db.documents, a, c)(db.bankLines[l])
    {
      assert BankLineOk(db.chart, db.documents, db.bankLines[l]);
      assert db.bankLines[l].match_ != ToAccount(a);
    }
    SumEqual(db.bankLines, db.bankLines, BankShare(db.chart, db.documents, a, c),
             ReconciledAmount(db.chart, db.documents, a, c));
  }

  /** A bank's ledger account stands at the signed amounts of its reconciled statement lines. */
  lemma {:induction false} BankAccountAgreement(init: Db, calls: seq<O.Call>, a: Id, c: Currency)
    requires O.Initial(init) && OnlyBanks(O.Run(init, calls), a)
    ensures var db := O.Run(init, calls);
            Balance(db, a, c) == Sum(db.bankLines, ReconciledAmount(db.chart, db.documents, a, c))
  {
    var db := O.Run(init, calls);
    InitialInv(init);
    RunKeepsInv(init, calls);
    BalanceIsAccountedFor(init, calls, a, c);
    ManualSideIsZero(db, a, c);
    BankOnlyDocumentSides(db, a, c);
    BankOnlyBankSide(db, a, c);
  }

  lemma BankOnlyDocumentSides(db: Db, a: Id, c: Currency)
    requires TablesOk(db) && OnlyBanks(db, a)
    ensures DocumentSide(db, a, c) == 0 && NoteSide(db, a, c) == 0
  {
    forall d | 0 <= d < |db.documents| ensures DocumentShare(db.chart, a, c)(db.documents[d]) == 0 {
      if db.documents[d].status == DocPosted { AvoidingLinesCarryNothing(db.chart, db.documents[d].lines, a); }
    }
    SumEqual(db.documents, db.documents, DocumentShare(db.chart, a, c), Zero<Document>());
    SumOfZeros(db.documents);
    forall n | 0 <= n < |db.notes| ensures NoteShare(db.chart, db.documents, a, c)(db.notes[n]) == 0 {
      assert NoteOk(db.chart, db.documents, db.notes[n]);
      if db.notes[n].status == DocPosted { AvoidingLinesCarryNothing(db.chart, db.notes[n].lines, a); }
    }
    SumEqual(db.notes, db.notes, NoteShare(db.chart, db.documents, a, c), Zero<CreditNote>());
    SumOfZeros(db.notes);
  }

  // --- numbering ---------------------------------------------------------------------------

  predicate IsNumberedInvoice(d: Document) { d.kind == Invoice && Issued(d.status) }

  /** After any run, failed posts included, invoice numbers are exactly 1..n, each once, on exactly
      the posted and cancelled invoices; credit notes have their own 1..m over the posted notes. */
  lemma {:induction false} GaplessNumbers(init: Db, calls: seq<O.Call>)
    requires O.Initial(init)
    ensures var db := O.Run(init, calls);
            && Gapless(DocumentNumbers(db.documents))
            && (forall d :: 0 <= d < |db.documents| ==>
                  (db.documents[d].number.Some? <==> IsNumberedInvoice(db.documents[d])))
            && Gapless(NoteNumbers(db.notes))
            && (forall n :: 0 <= n < |db.notes| ==>
                  (db.notes[n].number.Some? <==> db.notes[n].status == DocPosted))
  {
    InitialInv(init);
    RunKeepsInv(init, calls);
    var db := O.Run(init, calls);
    forall d | 0 <= d < |db.documents| ensures db.documents[d].number.Some? <==> IsNumberedInvoice(db.documents[d]) {
      assert DocumentOk(db.chart, db.entries, db.documents[d]);
    }
    forall n | 0 <= n < |db.notes| ensures db.notes[n].number.Some? <==> db.notes[n].status == DocPosted {
      assert NoteOk(db.chart, db.documents, db.notes[n]);
    }
  }

  // --- conservation ---------------------------------------------------------------------------

  /** Each payment's amount is what is unallocated plus what is allocated and not reversed. Each
      posted document owes its total minus that; in every status, also after a cancellation whose
      allocations are reversed later, 0 <= outstanding <= total. */
  lemma {:induction false} Conservation(init: Db, calls: seq<O.Call>)
    requires O.Initial(init)
    ensures var db := O.Run(init, calls);
            && (forall p :: 0 <= p < |db.payments| ==>
                  && db.payments[p].amount == db.payments[p].unallocated + LiveTotal(db.allocations, OfPayment(p))
                  && 0 <= db.payments[p].unallocated <= db.payments[p].amount)
            && (forall d :: 0 <= d < |db.documents| ==>
                  && (db.documents[d].status == DocPosted ==>
                        db.documents[d].outstanding == db.documents[d].total - LiveTotal(db.allocations, OfDocument(d)))
                  && 0 <= db.documents[d].outstanding <= db.documents[d].total)
  {
    InitialInv(init);
    RunKeepsInv(init, calls);
    var db := O.Run(init, calls);
    forall p | 0 <= p < |db.payments|
      ensures db.payments[p].amount == db.payments[p].unallocated + LiveTotal(db.allocations, OfPayment(p))
      ensures 0 <= db.payments[p].unallocated <= db.payments[p].amount
    {
      LiveNonNegative(db.allocations, OfPayment(p), |db.allocations|);
      assert PaymentOk(db.payments[p], LiveTotal(db.allocations, OfPayment(p)));
    }
    forall d | 0 <= d < |db.documents|
      ensures db.documents[d].status == DocPosted ==>
                db.documents[d].outstanding == db.documents[d].total - LiveTotal(db.allocations, OfDocument(d))
      ensures 0 <= db.documents[d].outstanding <= db.documents[d].total
    {
      LiveNonNegative(db.allocations, OfDocument(d), |db.allocations|);
      assert SettlementOk(db.documents[d], LiveTotal(db.allocations, OfDocument(d)));
    }
  }

  lemma ReversalHasRoom(db: Db, i: Id)
    requires AllocationsOk(db.documents, db.payments, db.allocations)
    requires i < |db.allocations| && db.allocations[i].reverses.None? && !IsReversed(db.allocations, i)
    ensures var a := db.allocations[i];
            && a.payment < |db.payments| && a.document < |db.documents|
            && db.payments[a.payment].unallocated + a.amount <= db.payments[a.payment].amount
  {
    var a := db.allocations[i];
    var party := OfPayment(a.payment);
    assert AllocationOk(db.allocations, i) && ReferencesOk(db.documents, db.payments, a);
    var row := a.(reverses := Some(i));
    AppendedLive(db.allocations, row, party);
    LiveNonNegative(db.allocations + [row], party, |db.allocations| + 1);
    assert PaymentOk(db.payments[a.payment], LiveTotal(db.allocations, party));
  }

  /** In a reachable state the CHECK on payments never fires, so an allocation can be reversed
      exactly when it is not itself a reversal and was not reversed before. */
  lemma ReversibleExactlyOnce(db: Db, i: Id)
    requires Inv(db)
    ensures ReverseAllocation(db, i).Success?
       <==> i < |db.allocations| && db.allocations[i].reverses.None? && !IsReversed(db.allocations, i)
    ensures ReverseAllocation(db, i).Success? ==>
              ReverseAllocation(ReverseAllocation(db, i).value, i).Failure?
  {
    if i < |db.allocations| && db.allocations[i].reverses.None? && !IsReversed(db.allocations, i) {
      ReversalHasRoom(db, i);
      var after := ReverseAllocation(db, i).value;
      assert after.allocations[|db.allocations|].reverses == Some(i);
    }
  }

  /** Every document and credit note of a reachable state totals its rounded lines, to the cent, and
      no total is negative. */
  lemma {:induction false} TotalsAddUp(init: Db, calls: seq<O.Call>)
    requires O.Initial(init)
    ensures var db := O.Run(init, calls);
            && (forall d :: 0 <= d < |db.documents| ==>
                  0 <= db.documents[d].total == Sum(db.documents[d].lines, LineTotal()))
            && (forall n :: 0 <= n < |db.notes| ==>
                  0 <= db.notes[n].total == Sum(db.notes[n].lines, LineTotal()))
  {
    InitialInv(init);
    RunKeepsInv(init, calls);
    var db := O.Run(init, calls);
    forall d | 0 <= d < |db.documents|
      ensures 0 <= db.documents[d].total == Sum(db.documents[d].lines, LineTotal())
    {
      assert DocumentOk(db.chart, db.entries, db.documents[d]);
      TotalIsSumOfLineTotals(db.documents[d].lines);
      SumNonNegative(db.documents[d].lines, LineTotal());
    }
    forall n | 0 <= n < |db.notes| ensures 0 <= db.notes[n].total == Sum(db.notes[n].lines, LineTotal()) {
      assert NoteOk(db.chart, db.documents, db.notes[n]);
      TotalIsSumOfLineTotals(db.notes[n].lines);
      SumNonNegative(db.notes[n].lines, LineTotal());
    }
  }

  /** A document of n lines differs from its unrounded total by at most n * (1 + maxRate / 200) cents,
      the rate in percent. */
  lemma {:induction false} TotalIsClose(db: Db, kind: DocumentKind, control: Id, currency: Currency, date: Date,
                     inputs: seq<LineInput>, maxRate: nat)
    requires CreateDocument(db, kind, control, currency, date, inputs).Success?
    requires forall i :: 0 <= i < |inputs| ==> RateOf(db.chart, inputs[i].taxCode) <= maxRate
    ensures var after := CreateDocument(db, kind, control, currency, date, inputs).value;
            && |after.documents| == |db.documents| + 1
            && Abs(10_000_000 * after.documents[|db.documents|].total - Sum(inputs, Unrounded(db.chart)))
               <= |inputs| * (10_000_000 + 50 * maxRate)
  {
    TotalRoundingBound(db.chart, inputs, maxRate);
  }

  // --- drafts may be edited freely --------------------------------------------------------------

  /** Only the last edit of a draft entry counts: it is as if it had been created that way, down to
      the error. */
  lemma LastEntryEditCounts(db: Db, date: Date, currency: Currency, lines: seq<JournalLine>, edited: seq<JournalLine>)
    requires CreateEntry(db, date, currency, lines).Success?
    ensures UpdateEntry(CreateEntry(db, date, currency, lines).value, |db.entries|, edited)
         == CreateEntry(db, date, currency, edited)
  {
    var draft, final := DraftEntry(date, currency, lines, true), DraftEntry(date, currency, edited, true);
    assert (db.entries + [draft])[|db.entries| := final] == db.entries + [final];
  }

  /** The same for a draft document, its totals included. */
  lemma LastDocumentEditCounts(db: Db, kind: DocumentKind, control: Id, currency: Currency, date: Date,
                               inputs: seq<LineInput>, edited: seq<LineInput>)
    requires CreateDocument(db, kind, control, currency, date, inputs).Success?
    ensures UpdateDocument(CreateDocument(db, kind, control, currency, date, inputs).value, kind, |db.documents|, edited)
         == CreateDocument(db, kind, control, currency, date, edited)
  {
    var after := CreateDocument(db, kind, control, currency, date, inputs).value;
    if ComputeLines(db.chart, edited).Success? {
      var lines := ComputeLines(db.chart, edited).value;
      var final := Document(kind, control, currency, date, DocDraft, lines, Total(lines), 0, None, None);
      assert after.documents[|db.documents| := final] == db.documents + [final];
    }
  }

  // --- bank lines ----------------------------------------------------------------------------

  /** After any run no two lines of a bank account share a digest, and exactly the reconciled lines
      name a journal entry. */
  lemma {:induction false} BankLinesAreDistinct(init: Db, calls: seq<O.Call>)
    requires O.Initial(init)
    ensures var db := O.Run(init, calls);
            && DigestsDistinct(db.bankLines)
            && forall l :: 0 <= l < |db.bankLines| ==> (db.bankLines[l].entry.Some? <==> db.bankLines[l].match_ != Unmatched)
  {
    InitialInv(init);
    RunKeepsInv(init, calls);
    var db := O.Run(init, calls);
    forall l | 0 <= l < |db.bankLines| ensures db.bankLines[l].entry.Some? <==> db.bankLines[l].match_ != Unmatched {
      assert BankLineOk(db.chart, db.documents, db.bankLines[l]);
    }
  }

  // --- when posting, cancelling and reconciling succeed ---------------------------------------

  /** A document posts exactly when it is a draft with lines, its total is positive, no line is
      free, and its date lies in an open period. */
  lemma PostsExactlyWhen(db: Db, kind: DocumentKind, d: Id)
    requires Inv(db) && d < |db.documents| && db.documents[d].kind == kind
    ensures PostDocument(db, kind, d).Success?
       <==> var doc := db.documents[d];
            && doc.status == DocDraft && doc.lines != [] && doc.total > 0
            && NoFreeLine(doc.lines) && OpenPeriod(db.periods, doc.date).Success?
  {
    var doc := db.documents[d];
    assert DocumentOk(db.chart, db.entries, doc);
    if doc.status == DocDraft && doc.lines != [] && doc.total > 0 {
      EntryLinesBalance(db.chart, kind == Invoice, doc.control, doc.lines, 0);
      EntryLinesOneSided(db.chart, kind == Invoice, doc.control, doc.lines);
      WriteAndPostAppends(db, doc.date, doc.currency, EntryLines(db.chart, kind == Invoice, doc.control, doc.lines));
    }
  }

  lemma ComputeAllAppend(chart: Chart, inputs: seq<LineInput>, input: LineInput, lines: seq<DocumentLine>,
                         line: DocumentLine)
    requires ComputeAll(chart, inputs) == Success(lines) && ComputeLine(chart, input) == Success(line)
    ensures ComputeAll(chart, inputs + [input]) == Success(lines + [line])
  {
    assert (inputs + [input])[..|inputs|] == inputs;
  }

  const SHOP := Chart([Account(Asset, true), Account(Revenue, true), Account(Asset, true)], [], [BankAccount(2, "EUR")])
  const BASKET := [LineInput(1, 100, 500, None), LineInput(1, 100, 0, None)]
  const BASKET_LINES := [DocumentLine(1, 100, 500, None, 500, 0), DocumentLine(1, 100, 0, None, 0, 0)]

  lemma BasketTotal()
    ensures ComputeLines(SHOP, BASKET) == Success(BASKET_LINES) && Total(BASKET_LINES) == 500
  {
    var paid, free := BASKET_LINES[0], BASKET_LINES[1];
    ComputeAllAppend(SHOP, [], BASKET[0], [], paid);
    assert [] + [BASKET[0]] == [BASKET[0]] && [] + [paid] == [paid];
    ComputeAllAppend(SHOP, [BASKET[0]], BASKET[1], [paid], free);
    assert BASKET == [BASKET[0]] + [BASKET[1]] && [paid] + [free] == BASKET_LINES;
    TotalIsSumOfLineTotals(BASKET_LINES);
    SumOfOne(paid, LineTotal());
    SumAppend([paid], free, LineTotal());
  }

  /** A draft invoice for 5.00 with one free line, in an open period: creating it is accepted,
      posting it aborts. */
  lemma FreeLineBlocksPosting(digest: Payload -> nat)
    ensures var db := Db(SHOP, [Period(1, 31, true)], [], [], [], [], [], [], digest);
            var drafted := CreateDocument(db, Invoice, 0, "EUR", 10, BASKET);
            && drafted.Success? && |drafted.value.documents| == 1 && drafted.value.documents[0].total == 500
            && PostDocument(drafted.value, Invoice, 0) == Failure(Conflict)
  {
    BasketTotal();
    var doc := Document(Invoice, 0, "EUR", 10, DocDraft, BASKET_LINES, 500, 0, None, None);
    var drafted := Db(SHOP, [Period(1, 31, true)], [], [doc], [], [], [], [], digest);
    assert [] + [doc] == [doc];
    assert CreateDocument(drafted.(documents := []), Invoice, 0, "EUR", 10, BASKET) == Success(drafted);
    EntryLinesOneSided(SHOP, true, 0, BASKET_LINES);
    assert BASKET_LINES[1].subtotal == 0;
  }

  lemma {:induction false} NotePostsExactlyWhen(db: Db, n: Id)
    requires Inv(db) && n < |db.notes|
    ensures PostNote(db, n).Success?
       <==> var note := db.notes[n];
            && note.status == DocDraft && db.documents[note.invoice].status == DocPosted
            && note.lines != [] && note.total > 0
            && NoFreeLine(note.lines) && OpenPeriod(db.periods, note.date).Success?
  {
    var note := db.notes[n];
    assert NoteOk(db.chart, db.documents, note);
    if note.status == DocDraft && note.lines != [] && note.total > 0 {
      var control := db.documents[note.invoice].control;
      NoteEntryLinesBalance(db.chart, control, note.lines, 0);
      NoteEntryLinesOneSided(db.chart, control, note.lines);
      WriteAndPostAppends(db, note.date, note.currency, NoteEntryLines(db.chart, control, note.lines));
    }
  }

  /** A posted document can be cancelled on a date of an open period unless its own entry was
      reversed through the journal service; then it never can. Cancelling takes exactly the
      document's effect off every balance. */
  lemma CancelsExactlyWhen(db: Db, kind: DocumentKind, d: Id, date: Date)
    requires Inv(db) && d < |db.documents| && db.documents[d].kind == kind && db.documents[d].status == DocPosted
    ensures db.documents[d].entry.Some? && db.documents[d].entry.value < |db.entries|
    ensures CancelDocument(db, kind, d, date).Success?
       <==> db.entries[db.documents[d].entry.value].status == EntryPosted && OpenPeriod(db.periods, date).Success?
    ensures CancelDocument(db, kind, d, date).Success? ==>
              forall a: Id, c: Currency ::
                Balance(CancelDocument(db, kind, d, date).value, a, c)
                == Balance(db, a, c) - DocumentShare(db.chart, a, c)(db.documents[d])
  {
    var doc := db.documents[d];
    assert DocumentOk(db.chart, db.entries, doc);
    if CancelDocument(db, kind, d, date).Success? {
      var e, p := doc.entry.value, OpenPeriod(db.periods, date).value;
      forall a: Id, c: Currency
        ensures Balance(CancelDocument(db, kind, d, date).value, a, c)
             == Balance(db, a, c) - DocumentShare(db.chart, a, c)(doc)
      {
        ReverseBalance(db, e, date, p, false, a, c);
        assert Effect(db.entries[e].lines, a) == EffectOf(db.chart, doc, a);
      }
    }
  }

  /** A document whose own entry was reversed through the journal service stays posted for ever: no
      later run makes it cancellable. */
  lemma {:induction false} ReversedByHandNeverCancels(db: Db, calls: seq<O.Call>, kind: DocumentKind, d: Id, date: Date)
    requires Inv(db) && d < |db.documents| && db.documents[d].kind == kind && db.documents[d].status == DocPosted
    requires db.entries[EntryOf(db, d)].status == EntryReversed
    ensures CancelDocument(O.Run(db, calls), kind, d, date) == Failure(Invalid)
  {
    RunKeepsInv(db, calls);
    var after := O.Run(db, calls);
    assert DocumentGrows(db.documents[d], after.documents[d]);
    assert Live(db.entries[EntryOf(db, d)]);
  }

  function EntryOf(db: Db, d: Id): (e: Id)
    requires Inv(db) && d < |db.documents| && Issued(db.documents[d].status)
    ensures e < |db.entries| && db.documents[d].entry == Some(e) && Live(db.entries[e])
  {
    assert DocumentOk(db.chart, db.entries, db.documents[d]);
    db.documents[d].entry.value
  }

  /** A match is confirmed exactly when the line is unmatched, the document is posted, of the kind
      the sign asks for, and owes exactly the line's amount, and the date is in an open period. */
  lemma ConfirmsExactlyWhen(db: Db, l: Id, kind: DocumentKind, d: Id)
    requires TablesOk(db) && l < |db.bankLines| && d < |db.documents| && db.documents[d].kind == kind
    ensures ConfirmMatch(db, l, kind, d).Success?
       <==> var line, doc := db.bankLines[l], db.documents[d];
            && line.match_ == Unmatched && doc.status == DocPosted
            && kind == (if line.amount > 0 then Invoice else Bill)
            && doc.outstanding == Abs(line.amount) && OpenPeriod(db.periods, line.date).Success?
  {
    var line, doc := db.bankLines[l], db.documents[d];
    assert BankLineOk(db.chart, db.documents, line);
    var ledger := db.chart.bankAccounts[line.bankAccount].ledger;
    BankEntryLinesEffect(ledger, doc.control, line.amount, 0);
    WriteAndPostAppends(Settled(db, line, d), line.date, doc.currency, BankEntryLines(ledger, doc.control, line.amount));
    if line.match_ == Unmatched && doc.status == DocPosted && kind == (if line.amount > 0 then Invoice else Bill)
       && doc.outstanding == Abs(line.amount) {
      PayAndAllocate(db, line, d);
    }
  }

  /** A line is assigned exactly when it is unmatched, the account is there and active, and the date
      is in an open period. */
  lemma AssignsExactlyWhen(db: Db, l: Id, account: Id)
    requires TablesOk(db) && l < |db.bankLines|
    ensures AssignLine(db, l, account).Success?
       <==> && db.bankLines[l].match_ == Unmatched && account < |db.chart.accounts| && db.chart.accounts[account].active
            && OpenPeriod(db.periods, db.bankLines[l].date).Success?
  {
    var line := db.bankLines[l];
    assert BankLineOk(db.chart, db.documents, line);
    var bank := db.chart.bankAccounts[line.bankAccount];
    BankEntryLinesEffect(bank.ledger, account, line.amount, 0);
    WriteAndPostAppends(db, line.date, bank.currency, BankEntryLines(bank.ledger, account, line.amount));
  }

  /** A confirmed match leaves the payment fully allocated, the document owing nothing, and one
      posted two-line entry moving the amount from the control account to the bank's. */
  lemma ConfirmOutcome(db: Db, l: Id, kind: DocumentKind, d: Id, a: Id)
    requires TablesOk(db) && ConfirmMatch(db, l, kind, d).Success?
    ensures l < |db.bankLines| && d < |db.documents| && db.bankLines[l].bankAccount < |db.chart.bankAccounts|
    ensures var after := ConfirmMatch(db, l, kind, d).value;
            var p, e, amount := |db.payments|, |db.entries|, db.bankLines[l].amount;
            && after.payments == db.payments
                 + [Payment(if amount > 0 then Inbound else Outbound, Abs(amount), db.documents[d].currency, 0)]
            && after.documents == db.documents[d := db.documents[d].(outstanding := 0)]
            && |after.entries| == e + 1 && after.entries[..e] == db.entries
            && after.entries[e].status == EntryPosted && |after.entries[e].lines| == 2
            && Effect(after.entries[e].lines, a)
               == (if a == db.chart.bankAccounts[db.bankLines[l].bankAccount].ledger then amount else 0)
                  - (if a == db.documents[d].control then amount else 0)
            && after.bankLines == db.bankLines[l := db.bankLines[l].(match_ := ToDocument(d, p), entry := Some(e))]
  {
    var p := ConfirmWrites(db, l, kind, d);
    var line, control := db.bankLines[l], db.documents[d].control;
    BankEntryLinesEffect(db.chart.bankAccounts[line.bankAccount].ledger, control, line.amount, a);
  }

  lemma PayAndAllocate(db: Db, line: BankLine, d: Id)
    requires d < |db.documents| && db.documents[d].status == DocPosted
    requires db.documents[d].outstanding == Abs(line.amount) > 0
    ensures var payment := LinePayment(line, db.documents[d]);
            var paid := db.(payments := db.payments + [payment]);
            && CreatePayment(db, payment.direction, payment.amount, payment.currency) == Success(paid)
            && CreateAllocation(paid, |db.payments|, db.documents[d].kind, d, payment.amount) == Success(Settled(db, line, d))
  {
    var payment := LinePayment(line, db.documents[d]);
    var paid := db.(payments := db.payments + [payment]);
    assert paid.payments[|db.payments| := payment.(unallocated := 0)] == Settled(db, line, d).payments;
  }

  // --- period locking ---------------------------------------------------------------------------

  /** The entry is live now and was not before. */
  predicate NewlyLive(db: Db, after: Db, i: Id)
  {
    i < |after.entries| && Live(after.entries[i]) && (i < |db.entries| ==> !Live(db.entries[i]))
  }

  ghost predicate InOpenPeriod(db: Db, e: Entry)
  {
    e.period.Some? && e.period.value < |db.periods| && db.periods[e.period.value].open
    && Covers(db.periods[e.period.value], e.date)
  }

  lemma PostEntryUsesOpenPeriod(db: Db, e: Id, i: Id)
    requires PostEntry(db, e).Success? && NewlyLive(db, PostEntry(db, e).value, i)
    ensures InOpenPeriod(db, PostEntry(db, e).value.entries[i])
  {
  }

  lemma WriteAndPostUsesOpenPeriod(db: Db, date: Date, currency: Currency, lines: seq<JournalLine>, i: Id)
    requires WriteAndPost(db, date, currency, lines).Success?
    requires NewlyLive(db, WriteAndPost(db, date, currency, lines).value, i)
    ensures InOpenPeriod(db, WriteAndPost(db, date, currency, lines).value.entries[i])
  {
    WriteAndPostAppends(db, date, currency, lines);
  }

  lemma ReverseUsesOpenPeriod(db: Db, e: Id, date: Date, manual: bool, i: Id)
    requires ReverseEntry(db, e, date, manual).Success? && NewlyLive(db, ReverseEntry(db, e, date, manual).value, i)
    ensures InOpenPeriod(db, ReverseEntry(db, e, date, manual).value.entries[i])
  {
  }

  lemma ConfirmUsesOpenPeriod(db: Db, l: Id, kind: DocumentKind, d: Id, i: Id)
    requires ConfirmMatch(db, l, kind, d).Success? && NewlyLive(db, ConfirmMatch(db, l, kind, d).value, i)
    ensures InOpenPeriod(db, ConfirmMatch(db, l, kind, d).value.entries[i])
  {
    var line, doc := db.bankLines[l], db.documents[d];
    var direction := if line.amount > 0 then Inbound else Outbound;
    var settled := PayInFull(db, direction, Abs(line.amount), doc.currency, kind, d).value;
    var lines := BankEntryLines(db.chart.bankAccounts[line.bankAccount].ledger, doc.control, line.amount);
    WriteAndPostUsesOpenPeriod(settled, line.date, doc.currency, lines, i);
  }

  lemma DocumentUsesOpenPeriod(db: Db, kind: DocumentKind, d: Id, i: Id)
    requires PostDocument(db, kind, d).Success? && NewlyLive(db, PostDocument(db, kind, d).value, i)
    ensures InOpenPeriod(db, PostDocument(db, kind, d).value.entries[i])
  {
    var doc := db.documents[d];
    WriteAndPostUsesOpenPeriod(db, doc.date, doc.currency, EntryLines(db.chart, kind == Invoice, doc.control, doc.lines), i);
  }

  lemma NoteUsesOpenPeriod(db: Db, n: Id, i: Id)
    requires PostNote(db, n).Success? && NewlyLive(db, PostNote(db, n).value, i)
    ensures InOpenPeriod(db, PostNote(db, n).value.entries[i])
  {
    var note := db.notes[n];
    var control := db.documents[note.invoice].control;
    WriteAndPostUsesOpenPeriod(db, note.date, note.currency, NoteEntryLines(db.chart, control, note.lines), i);
  }

  lemma AssignUsesOpenPeriod(db: Db, l: Id, account: Id, i: Id)
    requires AssignLine(db, l, account).Success? && NewlyLive(db, AssignLine(db, l, account).value, i)
    ensures InOpenPeriod(db, AssignLine(db, l, account).value.entries[i])
  {
    var line := db.bankLines[l];
    var bank := db.chart.bankAccounts[line.bankAccount];
    WriteAndPostUsesOpenPeriod(db, line.date, bank.currency, BankEntryLines(bank.ledger, account, line.amount), i);
  }

  lemma JournalUsesOpenPeriod(db: Db, call: O.Call, i: Id)
    requires NewlyLive(db, O.Step(db, call), i) && (call.PostEntry? || call.ReverseEntry? || call.CancelDocument?)
    ensures InOpenPeriod(db, O.Step(db, call).entries[i])
  {
    match call
    case PostEntry(e) => PostEntryUsesOpenPeriod(db, e, i);
    case ReverseEntry(e, date) => ReverseUsesOpenPeriod(db, e, date, true, i);
    case CancelDocument(kind, d, date) => ReverseUsesOpenPeriod(db, db.documents[d].entry.value, date, false, i);
  }

  /** Whatever call makes an entry live, it does so in a period that is open when the call starts
      and that covers the entry's date. */
  lemma {:induction false} PostsOnlyIntoOpenPeriods(db: Db, call: O.Call, i: Id)
    requires NewlyLive(db, O.Step(db, call), i)
    ensures InOpenPeriod(db, O.Step(db, call).entries[i])
  {
    match call
    case PostDocument(kind, d) => DocumentUsesOpenPeriod(db, kind, d, i);
    case PostNote(n) => NoteUsesOpenPeriod(db, n, i);
    case ConfirmMatch(l, kind, d) => ConfirmUsesOpenPeriod(db, l, kind, d, i);
    case AssignLine(l, account) => AssignUsesOpenPeriod(db, l, account, i);
    case _ => if call.PostEntry? || call.ReverseEntry? || call.CancelDocument? { JournalUsesOpenPeriod(db, call, i); }
  }

  /** Between a close and the next reopen of a period, nothing posts into it. */
  lemma {:induction false} ClosedPeriodStaysQuiet(db: Db, calls: seq<O.Call>, p: Id, i: Id)
    requires Inv(db) && p < |db.periods| && !db.periods[p].open
    requires O.ReopenPeriod(p) !in calls
    requires i < |O.Run(db, calls).entries| && Live(O.Run(db, calls).entries[i])
    requires O.Run(db, calls).entries[i].period == Some(p)
    ensures i < |db.entries| && Live(db.entries[i])
  {
    StaysClosed(db, calls, p);
    if calls != [] {
      var init, last := calls[..|calls| - 1], calls[|calls| - 1];
      var before, after := O.Run(db, init), O.Run(db, calls);
      RunKeepsInv(db, init);
      StaysClosed(db, init, p);
      if NewlyLive(before, after, i) {
        PostsOnlyIntoOpenPeriods(before, last, i);
      } else {
        StepKeepsInv(before, last);
        ClosedPeriodStaysQuiet(db, init, p, i);
      }
    }
  }

  lemma {:induction false} StaysClosed(db: Db, calls: seq<O.Call>, p: Id)
    requires p < |db.periods| && !db.periods[p].open
    requires O.ReopenPeriod(p) !in calls
    ensures p < |O.Run(db, calls).periods| && !O.Run(db, calls).periods[p].open
  {
    if calls != [] {
      var init, last := calls[..|calls| - 1], calls[|calls| - 1];
      StaysClosed(db, init, p);
      StepStaysClosed(O.Run(db, init), last, p);
    }
  }

  lemma ConfirmKeepsPeriods(db: Db, l: Id, kind: DocumentKind, d: Id)
    ensures ConfirmMatch(db, l, kind, d).Success? ==> ConfirmMatch(db, l, kind, d).value.periods == db.periods
  {
  }

  lemma PostKeepsPeriods(db: Db, kind: DocumentKind, d: Id, n: Id)
    ensures PostDocument(db, kind, d).Success? ==> PostDocument(db, kind, d).value.periods == db.periods
    ensures PostNote(db, n).Success? ==> PostNote(db, n).value.periods == db.periods
  {
  }

  predicate JournalOrMoney(call: O.Call)
  {
    || call.CreateEntry? || call.UpdateEntry? || call.VoidEntry? || call.PostEntry? || call.ReverseEntry?
    || call.CreatePayment? || call.CreateAllocation? || call.ReverseAllocation?
    || call.CancelDocument? || call.ImportStatement? || call.AssignLine?
  }

  lemma JournalOrMoneyKeepsPeriods(db: Db, call: O.Call)
    requires JournalOrMoney(call)
    ensures O.Step(db, call).periods == db.periods
  {
  }

  lemma StepStaysClosed(db: Db, call: O.Call, p: Id)
    requires p < |db.periods| && !db.periods[p].open && call != O.ReopenPeriod(p)
    ensures p < |O.Step(db, call).periods| && !O.Step(db, call).periods[p].open
  {
    if JournalOrMoney(call) {
      JournalOrMoneyKeepsPeriods(db, call);
    } else {
      match call
      case ConfirmMatch(l, kind, d) => ConfirmKeepsPeriods(db, l, kind, d);
      case PostDocument(kind, d) => PostKeepsPeriods(db, kind, d, 0);
      case PostNote(n) => PostKeepsPeriods(db, Invoice, 0, n);
      case _ =>
    }
  }
}
