/** What every transaction keeps: the tables stay sound, history is only added to, and every
    account's balance is accounted for. */
module Invariants {
  import opened Wrappers
  import opened Sums
  import opened Records
  import opened Periods
  import opened Journal
  import opened Numbering
  import opened Documents
  import opened Payments
  import opened Banking
  import opened Subledger
  import Operations

  ghost predicate TablesOk(db: Db)
  {
    && PeriodsOk(db.periods)
    && EntriesOk(db.entries, db.periods)
    && DocumentsOk(db.chart, db.entries, db.documents)
    && NotesOk(db.chart, db.documents, db.notes)
    && AllocationsOk(db.documents, db.payments, db.allocations)
    && BankLinesOk(db.chart, db.documents, db.bankLines)
    && DigestsDistinct(db.bankLines)
  }

  ghost predicate NumbersOk(db: Db)
  {
    Gapless(DocumentNumbers(db.documents)) && Gapless(NoteNumbers(db.notes))
  }

  ghost predicate Inv(db: Db)
  {
    TablesOk(db) && NumbersOk(db) && Agreement(db)
  }

  // --- history is only added to --------------------------------------------------------

  ghost predicate NoteGrows(old_: CreditNote, new_: CreditNote)
  {
    && new_.invoice == old_.invoice && new_.currency == old_.currency && new_.lines == old_.lines
    && (old_.status != DocDraft ==> new_ == old_)
  }

  ghost predicate BankLineGrows(old_: BankLine, new_: BankLine)
  {
    new_ == old_ || (old_.match_ == Unmatched && new_ == old_.(match_ := new_.match_, entry := new_.entry))
  }

  /** Nothing is deleted; posted entries, issued documents and notes, allocations and reconciled
      lines never change (beyond reversal, cancellation and the outstanding amount). */
  ghost predicate Grows(db: Db, after: Db)
  {
    && ChartGrows(db.chart, after.chart)
    && PeriodsGrow(db.periods, after.periods)
    && EntriesGrow(db.entries, after.entries)
    && DocumentsGrow(db.documents, after.documents)
    && |db.notes| <= |after.notes|
    && (forall n :: 0 <= n < |db.notes| ==> NoteGrows(db.notes[n], after.notes[n]))
    && |db.payments| <= |after.payments|
    && (forall p :: 0 <= p < |db.payments| ==>
          after.payments[p] == db.payments[p].(unallocated := after.payments[p].unallocated))
    && db.allocations <= after.allocations
    && |db.bankLines| <= |after.bankLines|
    && (forall l :: 0 <= l < |db.bankLines| ==> BankLineGrows(db.bankLines[l], after.bankLines[l]))
    && after.digest == db.digest
  }

  lemma GrowsIsTransitive(a: Db, b: Db, c: Db)
    requires Grows(a, b) && Grows(b, c)
    ensures Grows(a, c)
  {
    forall d | 0 <= d < |a.documents| ensures DocumentGrows(a.documents[d], c.documents[d]) {
      assert DocumentGrows(a.documents[d], b.documents[d]) && DocumentGrows(b.documents[d], c.documents[d]);
    }
    forall n | 0 <= n < |a.notes| ensures NoteGrows(a.notes[n], c.notes[n]) {
      assert NoteGrows(a.notes[n], b.notes[n]) && NoteGrows(b.notes[n], c.notes[n]);
    }
    forall l | 0 <= l < |a.bankLines| ensures BankLineGrows(a.bankLines[l], c.bankLines[l]) {
      assert BankLineGrows(a.bankLines[l], b.bankLines[l]) && BankLineGrows(b.bankLines[l], c.bankLines[l]);
    }
  }

  // --- chart, periods, payments ------------------------------------------------------------

  lemma ChartKeepsInv(db: Db, chart: Chart)
    requires Inv(db) && ChartGrows(db.chart, chart)
    ensures Inv(db.(chart := chart))
  {
    var after := db.(chart := chart);
    forall a: Id, c: Currency ensures AgreesOn(after, a, c) {
      assert AgreesOn(db, a, c);
      ChartKeepsDocuments(db.chart, chart, db.entries, db.documents, a, c);
      NotesFrame(db.chart, chart, db.documents, db.documents, db.notes, a, c);
      BankLinesFrame(db.chart, chart, db.documents, db.documents, db.bankLines, a, c);
    }
    ChartKeepsDocuments(db.chart, chart, db.entries, db.documents, 0, "");
    NotesFrame(db.chart, chart, db.documents, db.documents, db.notes, 0, "");
    BankLinesFrame(db.chart, chart, db.documents, db.documents, db.bankLines, 0, "");
  }

  lemma PeriodsKeepInv(db: Db, periods: seq<Period>)
    requires Inv(db) && PeriodsOk(periods) && PeriodsGrow(db.periods, periods)
    ensures Inv(db.(periods := periods))
  {
    var after := db.(periods := periods);
    PeriodsGrowKeepsEntriesOk(db.entries, db.periods, periods);
    forall a: Id, c: Currency ensures AgreesOn(after, a, c) {
      assert AgreesOn(db, a, c);
    }
  }

  lemma PaymentKeepsInv(db: Db, payment: Payment)
    requires Inv(db) && payment.amount > 0 && payment.unallocated == payment.amount
    ensures Inv(db.(payments := db.payments + [payment]))
  {
    var after := db.(payments := db.payments + [payment]);
    NewPaymentKeepsAllocationsOk(db.documents, db.payments, db.allocations, payment);
    forall a: Id, c: Currency ensures AgreesOn(after, a, c) {
      assert AgreesOn(db, a, c);
    }
  }

  // --- entries --------------------------------------------------------------------------------

  /** The whole balance moved exactly as much as the manual part of it. */
  ghost predicate MovedManually(db: Db, after: Db)
  {
    forall a: Id, c: Currency ::
      Balance(after, a, c) - Balance(db, a, c) == ManualSide(after, a, c) - ManualSide(db, a, c)
  }

  lemma EntriesKeepInv(db: Db, entries: seq<Entry>)
    requires Inv(db) && EntriesOk(entries, db.periods) && EntriesGrow(db.entries, entries)
    requires MovedManually(db, db.(entries := entries))
    ensures Inv(db.(entries := entries))
  {
    var after := db.(entries := entries);
    EntriesKeepDocuments(db.chart, db.entries, entries, db.documents);
    forall a: Id, c: Currency ensures AgreesOn(after, a, c) {
      assert AgreesOn(db, a, c);
      assert Balance(after, a, c) - Balance(db, a, c) == ManualSide(after, a, c) - ManualSide(db, a, c);
    }
  }

  lemma NewDraftKeepsInv(db: Db, date: Date, currency: Currency, lines: seq<JournalLine>)
    requires Inv(db) && |lines| >= 2 && AllOneSided(lines)
    ensures Inv(db.(entries := db.entries + [DraftEntry(date, currency, lines, true)]))
    ensures EntriesGrow(db.entries, db.entries + [DraftEntry(date, currency, lines, true)])
  {
    var e := DraftEntry(date, currency, lines, true);
    AppendKeepsEntriesOk(db.entries, db.periods, e);
    forall a: Id, c: Currency
      ensures Balance(db.(entries := db.entries + [e]), a, c) == Balance(db, a, c)
      ensures ManualSide(db.(entries := db.entries + [e]), a, c) == ManualSide(db, a, c)
    {
      SumAppend(db.entries, e, EntryShare(a, c));
      SumAppend(db.entries, e, ManualShare(a, c));
    }
    EntriesKeepInv(db, db.entries + [e]);
  }

  /** Editing, voiding or posting a draft: drafts are manual, so what it adds is manual too. */
  lemma DraftChangeKeepsInv(db: Db, i: Id, e: Entry)
    requires Inv(db) && i < |db.entries| && db.entries[i].status == EntryDraft
    requires |e.lines| >= 2 && AllOneSided(e.lines) && e.reverses.None? && e.status != EntryReversed && e.manual
    requires if Live(e) then
               && Debits(e.lines) == Credits(e.lines)
               && e.period.Some? && e.period.value < |db.periods| && Covers(db.periods[e.period.value], e.date)
             else e.period.None?
    ensures Inv(db.(entries := db.entries[i := e])) && EntriesGrow(db.entries, db.entries[i := e])
  {
    DraftChangeKeepsEntriesOk(db.entries, db.periods, i, e);
    forall a: Id, c: Currency
      ensures Balance(db.(entries := db.entries[i := e]), a, c) - Balance(db, a, c) == EntryShare(a, c)(e)
      ensures ManualSide(db.(entries := db.entries[i := e]), a, c) - ManualSide(db, a, c) == EntryShare(a, c)(e)
    {
      SumUpdate(db.entries, i, e, EntryShare(a, c));
      SumUpdate(db.entries, i, e, ManualShare(a, c));
    }
    EntriesKeepInv(db, db.entries[i := e]);
  }

  /** Reversal takes the original's effect off the balance, and off the manual part if it is manual. */
  lemma ReverseBalance(db: Db, e: Id, date: Date, p: Id, manual: bool, a: Id, c: Currency)
    requires EntriesOk(db.entries, db.periods) && e < |db.entries| && db.entries[e].status == EntryPosted
    ensures var after := db.(entries := Reverse(db.entries, e, date, p, manual));
            var effect := if db.entries[e].currency == c then Effect(db.entries[e].lines, a) else 0;
            && Balance(after, a, c) == Balance(db, a, c) - effect
            && ManualSide(after, a, c) == ManualSide(db, a, c) - if manual then effect else 0
  {
    var flagged := db.entries[e].(status := EntryReversed);
    var mirror := Entry(date, db.entries[e].currency, EntryPosted, Some(p), Some(e), Mirror(db.entries[e].lines), manual);
    MirrorTotals(db.entries[e].lines, a);
    SumUpdate(db.entries, e, flagged, EntryShare(a, c));
    SumUpdate(db.entries, e, flagged, ManualShare(a, c));
    SumAppend(db.entries[e := flagged], mirror, EntryShare(a, c));
    SumAppend(db.entries[e := flagged], mirror, ManualShare(a, c));
  }

  lemma ReverseEntryKeepsInv(db: Db, e: Id, date: Date)
    requires Inv(db) && ReverseEntry(db, e, date, true).Success?
    ensures Inv(ReverseEntry(db, e, date, true).value)
    ensures Grows(db, ReverseEntry(db, e, date, true).value)
  {
    var p := OpenPeriod(db.periods, date).value;
    var entries := Reverse(db.entries, e, date, p, true);
    ReverseKeepsEntriesOk(db.entries, db.periods, e, date, p, true);
    forall a: Id, c: Currency
      ensures Balance(db.(entries := entries), a, c) - Balance(db, a, c)
           == ManualSide(db.(entries := entries), a, c) - ManualSide(db, a, c)
    {
      ReverseBalance(db, e, date, p, true, a, c);
    }
    EntriesKeepInv(db, entries);
  }

  lemma CreateEntryKeepsInv(db: Db, date: Date, currency: Currency, lines: seq<JournalLine>)
    requires Inv(db) && CreateEntry(db, date, currency, lines).Success?
    ensures Inv(CreateEntry(db, date, currency, lines).value) && Grows(db, CreateEntry(db, date, currency, lines).value)
  {
    NewDraftKeepsInv(db, date, currency, lines);
  }

  lemma UpdateEntryKeepsInv(db: Db, e: Id, lines: seq<JournalLine>)
    requires Inv(db) && UpdateEntry(db, e, lines).Success?
    ensures Inv(UpdateEntry(db, e, lines).value) && Grows(db, UpdateEntry(db, e, lines).value)
  {
    assert EntryOk(db.entries, db.periods, e);
    DraftChangeKeepsInv(db, e, db.entries[e].(lines := lines));
  }

  lemma VoidEntryKeepsInv(db: Db, e: Id)
    requires Inv(db) && VoidEntry(db, e).Success?
    ensures Inv(VoidEntry(db, e).value) && Grows(db, VoidEntry(db, e).value)
  {
    assert EntryOk(db.entries, db.periods, e);
    DraftChangeKeepsInv(db, e, db.entries[e].(status := EntryVoided));
  }

  lemma PostEntryKeepsInv(db: Db, e: Id)
    requires Inv(db) && PostEntry(db, e).Success?
    ensures Inv(PostEntry(db, e).value) && Grows(db, PostEntry(db, e).value)
  {
    assert EntryOk(db.entries, db.periods, e);
    var p := OpenPeriod(db.periods, db.entries[e].date).value;
    DraftChangeKeepsInv(db, e, db.entries[e].(status := EntryPosted, period := Some(p)));
  }

  // --- writing and posting inside another transaction ----------------------------------------

  function PostedEntry(date: Date, currency: Currency, p: Id, lines: seq<JournalLine>): Entry
  {
    Entry(date, currency, EntryPosted, Some(p), None, lines, false)
  }

  /** It succeeds exactly when the lines are one-sided, at least two, balanced, and the date is in
      an open period; and then it appends one posted entry. */
  lemma WriteAndPostAppends(db: Db, date: Date, currency: Currency, lines: seq<JournalLine>)
    ensures WriteAndPost(db, date, currency, lines).Success? <==>
              && AllOneSided(lines) && |lines| >= 2 && Debits(lines) == Credits(lines)
              && OpenPeriod(db.periods, date).Success?
    ensures WriteAndPost(db, date, currency, lines).Success? ==>
              WriteAndPost(db, date, currency, lines).value
              == db.(entries := db.entries + [PostedEntry(date, currency, OpenPeriod(db.periods, date).value, lines)])
  {
    var draft := DraftEntry(date, currency, lines, false);
    var n := |db.entries|;
    assert (db.entries + [draft])[n] == draft;
    if OpenPeriod(db.periods, date).Success? {
      var posted := PostedEntry(date, currency, OpenPeriod(db.periods, date).value, lines);
      assert (db.entries + [draft])[n := posted] == db.entries + [posted];
    }
  }

  lemma AppendedBalance(db: Db, e: Entry, a: Id, c: Currency)
    requires Live(e) && !e.manual
    ensures var after := db.(entries := db.entries + [e]);
            && Balance(after, a, c) == Balance(db, a, c) + (if e.currency == c then Effect(e.lines, a) else 0)
            && ManualSide(after, a, c) == ManualSide(db, a, c)
  {
    SumAppend(db.entries, e, EntryShare(a, c));
    SumAppend(db.entries, e, ManualShare(a, c));
  }

  // --- documents ----------------------------------------------------------------------------------

  ghost predicate SameDocumentSide(db: Db, after: Db)
  {
    forall a: Id, c: Currency :: DocumentSide(after, a, c) == DocumentSide(db, a, c)
  }

  lemma DocumentsKeepInv(db: Db, after: Db)
    requires Inv(db)
    requires after == db.(documents := after.documents, payments := after.payments, allocations := after.allocations)
    requires DocumentsGrow(db.documents, after.documents)
    requires DocumentsOk(db.chart, db.entries, after.documents)
    requires AllocationsOk(after.documents, after.payments, after.allocations)
    requires Gapless(DocumentNumbers(after.documents))
    requires SameDocumentSide(db, after)
    ensures Inv(after)
  {
    forall a: Id, c: Currency ensures AgreesOn(after, a, c) {
      assert AgreesOn(db, a, c);
      assert DocumentSide(after, a, c) == DocumentSide(db, a, c);
      NotesFrame(db.chart, db.chart, db.documents, after.documents, db.notes, a, c);
      BankLinesFrame(db.chart, db.chart, db.documents, after.documents, db.bankLines, a, c);
    }
    NotesFrame(db.chart, db.chart, db.documents, after.documents, db.notes, 0, "");
    BankLinesFrame(db.chart, db.chart, db.documents, after.documents, db.bankLines, 0, "");
  }

  lemma NewDocumentKeepsInv(db: Db, doc: Document)
    requires Inv(db) && doc.status == DocDraft && doc.outstanding == 0 && DocumentOk(db.chart, db.entries, doc)
    ensures Inv(db.(documents := db.documents + [doc]))
  {
    var after := db.(documents := db.documents + [doc]);
    NewDocumentKeepsAllocationsOk(db.documents, db.payments, db.allocations, doc);
    AppendKeepsGapless(DocumentNumbers(db.documents));
    assert DocumentNumbers(after.documents) == DocumentNumbers(db.documents) + [None];
    forall a: Id, c: Currency ensures DocumentSide(after, a, c) == DocumentSide(db, a, c) {
      SumAppend(db.documents, doc, DocumentShare(db.chart, a, c));
    }
    DocumentsKeepInv(db, after);
  }

  /** Editing or voiding a draft document. */
  lemma DraftDocumentKeepsInv(db: Db, d: Id, doc: Document)
    requires Inv(db) && d < |db.documents| && db.documents[d].status == DocDraft
    requires doc.status == DocDraft || doc.status == DocVoided
    requires DocumentGrows(db.documents[d], doc) && DocumentOk(db.chart, db.entries, doc)
    requires doc.number.None? && doc.outstanding == 0
    ensures Inv(db.(documents := db.documents[d := doc]))
  {
    var after := db.(documents := db.documents[d := doc]);
    assert SettlementOk(db.documents[d], LiveTotal(db.allocations, OfDocument(d)));
    DocumentChangeKeepsAllocationsOk(db.documents, db.payments, db.allocations, d, doc);
    assert DocumentOk(db.chart, db.entries, db.documents[d]);
    assert DocumentNumbers(after.documents) == DocumentNumbers(db.documents);
    forall a: Id, c: Currency ensures DocumentSide(after, a, c) == DocumentSide(db, a, c) {
      SumUpdate(db.documents, d, doc, DocumentShare(db.chart, a, c));
    }
    DocumentsKeepInv(db, after);
  }

  lemma CreateDocumentKeepsInv(db: Db, kind: DocumentKind, control: Id, currency: Currency, date: Date, inputs: seq<LineInput>)
    requires Inv(db) && CreateDocument(db, kind, control, currency, date, inputs).Success?
    ensures Inv(CreateDocument(db, kind, control, currency, date, inputs).value)
    ensures Grows(db, CreateDocument(db, kind, control, currency, date, inputs).value)
  {
    ComputedLinesOk(db.chart, inputs);
    var lines := ComputeLines(db.chart, inputs).value;
    NewDocumentKeepsInv(db, Document(kind, control, currency, date, DocDraft, lines, Total(lines), 0, None, None));
  }

  lemma UpdateDocumentKeepsInv(db: Db, kind: DocumentKind, d: Id, inputs: seq<LineInput>)
    requires Inv(db) && UpdateDocument(db, kind, d, inputs).Success?
    ensures Inv(UpdateDocument(db, kind, d, inputs).value) && Grows(db, UpdateDocument(db, kind, d, inputs).value)
  {
    assert DocumentOk(db.chart, db.entries, db.documents[d]);
    assert SettlementOk(db.documents[d], LiveTotal(db.allocations, OfDocument(d)));
    ComputedLinesOk(db.chart, inputs);
    var lines := ComputeLines(db.chart, inputs).value;
    DraftDocumentKeepsInv(db, d, db.documents[d].(lines := lines, total := Total(lines)));
  }

  lemma VoidDocumentKeepsInv(db: Db, kind: DocumentKind, d: Id)
    requires Inv(db) && VoidDocument(db, kind, d).Success?
    ensures Inv(VoidDocument(db, kind, d).value) && Grows(db, VoidDocument(db, kind, d).value)
  {
    assert DocumentOk(db.chart, db.entries, db.documents[d]);
    assert SettlementOk(db.documents[d], LiveTotal(db.allocations, OfDocument(d)));
    DraftDocumentKeepsInv(db, d, db.documents[d].(status := DocVoided));
  }

  /** A document row changes together with the entries table. */
  lemma IssueKeepsTables(db: Db, after: Db, d: Id)
    requires TablesOk(db) && d < |db.documents| && |after.documents| == |db.documents|
    requires after == db.(entries := after.entries, documents := db.documents[d := after.documents[d]])
    requires EntriesOk(after.entries, db.periods) && EntriesGrow(db.entries, after.entries)
    requires DocumentGrows(db.documents[d], after.documents[d])
    requires DocumentOk(db.chart, after.entries, after.documents[d])
    requires SettlementOk(after.documents[d], LiveTotal(db.allocations, OfDocument(d)))
    requires Issued(after.documents[d].status)
    ensures TablesOk(after) && DocumentsGrow(db.documents, after.documents)
  {
    EntriesKeepDocuments(db.chart, db.entries, after.entries, db.documents);
    DocumentChangeKeepsAllocationsOk(db.documents, db.payments, db.allocations, d, after.documents[d]);
    NotesFrame(db.chart, db.chart, db.documents, after.documents, db.notes, 0, "");
    BankLinesFrame(db.chart, db.chart, db.documents, after.documents, db.bankLines, 0, "");
  }

  /** ... and the balance and the document side move by the same amount. */
  lemma IssueAgrees(db: Db, after: Db, d: Id, a: Id, c: Currency)
    requires AgreesOn(db, a, c) && d < |db.documents| && |after.documents| == |db.documents|
    requires after == db.(entries := after.entries, documents := db.documents[d := after.documents[d]])
    requires DocumentsGrow(db.documents, after.documents)
    requires NotesOk(db.chart, db.documents, db.notes) && BankLinesOk(db.chart, db.documents, db.bankLines)
    requires ManualSide(after, a, c) == ManualSide(db, a, c)
    requires Balance(after, a, c) - Balance(db, a, c)
          == DocumentShare(db.chart, a, c)(after.documents[d]) - DocumentShare(db.chart, a, c)(db.documents[d])
    ensures AgreesOn(after, a, c)
  {
    SumUpdate(db.documents, d, after.documents[d], DocumentShare(db.chart, a, c));
    NotesFrame(db.chart, db.chart, db.documents, after.documents, db.notes, a, c);
    BankLinesFrame(db.chart, db.chart, db.documents, after.documents, db.bankLines, a, c);
  }

  function DocumentEntry(db: Db, kind: DocumentKind, doc: Document, p: Id): Entry
  {
    PostedEntry(doc.date, doc.currency, p, EntryLines(db.chart, kind == Invoice, doc.control, doc.lines))
  }

  /** What posting a document writes: the numbered, issued row and its posted entry. */
  ghost predicate DocumentPosted(db: Db, after: Db, kind: DocumentKind, d: Id, p: Id)
  {
    && d < |db.documents| && db.documents[d].kind == kind && db.documents[d].status == DocDraft
    && var doc := db.documents[d];
       var issued := doc.(number := NextNumber(db.documents, kind), outstanding := doc.total,
                          entry := Some(|db.entries|), status := DocPosted);
       var entry := DocumentEntry(db, kind, doc, p);
       && OpenPeriod(db.periods, doc.date) == Success(p)
       && after == db.(entries := db.entries + [entry], documents := db.documents[d := issued])
       && doc.lines != [] && doc.total > 0
       && AllOneSided(entry.lines) && |entry.lines| >= 2
  }

  lemma PostWrites(db: Db, kind: DocumentKind, d: Id) returns (p: Id)
    requires TablesOk(db) && PostDocument(db, kind, d).Success?
    ensures DocumentPosted(db, PostDocument(db, kind, d).value, kind, d, p)
  {
    var doc := db.documents[d];
    assert DocumentOk(db.chart, db.entries, doc);
    WriteAndPostAppends(db, doc.date, doc.currency, EntryLines(db.chart, kind == Invoice, doc.control, doc.lines));
    p := OpenPeriod(db.periods, doc.date).value;
  }

  lemma PostedDocument(db: Db, after: Db, kind: DocumentKind, d: Id, p: Id)
    requires TablesOk(db) && DocumentPosted(db, after, kind, d, p)
    ensures EntriesOk(after.entries, db.periods) && EntriesGrow(db.entries, after.entries)
    ensures DocumentOk(db.chart, after.entries, after.documents[d])
  {
    var doc := db.documents[d];
    var entry := DocumentEntry(db, kind, doc, p);
    assert DocumentOk(db.chart, db.entries, doc);
    EntryLinesBalance(db.chart, kind == Invoice, doc.control, doc.lines, 0);
    AppendKeepsEntriesOk(db.entries, db.periods, entry);
    assert after.entries[|db.entries|] == entry;
    forall a ensures Effect(entry.lines, a) == EffectOf(db.chart, after.documents[d], a) {
      EntryLinesBalance(db.chart, kind == Invoice, doc.control, doc.lines, a);
    }
  }

  lemma PostedOwes(db: Db, after: Db, kind: DocumentKind, d: Id, p: Id)
    requires TablesOk(db) && DocumentPosted(db, after, kind, d, p)
    ensures SettlementOk(after.documents[d], LiveTotal(db.allocations, OfDocument(d)))
    ensures DocumentGrows(db.documents[d], after.documents[d]) && Issued(after.documents[d].status)
    ensures after == db.(entries := after.entries, documents := db.documents[d := after.documents[d]])
  {
    assert SettlementOk(db.documents[d], LiveTotal(db.allocations, OfDocument(d)));
  }

  lemma PostedKeepsTables(db: Db, after: Db, kind: DocumentKind, d: Id, p: Id)
    requires TablesOk(db) && DocumentPosted(db, after, kind, d, p)
    ensures TablesOk(after) && Grows(db, after)
  {
    PostedDocument(db, after, kind, d, p);
    PostedOwes(db, after, kind, d, p);
    IssueKeepsTables(db, after, d);
  }

  lemma IssuedNumberKeepsGapless(documents: seq<Document>, kind: DocumentKind, d: Id, issued: Document)
    requires Gapless(DocumentNumbers(documents)) && d < |documents| && documents[d].number.None?
    requires issued.number == NextNumber(documents, kind)
    ensures Gapless(DocumentNumbers(documents[d := issued]))
  {
    var numbers := DocumentNumbers(documents);
    if kind == Invoice { NextKeepsGapless(numbers, d); }
    assert DocumentNumbers(documents[d := issued]) == numbers[d := issued.number];
    assert numbers[d := None] == numbers;
  }

  lemma PostedAgrees(db: Db, after: Db, kind: DocumentKind, d: Id, p: Id, a: Id, c: Currency)
    requires TablesOk(db) && DocumentPosted(db, after, kind, d, p) && AgreesOn(db, a, c)
    requires DocumentsGrow(db.documents, after.documents)
    ensures AgreesOn(after, a, c)
  {
    var doc := db.documents[d];
    var entry := DocumentEntry(db, kind, doc, p);
    assert DocumentOk(db.chart, db.entries, doc);
    AppendedBalance(db, entry, a, c);
    EntryLinesBalance(db.chart, kind == Invoice, doc.control, doc.lines, a);
    IssueAgrees(db, after, d, a, c);
  }

  lemma PostDocumentKeepsInv(db: Db, kind: DocumentKind, d: Id)
    requires Inv(db) && PostDocument(db, kind, d).Success?
    ensures Inv(PostDocument(db, kind, d).value) && Grows(db, PostDocument(db, kind, d).value)
  {
    var after := PostDocument(db, kind, d).value;
    var p := PostWrites(db, kind, d);
    PostedKeepsTables(db, after, kind, d, p);
    assert DocumentOk(db.chart, db.entries, db.documents[d]);
    IssuedNumberKeepsGapless(db.documents, kind, d, after.documents[d]);
    forall a: Id, c: Currency ensures AgreesOn(after, a, c) {
      assert AgreesOn(db, a, c);
      PostedAgrees(db, after, kind, d, p, a, c);
    }
  }

  ghost predicate DocumentCancelled(db: Db, after: Db, d: Id, date: Date, e: Id, p: Id)
  {
    && d < |db.documents| && db.documents[d].status == DocPosted && db.documents[d].entry == Some(e)
    && e < |db.entries| && db.entries[e].status == EntryPosted && p < |db.periods| && Covers(db.periods[p], date)
    && after == db.(entries := Reverse(db.entries, e, date, p, false),
                    documents := db.documents[d := db.documents[d].(status := DocCancelled, outstanding := 0)])
  }

  lemma CancelledKeepsTables(db: Db, after: Db, d: Id, date: Date, e: Id, p: Id)
    requires TablesOk(db) && DocumentCancelled(db, after, d, date, e, p)
    ensures TablesOk(after) && Grows(db, after)
  {
    var doc := db.documents[d];
    assert DocumentOk(db.chart, db.entries, doc);
    assert SettlementOk(doc, LiveTotal(db.allocations, OfDocument(d)));
    Journal.ReverseKeepsEntriesOk(db.entries, db.periods, e, date, p, false);
    assert forall a :: EffectOf(db.chart, after.documents[d], a) == EffectOf(db.chart, doc, a);
    IssueKeepsTables(db, after, d);
  }

  lemma CancelledAgrees(db: Db, after: Db, d: Id, date: Date, e: Id, p: Id, a: Id, c: Currency)
    requires TablesOk(db) && DocumentCancelled(db, after, d, date, e, p) && AgreesOn(db, a, c)
    requires DocumentsGrow(db.documents, after.documents)
    ensures AgreesOn(after, a, c)
  {
    assert DocumentOk(db.chart, db.entries, db.documents[d]);
    ReverseBalance(db, e, date, p, false, a, c);
    assert Effect(db.entries[e].lines, a) == EffectOf(db.chart, db.documents[d], a);
    IssueAgrees(db, after, d, a, c);
  }

  lemma CancelDocumentKeepsInv(db: Db, kind: DocumentKind, d: Id, date: Date)
    requires Inv(db) && CancelDocument(db, kind, d, date).Success?
    ensures Inv(CancelDocument(db, kind, d, date).value) && Grows(db, CancelDocument(db, kind, d, date).value)
  {
    var after := CancelDocument(db, kind, d, date).value;
    var e, p := db.documents[d].entry.value, OpenPeriod(db.periods, date).value;
    CancelledKeepsTables(db, after, d, date, e, p);
    assert DocumentNumbers(after.documents) == DocumentNumbers(db.documents);
    forall a: Id, c: Currency ensures AgreesOn(after, a, c) {
      assert AgreesOn(db, a, c);
      CancelledAgrees(db, after, d, date, e, p, a, c);
    }
  }

  // --- credit notes ------------------------------------------------------------------------------------

  ghost predicate NoteMoves(db: Db, after: Db, a: Id, c: Currency)
  {
    && ManualSide(after, a, c) == ManualSide(db, a, c)
    && Balance(after, a, c) - Balance(db, a, c) == NoteSide(after, a, c) - NoteSide(db, a, c)
  }

  /** Adding, voiding or posting a note: the note side moves as the balance does. */
  lemma NotesKeepInv(db: Db, after: Db)
    requires Inv(db)
    requires after == db.(entries := after.entries, notes := after.notes)
    requires EntriesOk(after.entries, db.periods) && EntriesGrow(db.entries, after.entries)
    requires NotesOk(db.chart, db.documents, after.notes) && Gapless(NoteNumbers(after.notes))
    requires forall a: Id, c: Currency :: NoteMoves(db, after, a, c)
    ensures Inv(after)
  {
    EntriesKeepDocuments(db.chart, db.entries, after.entries, db.documents);
    forall a: Id, c: Currency ensures AgreesOn(after, a, c) {
      assert AgreesOn(db, a, c) && NoteMoves(db, after, a, c);
    }
  }

  lemma NewNoteKeepsInv(db: Db, note: CreditNote)
    requires Inv(db) && NoteOk(db.chart, db.documents, note) && note.status == DocDraft
    ensures Inv(db.(notes := db.notes + [note]))
  {
    var after := db.(notes := db.notes + [note]);
    forall a: Id, c: Currency ensures NoteMoves(db, after, a, c) {
      SumAppend(db.notes, note, NoteShare(db.chart, db.documents, a, c));
    }
    AppendKeepsGapless(NoteNumbers(db.notes));
    assert NoteNumbers(after.notes) == NoteNumbers(db.notes) + [None];
    NotesKeepInv(db, after);
  }

  lemma CreatedNote(db: Db, invoice: Id, currency: Currency, date: Date, inputs: seq<LineInput>) returns (note: CreditNote)
    requires TablesOk(db) && CreateNote(db, invoice, currency, date, inputs).Success?
    ensures NoteOk(db.chart, db.documents, note) && note.status == DocDraft
    ensures CreateNote(db, invoice, currency, date, inputs).value == db.(notes := db.notes + [note])
  {
    ComputedLinesOk(db.chart, inputs);
    var lines := ComputeLines(db.chart, inputs).value;
    note := CreditNote(invoice, currency, date, DocDraft, lines, Total(lines), None, None);
  }

  lemma CreateNoteKeepsInv(db: Db, invoice: Id, currency: Currency, date: Date, inputs: seq<LineInput>)
    requires Inv(db) && CreateNote(db, invoice, currency, date, inputs).Success?
    ensures Inv(CreateNote(db, invoice, currency, date, inputs).value)
    ensures Grows(db, CreateNote(db, invoice, currency, date, inputs).value)
  {
    var note := CreatedNote(db, invoice, currency, date, inputs);
    NewNoteKeepsInv(db, note);
  }

  lemma NoteVoidedKeepsInv(db: Db, n: Id)
    requires Inv(db) && n < |db.notes| && db.notes[n].status == DocDraft
    ensures Inv(db.(notes := db.notes[n := db.notes[n].(status := DocVoided)]))
  {
    var after := db.(notes := db.notes[n := db.notes[n].(status := DocVoided)]);
    assert NoteOk(db.chart, db.documents, db.notes[n]);
    forall a: Id, c: Currency ensures NoteMoves(db, after, a, c) {
      SumUpdate(db.notes, n, after.notes[n], NoteShare(db.chart, db.documents, a, c));
    }
    assert NoteNumbers(after.notes) == NoteNumbers(db.notes);
    NotesKeepInv(db, after);
  }

  lemma VoidNoteKeepsInv(db: Db, n: Id)
    requires Inv(db) && VoidNote(db, n).Success?
    ensures Inv(VoidNote(db, n).value) && Grows(db, VoidNote(db, n).value)
  {
    NoteVoidedKeepsInv(db, n);
  }

  function NoteEntry(db: Db, note: CreditNote, control: Id, p: Id): Entry
  {
    PostedEntry(note.date, note.currency, p, NoteEntryLines(db.chart, control, note.lines))
  }

  ghost predicate NotePosted(db: Db, after: Db, n: Id, p: Id)
  {
    && n < |db.notes| && db.notes[n].status == DocDraft && db.notes[n].invoice < |db.documents|
    && var note := db.notes[n];
       var entry := NoteEntry(db, note, db.documents[note.invoice].control, p);
       var issued := note.(number := Some(LastNumber(NoteNumbers(db.notes)) + 1),
                           entry := Some(|db.entries|), status := DocPosted);
       && OpenPeriod(db.periods, note.date) == Success(p)
       && after == db.(entries := db.entries + [entry], notes := db.notes[n := issued])
       && AllOneSided(entry.lines) && |entry.lines| >= 2
  }

  lemma PostNoteWrites(db: Db, n: Id) returns (p: Id)
    requires TablesOk(db) && PostNote(db, n).Success?
    ensures NotePosted(db, PostNote(db, n).value, n, p)
  {
    var note := db.notes[n];
    assert NoteOk(db.chart, db.documents, note);
    WriteAndPostAppends(db, note.date, note.currency,
                        NoteEntryLines(db.chart, db.documents[note.invoice].control, note.lines));
    p := OpenPeriod(db.periods, note.date).value;
  }

  lemma NotePostedMoves(db: Db, after: Db, n: Id, p: Id, a: Id, c: Currency)
    requires NotePosted(db, after, n, p) && NoteOk(db.chart, db.documents, db.notes[n])
    ensures NoteMoves(db, after, a, c)
  {
    var note := db.notes[n];
    var control := db.documents[note.invoice].control;
    AppendedBalance(db, NoteEntry(db, note, control, p), a, c);
    NoteEntryLinesBalance(db.chart, control, note.lines, a);
    SumUpdate(db.notes, n, after.notes[n], NoteShare(db.chart, db.documents, a, c));
  }

  lemma PostNoteKeepsInv(db: Db, n: Id)
    requires Inv(db) && PostNote(db, n).Success?
    ensures Inv(PostNote(db, n).value) && Grows(db, PostNote(db, n).value)
  {
    var after := PostNote(db, n).value;
    var p := PostNoteWrites(db, n);
    NotePostedKeepsInv(db, after, n, p);
    NotePostedGrows(db, after, n, p);
  }

  lemma NotePostedGrows(db: Db, after: Db, n: Id, p: Id)
    requires NotePosted(db, after, n, p)
    ensures Grows(db, after)
  {
  }

  lemma NotePostedKeepsTables(db: Db, after: Db, n: Id, p: Id)
    requires TablesOk(db) && NotePosted(db, after, n, p)
    ensures EntriesOk(after.entries, db.periods) && EntriesGrow(db.entries, after.entries)
    ensures NotesOk(db.chart, db.documents, after.notes)
  {
    var note := db.notes[n];
    var control := db.documents[note.invoice].control;
    assert NoteOk(db.chart, db.documents, note);
    NoteEntryLinesBalance(db.chart, control, note.lines, 0);
    AppendKeepsEntriesOk(db.entries, db.periods, NoteEntry(db, note, control, p));
  }

  lemma NotePostedKeepsNumbers(db: Db, after: Db, n: Id, p: Id)
    requires NumbersOk(db) && NotePosted(db, after, n, p) && NoteOk(db.chart, db.documents, db.notes[n])
    ensures Gapless(NoteNumbers(after.notes))
  {
    NextKeepsGapless(NoteNumbers(db.notes), n);
    assert NoteNumbers(after.notes) == NoteNumbers(db.notes)[n := after.notes[n].number];
  }

  lemma NotePostedKeepsInv(db: Db, after: Db, n: Id, p: Id)
    requires Inv(db) && NotePosted(db, after, n, p)
    ensures Inv(after)
  {
    NotePostedKeepsTables(db, after, n, p);
    assert NoteOk(db.chart, db.documents, db.notes[n]);
    NotePostedKeepsNumbers(db, after, n, p);
    forall a: Id, c: Currency ensures NoteMoves(db, after, a, c) {
      NotePostedMoves(db, after, n, p, a, c);
    }
    NotesKeepInv(db, after);
  }

  // --- allocations ------------------------------------------------------------------------------------------

  lemma OutstandingKeepsDocuments(chart: Chart, entries: seq<Entry>, documents: seq<Document>, d: Id, outstanding: int,
                                  a: Id, c: Currency)
    requires DocumentsOk(chart, entries, documents) && d < |documents| && Issued(documents[d].status)
    ensures var after := documents[d := documents[d].(outstanding := outstanding)];
            && DocumentsOk(chart, entries, after) && DocumentsGrow(documents, after)
            && DocumentNumbers(after) == DocumentNumbers(documents)
            && Sum(after, DocumentShare(chart, a, c)) == Sum(documents, DocumentShare(chart, a, c))
  {
    var doc := documents[d].(outstanding := outstanding);
    assert DocumentOk(chart, entries, documents[d]);
    assert forall x :: EffectOf(chart, doc, x) == EffectOf(chart, documents[d], x);
    SumUpdate(documents, d, doc, DocumentShare(chart, a, c));
  }

  /** Only the outstanding amount of one document moves. */
  lemma OutstandingKeepsInv(db: Db, after: Db, d: Id)
    requires Inv(db) && d < |db.documents| && |after.documents| == |db.documents|
    requires Issued(db.documents[d].status)
    requires after == db.(documents := db.documents[d := db.documents[d].(outstanding := after.documents[d].outstanding)],
                          payments := after.payments, allocations := after.allocations)
    requires AllocationsOk(after.documents, after.payments, after.allocations)
    ensures Inv(after) && DocumentsGrow(db.documents, after.documents)
  {
    var o := after.documents[d].outstanding;
    OutstandingKeepsDocuments(db.chart, db.entries, db.documents, d, o, 0, "");
    forall a: Id, c: Currency ensures DocumentSide(after, a, c) == DocumentSide(db, a, c) {
      OutstandingKeepsDocuments(db.chart, db.entries, db.documents, d, o, a, c);
    }
    DocumentsKeepInv(db, after);
  }

  lemma CreateAllocationKeepsInv(db: Db, p: Id, kind: DocumentKind, d: Id, amount: int)
    requires Inv(db) && CreateAllocation(db, p, kind, d, amount).Success?
    ensures Inv(CreateAllocation(db, p, kind, d, amount).value)
    ensures Grows(db, CreateAllocation(db, p, kind, d, amount).value)
  {
    AllocateKeepsAllocationsOk(db, p, kind, d, amount);
    OutstandingKeepsInv(db, CreateAllocation(db, p, kind, d, amount).value, d);
  }

  lemma ReverseAllocationKeepsInv(db: Db, i: Id)
    requires Inv(db) && ReverseAllocation(db, i).Success?
    ensures Inv(ReverseAllocation(db, i).value) && Grows(db, ReverseAllocation(db, i).value)
  {
    Payments.ReverseKeepsAllocationsOk(db, i);
    assert ReferencesOk(db.documents, db.payments, db.allocations[i]);
    OutstandingKeepsInv(db, ReverseAllocation(db, i).value, db.allocations[i].document);
  }

  // --- bank lines -----------------------------------------------------------------------------------------------

  lemma {:induction false} ImportedLines(db: Db, bankAccount: Id, rows: seq<ParsedLine>, a: Id, c: Currency)
    requires BankLinesOk(db.chart, db.documents, db.bankLines) && bankAccount < |db.chart.bankAccounts|
    requires forall i :: 0 <= i < |rows| ==> Cents(rows[i].written) != 0
    ensures var lines := ImportRows(db.digest, bankAccount, db.bankLines, rows);
            && BankLinesOk(db.chart, db.documents, lines)
            && Sum(lines, BankShare(db.chart, db.documents, a, c)) == BankSide(db, a, c)
  {
    if rows != [] {
      var n := |rows| - 1;
      ImportedLines(db, bankAccount, rows[..n], a, c);
      SumAppend(ImportRows(db.digest, bankAccount, db.bankLines, rows[..n]), NewLine(db.digest, bankAccount, rows[n]),
                BankShare(db.chart, db.documents, a, c));
    }
  }

  lemma ImportKeepsInv(db: Db, bankAccount: Id, rows: seq<ParsedLine>)
    requires Inv(db) && ImportStatement(db, bankAccount, rows).Success?
    ensures Inv(ImportStatement(db, bankAccount, rows).value) && Grows(db, ImportStatement(db, bankAccount, rows).value)
  {
    var after := ImportStatement(db, bankAccount, rows).value;
    ImportIsUnion(db.digest, bankAccount, db.bankLines, rows, bankAccount);
    ImportedLines(db, bankAccount, rows, 0, "");
    forall a: Id, c: Currency ensures AgreesOn(after, a, c) {
      assert AgreesOn(db, a, c);
      ImportedLines(db, bankAccount, rows, a, c);
    }
    forall l | 0 <= l < |db.bankLines| ensures BankLineGrows(db.bankLines[l], after.bankLines[l]) {
      assert after.bankLines[..|db.bankLines|][l] == db.bankLines[l];
    }
  }

  /** What reconciling writes: the matched line and one posted two-line entry. */
  ghost predicate LineReconciled(db: Db, after: Db, l: Id, match_: Match, p: Id)
  {
    && l < |db.bankLines| && db.bankLines[l].match_ == Unmatched && match_ != Unmatched
    && var line := db.bankLines[l].(match_ := match_, entry := Some(|db.entries|));
       var counter := Counterpart(db.chart, db.documents, line);
       && BankLineOk(db.chart, db.documents, line) && counter.Some?
       && OpenPeriod(db.periods, line.date) == Success(p)
       && after == db.(entries := db.entries + [LineEntry(db, line, counter.value, p)],
                       bankLines := db.bankLines[l := line])
  }

  function LineEntry(db: Db, line: BankLine, counter: (Id, Currency), p: Id): Entry
    requires line.bankAccount < |db.chart.bankAccounts|
  {
    PostedEntry(line.date, counter.1, p,
                BankEntryLines(db.chart.bankAccounts[line.bankAccount].ledger, counter.0, line.amount))
  }

  lemma ReconciledAgrees(db: Db, after: Db, l: Id, match_: Match, p: Id, a: Id, c: Currency)
    requires LineReconciled(db, after, l, match_, p) && AgreesOn(db, a, c)
    ensures AgreesOn(after, a, c)
  {
    var line := after.bankLines[l];
    var counter := Counterpart(db.chart, db.documents, line).value;
    AppendedBalance(db, LineEntry(db, line, counter, p), a, c);
    BankEntryLinesEffect(db.chart.bankAccounts[line.bankAccount].ledger, counter.0, line.amount, a);
    SumUpdate(db.bankLines, l, line, BankShare(db.chart, db.documents, a, c));
  }

  lemma ReconcileKeepsInv(db: Db, after: Db, l: Id, match_: Match, p: Id)
    requires Inv(db) && LineReconciled(db, after, l, match_, p)
    ensures Inv(after) && Grows(db, after)
  {
    var line := after.bankLines[l];
    var counter := Counterpart(db.chart, db.documents, line).value;
    BankEntryLinesEffect(db.chart.bankAccounts[line.bankAccount].ledger, counter.0, line.amount, 0);
    AppendKeepsEntriesOk(db.entries, db.periods, LineEntry(db, line, counter, p));
    EntriesKeepDocuments(db.chart, db.entries, after.entries, db.documents);
    forall a: Id, c: Currency ensures AgreesOn(after, a, c) {
      assert AgreesOn(db, a, c);
      ReconciledAgrees(db, after, l, match_, p, a, c);
    }
  }

  lemma AssignWrites(db: Db, l: Id, account: Id) returns (p: Id)
    requires TablesOk(db) && AssignLine(db, l, account).Success?
    ensures LineReconciled(db, AssignLine(db, l, account).value, l, ToAccount(account), p)
  {
    var line := db.bankLines[l];
    assert BankLineOk(db.chart, db.documents, line);
    var bank := db.chart.bankAccounts[line.bankAccount];
    WriteAndPostAppends(db, line.date, bank.currency, BankEntryLines(bank.ledger, account, line.amount));
    p := OpenPeriod(db.periods, line.date).value;
  }

  lemma AssignKeepsInv(db: Db, l: Id, account: Id)
    requires Inv(db) && AssignLine(db, l, account).Success?
    ensures Inv(AssignLine(db, l, account).value) && Grows(db, AssignLine(db, l, account).value)
  {
    var p := AssignWrites(db, l, account);
    ReconcileKeepsInv(db, AssignLine(db, l, account).value, l, ToAccount(account), p);
  }

  function LinePayment(line: BankLine, doc: Document): Payment
  {
    Payment(if line.amount > 0 then Inbound else Outbound, Abs(line.amount), doc.currency, Abs(line.amount))
  }

  /** The tables after the payment of a match is written and allocated in full. */
  function Settled(db: Db, line: BankLine, d: Id): Db
    requires d < |db.documents|
  {
    var payment := LinePayment(line, db.documents[d]);
    db.(payments := db.payments + [payment.(unallocated := 0)],
        documents := db.documents[d := db.documents[d].(outstanding := 0)],
        allocations := db.allocations + [Allocation(|db.payments|, d, payment.amount, None)])
  }

  /** Confirming a match is: pay, allocate everything, then reconcile. */
  lemma ConfirmWrites(db: Db, l: Id, kind: DocumentKind, d: Id) returns (p: Id)
    requires TablesOk(db) && ConfirmMatch(db, l, kind, d).Success?
    ensures l < |db.bankLines| && db.bankLines[l].match_ == Unmatched
    ensures d < |db.documents| && db.documents[d].kind == kind && db.documents[d].status == DocPosted
    ensures db.documents[d].outstanding == Abs(db.bankLines[l].amount) > 0
    ensures LineReconciled(Settled(db, db.bankLines[l], d), ConfirmMatch(db, l, kind, d).value, l,
                           ToDocument(d, |db.payments|), p)
  {
    var line, doc := db.bankLines[l], db.documents[d];
    assert BankLineOk(db.chart, db.documents, line);
    var settled := Settled(db, line, d);
    var payment := LinePayment(line, doc);
    var paid := db.(payments := db.payments + [payment]);
    assert paid.payments[|db.payments| := payment.(unallocated := 0)] == settled.payments;
    var lines := BankEntryLines(db.chart.bankAccounts[line.bankAccount].ledger, doc.control, line.amount);
    WriteAndPostAppends(settled, line.date, doc.currency, lines);
    p := OpenPeriod(db.periods, line.date).value;
  }

  lemma SettledKeepsInv(db: Db, line: BankLine, d: Id)
    requires Inv(db) && d < |db.documents| && db.documents[d].status == DocPosted
    requires db.documents[d].outstanding == Abs(line.amount) > 0
    ensures Inv(Settled(db, line, d)) && Grows(db, Settled(db, line, d))
  {
    var payment := LinePayment(line, db.documents[d]);
    var paid := db.(payments := db.payments + [payment]);
    var kind := db.documents[d].kind;
    PaymentKeepsInv(db, payment);
    assert paid.payments[|db.payments| := payment.(unallocated := 0)] == Settled(db, line, d).payments;
    assert CreateAllocation(paid, |db.payments|, kind, d, Abs(line.amount)) == Success(Settled(db, line, d));
    CreateAllocationKeepsInv(paid, |db.payments|, kind, d, Abs(line.amount));
    assert Grows(db, paid);
    GrowsIsTransitive(db, paid, Settled(db, line, d));
  }

  lemma ConfirmKeepsInv(db: Db, l: Id, kind: DocumentKind, d: Id)
    requires Inv(db) && ConfirmMatch(db, l, kind, d).Success?
    ensures Inv(ConfirmMatch(db, l, kind, d).value) && Grows(db, ConfirmMatch(db, l, kind, d).value)
  {
    var after := ConfirmMatch(db, l, kind, d).value;
    var p := ConfirmWrites(db, l, kind, d);
    var settled := Settled(db, db.bankLines[l], d);
    SettledKeepsInv(db, db.bankLines[l], d);
    ReconcileKeepsInv(settled, after, l, ToDocument(d, |db.payments|), p);
    GrowsIsTransitive(db, settled, after);
  }

  // --- every call, every run ------------------------------------------------------------------------------------------

  lemma CreatePeriodKeepsInv(db: Db, start: Date, end: Date)
    requires Inv(db) && CreatePeriod(db, start, end).Success?
    ensures Inv(CreatePeriod(db, start, end).value) && Grows(db, CreatePeriod(db, start, end).value)
  {
    PeriodsKeepInv(db, db.periods + [Period(start, end, true)]);
  }

  lemma SetPeriodKeepsInv(db: Db, p: Id, open: bool)
    requires Inv(db) && SetPeriod(db, p, open).Success?
    ensures Inv(SetPeriod(db, p, open).value) && Grows(db, SetPeriod(db, p, open).value)
  {
    PeriodsKeepInv(db, db.periods[p := db.periods[p].(open := open)]);
  }

  predicate JournalCall(call: Operations.Call)
  {
    call.EditChart? || call.CreatePeriod? || call.ClosePeriod? || call.ReopenPeriod? || call.CreatePayment?
    || call.CreateEntry? || call.UpdateEntry? || call.VoidEntry? || call.PostEntry? || call.ReverseEntry?
  }

  lemma JournalStepKeepsInv(db: Db, call: Operations.Call)
    requires Inv(db) && JournalCall(call) && Operations.Apply(db, call).Success?
    ensures Inv(Operations.Apply(db, call).value) && Grows(db, Operations.Apply(db, call).value)
  {
    match call
    case EditChart(chart) => ChartKeepsInv(db, chart);
    case CreatePeriod(start, end) => CreatePeriodKeepsInv(db, start, end);
    case ClosePeriod(p) => SetPeriodKeepsInv(db, p, false);
    case ReopenPeriod(p) => SetPeriodKeepsInv(db, p, true);
    case CreatePayment(direction, amount, currency) =>
      PaymentKeepsInv(db, Payment(direction, amount, currency, amount));
    case CreateEntry(date, currency, lines) => CreateEntryKeepsInv(db, date, currency, lines);
    case UpdateEntry(e, lines) => UpdateEntryKeepsInv(db, e, lines);
    case VoidEntry(e) => VoidEntryKeepsInv(db, e);
    case PostEntry(e) => PostEntryKeepsInv(db, e);
    case ReverseEntry(e, date) => ReverseEntryKeepsInv(db, e, date);
  }

  lemma DocumentStepKeepsInv(db: Db, call: Operations.Call)
    requires Inv(db) && !JournalCall(call) && Operations.Apply(db, call).Success?
    ensures Inv(Operations.Apply(db, call).value) && Grows(db, Operations.Apply(db, call).value)
  {
    match call
    case CreateDocument(kind, control, currency, date, inputs) =>
      CreateDocumentKeepsInv(db, kind, control, currency, date, inputs);
    case UpdateDocument(kind, d, inputs) => UpdateDocumentKeepsInv(db, kind, d, inputs);
    case VoidDocument(kind, d) => VoidDocumentKeepsInv(db, kind, d);
    case PostDocument(kind, d) => PostDocumentKeepsInv(db, kind, d);
    case CancelDocument(kind, d, date) => CancelDocumentKeepsInv(db, kind, d, date);
    case CreateNote(invoice, currency, date, inputs) => CreateNoteKeepsInv(db, invoice, currency, date, inputs);
    case VoidNote(n) => VoidNoteKeepsInv(db, n);
    case PostNote(n) => PostNoteKeepsInv(db, n);
    case CreateAllocation(p, kind, d, amount) => CreateAllocationKeepsInv(db, p, kind, d, amount);
    case ReverseAllocation(i) => ReverseAllocationKeepsInv(db, i);
    case ImportStatement(bankAccount, rows) => ImportKeepsInv(db, bankAccount, rows);
    case ConfirmMatch(l, kind, d) => ConfirmKeepsInv(db, l, kind, d);
    case AssignLine(l, account) => AssignKeepsInv(db, l, account);
  }

  lemma {:induction false} StepKeepsInv(db: Db, call: Operations.Call)
    requires Inv(db)
    ensures Inv(Operations.Step(db, call)) && Grows(db, Operations.Step(db, call))
  {
    if Operations.Apply(db, call).Success? {
      if JournalCall(call) {
        JournalStepKeepsInv(db, call);
      } else {
        DocumentStepKeepsInv(db, call);
      }
    }
  }

  lemma InitialInv(db: Db)
    requires Operations.Initial(db)
    ensures Inv(db)
  {
    forall a: Id, c: Currency ensures AgreesOn(db, a, c) {
    }
  }

  lemma {:induction false} RunKeepsInv(db: Db, calls: seq<Operations.Call>)
    requires Inv(db)
    ensures Inv(Operations.Run(db, calls)) && Grows(db, Operations.Run(db, calls))
  {
    if calls != [] {
      var before := Operations.Run(db, calls[..|calls| - 1]);
      RunKeepsInv(db, calls[..|calls| - 1]);
      StepKeepsInv(before, calls[|calls| - 1]);
      GrowsIsTransitive(db, before, Operations.Run(db, calls));
    }
  }
}
