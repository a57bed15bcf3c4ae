/** The services as they run: every method works on the tables in place, statement by statement,
    and a failure rolls the transaction back. Each is proved against its transition function. */
module Books {
  import opened Wrappers
  import opened Sums
  import opened Records
  import opened Numbering
  import P = Periods
  import J = Journal
  import D = Documents
  import Y = Payments
  import B = Banking
  import O = Operations
  import Rounding

  lemma {:induction false} FirstErrorStays(chart: Chart, lines: seq<JournalLine>, n: nat)
    requires n <= |lines| && J.LinesError(chart, lines[..n]).Some?
    ensures J.LinesError(chart, lines) == J.LinesError(chart, lines[..n])
  {
    if n < |lines| {
      assert lines[..|lines| - 1][..n] == lines[..n];
      FirstErrorStays(chart, lines[..|lines| - 1], n);
    } else {
      assert lines[..n] == lines;
    }
  }

  lemma {:induction false} FirstFailureStays(chart: Chart, inputs: seq<D.LineInput>, n: nat)
    requires n <= |inputs| && D.ComputeAll(chart, inputs[..n]).Failure?
    ensures D.ComputeAll(chart, inputs) == D.ComputeAll(chart, inputs[..n])
  {
    if n < |inputs| {
      assert inputs[..|inputs| - 1][..n] == inputs[..n];
      FirstFailureStays(chart, inputs[..|inputs| - 1], n);
    } else {
      assert inputs[..n] == inputs;
    }
  }

  class TenantBooks {
    var chart: Chart
    var periods: seq<Period>
    var entries: seq<Entry>
    var documents: seq<Document>
    var notes: seq<CreditNote>
    var payments: seq<Payment>
    var allocations: seq<Allocation>
    var bankLines: seq<BankLine>
    const digest: Payload -> nat

    constructor (chart: Chart, digest: Payload -> nat)
      ensures this.chart == chart && this.digest == digest && O.Initial(State())
    {
      this.chart := chart;
      this.digest := digest;
      periods, entries, documents, notes := [], [], [], [];
      payments, allocations, bankLines := [], [], [];
    }

    function State(): Db
      reads this
    {
      Db(chart, periods, entries, documents, notes, payments, allocations, bankLines, digest)
    }

    /** What a public call promises: the step it stands for, and that step's exception. */
    ghost predicate Outcome(before: Db, call: O.Call, error: Option<Error>)
      reads this
    {
      State() == O.Step(before, call) && error == ErrorOf(O.Apply(before, call))
    }

    /** What a helper running inside a transaction promises: the whole effect, or the exception
        (after which the transaction is going to be rolled back). */
    ghost predicate Within(result: Result<Db, Error>, error: Option<Error>)
      reads this
    {
      error == ErrorOf(result) && (result.Success? ==> State() == result.value)
    }

    method Rollback(saved: Db)
      requires saved.digest == digest
      modifies this
      ensures State() == saved
    {
      chart, periods, entries, documents := saved.chart, saved.periods, saved.entries, saved.documents;
      notes, payments, allocations, bankLines := saved.notes, saved.payments, saved.allocations, saved.bankLines;
    }

    // --- periods ---------------------------------------------------------------------

    method CreatePeriod(start: Date, end: Date) returns (error: Option<Error>)
      modifies this`periods
      ensures Outcome(old(State()), O.CreatePeriod(start, end), error)
    {
      if end < start { return Some(Invalid); }
      var p := Period(start, end, true);
      if exists i :: 0 <= i < |periods| && P.Overlap(periods[i], p) { return Some(Conflict); }
      periods := periods + [p];
      error := None;
    }

    method ClosePeriod(p: Id) returns (error: Option<Error>)
      modifies this`periods
      ensures Outcome(old(State()), O.ClosePeriod(p), error)
    {
      if p >= |periods| { return Some(NotFound); }
      if !periods[p].open { return Some(Invalid); }
      periods := periods[p := periods[p].(open := false)];
      error := None;
    }

    method ReopenPeriod(p: Id) returns (error: Option<Error>)
      modifies this`periods
      ensures Outcome(old(State()), O.ReopenPeriod(p), error)
    {
      if p >= |periods| { return Some(NotFound); }
      if periods[p].open { return Some(Invalid); }
      periods := periods[p := periods[p].(open := true)];
      error := None;
    }

    // --- journal ------------------------------------------------------------------------

    method ValidateLines(lines: seq<JournalLine>) returns (error: Option<Error>)
      ensures error == J.ValidateLines(chart, lines)
    {
      if |lines| < 2 { return Some(Invalid); }
      for i := 0 to |lines|
        invariant J.LinesError(chart, lines[..i]).None?
      {
        error := J.LineError(chart, lines[i]);
        assert lines[..i + 1][..i] == lines[..i];
        if error.Some? {
          FirstErrorStays(chart, lines, i + 1);
          return;
        }
      }
      assert lines[..|lines|] == lines;
      error := None;
    }

    method AddLine(e: Id, line: JournalLine)
      requires e < |entries|
      modifies this`entries
      ensures entries == old(entries)[e := old(entries)[e].(lines := old(entries)[e].lines + [line])]
    {
      entries := entries[e := entries[e].(lines := entries[e].lines + [line])];
    }

    /** Inserts the header row, then the lines one by one. */
    method WriteDraft(header: Entry, lines: seq<JournalLine>) returns (e: Id)
      requires header.lines == []
      modifies this`entries
      ensures e == |old(entries)| && entries == old(entries) + [header.(lines := lines)]
    {
      e := |entries|;
      entries := entries + [header];
      for i := 0 to |lines|
        invariant entries == old(entries) + [header.(lines := lines[..i])]
      {
        AddLine(e, lines[i]);
        assert lines[..i + 1] == lines[..i] + [lines[i]];
      }
      assert lines[..|lines|] == lines;
    }

    method CreateEntry(date: Date, currency: Currency, lines: seq<JournalLine>) returns (error: Option<Error>)
      modifies this`entries
      ensures Outcome(old(State()), O.CreateEntry(date, currency, lines), error)
    {
      error := ValidateLines(lines);
      if error.None? {
        var e := WriteDraft(J.DraftEntry(date, currency, [], true), lines);
      }
    }

    /** Deletes the draft's lines and inserts the new ones. */
    method UpdateEntry(e: Id, lines: seq<JournalLine>) returns (error: Option<Error>)
      modifies this`entries
      ensures Outcome(old(State()), O.UpdateEntry(e, lines), error)
    {
      if e >= |entries| { return Some(NotFound); }
      if entries[e].status != EntryDraft { return Some(Invalid); }
      error := ValidateLines(lines);
      if error.None? {
        entries := entries[e := entries[e].(lines := [])];
        for i := 0 to |lines|
          invariant |entries| == |old(entries)|
          invariant entries == old(entries)[e := old(entries)[e].(lines := lines[..i])]
        {
          AddLine(e, lines[i]);
          assert lines[..i + 1] == lines[..i] + [lines[i]];
        }
        assert lines[..|lines|] == lines;
      }
    }

    method VoidEntry(e: Id) returns (error: Option<Error>)
      modifies this`entries
      ensures Outcome(old(State()), O.VoidEntry(e), error)
    {
      if e >= |entries| { return Some(NotFound); }
      if entries[e].status != EntryDraft { return Some(Invalid); }
      entries := entries[e := entries[e].(status := EntryVoided)];
      error := None;
    }

    method PostEntryInSession(e: Id) returns (error: Option<Error>)
      modifies this`entries
      ensures Within(J.PostEntry(old(State()), e), error)
      ensures error.Some? ==> entries == old(entries)
    {
      if e >= |entries| { return Some(NotFound); }
      var entry := entries[e];
      if entry.status != EntryDraft { return Some(Invalid); }
      if |entry.lines| < 2 { return Some(Invalid); }
      if J.Debits(entry.lines) != J.Credits(entry.lines) { return Some(Invalid); }
      var found := P.FindPeriod(periods, entry.date);
      if found.None? { return Some(PeriodMissing); }
      if !periods[found.value].open { return Some(PeriodClosed); }
      entries := entries[e := entry.(status := EntryPosted, period := found)];
      error := None;
    }

    method PostEntry(e: Id) returns (error: Option<Error>)
      modifies this`entries
      ensures Outcome(old(State()), O.PostEntry(e), error)
    {
      error := PostEntryInSession(e);
    }

    method ReverseEntryInSession(e: Id, date: Date, manual: bool) returns (error: Option<Error>)
      modifies this`entries
      ensures Within(J.ReverseEntry(old(State()), e, date, manual), error)
      ensures error.Some? ==> entries == old(entries)
    {
      if e >= |entries| { return Some(NotFound); }
      var original := entries[e];
      if original.status != EntryPosted { return Some(Invalid); }
      var found := P.FindPeriod(periods, date);
      if found.None? { return Some(PeriodMissing); }
      if !periods[found.value].open { return Some(PeriodClosed); }
      var r := |entries|;
      var header := Entry(date, original.currency, EntryPosted, found, Some(e), [], manual);
      entries := entries + [header];
      for i := 0 to |original.lines|
        invariant entries == old(entries) + [header.(lines := J.Mirror(original.lines[..i]))]
      {
        AddLine(r, J.Flip(original.lines[i]));
        assert J.Mirror(original.lines[..i + 1]) == J.Mirror(original.lines[..i]) + [J.Flip(original.lines[i])];
      }
      assert original.lines[..|original.lines|] == original.lines;
      entries := entries[e := original.(status := EntryReversed)];
      assert entries == J.Reverse(old(entries), e, date, found.value, manual);
      error := None;
    }

    method ReverseEntry(e: Id, date: Date) returns (error: Option<Error>)
      modifies this`entries
      ensures Outcome(old(State()), O.ReverseEntry(e, date), error)
    {
      error := ReverseEntryInSession(e, date, true);
    }

    // --- documents -------------------------------------------------------------------------

    /** Line by line, with the tax codes read so far kept in a cache. */
    method ComputeLines(inputs: seq<D.LineInput>) returns (r: Result<seq<DocumentLine>, Error>)
      ensures r == D.ComputeLines(chart, inputs)
    {
      if inputs == [] { return Failure(Invalid); }
      var cache: map<Id, TaxCode> := map[];
      var lines: seq<DocumentLine> := [];
      for i := 0 to |inputs|
        invariant D.ComputeAll(chart, inputs[..i]) == Success(lines)
        invariant forall t :: t in cache ==> t < |chart.taxCodes| && cache[t] == chart.taxCodes[t]
      {
        var line;
        line, cache := ComputeLine(inputs[i], cache);
        assert inputs[..i + 1][..i] == inputs[..i];
        if line.Failure? {
          FirstFailureStays(chart, inputs, i + 1);
          return Failure(line.error);
        }
        lines := lines + [line.value];
      }
      assert inputs[..|inputs|] == inputs;
      r := Success(lines);
    }

    method ComputeLine(input: D.LineInput, cache: map<Id, TaxCode>)
      returns (r: Result<DocumentLine, Error>, cache': map<Id, TaxCode>)
      requires forall t :: t in cache ==> t < |chart.taxCodes| && cache[t] == chart.taxCodes[t]
      ensures r == D.ComputeLine(chart, input)
      ensures forall t :: t in cache' ==> t < |chart.taxCodes| && cache'[t] == chart.taxCodes[t]
    {
      cache' := cache;
      if input.account >= |chart.accounts| { return Failure(NotFound), cache'; }
      if !chart.accounts[input.account].active { return Failure(Invalid), cache'; }
      if input.quantity <= 0 { return Failure(Invalid), cache'; }
      if input.price < 0 { return Failure(Invalid), cache'; }
      var subtotal := Rounding.LineSubtotal(input.quantity, input.price);
      var tax := 0;
      if input.taxCode.Some? {
        var t := input.taxCode.value;
        if t !in cache' {
          if t >= |chart.taxCodes| { return Failure(NotFound), cache'; }
          cache' := cache'[t := chart.taxCodes[t]];
        }
        tax := Rounding.LineTax(subtotal, cache'[t].rate);
      }
      r := Success(DocumentLine(input.account, input.quantity, input.price, input.taxCode, subtotal, tax));
    }

    method CreateDocument(kind: DocumentKind, control: Id, currency: Currency, date: Date, inputs: seq<D.LineInput>)
      returns (error: Option<Error>)
      modifies this`documents
      ensures Outcome(old(State()), O.CreateDocument(kind, control, currency, date, inputs), error)
    {
      var lines := ComputeLines(inputs);
      if lines.Failure? { return Some(lines.error); }
      if control >= |chart.accounts| { return Some(NotFound); }
      documents := documents
        + [Document(kind, control, currency, date, DocDraft, lines.value, D.Total(lines.value), 0, None, None)];
      error := None;
    }

    method UpdateDocument(kind: DocumentKind, d: Id, inputs: seq<D.LineInput>) returns (error: Option<Error>)
      modifies this`documents
      ensures Outcome(old(State()), O.UpdateDocument(kind, d, inputs), error)
    {
      if d >= |documents| || documents[d].kind != kind { return Some(NotFound); }
      if documents[d].status != DocDraft { return Some(Invalid); }
      var lines := ComputeLines(inputs);
      if lines.Failure? { return Some(lines.error); }
      documents := documents[d := documents[d].(lines := lines.value, total := D.Total(lines.value))];
      error := None;
    }

    method VoidDocument(kind: DocumentKind, d: Id) returns (error: Option<Error>)
      modifies this`documents
      ensures Outcome(old(State()), O.VoidDocument(kind, d), error)
    {
      if d >= |documents| || documents[d].kind != kind { return Some(NotFound); }
      if documents[d].status != DocDraft { return Some(Invalid); }
      documents := documents[d := documents[d].(status := DocVoided)];
      error := None;
    }

    /** The loops of a posting: one line per document line while the tax dictionary fills up, then
        one line per tax account. */
    method AddDocumentLines(e: Id, lines: seq<DocumentLine>, debit: bool)
      requires e < |entries|
      modifies this`entries
      ensures entries == old(entries)[e := old(entries)[e].(lines := old(entries)[e].lines
                           + (D.SubtotalLegs(lines, debit) + D.TaxLegs(D.Accumulate(chart, lines), debit)))]
    {
      ghost var start := entries[e].lines;
      var taxes := AddSubtotalLines(e, lines, debit);
      D.AccumulateKeepsTable(chart, lines);
      AddTaxLines(e, taxes, debit);
      assert start + D.SubtotalLegs(lines, debit) + D.TaxLegs(taxes, debit)
          == start + (D.SubtotalLegs(lines, debit) + D.TaxLegs(taxes, debit));
    }

    method AddSubtotalLines(e: Id, lines: seq<DocumentLine>, debit: bool) returns (taxes: D.TaxTable)
      requires e < |entries|
      modifies this`entries
      ensures entries == old(entries)[e := old(entries)[e].(lines := old(entries)[e].lines + D.SubtotalLegs(lines, debit))]
      ensures taxes == D.Accumulate(chart, lines)
    {
      ghost var start := entries[e].lines;
      taxes := D.NO_TAX;
      assert start + D.SubtotalLegs(lines[..0], debit) == start;
      for i := 0 to |lines|
        invariant taxes == D.Accumulate(chart, lines[..i])
        invariant entries == old(entries)[e := old(entries)[e].(lines := start + D.SubtotalLegs(lines[..i], debit))]
      {
        var line := lines[i];
        AddLine(e, D.Leg(line.account, line.subtotal, debit));
        assert lines[..i + 1][..i] == lines[..i];
        assert start + D.SubtotalLegs(lines[..i + 1], debit)
            == start + D.SubtotalLegs(lines[..i], debit) + [D.Leg(line.account, line.subtotal, debit)];
        var account := D.TaxAccount(chart, line);
        if account.Some? {
          taxes := D.AddTax(taxes, account.value, line.tax);
        }
      }
      assert lines[..|lines|] == lines;
    }

    method AddTaxLines(e: Id, taxes: D.TaxTable, debit: bool)
      requires e < |entries| && D.TableOk(taxes)
      modifies this`entries
      ensures entries == old(entries)[e := old(entries)[e].(lines := old(entries)[e].lines + D.TaxLegs(taxes, debit))]
    {
      ghost var start, legs := entries[e].lines, D.TaxLegs(taxes, debit);
      assert start + legs[..0] == start;
      for k := 0 to |taxes.order|
        invariant entries == old(entries)[e := old(entries)[e].(lines := start + legs[..k])]
      {
        var account := taxes.order[k];
        assert account in taxes.order;
        AddLine(e, D.Leg(account, taxes.amounts[account], debit));
        assert start + legs[..k + 1] == start + legs[..k] + [legs[k]];
      }
      assert legs[..|legs|] == legs;
    }

    /** The CHECK on journal lines at the flush, then posting. */
    method FlushAndPost(e: Id) returns (error: Option<Error>)
      requires |entries| > 0 && e == |entries| - 1 && entries[e].status == EntryDraft && !entries[e].manual
      requires entries[e].period.None? && entries[e].reverses.None?
      modifies this`entries
      ensures var entry := old(entries)[e];
              Within(J.WriteAndPost(old(State()).(entries := old(entries)[..e]), entry.date, entry.currency, entry.lines), error)
    {
      if !J.AllOneSided(entries[e].lines) { return Some(Conflict); }
      assert entries == entries[..e] + [J.DraftEntry(entries[e].date, entries[e].currency, entries[e].lines, false)];
      error := PostEntryInSession(e);
    }

    method BookDocument(kind: DocumentKind, doc: Document, total: int) returns (error: Option<Error>)
      requires total == D.Total(doc.lines)
      modifies this`entries
      ensures Within(J.WriteAndPost(old(State()), doc.date, doc.currency,
                                    D.EntryLines(chart, kind == Invoice, doc.control, doc.lines)), error)
    {
      var e := |entries|;
      entries := entries + [J.DraftEntry(doc.date, doc.currency, [], false)];
      AddLine(e, D.Leg(doc.control, total, kind == Invoice));
      AddDocumentLines(e, doc.lines, kind != Invoice);
      assert entries[e].lines == D.EntryLines(chart, kind == Invoice, doc.control, doc.lines);
      assert entries[..e] == old(entries);
      error := FlushAndPost(e);
    }

    method PostDocumentInSession(kind: DocumentKind, d: Id) returns (error: Option<Error>)
      modifies this`entries, this`documents
      ensures Within(D.PostDocument(old(State()), kind, d), error)
    {
      if d >= |documents| || documents[d].kind != kind { return Some(NotFound); }
      var doc := documents[d];
      if doc.status != DocDraft || doc.lines == [] { return Some(Invalid); }
      var total := D.Total(doc.lines);
      if total <= 0 { return Some(Invalid); }
      var number: Option<nat> := None;
      if kind == Invoice {
        number := Some(LastNumber(D.DocumentNumbers(documents)) + 1);
      }
      var e := |entries|;
      error := BookDocument(kind, doc, total);
      if error.None? {
        documents := documents[d := doc.(number := number, total := total, outstanding := total,
                                         entry := Some(e), status := DocPosted)];
      }
    }

    method PostDocument(kind: DocumentKind, d: Id) returns (error: Option<Error>)
      modifies this
      ensures Outcome(old(State()), O.PostDocument(kind, d), error)
    {
      var saved := State();
      error := PostDocumentInSession(kind, d);
      if error.Some? { Rollback(saved); }
    }

    method CancelDocument(kind: DocumentKind, d: Id, date: Date) returns (error: Option<Error>)
      modifies this`entries, this`documents
      ensures Outcome(old(State()), O.CancelDocument(kind, d, date), error)
    {
      if d >= |documents| || documents[d].kind != kind { return Some(NotFound); }
      var doc := documents[d];
      if doc.status != DocPosted || doc.entry.None? { return Some(Invalid); }
      error := ReverseEntryInSession(doc.entry.value, date, false);
      if error.None? {
        documents := documents[d := doc.(status := DocCancelled, outstanding := 0)];
      }
    }

    // --- credit notes ---------------------------------------------------------------------------

    method CreateNote(invoice: Id, currency: Currency, date: Date, inputs: seq<D.LineInput>) returns (error: Option<Error>)
      modifies this`notes
      ensures Outcome(old(State()), O.CreateNote(invoice, currency, date, inputs), error)
    {
      if invoice >= |documents| || documents[invoice].kind != Invoice { return Some(NotFound); }
      if documents[invoice].status != DocPosted { return Some(Invalid); }
      var lines := ComputeLines(inputs);
      if lines.Failure? { return Some(lines.error); }
      notes := notes + [CreditNote(invoice, currency, date, DocDraft, lines.value, D.Total(lines.value), None, None)];
      error := None;
    }

    method VoidNote(n: Id) returns (error: Option<Error>)
      modifies this`notes
      ensures Outcome(old(State()), O.VoidNote(n), error)
    {
      if n >= |notes| { return Some(NotFound); }
      if notes[n].status != DocDraft { return Some(Invalid); }
      notes := notes[n := notes[n].(status := DocVoided)];
      error := None;
    }

    method PostNoteInSession(n: Id) returns (error: Option<Error>)
      modifies this`entries, this`notes
      ensures Within(D.PostNote(old(State()), n), error)
    {
      if n >= |notes| { return Some(NotFound); }
      var note := notes[n];
      if note.status != DocDraft { return Some(Invalid); }
      if note.invoice >= |documents| || documents[note.invoice].kind != Invoice { return Some(NotFound); }
      var invoice := documents[note.invoice];
      if invoice.status != DocPosted || note.lines == [] { return Some(Invalid); }
      var total := D.Total(note.lines);
      if total <= 0 { return Some(Invalid); }
      var number := LastNumber(D.NoteNumbers(notes)) + 1;
      var e := |entries|;
      entries := entries + [J.DraftEntry(note.date, note.currency, [], false)];
      AddDocumentLines(e, note.lines, true);
      AddLine(e, D.Leg(invoice.control, total, false));
      assert entries[e].lines == D.NoteEntryLines(chart, invoice.control, note.lines);
      assert entries[..e] == old(entries);
      error := FlushAndPost(e);
      if error.None? {
        notes := notes[n := note.(number := Some(number), total := total, entry := Some(e), status := DocPosted)];
      }
    }

    method PostNote(n: Id) returns (error: Option<Error>)
      modifies this
      ensures Outcome(old(State()), O.PostNote(n), error)
    {
      var saved := State();
      error := PostNoteInSession(n);
      if error.Some? { Rollback(saved); }
    }

    // --- payments -----------------------------------------------------------------------------------

    method CreatePayment(direction: Direction, amount: int, currency: Currency) returns (error: Option<Error>)
      modifies this`payments
      ensures Outcome(old(State()), O.CreatePayment(direction, amount, currency), error)
    {
      if amount <= 0 { return Some(Invalid); }
      payments := payments + [Payment(direction, amount, currency, amount)];
      error := None;
    }

    method CreateAllocation(p: Id, kind: DocumentKind, d: Id, amount: int) returns (error: Option<Error>)
      modifies this`payments, this`documents, this`allocations
      ensures Outcome(old(State()), O.CreateAllocation(p, kind, d, amount), error)
    {
      if amount <= 0 { return Some(Invalid); }
      if p >= |payments| { return Some(NotFound); }
      if amount > payments[p].unallocated { return Some(Invalid); }
      if d >= |documents| || documents[d].kind != kind { return Some(NotFound); }
      if documents[d].status != DocPosted { return Some(Invalid); }
      if amount > documents[d].outstanding { return Some(Invalid); }
      payments := payments[p := payments[p].(unallocated := payments[p].unallocated - amount)];
      documents := documents[d := documents[d].(outstanding := documents[d].outstanding - amount)];
      allocations := allocations + [Allocation(p, d, amount, None)];
      error := None;
    }

    method ReverseAllocation(i: Id) returns (error: Option<Error>)
      modifies this`payments, this`documents, this`allocations
      ensures Outcome(old(State()), O.ReverseAllocation(i), error)
    {
      if i >= |allocations| { return Some(NotFound); }
      var original := allocations[i];
      if original.reverses.Some? { return Some(Invalid); }
      if Y.IsReversed(allocations, i) { return Some(Invalid); }
      var p, d := original.payment, original.document;
      if p >= |payments| || d >= |documents| { return Some(NotFound); }
      if payments[p].unallocated + original.amount > payments[p].amount { return Some(Conflict); }
      payments := payments[p := payments[p].(unallocated := payments[p].unallocated + original.amount)];
      documents := documents[d := documents[d].(outstanding := documents[d].outstanding + original.amount)];
      allocations := allocations + [original.(reverses := Some(i))];
      error := None;
    }

    // --- banking -----------------------------------------------------------------------------------------

    /** The import loop, with the set of digests seen so far and the two counters. */
    method ImportStatement(bankAccount: Id, rows: seq<ParsedLine>)
      returns (error: Option<Error>, imported: nat, duplicates: nat)
      modifies this`bankLines
      ensures Outcome(old(State()), O.ImportStatement(bankAccount, rows), error)
      ensures error.None? ==> imported + duplicates == |rows| && |bankLines| == |old(bankLines)| + imported
    {
      imported, duplicates := 0, 0;
      if rows == [] || (exists i :: 0 <= i < |rows| && Cents(rows[i].written) == 0) { return Some(Invalid), 0, 0; }
      if bankAccount >= |chart.bankAccounts| { return Some(NotFound), 0, 0; }
      var existing := B.Digests(bankLines, bankAccount);
      for i := 0 to |rows|
        invariant bankLines == B.ImportRows(digest, bankAccount, old(bankLines), rows[..i])
        invariant existing == B.Digests(bankLines, bankAccount)
        invariant imported + duplicates == i && |bankLines| == |old(bankLines)| + imported
      {
        var d := B.Digest(digest, bankAccount, rows[i]);
        assert rows[..i + 1][..i] == rows[..i];
        if d in existing {
          duplicates := duplicates + 1;
        } else {
          existing := existing + {d};
          B.AppendDigest(bankLines, B.NewLine(digest, bankAccount, rows[i]), bankAccount);
          bankLines := bankLines + [B.NewLine(digest, bankAccount, rows[i])];
          imported := imported + 1;
        }
      }
      assert rows[..|rows|] == rows;
      error := None;
    }

    /** The two lines of a reconciliation entry, written and posted. */
    method BookBankLine(l: Id, ledger: Id, counter: Id, currency: Currency) returns (error: Option<Error>)
      requires l < |bankLines|
      modifies this`entries
      ensures Within(J.WriteAndPost(old(State()), bankLines[l].date, currency,
                                    B.BankEntryLines(ledger, counter, bankLines[l].amount)), error)
    {
      var line := bankLines[l];
      var amount := Abs(line.amount);
      var debited, credited := ledger, counter;
      if line.amount <= 0 { debited, credited := counter, ledger; }
      var e := |entries|;
      entries := entries + [J.DraftEntry(line.date, currency, [], false)];
      AddLine(e, D.Leg(debited, amount, true));
      AddLine(e, D.Leg(credited, amount, false));
      assert entries[e].lines == B.BankEntryLines(ledger, counter, line.amount);
      assert entries[..e] == old(entries);
      error := FlushAndPost(e);
    }

    method PayInFullInSession(direction: Direction, amount: int, currency: Currency, kind: DocumentKind, d: Id)
      returns (error: Option<Error>)
      modifies this`payments, this`documents, this`allocations
      ensures Within(B.PayInFull(old(State()), direction, amount, currency, kind, d), error)
    {
      var p := |payments|;
      error := CreatePayment(direction, amount, currency);
      if error.None? {
        error := CreateAllocation(p, kind, d, amount);
      }
    }

    method ConfirmMatchInSession(l: Id, kind: DocumentKind, d: Id) returns (error: Option<Error>)
      modifies this`entries, this`payments, this`documents, this`allocations, this`bankLines
      ensures Within(B.ConfirmMatch(old(State()), l, kind, d), error)
    {
      if l >= |bankLines| { return Some(NotFound); }
      var line := bankLines[l];
      if line.match_ != Unmatched { return Some(Invalid); }
      if line.bankAccount >= |chart.bankAccounts| { return Some(NotFound); }
      if d >= |documents| || documents[d].kind != kind { return Some(NotFound); }
      var doc := documents[d];
      if doc.status != DocPosted { return Some(Invalid); }
      if kind != (if line.amount > 0 then Invoice else Bill) { return Some(Invalid); }
      if Abs(line.amount) != doc.outstanding { return Some(Invalid); }
      var p := |payments|;
      error := PayInFullInSession(if line.amount > 0 then Inbound else Outbound, Abs(line.amount), doc.currency, kind, d);
      if error.Some? { return; }
      var e := |entries|;
      error := BookBankLine(l, chart.bankAccounts[line.bankAccount].ledger, doc.control, doc.currency);
      if error.Some? { return; }
      bankLines := bankLines[l := line.(match_ := ToDocument(d, p), entry := Some(e))];
    }

    method ConfirmMatch(l: Id, kind: DocumentKind, d: Id) returns (error: Option<Error>)
      modifies this
      ensures Outcome(old(State()), O.ConfirmMatch(l, kind, d), error)
    {
      var saved := State();
      error := ConfirmMatchInSession(l, kind, d);
      if error.Some? { Rollback(saved); }
    }

    method AssignLineInSession(l: Id, account: Id) returns (error: Option<Error>)
      modifies this`entries, this`bankLines
      ensures Within(B.AssignLine(old(State()), l, account), error)
    {
      if l >= |bankLines| { return Some(NotFound); }
      var line := bankLines[l];
      if line.match_ != Unmatched { return Some(Invalid); }
      if line.bankAccount >= |chart.bankAccounts| { return Some(NotFound); }
      if account >= |chart.accounts| { return Some(NotFound); }
      if !chart.accounts[account].active { return Some(Invalid); }
      var bank := chart.bankAccounts[line.bankAccount];
      var e := |entries|;
      error := BookBankLine(l, bank.ledger, account, bank.currency);
      if error.None? {
        bankLines := bankLines[l := line.(match_ := ToAccount(account), entry := Some(e))];
      }
    }

    method AssignLine(l: Id, account: Id) returns (error: Option<Error>)
      modifies this
      ensures Outcome(old(State()), O.AssignLine(l, account), error)
    {
      var saved := State();
      error := AssignLineInSession(l, account);
      if error.Some? { Rollback(saved); }
    }
  }
}
