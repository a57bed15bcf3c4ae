/** What the calls on invoices, bills and credit notes answer, told the same way. */
module DocumentAnswers {
  import opened Wrappers
  import opened Sums
  import opened Records
  import opened Journal
  import opened Numbering
  import opened Rounding
  import opened Documents
  import opened Subledger
  import opened Invariants
  import opened JournalAnswers
  import O = Operations

  // --- lines ---------------------------------------------------------------------------------

  /** What can be ordered: a positive quantity at a price that is not negative, on an account that is
      there and active, untaxed or at a tax code that is there. */
  predicate Orderable(chart: Chart, input: LineInput)
  {
    && input.account < |chart.accounts| && chart.accounts[input.account].active
    && input.quantity > 0 && input.price >= 0
    && (input.taxCode.Some? ==> input.taxCode.value < |chart.taxCodes|)
  }

  predicate Unknown(chart: Chart, input: LineInput)
  {
    || input.account >= |chart.accounts|
    || (chart.accounts[input.account].active && input.quantity > 0 && input.price >= 0 && !Orderable(chart, input))
  }

  predicate FirstUnorderable(chart: Chart, inputs: seq<LineInput>, i: nat)
  {
    i < |inputs| && !Orderable(chart, inputs[i]) && forall j :: 0 <= j < i ==> Orderable(chart, inputs[j])
  }

  ghost predicate InputsRefused(chart: Chart, inputs: seq<LineInput>, error: Option<Error>)
  {
    if inputs == [] then error == Some(Invalid)
    else if forall i :: 0 <= i < |inputs| ==> Orderable(chart, inputs[i]) then error == None
    else exists i: nat :: FirstUnorderable(chart, inputs, i)
           && error == Some(if Unknown(chart, inputs[i]) then NotFound else Invalid)
  }

  /** `quotient` is `numerator / denominator` to the nearest whole, upwards from the midpoint. */
  predicate Nearest(numerator: int, denominator: nat, quotient: int)
  {
    2 * numerator - denominator < 2 * denominator * quotient <= 2 * numerator + denominator
  }

  /** The stored line is the one ordered. Its subtotal is quantity times price to the nearest cent;
      its tax is the code's rate of that subtotal to the nearest cent, or nothing without a code. */
  predicate Priced(chart: Chart, input: LineInput, line: DocumentLine)
  {
    && line.account == input.account && line.taxCode == input.taxCode
    && line.quantity == input.quantity && line.price == input.price
    && Nearest(input.quantity * input.price, 100, line.subtotal)
    && match input.taxCode
       case None => line.tax == 0
       case Some(t) => t < |chart.taxCodes| && Nearest(line.subtotal * chart.taxCodes[t].rate, 100_000, line.tax)
  }

  predicate AllPriced(chart: Chart, inputs: seq<LineInput>, lines: seq<DocumentLine>)
  {
    |lines| == |inputs| && forall i :: 0 <= i < |lines| ==> Priced(chart, inputs[i], lines[i])
  }

  lemma LineAnswer(chart: Chart, input: LineInput)
    ensures var r := ComputeLine(chart, input);
            && ErrorOf(r) == (if Orderable(chart, input) then None
                              else Some(if Unknown(chart, input) then NotFound else Invalid))
            && (r.Success? ==> Priced(chart, input, r.value))
  {
    if Orderable(chart, input) {
      var subtotal := RoundHalfUp(input.quantity * input.price, 100);
      if input.taxCode.Some? {
        var tax := RoundHalfUp(subtotal * chart.taxCodes[input.taxCode.value].rate, 100_000);
      }
    }
  }

  lemma {:induction false} AllLinesPriced(chart: Chart, inputs: seq<LineInput>)
    ensures ComputeAll(chart, inputs).Success? <==> forall i :: 0 <= i < |inputs| ==> Orderable(chart, inputs[i])
    ensures ComputeAll(chart, inputs).Success? ==> AllPriced(chart, inputs, ComputeAll(chart, inputs).value)
  {
    if inputs != [] {
      var n := |inputs| - 1;
      AllLinesPriced(chart, inputs[..n]);
      LineAnswer(chart, inputs[n]);
    }
  }

  lemma {:induction false} FirstUnorderableDecides(chart: Chart, inputs: seq<LineInput>) returns (i: nat)
    requires ComputeAll(chart, inputs).Failure?
    ensures FirstUnorderable(chart, inputs, i)
    ensures ComputeAll(chart, inputs) == Failure(if Unknown(chart, inputs[i]) then NotFound else Invalid)
  {
    var n := |inputs| - 1;
    AllLinesPriced(chart, inputs[..n]);
    LineAnswer(chart, inputs[n]);
    if ComputeAll(chart, inputs[..n]).Failure? {
      i := FirstUnorderableDecides(chart, inputs[..n]);
    } else {
      i := n;
    }
  }

  /** Lines are computed exactly when there is one and each can be ordered, one by one and to the
      nearest cent; otherwise the first bad one says why not. */
  lemma ComputeLinesAnswer(chart: Chart, inputs: seq<LineInput>)
    ensures var r := ComputeLines(chart, inputs);
            && InputsRefused(chart, inputs, ErrorOf(r))
            && (r.Success? ==> AllPriced(chart, inputs, r.value) && Total(r.value) == Sum(r.value, LineTotal()))
  {
    AllLinesPriced(chart, inputs);
    if ComputeAll(chart, inputs).Success? {
      TotalIsSumOfLineTotals(ComputeAll(chart, inputs).value);
    } else {
      var i := FirstUnorderableDecides(chart, inputs);
    }
  }

  // --- drafts ------------------------------------------------------------------------------------

  /** A created invoice or bill is a draft with the header asked for, that owes nothing yet, has no
      number and no entry, and whose total is that of its lines. */
  lemma CreateDocumentAnswer(db: Db, kind: DocumentKind, control: Id, currency: Currency, date: Date,
                             inputs: seq<LineInput>)
    ensures var r := O.Apply(db, O.CreateDocument(kind, control, currency, date, inputs));
            && (r.Failure? ==>
                  || InputsRefused(db.chart, inputs, Some(r.error))
                  || (InputsRefused(db.chart, inputs, None) && control >= |db.chart.accounts| && r.error == NotFound))
            && (r.Success? ==>
                  && InputsRefused(db.chart, inputs, None) && control < |db.chart.accounts|
                  && r.value == db.(documents := r.value.documents)
                  && |r.value.documents| == |db.documents| + 1 && r.value.documents[..|db.documents|] == db.documents
                  && var doc := r.value.documents[|db.documents|];
                     && doc.kind == kind && doc.control == control && doc.currency == currency && doc.date == date
                     && doc.status == DocDraft && doc.outstanding == 0 && doc.number == None && doc.entry == None
                     && AllPriced(db.chart, inputs, doc.lines) && doc.total == Sum(doc.lines, LineTotal()))
  {
    ComputeLinesAnswer(db.chart, inputs);
  }

  /** An update of a draft replaces its lines and its total, and nothing else. */
  lemma UpdateDocumentAnswer(db: Db, kind: DocumentKind, d: Id, inputs: seq<LineInput>)
    ensures var r := O.Apply(db, O.UpdateDocument(kind, d, inputs));
            && (if d >= |db.documents| || db.documents[d].kind != kind then ErrorOf(r) == Some(NotFound)
                else if db.documents[d].status != DocDraft then ErrorOf(r) == Some(Invalid)
                else InputsRefused(db.chart, inputs, ErrorOf(r)))
            && (r.Success? ==>
                  && |r.value.documents| == |db.documents|
                  && var lines := r.value.documents[d].lines;
                     && AllPriced(db.chart, inputs, lines)
                     && r.value == db.(documents := db.documents[d :=
                          db.documents[d].(lines := lines, total := Sum(lines, LineTotal()))]))
  {
    ComputeLinesAnswer(db.chart, inputs);
  }

  lemma VoidAnswer(db: Db, kind: DocumentKind, d: Id, n: Id)
    ensures var r := O.Apply(db, O.VoidDocument(kind, d));
            && ErrorOf(r) == (if d >= |db.documents| || db.documents[d].kind != kind then Some(NotFound)
                              else if db.documents[d].status != DocDraft then Some(Invalid) else None)
            && (r.Success? ==> r.value == db.(documents := db.documents[d := db.documents[d].(status := DocVoided)]))
    ensures var r := O.Apply(db, O.VoidNote(n));
            && ErrorOf(r) == (if n >= |db.notes| then Some(NotFound)
                              else if db.notes[n].status != DocDraft then Some(Invalid) else None)
            && (r.Success? ==> r.value == db.(notes := db.notes[n := db.notes[n].(status := DocVoided)]))
  {
  }

  /** A credit note is created on a posted invoice only. */
  lemma CreateNoteAnswer(db: Db, invoice: Id, currency: Currency, date: Date, inputs: seq<LineInput>)
    ensures var r := O.Apply(db, O.CreateNote(invoice, currency, date, inputs));
            && (if invoice >= |db.documents| || db.documents[invoice].kind != Invoice then ErrorOf(r) == Some(NotFound)
                else if db.documents[invoice].status != DocPosted then ErrorOf(r) == Some(Invalid)
                else InputsRefused(db.chart, inputs, ErrorOf(r)))
            && (r.Success? ==>
                  && r.value == db.(notes := r.value.notes)
                  && |r.value.notes| == |db.notes| + 1 && r.value.notes[..|db.notes|] == db.notes
                  && var note := r.value.notes[|db.notes|];
                     && note.invoice == invoice && note.currency == currency && note.date == date
                     && note.status == DocDraft && note.number == None && note.entry == None
                     && AllPriced(db.chart, inputs, note.lines) && note.total == Sum(note.lines, LineTotal()))
  {
    ComputeLinesAnswer(db.chart, inputs);
  }

  // --- the entry of a document ----------------------------------------------------------------------

  /** The subtotal of a line booked on an account. */
  function SubtotalOn(a: Id): DocumentLine -> int
  {
    (l: DocumentLine) => if l.account == a then l.subtotal else 0
  }

  lemma CarriedByCode(chart: Chart, lines: seq<DocumentLine>, a: Id)
    ensures Sum(lines, Carried(chart, a)) == Sum(lines, SubtotalOn(a)) + Sum(lines, TaxOnto(chart, a))
  {
    CarriedSplits(chart, lines, a);
    SumEqual(lines, lines, AmountOn(LineAccount(), SubtotalOf(), a), SubtotalOn(a));
  }

  predicate IsLine(leg: JournalLine, account: Id, amount: int, debit: bool)
  {
    && leg.account == account
    && (if debit then leg.debit == amount && leg.credit == 0 else leg.debit == 0 && leg.credit == amount)
  }

  /** One line per document line, in order. */
  predicate SubtotalLines(legs: seq<JournalLine>, lines: seq<DocumentLine>, debit: bool)
  {
    |legs| == |lines| && forall i :: 0 <= i < |legs| ==> IsLine(legs[i], lines[i].account, lines[i].subtotal, debit)
  }

  /** One line per account that is taxed, with all its tax. */
  ghost predicate TaxLines(legs: seq<JournalLine>, chart: Chart, lines: seq<DocumentLine>, debit: bool)
  {
    && (forall i, j :: 0 <= i < j < |legs| ==> legs[i].account != legs[j].account)
    && (forall i :: 0 <= i < |legs| ==>
          var tax := Sum(lines, TaxOnto(chart, legs[i].account));
          tax > 0 && IsLine(legs[i], legs[i].account, tax, debit))
    && (forall a: Id :: Sum(lines, TaxOnto(chart, a)) > 0 ==> Touches(legs, a))
  }

  lemma SidesAnswer(chart: Chart, lines: seq<DocumentLine>, debit: bool)
    requires LinesOk(chart, lines)
    ensures SubtotalLines(SubtotalLegs(lines, debit), lines, debit)
    ensures TaxLines(TaxLegs(Accumulate(chart, lines), debit), chart, lines, debit)
  {
    var table := Accumulate(chart, lines);
    var legs := TaxLegs(table, debit);
    AccumulateKeepsTable(chart, lines);
    forall a: Id ensures AmountIn(table)(a) == Sum(lines, TaxOnto(chart, a)) {
      AccumulateByAccount(chart, lines, a);
    }
    forall i | 0 <= i < |legs|
      ensures legs[i].account == table.order[i] && Sum(lines, TaxOnto(chart, legs[i].account)) > 0
      ensures IsLine(legs[i], legs[i].account, Sum(lines, TaxOnto(chart, legs[i].account)), debit)
    {
      assert table.order[i] in table.order;
    }
    forall a: Id | Sum(lines, TaxOnto(chart, a)) > 0 ensures Touches(legs, a) {
      assert a in table.order;
      var i :| 0 <= i < |table.order| && table.order[i] == a;
      assert legs[i].account == a;
    }
  }

  /** What a document moves on an account, in the direction of its control line: the total if it is
      the control account, less the subtotals booked there and the taxes of the codes with that account. */
  function Moved(chart: Chart, control: Id, lines: seq<DocumentLine>, a: Id): int
  {
    (if a == control then Sum(lines, LineTotal()) else 0) - Sum(lines, SubtotalOn(a)) - Sum(lines, TaxOnto(chart, a))
  }

  predicate HasFreeLine(lines: seq<DocumentLine>)
  {
    exists i :: 0 <= i < |lines| && lines[i].subtotal == 0
  }

  /** One more than the highest number given out, or 1. */
  predicate IsNext(number: Option<nat>, numbers: seq<Option<nat>>)
  {
    && number.Some? && number.value >= 1
    && (forall i :: 0 <= i < |numbers| && numbers[i].Some? ==> numbers[i].value < number.value)
    && (number.value == 1 || Some(number.value - 1) in numbers)
  }

  /** The control line, the line of every document line, the line of every taxed account. */
  ghost predicate EntryShape(legs: seq<JournalLine>, chart: Chart, controlDebit: bool, control: Id, lines: seq<DocumentLine>)
  {
    && |legs| >= |lines| + 1
    && IsLine(legs[0], control, Sum(lines, LineTotal()), controlDebit)
    && SubtotalLines(legs[1..|lines| + 1], lines, !controlDebit)
    && TaxLines(legs[|lines| + 1..], chart, lines, !controlDebit)
  }

  lemma FreeLines(chart: Chart, lines: seq<DocumentLine>)
    requires LinesOk(chart, lines)
    ensures NoFreeLine(lines) <==> !HasFreeLine(lines)
  {
    forall i | 0 <= i < |lines| ensures lines[i].subtotal >= 0 {
      assert LineOk(chart, lines[i]);
    }
  }

  lemma EntryAnswer(chart: Chart, controlDebit: bool, control: Id, lines: seq<DocumentLine>, a: Id)
    requires LinesOk(chart, lines) && Total(lines) > 0
    ensures var legs := EntryLines(chart, controlDebit, control, lines);
            && EntryShape(legs, chart, controlDebit, control, lines)
            && Effect(legs, a) == (if controlDebit then 1 else -1) * Moved(chart, control, lines, a)
            && |legs| >= 2 && Debits(legs) == Credits(legs) && (AllOneSided(legs) <==> !HasFreeLine(lines))
  {
    var legs := EntryLines(chart, controlDebit, control, lines);
    var subs, taxes := SubtotalLegs(lines, !controlDebit), TaxLegs(Accumulate(chart, lines), !controlDebit);
    SidesAnswer(chart, lines, !controlDebit);
    TotalIsSumOfLineTotals(lines);
    CarriedByCode(chart, lines, a);
    EntryLinesBalance(chart, controlDebit, control, lines, a);
    EntryLinesOneSided(chart, controlDebit, control, lines);
    FreeLines(chart, lines);
    assert legs[1..|lines| + 1] == subs;
    assert legs[|lines| + 1..] == taxes;
  }

  ghost predicate DocumentBooked(db: Db, after: Db, kind: DocumentKind, d: Id, a: Id)
    requires d < |db.documents|
  {
    var doc, e := db.documents[d], |db.entries|;
    && BookedOn(db, after, doc.date, doc.currency)
    && EntryShape(after.entries[e].lines, db.chart, kind == Invoice, doc.control, doc.lines)
    && Effect(after.entries[e].lines, a)
       == (if kind == Invoice then 1 else -1) * Moved(db.chart, doc.control, doc.lines, a)
    && |after.documents| == |db.documents|
    && (if kind == Invoice then IsNext(after.documents[d].number, DocumentNumbers(db.documents))
        else after.documents[d].number == None)
    && after == db.(entries := after.entries,
                    documents := db.documents[d := doc.(status := DocPosted, outstanding := doc.total, entry := Some(e),
                                                        number := after.documents[d].number)])
  }

  /** Posting an invoice debits its control account with the total, and credits every line's account
      with its subtotal and every tax code's account with the taxes of that code; posting a bill is
      the other way round. The entry has the document's date and currency and lies in the open period
      of that date; the document is posted, owes its total and names the entry, and only an invoice
      gets a number, the next one. */
  lemma {:induction false} PostDocumentAnswer(db: Db, kind: DocumentKind, d: Id, a: Id)
    requires Inv(db)
    ensures var r := O.Apply(db, O.PostDocument(kind, d));
            && ErrorOf(r) == (if d >= |db.documents| || db.documents[d].kind != kind then Some(NotFound)
                              else if db.documents[d].status != DocDraft || db.documents[d].total <= 0 then Some(Invalid)
                              else if HasFreeLine(db.documents[d].lines) then Some(Conflict)
                              else DateRefused(db.periods, db.documents[d].date))
            && (r.Success? ==> DocumentBooked(db, r.value, kind, d, a))
  {
    if d < |db.documents| && db.documents[d].kind == kind {
      var doc := db.documents[d];
      assert DocumentOk(db.chart, db.entries, doc);
      if doc.status == DocDraft && doc.total > 0 {
        EntryAnswer(db.chart, kind == Invoice, doc.control, doc.lines, a);
        BookingAnswer(db, doc.date, doc.currency, EntryLines(db.chart, kind == Invoice, doc.control, doc.lines));
        LastNumberIsMax(DocumentNumbers(db.documents));
      }
    }
  }

  /** The lines of every document line and of every taxed account, then the control line. */
  ghost predicate NoteShape(legs: seq<JournalLine>, chart: Chart, control: Id, lines: seq<DocumentLine>)
  {
    var n := |legs| - 1;
    && n >= |lines|
    && SubtotalLines(legs[..|lines|], lines, true)
    && TaxLines(legs[|lines|..n], chart, lines, true)
    && IsLine(legs[n], control, Sum(lines, LineTotal()), false)
  }

  lemma NoteAnswer(chart: Chart, control: Id, lines: seq<DocumentLine>, a: Id)
    requires LinesOk(chart, lines) && Total(lines) > 0
    ensures var legs := NoteEntryLines(chart, control, lines);
            && NoteShape(legs, chart, control, lines)
            && Effect(legs, a) == -Moved(chart, control, lines, a)
            && |legs| >= 2 && Debits(legs) == Credits(legs) && (AllOneSided(legs) <==> !HasFreeLine(lines))
  {
    var legs := NoteEntryLines(chart, control, lines);
    var subs, taxes := SubtotalLegs(lines, true), TaxLegs(Accumulate(chart, lines), true);
    SidesAnswer(chart, lines, true);
    TotalIsSumOfLineTotals(lines);
    CarriedByCode(chart, lines, a);
    NoteEntryLinesBalance(chart, control, lines, a);
    NoteEntryLinesOneSided(chart, control, lines);
    FreeLines(chart, lines);
    assert legs[..|lines|] == subs;
    assert legs[|lines|..|legs| - 1] == taxes;
  }

  ghost predicate NoteBooked(db: Db, after: Db, n: Id, a: Id)
    requires n < |db.notes| && db.notes[n].invoice < |db.documents|
  {
    var note, control, e := db.notes[n], db.documents[db.notes[n].invoice].control, |db.entries|;
    && BookedOn(db, after, note.date, note.currency)
    && NoteShape(after.entries[e].lines, db.chart, control, note.lines)
    && Effect(after.entries[e].lines, a) == -Moved(db.chart, control, note.lines, a)
    && |after.notes| == |db.notes| && IsNext(after.notes[n].number, NoteNumbers(db.notes))
    && after == db.(entries := after.entries,
                    notes := db.notes[n := note.(status := DocPosted, entry := Some(e), number := after.notes[n].number)])
  }

  /** Posting a credit note takes its lines and taxes back out of the accounts they are booked on, and
      credits the control account of its invoice; the invoice has to be posted. */
  lemma {:induction false} PostNoteAnswer(db: Db, n: Id, a: Id)
    requires Inv(db)
    ensures n < |db.notes| ==> db.notes[n].invoice < |db.documents|
    ensures var r := O.Apply(db, O.PostNote(n));
            && ErrorOf(r) == (if n >= |db.notes| then Some(NotFound)
                              else if db.notes[n].status != DocDraft || db.notes[n].total <= 0
                                      || db.documents[db.notes[n].invoice].status != DocPosted then Some(Invalid)
                              else if HasFreeLine(db.notes[n].lines) then Some(Conflict)
                              else DateRefused(db.periods, db.notes[n].date))
            && (r.Success? ==> NoteBooked(db, r.value, n, a))
  {
    if n < |db.notes| {
      var note := db.notes[n];
      assert NoteOk(db.chart, db.documents, note);
      var control := db.documents[note.invoice].control;
      if note.status == DocDraft && note.total > 0 {
        NoteAnswer(db.chart, control, note.lines, a);
        BookingAnswer(db, note.date, note.currency, NoteEntryLines(db.chart, control, note.lines));
        LastNumberIsMax(NoteNumbers(db.notes));
      }
    }
  }

  /** A posted document is cancelled on a date when its entry can be reversed on it: the reversing
      entry has that date, and the document, cancelled, owes nothing. */
  lemma CancelDocumentAnswer(db: Db, kind: DocumentKind, d: Id, date: Date)
    requires Inv(db)
    ensures d < |db.documents| && db.documents[d].status == DocPosted ==>
              db.documents[d].entry.Some? && db.documents[d].entry.value < |db.entries|
    ensures var r := O.Apply(db, O.CancelDocument(kind, d, date));
            && ErrorOf(r) == (if d >= |db.documents| || db.documents[d].kind != kind then Some(NotFound)
                              else if db.documents[d].status != DocPosted
                                      || db.entries[db.documents[d].entry.value].status != EntryPosted then Some(Invalid)
                              else DateRefused(db.periods, date))
            && (r.Success? ==>
                  && ReversedOn(db, r.value, db.documents[d].entry.value, date, false)
                  && r.value == db.(entries := r.value.entries,
                                    documents := db.documents[d :=
                                      db.documents[d].(status := DocCancelled, outstanding := 0)]))
  {
    if d < |db.documents| {
      assert DocumentOk(db.chart, db.entries, db.documents[d]);
      if db.documents[d].status == DocPosted {
        ReverseInSessionAnswer(db, db.documents[d].entry.value, date, false);
      }
    }
  }
}
