/** The ledger balance of an account, and the same balance told from documents, credit notes,
    bank lines and manual entries. */
module Subledger {
  import opened Wrappers
  import opened Sums
  import opened Records
  import opened Journal
  import opened Documents
  import opened Payments
  import opened Banking

  // --- the five sides ------------------------------------------------------------

  function EntryShare(a: Id, c: Currency): Entry -> int
  {
    (e: Entry) => if Live(e) && e.currency == c then Effect(e.lines, a) else 0
  }

  function ManualShare(a: Id, c: Currency): Entry -> int
  {
    (e: Entry) => if Live(e) && e.currency == c && e.manual then Effect(e.lines, a) else 0
  }

  function EffectOf(chart: Chart, doc: Document, a: Id): int
  {
    DocumentEffect(chart, doc.kind == Invoice, doc.control, doc.lines, a)
  }

  function DocumentShare(chart: Chart, a: Id, c: Currency): Document -> int
  {
    (d: Document) =>
      if d.status == DocPosted && d.currency == c then EffectOf(chart, d, a) else 0
  }

  function NoteShare(chart: Chart, documents: seq<Document>, a: Id, c: Currency): CreditNote -> int
  {
    (n: CreditNote) =>
      if n.status == DocPosted && n.currency == c && n.invoice < |documents|
      then DocumentEffect(chart, false, documents[n.invoice].control, n.lines, a) else 0
  }

  /** The account and the currency a reconciled line was booked against. */
  function Counterpart(chart: Chart, documents: seq<Document>, line: BankLine): Option<(Id, Currency)>
  {
    match line.match_
    case Unmatched => None
    case ToDocument(d, _) => if d < |documents| then Some((documents[d].control, documents[d].currency)) else None
    case ToAccount(x) =>
      if line.bankAccount < |chart.bankAccounts| then Some((x, chart.bankAccounts[line.bankAccount].currency)) else None
  }

  function BankShare(chart: Chart, documents: seq<Document>, a: Id, c: Currency): BankLine -> int
  {
    (l: BankLine) =>
      var counter := Counterpart(chart, documents, l);
      if counter.Some? && counter.value.1 == c && l.bankAccount < |chart.bankAccounts|
      then (if a == chart.bankAccounts[l.bankAccount].ledger then l.amount else 0)
         - (if a == counter.value.0 then l.amount else 0)
      else 0
  }

  /** Net debit of an account over all posted and reversed entries in one currency. */
  function Balance(db: Db, a: Id, c: Currency): int { Sum(db.entries, EntryShare(a, c)) }
  function ManualSide(db: Db, a: Id, c: Currency): int { Sum(db.entries, ManualShare(a, c)) }
  function DocumentSide(db: Db, a: Id, c: Currency): int { Sum(db.documents, DocumentShare(db.chart, a, c)) }
  function NoteSide(db: Db, a: Id, c: Currency): int { Sum(db.notes, NoteShare(db.chart, db.documents, a, c)) }
  function BankSide(db: Db, a: Id, c: Currency): int { Sum(db.bankLines, BankShare(db.chart, db.documents, a, c)) }

  ghost predicate AgreesOn(db: Db, a: Id, c: Currency)
  {
    Balance(db, a, c) == DocumentSide(db, a, c) + NoteSide(db, a, c) + BankSide(db, a, c) + ManualSide(db, a, c)
  }

  ghost predicate Agreement(db: Db)
  {
    forall a: Id, c: Currency :: AgreesOn(db, a, c)
  }

  // --- what holds of documents, notes and bank lines ---------------------------------

  /** The document's own entry: live, in its currency, and with exactly its effect everywhere. */
  ghost predicate Linked(chart: Chart, entries: seq<Entry>, doc: Document)
  {
    && doc.entry.Some? && doc.entry.value < |entries|
    && var e := entries[doc.entry.value];
       && Live(e) && !e.manual && e.currency == doc.currency
       && forall a :: Effect(e.lines, a) == EffectOf(chart, doc, a)
  }

  predicate Issued(status: DocumentStatus) { status == DocPosted || status == DocCancelled }

  ghost predicate DocumentOk(chart: Chart, entries: seq<Entry>, doc: Document)
  {
    && LinesOk(chart, doc.lines)
    && doc.total == Total(doc.lines) >= 0
    && (doc.number.Some? <==> doc.kind == Invoice && Issued(doc.status))
    && (if Issued(doc.status) then doc.lines != [] && doc.total > 0 && Linked(chart, entries, doc)
        else doc.entry.None?)
  }

  ghost predicate DocumentsOk(chart: Chart, entries: seq<Entry>, documents: seq<Document>)
  {
    forall d :: 0 <= d < |documents| ==> DocumentOk(chart, entries, documents[d])
  }

  ghost predicate NoteOk(chart: Chart, documents: seq<Document>, note: CreditNote)
  {
    && note.invoice < |documents| && documents[note.invoice].kind == Invoice
    && LinesOk(chart, note.lines)
    && note.total == Total(note.lines) >= 0
    && note.status != DocCancelled
    && (note.number.Some? <==> note.status == DocPosted)
  }

  ghost predicate NotesOk(chart: Chart, documents: seq<Document>, notes: seq<CreditNote>)
  {
    forall n :: 0 <= n < |notes| ==> NoteOk(chart, documents, notes[n])
  }

  ghost predicate BankLineOk(chart: Chart, documents: seq<Document>, line: BankLine)
  {
    && line.bankAccount < |chart.bankAccounts| && line.amount != 0
    && (line.match_.ToDocument? ==>
          && line.match_.document < |documents|
          && documents[line.match_.document].kind == (if line.amount > 0 then Invoice else Bill))
    && (line.entry.Some? <==> line.match_ != Unmatched)
  }

  ghost predicate BankLinesOk(chart: Chart, documents: seq<Document>, lines: seq<BankLine>)
  {
    forall l :: 0 <= l < |lines| ==> BankLineOk(chart, documents, lines[l])
  }

  /** Documents are only added and keep kind, control account and currency; once a document has
      left draft everything else is fixed but the outstanding amount, and the only move left is
      from posted to cancelled. */
  ghost predicate DocumentGrows(old_: Document, new_: Document)
  {
    && new_.kind == old_.kind && new_.control == old_.control && new_.currency == old_.currency
    && (old_.status != DocDraft ==>
          new_ == old_.(outstanding := new_.outstanding, status := new_.status)
          && (new_.status == old_.status || (old_.status == DocPosted && new_.status == DocCancelled)))
  }

  ghost predicate DocumentsGrow(old_: seq<Document>, new_: seq<Document>)
  {
    && |old_| <= |new_|
    && forall d :: 0 <= d < |old_| ==> DocumentGrows(old_[d], new_[d])
  }

  // --- shares do not depend on what may change --------------------------------------------

  lemma CarriedStable(chart: Chart, after: Chart, line: DocumentLine, a: Id)
    requires ChartGrows(chart, after) && LineOk(chart, line)
    ensures Carried(after, a)(line) == Carried(chart, a)(line) && LineOk(after, line)
  {
  }

  lemma EffectStable(chart: Chart, after: Chart, debit: bool, control: Id, lines: seq<DocumentLine>, a: Id)
    requires ChartGrows(chart, after) && LinesOk(chart, lines)
    ensures DocumentEffect(after, debit, control, lines, a) == DocumentEffect(chart, debit, control, lines, a)
    ensures LinesOk(after, lines)
  {
    forall i | 0 <= i < |lines|
      ensures Carried(after, a)(lines[i]) == Carried(chart, a)(lines[i]) && LineOk(after, lines[i])
    {
      assert LineOk(chart, lines[i]);
      CarriedStable(chart, after, lines[i], a);
    }
    SumEqual(lines, lines, Carried(after, a), Carried(chart, a));
  }

  lemma ChartKeepsDocuments(chart: Chart, after: Chart, entries: seq<Entry>, documents: seq<Document>, a: Id, c: Currency)
    requires ChartGrows(chart, after) && DocumentsOk(chart, entries, documents)
    ensures DocumentsOk(after, entries, documents)
    ensures Sum(documents, DocumentShare(after, a, c)) == Sum(documents, DocumentShare(chart, a, c))
  {
    forall d | 0 <= d < |documents|
      ensures DocumentOk(after, entries, documents[d])
      ensures DocumentShare(after, a, c)(documents[d]) == DocumentShare(chart, a, c)(documents[d])
    {
      var doc := documents[d];
      assert DocumentOk(chart, entries, doc);
      forall x ensures EffectOf(after, doc, x) == EffectOf(chart, doc, x) {
        EffectStable(chart, after, doc.kind == Invoice, doc.control, doc.lines, x);
      }
      EffectStable(chart, after, doc.kind == Invoice, doc.control, doc.lines, a);
    }
    SumEqual(documents, documents, DocumentShare(after, a, c), DocumentShare(chart, a, c));
  }

  lemma EntriesKeepDocuments(chart: Chart, entries: seq<Entry>, after: seq<Entry>, documents: seq<Document>)
    requires EntriesGrow(entries, after) && DocumentsOk(chart, entries, documents)
    ensures DocumentsOk(chart, after, documents)
  {
    forall d | 0 <= d < |documents| ensures DocumentOk(chart, after, documents[d]) {
      assert DocumentOk(chart, entries, documents[d]);
    }
  }

  lemma NotesFrame(chart: Chart, chart': Chart, documents: seq<Document>, documents': seq<Document>,
                   notes: seq<CreditNote>, a: Id, c: Currency)
    requires ChartGrows(chart, chart') && DocumentsGrow(documents, documents') && NotesOk(chart, documents, notes)
    ensures NotesOk(chart', documents', notes)
    ensures Sum(notes, NoteShare(chart', documents', a, c)) == Sum(notes, NoteShare(chart, documents, a, c))
  {
    forall n | 0 <= n < |notes|
      ensures NoteOk(chart', documents', notes[n])
      ensures NoteShare(chart', documents', a, c)(notes[n]) == NoteShare(chart, documents, a, c)(notes[n])
    {
      var note := notes[n];
      assert NoteOk(chart, documents, note);
      assert DocumentGrows(documents[note.invoice], documents'[note.invoice]);
      EffectStable(chart, chart', false, documents[note.invoice].control, note.lines, a);
    }
    SumEqual(notes, notes, NoteShare(chart', documents', a, c), NoteShare(chart, documents, a, c));
  }

  lemma BankLinesFrame(chart: Chart, chart': Chart, documents: seq<Document>, documents': seq<Document>,
                       lines: seq<BankLine>, a: Id, c: Currency)
    requires ChartGrows(chart, chart') && DocumentsGrow(documents, documents') && BankLinesOk(chart, documents, lines)
    ensures BankLinesOk(chart', documents', lines)
    ensures Sum(lines, BankShare(chart', documents', a, c)) == Sum(lines, BankShare(chart, documents, a, c))
  {
    forall l | 0 <= l < |lines|
      ensures BankLineOk(chart', documents', lines[l])
      ensures BankShare(chart', documents', a, c)(lines[l]) == BankShare(chart, documents, a, c)(lines[l])
    {
      var line := lines[l];
      assert BankLineOk(chart, documents, line);
      if line.match_.ToDocument? {
        assert DocumentGrows(documents[line.match_.document], documents'[line.match_.document]);
      }
    }
    SumEqual(lines, lines, BankShare(chart', documents', a, c), BankShare(chart, documents, a, c));
  }
}
