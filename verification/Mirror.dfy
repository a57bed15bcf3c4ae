/** Calls one after the other against their transactions one after the other: each call commits exactly
    when its transaction does, and they leave the same values behind the locks. */
module Mirror {
  import opened Wrappers
  import opened Sums
  import opened Records
  import opened Numbering
  import opened Subledger
  import opened Invariants
  import opened Projection
  import P = Periods
  import J = Journal
  import D = Documents
  import Y = Payments
  import B = Banking
  import H = Theorems
  import O = Operations
  import T = Traffic
  import X = TwoPhase
  import N = Issuing

  // --- the transaction of a call ----------------------------------------------------------

  /** The calls whose transactions are followed. */
  predicate Followed(call: O.Call)
  {
    || call.ClosePeriod? || call.ReopenPeriod?
    || call.UpdateEntry? || call.VoidEntry? || call.PostEntry? || call.ReverseEntry?
    || call.UpdateDocument? || call.VoidDocument? || call.PostDocument? || call.CancelDocument? || call.VoidNote? || call.PostNote?
    || call.CreateAllocation? || call.ReverseAllocation? || call.ConfirmMatch? || call.AssignLine?
  }

  function JournalJob(db: Db, call: O.Call): Option<T.Job>
  {
    match call
    case ClosePeriod(p) => if p < |db.periods| then Some(T.Close(p)) else None
    case ReopenPeriod(p) => if p < |db.periods| then Some(T.Reopen(p)) else None
    case UpdateEntry(e, lines) =>
      if e < |db.entries| && J.ValidateLines(db.chart, lines).None? then Some(T.UpdateEntry(e, Balanced(lines))) else None
    case VoidEntry(e) => if e < |db.entries| then Some(T.VoidEntry(e)) else None
    case PostEntry(e) =>
      if e >= |db.entries| then None
      else
        var date := db.entries[e].date;
        var p := P.FindPeriod(db.periods, date);
        if p.None? then None else Some(T.PostEntry(e, p.value, date))
    case ReverseEntry(e, date) =>
      var p := P.FindPeriod(db.periods, date);
      if e >= |db.entries| || p.None? then None else Some(T.ReverseEntry(e, |db.entries|, p.value, date))
    case _ => None
  }

  function DocumentJob(db: Db, call: O.Call): Option<T.Job>
  {
    match call
    case VoidDocument(kind, d) => if D.FindDocument(db, kind, d).Success? then Some(T.VoidDocument(d)) else None
    case UpdateDocument(kind, d, inputs) =>
      var lines := D.ComputeLines(db.chart, inputs);
      if D.FindDocument(db, kind, d).Failure? || lines.Failure? then None
      else Some(T.UpdateDocument(d, D.Total(lines.value), Bookable(lines.value)))
    case PostDocument(kind, d) =>
      if D.FindDocument(db, kind, d).Failure? then None
      else
        var doc, e := db.documents[d], |db.entries|;
        var p := P.FindPeriod(db.periods, doc.date);
        if p.None? then None
        else if kind == Invoice then Some(T.PostInvoice(d, e, doc.total, p.value, doc.date))
        else Some(T.PostBill(d, e, doc.total, p.value, doc.date))
    case CancelDocument(kind, d, date) =>
      var p := P.FindPeriod(db.periods, date);
      if D.FindDocument(db, kind, d).Failure? || p.None? || db.documents[d].entry.None? then None
      else Some(T.CancelDocument(d, db.documents[d].entry.value, |db.entries|, p.value, date))
    case VoidNote(n) => if n < |db.notes| then Some(T.VoidNote(n)) else None
    case PostNote(n) =>
      if n >= |db.notes| || !Bookable(db.notes[n].lines) then None
      else
        var note := db.notes[n];
        var p := P.FindPeriod(db.periods, note.date);
        if p.None? then None else Some(T.PostNote(n, note.invoice, |db.entries|, p.value, note.date))
    case _ => None
  }

  function MoneyJob(db: Db, call: O.Call): Option<T.Job>
  {
    match call
    case CreateAllocation(p, kind, d, amount) =>
      if p < |db.payments| && D.FindDocument(db, kind, d).Success? then Some(T.Allocate(p, d, amount)) else None
    case ReverseAllocation(i) =>
      if i >= |db.allocations| || db.allocations[i].reverses.Some? then None
      else
        var a := db.allocations[i];
        Some(T.ReverseAllocation(i, a.payment, a.document, a.amount))
    case ConfirmMatch(l, kind, d) =>
      if l >= |db.bankLines| || D.FindDocument(db, kind, d).Failure? then None
      else
        var line := db.bankLines[l];
        var p := P.FindPeriod(db.periods, line.date);
        if p.None? || kind != (if line.amount > 0 then Invoice else Bill) then None
        else Some(T.ConfirmMatch(l, d, |db.payments|, |db.entries|, Abs(line.amount), p.value, line.date))
    case AssignLine(l, account) =>
      if l >= |db.bankLines| || account >= |db.chart.accounts| || !db.chart.accounts[account].active then None
      else
        var p := P.FindPeriod(db.periods, db.bankLines[l].date);
        if p.None? then None else Some(T.AssignLine(l, |db.entries|, p.value, db.bankLines[l].date))
    case _ => None
  }

  predicate InJournal(call: O.Call)
  {
    || call.ClosePeriod? || call.ReopenPeriod?
    || call.UpdateEntry? || call.VoidEntry? || call.PostEntry? || call.ReverseEntry?
  }

  predicate OnDocuments(call: O.Call)
  {
    call.UpdateDocument? || call.VoidDocument? || call.PostDocument? || call.CancelDocument? || call.VoidNote? || call.PostNote?
  }

  /** What the call looks up before it looks at anything another call may change: the rows it names,
      the period of its date, the lines it books. None if that already fails. */
  function JobOf(db: Db, call: O.Call): Option<T.Job>
  {
    if InJournal(call) then JournalJob(db, call) else if OnDocuments(call) then DocumentJob(db, call) else MoneyJob(db, call)
  }

  /** The service and its transaction agree: both commit, and to the same values, or both refuse. */
  ghost predicate Agree(db: Db, result: Result<Db, Error>, job: Option<T.Job>)
  {
    match job
    case None => result.Failure?
    case Some(job) => if result.Success? then Performs(db, result.value, job) else Refuses(db, job)
  }

  // --- journal ----------------------------------------------------------------------------------

  lemma FoundPeriod(db: Db, date: Date)
    ensures var found := P.FindPeriod(db.periods, date);
            && (found.None? ==> J.OpenPeriod(db.periods, date).Failure?)
            && (found.Some? ==> found.value < |db.periods| && P.Covers(db.periods[found.value], date)
                                && (db.periods[found.value].open ==> J.OpenPeriod(db.periods, date) == Success(found.value))
                                && (!db.periods[found.value].open ==> J.OpenPeriod(db.periods, date).Failure?))
  {
  }

  /** A post into a closed period is refused. */
  lemma ClosedPeriodRefuses(view: T.View, db: Db, e: Id, from: Option<EntryStatus>, to: EntryStatus, p: Id, date: Date)
    requires Sees(view, db, T.PeriodKey(p)) && p < |db.periods| && !db.periods[p].open
    ensures T.MovedEntry(view, e, from, to, p, date).None?
  {
  }

  lemma PostEntryAgrees(db: Db, e: Id)
    requires Inv(db)
    ensures Agree(db, J.PostEntry(db, e), JournalJob(db, O.PostEntry(e)))
  {
    if e < |db.entries| {
      var date := db.entries[e].date;
      var p := P.FindPeriod(db.periods, date);
      FoundPeriod(db, date);
      assert J.EntryOk(db.entries, db.periods, e);
      if J.PostEntry(db, e).Success? {
        PostEntryPerforms(db, e);
      } else if p.Some? {
        var view := Show(db, T.PostEntry(e, p.value, date));
        PostEntryRefused(view, db, e, p.value, date);
      }
    }
  }

  lemma PostEntryRefused(view: T.View, db: Db, e: Id, p: Id, date: Date)
    requires e < |db.entries| && p < |db.periods|
    requires Sees(view, db, T.EntryRow(e)) && Sees(view, db, T.EntryLines(e)) && Sees(view, db, T.PeriodKey(p))
    requires db.entries[e].status != EntryDraft || !Balanced(db.entries[e].lines) || !db.periods[p].open
    ensures T.Body(T.PostEntry(e, p, date), view).None?
  {
  }

  lemma ReverseEntryRefused(view: T.View, db: Db, e: Id, p: Id, date: Date)
    requires e < |db.entries| && p < |db.periods|
    requires Sees(view, db, T.EntryRow(e)) && Sees(view, db, T.PeriodKey(p))
    requires db.entries[e].status != EntryPosted || !db.periods[p].open
    ensures T.ReversedEntry(view, e, |db.entries|, p, date).None?
  {
  }

  lemma ReverseEntryRefuses(db: Db, e: Id, p: Id, date: Date)
    requires e < |db.entries| && p < |db.periods| && (db.entries[e].status != EntryPosted || !db.periods[p].open)
    ensures Refuses(db, T.ReverseEntry(e, |db.entries|, p, date))
  {
    var view := Show(db, T.ReverseEntry(e, |db.entries|, p, date));
    ReverseEntryRefused(view, db, e, p, date);
  }

  lemma ReverseEntryJob(db: Db, e: Id, date: Date, p: Id)
    requires e < |db.entries| && J.OpenPeriod(db.periods, date) == Success(p)
    ensures JournalJob(db, O.ReverseEntry(e, date)) == Some(T.ReverseEntry(e, |db.entries|, p, date))
  {
    FoundPeriod(db, date);
  }

  lemma ReverseEntryFails(db: Db, e: Id, date: Date)
    requires e < |db.entries| && J.ReverseEntry(db, e, date, true).Failure?
    ensures Agree(db, Failure(Invalid), JournalJob(db, O.ReverseEntry(e, date)))
  {
    FoundPeriod(db, date);
    var p := P.FindPeriod(db.periods, date);
    if p.Some? { ReverseEntryRefuses(db, e, p.value, date); }
  }

  lemma ReverseEntryAgrees(db: Db, e: Id, date: Date)
    requires P.PeriodsOk(db.periods)
    ensures Agree(db, J.ReverseEntry(db, e, date, true), JournalJob(db, O.ReverseEntry(e, date)))
  {
    if J.ReverseEntry(db, e, date, true).Success? {
      ReverseEntryPerforms(db, e, date, true);
      ReverseEntryJob(db, e, date, J.OpenPeriod(db.periods, date).value);
    } else if e < |db.entries| {
      ReverseEntryFails(db, e, date);
    }
  }

  lemma VoidEntryAgrees(db: Db, e: Id)
    ensures Agree(db, J.VoidEntry(db, e), JournalJob(db, O.VoidEntry(e)))
  {
    if J.VoidEntry(db, e).Success? {
      VoidEntryPerforms(db, e);
    } else if e < |db.entries| {
      var view := Show(db, T.VoidEntry(e));
    }
  }

  lemma UpdateEntryAgrees(db: Db, e: Id, lines: seq<JournalLine>)
    ensures Agree(db, J.UpdateEntry(db, e, lines), JournalJob(db, O.UpdateEntry(e, lines)))
  {
    if J.UpdateEntry(db, e, lines).Success? {
      UpdateEntryPerforms(db, e, lines);
    } else if e < |db.entries| && J.ValidateLines(db.chart, lines).None? {
      var view := Show(db, T.UpdateEntry(e, Balanced(lines)));
    }
  }

  lemma PeriodAgrees(db: Db, p: Id)
    ensures Agree(db, P.SetPeriod(db, p, false), JournalJob(db, O.ClosePeriod(p)))
    ensures Agree(db, P.SetPeriod(db, p, true), JournalJob(db, O.ReopenPeriod(p)))
  {
    if p < |db.periods| {
      if db.periods[p].open {
        SetPeriodPerforms(db, p, false);
        var view := Show(db, T.Reopen(p));
      } else {
        SetPeriodPerforms(db, p, true);
        var view := Show(db, T.Close(p));
      }
    }
  }

  lemma JournalAgrees(db: Db, call: O.Call)
    requires Inv(db) && InJournal(call)
    ensures Agree(db, O.Apply(db, call), JournalJob(db, call))
  {
    match call
    case ClosePeriod(p) => PeriodAgrees(db, p);
    case ReopenPeriod(p) => PeriodAgrees(db, p);
    case UpdateEntry(e, lines) => UpdateEntryAgrees(db, e, lines);
    case VoidEntry(e) => VoidEntryAgrees(db, e);
    case PostEntry(e) => PostEntryAgrees(db, e);
    case ReverseEntry(e, date) => ReverseEntryAgrees(db, e, date);
  }

  // --- documents -----------------------------------------------------------------------------------

  lemma InvoiceRefused(view: T.View, db: Db, d: Id, total: int, p: Id, date: Date)
    requires d < |db.documents| && p < |db.periods|
    requires Sees(view, db, T.DocumentRow(d)) && Sees(view, db, T.DocumentLines(d)) && Sees(view, db, T.PeriodKey(p))
    requires db.documents[d].status != DocDraft || !Bookable(db.documents[d].lines) || !db.periods[p].open
    ensures T.Body(T.PostInvoice(d, |db.entries|, total, p, date), view).None?
    ensures T.Body(T.PostBill(d, |db.entries|, total, p, date), view).None?
  {
    if !db.periods[p].open { ClosedPeriodRefuses(view, db, |db.entries|, None, EntryPosted, p, date); }
  }

  lemma PostDocumentCommits(db: Db, kind: DocumentKind, d: Id, result: Result<Db, Error>)
    requires Inv(db) && result == D.PostDocument(db, kind, d) && result.Success?
    requires d < |db.documents| && D.FindDocument(db, kind, d).Success? && Bookable(db.documents[d].lines)
    ensures Agree(db, result, DocumentJob(db, O.PostDocument(kind, d)))
  {
    FoundPeriod(db, db.documents[d].date);
    if kind == Invoice { var p := PostInvoicePerforms(db, d); } else { var p := PostBillPerforms(db, d); }
  }

  lemma PostDocumentFails(db: Db, kind: DocumentKind, d: Id, result: Result<Db, Error>)
    requires d < |db.documents| && D.FindDocument(db, kind, d).Success? && result.Failure?
    requires db.documents[d].status != DocDraft || !Bookable(db.documents[d].lines)
             || J.OpenPeriod(db.periods, db.documents[d].date).Failure?
    ensures Agree(db, result, DocumentJob(db, O.PostDocument(kind, d)))
  {
    var doc, job := db.documents[d], DocumentJob(db, O.PostDocument(kind, d));
    FoundPeriod(db, doc.date);
    if job.Some? {
      var view := Show(db, job.value);
      InvoiceRefused(view, db, d, doc.total, P.FindPeriod(db.periods, doc.date).value, doc.date);
    }
  }

  /** What is known of a document of a reachable state, and when it posts. */
  lemma DocumentFacts(db: Db, kind: DocumentKind, d: Id)
    requires Inv(db) && D.FindDocument(db, kind, d).Success?
    ensures d < |db.documents|
    ensures D.PostDocument(db, kind, d).Success?
       <==> && db.documents[d].status == DocDraft && Bookable(db.documents[d].lines)
            && J.OpenPeriod(db.periods, db.documents[d].date).Success?
  {
    assert DocumentOk(db.chart, db.entries, db.documents[d]);
    H.PostsExactlyWhen(db, kind, d);
  }

  lemma PostDocumentAgrees(db: Db, kind: DocumentKind, d: Id)
    requires Inv(db)
    ensures Agree(db, D.PostDocument(db, kind, d), DocumentJob(db, O.PostDocument(kind, d)))
  {
    if D.FindDocument(db, kind, d).Success? {
      DocumentFacts(db, kind, d);
      if D.PostDocument(db, kind, d).Success? {
        PostDocumentCommits(db, kind, d, D.PostDocument(db, kind, d));
      } else {
        PostDocumentFails(db, kind, d, D.PostDocument(db, kind, d));
      }
    }
  }

  lemma CancelRefused(view: T.View, db: Db, d: Id, e: Id, p: Id, date: Date)
    requires d < |db.documents| && e < |db.entries| && p < |db.periods|
    requires Sees(view, db, T.DocumentRow(d)) && Sees(view, db, T.EntryRow(e)) && Sees(view, db, T.PeriodKey(p))
    requires db.documents[d].status != DocPosted || db.entries[e].status != EntryPosted || !db.periods[p].open
    ensures T.Body(T.CancelDocument(d, e, |db.entries|, p, date), view).None?
  {
    if db.documents[d].status == DocPosted { ReverseEntryRefused(view, db, e, p, date); }
  }

  lemma CancelRefuses(db: Db, d: Id, e: Id, p: Id, date: Date)
    requires d < |db.documents| && e < |db.entries| && p < |db.periods|
    requires db.documents[d].status != DocPosted || db.entries[e].status != EntryPosted || !db.periods[p].open
    ensures Refuses(db, T.CancelDocument(d, e, |db.entries|, p, date))
  {
    var view := Show(db, T.CancelDocument(d, e, |db.entries|, p, date));
    CancelRefused(view, db, d, e, p, date);
  }

  lemma CancelAgrees(db: Db, kind: DocumentKind, d: Id, date: Date)
    requires P.PeriodsOk(db.periods)
    requires d < |db.documents| ==> DocumentOk(db.chart, db.entries, db.documents[d])
    ensures Agree(db, D.CancelDocument(db, kind, d, date), DocumentJob(db, O.CancelDocument(kind, d, date)))
  {
    FoundPeriod(db, date);
    if D.CancelDocument(db, kind, d, date).Success? {
      var e, p := CancelDocumentPerforms(db, kind, d, date);
    } else if DocumentJob(db, O.CancelDocument(kind, d, date)).Some? {
      CancelRefuses(db, d, db.documents[d].entry.value, P.FindPeriod(db.periods, date).value, date);
    }
  }

  lemma NoteRefused(view: T.View, db: Db, n: Id, d: Id, p: Id, date: Date)
    requires n < |db.notes| && d < |db.documents| && p < |db.periods|
    requires Sees(view, db, T.NoteRow(n)) && Sees(view, db, T.DocumentRow(d)) && Sees(view, db, T.PeriodKey(p))
    requires db.notes[n].status != DocDraft || db.documents[d].status != DocPosted || !db.periods[p].open
    ensures T.Body(T.PostNote(n, d, |db.entries|, p, date), view).None?
  {
    if !db.periods[p].open { ClosedPeriodRefuses(view, db, |db.entries|, None, EntryPosted, p, date); }
  }

  lemma PostNoteRefuses(db: Db, n: Id)
    requires n < |db.notes| && db.notes[n].invoice < |db.documents| && DocumentJob(db, O.PostNote(n)).Some?
    requires db.notes[n].status != DocDraft || db.documents[db.notes[n].invoice].status != DocPosted
             || J.OpenPeriod(db.periods, db.notes[n].date).Failure?
    ensures Refuses(db, DocumentJob(db, O.PostNote(n)).value)
  {
    var note := db.notes[n];
    FoundPeriod(db, note.date);
    var view := Show(db, DocumentJob(db, O.PostNote(n)).value);
    NoteRefused(view, db, n, note.invoice, P.FindPeriod(db.periods, note.date).value, note.date);
  }

  lemma PostNoteJob(db: Db, n: Id, p: Id)
    requires n < |db.notes| && Bookable(db.notes[n].lines) && J.OpenPeriod(db.periods, db.notes[n].date) == Success(p)
    ensures DocumentJob(db, O.PostNote(n))
         == Some(T.PostNote(n, db.notes[n].invoice, |db.entries|, p, db.notes[n].date))
  {
    FoundPeriod(db, db.notes[n].date);
  }

  /** What is known of a note of a reachable state, and when it posts. */
  lemma NoteFacts(db: Db, n: Id)
    requires Inv(db) && n < |db.notes|
    ensures db.notes[n].invoice < |db.documents| && db.notes[n].total == D.Total(db.notes[n].lines)
    ensures D.PostNote(db, n).Success?
       <==> && db.notes[n].status == DocDraft && db.documents[db.notes[n].invoice].status == DocPosted
            && Bookable(db.notes[n].lines) && J.OpenPeriod(db.periods, db.notes[n].date).Success?
  {
    assert NoteOk(db.chart, db.documents, db.notes[n]);
    H.NotePostsExactlyWhen(db, n);
  }

  lemma PostNoteCommits(db: Db, n: Id, result: Result<Db, Error>)
    requires Inv(db) && result == D.PostNote(db, n) && result.Success?
    ensures Agree(db, result, DocumentJob(db, O.PostNote(n)))
  {
    var p := PostNotePerforms(db, n);
    NoteFacts(db, n);
    PostNoteJob(db, n, p);
  }

  lemma PostNoteFails(db: Db, n: Id, result: Result<Db, Error>)
    requires n < |db.notes| && db.notes[n].invoice < |db.documents| && result.Failure?
    requires db.notes[n].status != DocDraft || db.documents[db.notes[n].invoice].status != DocPosted
             || !Bookable(db.notes[n].lines) || J.OpenPeriod(db.periods, db.notes[n].date).Failure?
    ensures Agree(db, result, DocumentJob(db, O.PostNote(n)))
  {
    if DocumentJob(db, O.PostNote(n)).Some? { PostNoteRefuses(db, n); }
  }

  lemma PostNoteAgrees(db: Db, n: Id)
    requires Inv(db)
    ensures Agree(db, D.PostNote(db, n), DocumentJob(db, O.PostNote(n)))
  {
    if D.PostNote(db, n).Success? {
      PostNoteCommits(db, n, D.PostNote(db, n));
    } else if n < |db.notes| {
      NoteFacts(db, n);
      PostNoteFails(db, n, D.PostNote(db, n));
    }
  }

  lemma UpdateDocumentRefuses(db: Db, d: Id, total: int, bookable: bool)
    requires d < |db.documents| && db.documents[d].status != DocDraft
    ensures Refuses(db, T.UpdateDocument(d, total, bookable))
  {
    var view := Show(db, T.UpdateDocument(d, total, bookable));
    assert Sees(view, db, T.DocumentRow(d));
  }

  lemma UpdateDocumentAgrees(db: Db, kind: DocumentKind, d: Id, inputs: seq<D.LineInput>)
    ensures Agree(db, D.UpdateDocument(db, kind, d, inputs), DocumentJob(db, O.UpdateDocument(kind, d, inputs)))
  {
    var lines := D.ComputeLines(db.chart, inputs);
    if D.UpdateDocument(db, kind, d, inputs).Success? {
      UpdateDocumentPerforms(db, kind, d, inputs);
    } else if D.FindDocument(db, kind, d).Success? && lines.Success? {
      UpdateDocumentRefuses(db, d, D.Total(lines.value), Bookable(lines.value));
    }
  }

  lemma VoidDocumentAgrees(db: Db, kind: DocumentKind, d: Id)
    ensures Agree(db, D.VoidDocument(db, kind, d), DocumentJob(db, O.VoidDocument(kind, d)))
  {
    if D.VoidDocument(db, kind, d).Success? {
      VoidDocumentPerforms(db, kind, d);
    } else if D.FindDocument(db, kind, d).Success? {
      var view := Show(db, T.VoidDocument(d));
      assert Sees(view, db, T.DocumentRow(d));
    }
  }

  lemma VoidNoteAgrees(db: Db, n: Id)
    ensures Agree(db, D.VoidNote(db, n), DocumentJob(db, O.VoidNote(n)))
  {
    if D.VoidNote(db, n).Success? {
      VoidNotePerforms(db, n);
    } else if n < |db.notes| {
      var view := Show(db, T.VoidNote(n));
      assert Sees(view, db, T.NoteRow(n));
    }
  }

  lemma DocumentAgrees(db: Db, call: O.Call)
    requires Inv(db) && OnDocuments(call)
    ensures Agree(db, O.Apply(db, call), DocumentJob(db, call))
  {
    match call
    case UpdateDocument(kind, d, inputs) => UpdateDocumentAgrees(db, kind, d, inputs);
    case VoidDocument(kind, d) => VoidDocumentAgrees(db, kind, d);
    case PostDocument(kind, d) => PostDocumentAgrees(db, kind, d);
    case CancelDocument(kind, d, date) => CancelAgrees(db, kind, d, date);
    case VoidNote(n) => VoidNoteAgrees(db, n);
    case PostNote(n) => PostNoteAgrees(db, n);
  }

  // --- money -----------------------------------------------------------------------------------------

  lemma AllocateRefused(view: T.View, db: Db, p: Id, d: Id, amount: int)
    requires p < |db.payments| && d < |db.documents|
    requires Sees(view, db, T.PaymentKey(p)) && Sees(view, db, T.DocumentKey(d)) && Sees(view, db, T.DocumentRow(d))
    requires amount <= 0 || amount > db.payments[p].unallocated || db.documents[d].status != DocPosted
             || amount > db.documents[d].outstanding
    ensures T.Body(T.Allocate(p, d, amount), view).None?
  {
  }

  lemma AllocateRefuses(db: Db, p: Id, d: Id, amount: int)
    requires p < |db.payments| && d < |db.documents|
    requires amount <= 0 || amount > db.payments[p].unallocated || db.documents[d].status != DocPosted
             || amount > db.documents[d].outstanding
    ensures Refuses(db, T.Allocate(p, d, amount))
  {
    var view := Show(db, T.Allocate(p, d, amount));
    AllocateRefused(view, db, p, d, amount);
  }

  lemma AllocateAgrees(db: Db, p: Id, kind: DocumentKind, d: Id, amount: int)
    requires Y.AllocationsOk(db.documents, db.payments, db.allocations)
    ensures Agree(db, Y.CreateAllocation(db, p, kind, d, amount), MoneyJob(db, O.CreateAllocation(p, kind, d, amount)))
  {
    if Y.CreateAllocation(db, p, kind, d, amount).Success? {
      CreateAllocationPerforms(db, p, kind, d, amount);
    } else if p < |db.payments| && D.FindDocument(db, kind, d).Success? {
      AllocateRefuses(db, p, d, amount);
    }
  }

  lemma ReversalRefused(view: T.View, db: Db, i: Id, p: Id, d: Id, amount: int)
    requires Sees(view, db, T.AllocationRow(i)) && Sees(view, db, T.PaymentKey(p)) && p < |db.payments|
    requires Y.IsReversed(db.allocations, i) || db.payments[p].unallocated + amount > db.payments[p].amount
    ensures T.Body(T.ReverseAllocation(i, p, d, amount), view).None?
  {
  }

  lemma ReversalRefuses(db: Db, i: Id)
    requires Y.AllocationsOk(db.documents, db.payments, db.allocations)
    requires i < |db.allocations| && db.allocations[i].reverses.None? && Y.ReverseAllocation(db, i).Failure?
    ensures var a := db.allocations[i]; Refuses(db, T.ReverseAllocation(i, a.payment, a.document, a.amount))
  {
    var a := db.allocations[i];
    assert Y.ReferencesOk(db.documents, db.payments, a);
    var view := Show(db, T.ReverseAllocation(i, a.payment, a.document, a.amount));
    ReversalRefused(view, db, i, a.payment, a.document, a.amount);
  }

  lemma ReversalAgrees(db: Db, i: Id)
    requires Y.AllocationsOk(db.documents, db.payments, db.allocations)
    ensures Agree(db, Y.ReverseAllocation(db, i), MoneyJob(db, O.ReverseAllocation(i)))
  {
    if Y.ReverseAllocation(db, i).Success? {
      ReverseAllocationPerforms(db, i);
    } else if i < |db.allocations| && db.allocations[i].reverses.None? {
      ReversalRefuses(db, i);
    }
  }

  lemma MatchRefused(view: T.View, db: Db, l: Id, d: Id, amount: int, p: Id, date: Date)
    requires l < |db.bankLines| && d < |db.documents| && p < |db.periods|
    requires Sees(view, db, T.LineRow(l)) && Sees(view, db, T.DocumentKey(d)) && Sees(view, db, T.DocumentRow(d))
    requires Sees(view, db, T.PeriodKey(p))
    requires db.bankLines[l].match_ != Unmatched || db.documents[d].status != DocPosted
             || db.documents[d].outstanding != amount || !db.periods[p].open
    ensures T.Body(T.ConfirmMatch(l, d, |db.payments|, |db.entries|, amount, p, date), view).None?
  {
    if !db.periods[p].open { ClosedPeriodRefuses(view, db, |db.entries|, None, EntryPosted, p, date); }
  }

  lemma MatchRefuses(db: Db, l: Id, d: Id, amount: int, p: Id, date: Date)
    requires l < |db.bankLines| && d < |db.documents| && p < |db.periods|
    requires db.bankLines[l].match_ != Unmatched || db.documents[d].status != DocPosted
             || db.documents[d].outstanding != amount || !db.periods[p].open
    ensures Refuses(db, T.ConfirmMatch(l, d, |db.payments|, |db.entries|, amount, p, date))
  {
    var view := Show(db, T.ConfirmMatch(l, d, |db.payments|, |db.entries|, amount, p, date));
    MatchRefused(view, db, l, d, amount, p, date);
  }

  lemma ConfirmFails(db: Db, l: Id, kind: DocumentKind, d: Id)
    requires TablesOk(db) && l < |db.bankLines| && D.FindDocument(db, kind, d).Success? && B.ConfirmMatch(db, l, kind, d).Failure?
    ensures Agree(db, Failure(Invalid), MoneyJob(db, O.ConfirmMatch(l, kind, d)))
  {
    var line := db.bankLines[l];
    H.ConfirmsExactlyWhen(db, l, kind, d);
    FoundPeriod(db, line.date);
    if MoneyJob(db, O.ConfirmMatch(l, kind, d)).Some? {
      MatchRefuses(db, l, d, Abs(line.amount), P.FindPeriod(db.periods, line.date).value, line.date);
    }
  }

  lemma MatchJob(db: Db, l: Id, kind: DocumentKind, d: Id, p: Id)
    requires l < |db.bankLines| && D.FindDocument(db, kind, d).Success?
    requires kind == (if db.bankLines[l].amount > 0 then Invoice else Bill)
    requires J.OpenPeriod(db.periods, db.bankLines[l].date) == Success(p)
    ensures var line := db.bankLines[l];
            MoneyJob(db, O.ConfirmMatch(l, kind, d))
            == Some(T.ConfirmMatch(l, d, |db.payments|, |db.entries|, Abs(line.amount), p, line.date))
  {
    FoundPeriod(db, db.bankLines[l].date);
  }

  lemma ConfirmCommits(db: Db, l: Id, kind: DocumentKind, d: Id, result: Result<Db, Error>)
    requires Inv(db) && l < |db.bankLines| && D.FindDocument(db, kind, d).Success?
    requires result == B.ConfirmMatch(db, l, kind, d) && result.Success?
    ensures Agree(db, result, MoneyJob(db, O.ConfirmMatch(l, kind, d)))
  {
    var p := ConfirmMatchPerforms(db, l, kind, d);
    H.ConfirmsExactlyWhen(db, l, kind, d);
    MatchJob(db, l, kind, d, p);
  }

  lemma ConfirmAgrees(db: Db, l: Id, kind: DocumentKind, d: Id)
    requires Inv(db)
    ensures Agree(db, B.ConfirmMatch(db, l, kind, d), MoneyJob(db, O.ConfirmMatch(l, kind, d)))
  {
    if l < |db.bankLines| && D.FindDocument(db, kind, d).Success? {
      if B.ConfirmMatch(db, l, kind, d).Success? {
        ConfirmCommits(db, l, kind, d, B.ConfirmMatch(db, l, kind, d));
      } else {
        ConfirmFails(db, l, kind, d);
      }
    }
  }

  lemma LineRefused(view: T.View, db: Db, l: Id, p: Id, date: Date)
    requires l < |db.bankLines| && p < |db.periods|
    requires Sees(view, db, T.LineRow(l)) && Sees(view, db, T.PeriodKey(p))
    requires db.bankLines[l].match_ != Unmatched || !db.periods[p].open
    ensures T.Body(T.AssignLine(l, |db.entries|, p, date), view).None?
  {
    if !db.periods[p].open { ClosedPeriodRefuses(view, db, |db.entries|, None, EntryPosted, p, date); }
  }

  lemma LineRefuses(db: Db, l: Id, p: Id, date: Date)
    requires l < |db.bankLines| && p < |db.periods| && (db.bankLines[l].match_ != Unmatched || !db.periods[p].open)
    ensures Refuses(db, T.AssignLine(l, |db.entries|, p, date))
  {
    var view := Show(db, T.AssignLine(l, |db.entries|, p, date));
    LineRefused(view, db, l, p, date);
  }

  lemma AssignFails(db: Db, l: Id, account: Id)
    requires TablesOk(db) && l < |db.bankLines| && B.AssignLine(db, l, account).Failure?
    ensures Agree(db, Failure(Invalid), MoneyJob(db, O.AssignLine(l, account)))
  {
    var date := db.bankLines[l].date;
    H.AssignsExactlyWhen(db, l, account);
    FoundPeriod(db, date);
    if MoneyJob(db, O.AssignLine(l, account)).Some? {
      LineRefuses(db, l, P.FindPeriod(db.periods, date).value, date);
    }
  }

  lemma AssignJob(db: Db, l: Id, account: Id, p: Id)
    requires l < |db.bankLines| && account < |db.chart.accounts| && db.chart.accounts[account].active
    requires J.OpenPeriod(db.periods, db.bankLines[l].date) == Success(p)
    ensures MoneyJob(db, O.AssignLine(l, account)) == Some(T.AssignLine(l, |db.entries|, p, db.bankLines[l].date))
  {
    FoundPeriod(db, db.bankLines[l].date);
  }

  lemma AssignCommits(db: Db, l: Id, account: Id, result: Result<Db, Error>)
    requires Inv(db) && l < |db.bankLines| && result == B.AssignLine(db, l, account) && result.Success?
    ensures Agree(db, result, MoneyJob(db, O.AssignLine(l, account)))
  {
    var p := AssignLinePerforms(db, l, account);
    H.AssignsExactlyWhen(db, l, account);
    AssignJob(db, l, account, p);
  }

  lemma AssignAgrees(db: Db, l: Id, account: Id)
    requires Inv(db)
    ensures Agree(db, B.AssignLine(db, l, account), MoneyJob(db, O.AssignLine(l, account)))
  {
    if l < |db.bankLines| {
      if B.AssignLine(db, l, account).Success? {
        AssignCommits(db, l, account, B.AssignLine(db, l, account));
      } else {
        AssignFails(db, l, account);
      }
    }
  }

  lemma MoneyAgrees(db: Db, call: O.Call)
    requires Inv(db) && Followed(call) && !InJournal(call) && !OnDocuments(call)
    ensures Agree(db, O.Apply(db, call), MoneyJob(db, call))
  {
    match call
    case CreateAllocation(p, kind, d, amount) => AllocateAgrees(db, p, kind, d, amount);
    case ReverseAllocation(i) => ReversalAgrees(db, i);
    case ConfirmMatch(l, kind, d) => ConfirmAgrees(db, l, kind, d);
    case AssignLine(l, account) => AssignAgrees(db, l, account);
  }

  /** In a reachable state each call and its transaction agree: where the lookups fail the call is
      refused; otherwise the transaction commits exactly when the call does, and then writes what
      becomes of the tables. */
  lemma {:induction false} CallsAgree(db: Db, call: O.Call)
    requires Inv(db) && Followed(call)
    ensures Agree(db, O.Apply(db, call), JobOf(db, call))
  {
    if InJournal(call) {
      JournalAgrees(db, call);
    } else if OnDocuments(call) {
      DocumentAgrees(db, call);
    } else {
      MoneyAgrees(db, call);
    }
  }

  // --- a period's log changes nothing -----------------------------------------------------------

  predicate SameView(a: T.View, b: T.View)
  {
    a.Keys == b.Keys && forall k :: k in a ==> Same(a[k], b[k])
  }

  predicate SameResult(a: Option<T.View>, b: Option<T.View>)
  {
    a.Some? == b.Some? && (a.Some? ==> SameView(a.value, b.value))
  }

  lemma MergeSame(a: Option<T.View>, b: Option<T.View>, c: Option<T.View>, d: Option<T.View>)
    requires SameResult(a, b) && SameResult(c, d)
    ensures SameResult(T.Merge(a, c), T.Merge(b, d))
  {
  }

  lemma PeriodSame(a: T.View, b: T.View, period: Id, date: Date, open: bool)
    requires SameView(a, b)
    ensures SameResult(T.LogPost(a, period, date), T.LogPost(b, period, date))
    ensures SameResult(T.SetOpen(a, period, open), T.SetOpen(b, period, open))
  {
  }

  lemma EntrySame(a: T.View, b: T.View, e: Id, from: Option<EntryStatus>, to: EntryStatus, balanced: bool)
    requires SameView(a, b)
    ensures SameResult(T.MoveEntry(a, e, from, to), T.MoveEntry(b, e, from, to))
    ensures SameResult(T.Replace(a, e, balanced), T.Replace(b, e, balanced))
  {
  }

  lemma RowSame(a: T.View, b: T.View, lock: T.Lock, from: DocumentStatus, to: DocumentStatus, number: Option<nat>, l: Id, i: Id)
    requires SameView(a, b)
    ensures SameResult(T.MoveDocument(a, lock, from, to, number), T.MoveDocument(b, lock, from, to, number))
    ensures SameResult(T.BookLine(a, l), T.BookLine(b, l)) && SameResult(T.Mark(a, i), T.Mark(b, i))
  {
  }

  lemma BalanceSame(a: T.View, b: T.View, p: Id, d: Id, amount: int)
    requires SameView(a, b)
    ensures SameResult(T.Owe(a, d, amount), T.Owe(b, d, amount))
    ensures SameResult(T.PayOff(a, d, p, amount), T.PayOff(b, d, p, amount)) && T.IsPosted(a, d) == T.IsPosted(b, d)
  {
  }

  lemma TakeSame(a: T.View, b: T.View, p: Id, d: Id, amount: int)
    requires SameView(a, b)
    ensures SameResult(T.TakeBoth(a, p, d, amount), T.TakeBoth(b, p, d, amount))
  {
    assert SameResult(T.Take(a, T.PaymentKey(p), amount), T.Take(b, T.PaymentKey(p), amount));
    assert SameResult(T.Take(a, T.DocumentKey(d), amount), T.Take(b, T.DocumentKey(d), amount));
    MergeSame(T.Take(a, T.PaymentKey(p), amount), T.Take(b, T.PaymentKey(p), amount),
              T.Take(a, T.DocumentKey(d), amount), T.Take(b, T.DocumentKey(d), amount));
  }

  lemma NumberedSame(a: T.View, b: T.View, row: T.Lock, key: T.Lock)
    requires SameView(a, b)
    ensures SameResult(T.Numbered(a, row, key), T.Numbered(b, row, key))
  {
    assert T.NextNumber(a, key) == T.NextNumber(b, key);
    assert SameResult(T.AssignNumber(a, key), T.AssignNumber(b, key));
    RowSame(a, b, row, DocDraft, DocPosted, T.NextNumber(a, key), 0, 0);
    MergeSame(T.MoveDocument(a, row, DocDraft, DocPosted, T.NextNumber(a, key)),
              T.MoveDocument(b, row, DocDraft, DocPosted, T.NextNumber(b, key)), T.AssignNumber(a, key), T.AssignNumber(b, key));
  }

  lemma MovedSame(a: T.View, b: T.View, e: Id, from: Option<EntryStatus>, to: EntryStatus, period: Id, date: Date)
    requires SameView(a, b)
    ensures SameResult(T.MovedEntry(a, e, from, to, period, date), T.MovedEntry(b, e, from, to, period, date))
  {
    EntrySame(a, b, e, from, to, true);
    PeriodSame(a, b, period, date, true);
    MergeSame(T.MoveEntry(a, e, from, to), T.MoveEntry(b, e, from, to), T.LogPost(a, period, date), T.LogPost(b, period, date));
  }

  lemma LinesSame(a: T.View, b: T.View, e: Id, r: Id, d: Id, total: int, bookable: bool)
    requires SameView(a, b)
    ensures SameResult(T.MirrorLines(a, e, r), T.MirrorLines(b, e, r))
    ensures SameResult(T.Rewrite(a, d, total, bookable), T.Rewrite(b, d, total, bookable))
    ensures T.ComesTo(a, d, total) == T.ComesTo(b, d, total)
  {
  }

  lemma ReversedSame(a: T.View, b: T.View, e: Id, r: Id, period: Id, date: Date)
    requires SameView(a, b)
    ensures SameResult(T.ReversedEntry(a, e, r, period, date), T.ReversedEntry(b, e, r, period, date))
  {
    EntrySame(a, b, e, Some(EntryPosted), EntryReversed, true);
    MovedSame(a, b, r, None, EntryPosted, period, date);
    MergeSame(T.MoveEntry(a, e, Some(EntryPosted), EntryReversed), T.MoveEntry(b, e, Some(EntryPosted), EntryReversed),
              T.MovedEntry(a, r, None, EntryPosted, period, date), T.MovedEntry(b, r, None, EntryPosted, period, date));
    LinesSame(a, b, e, r, 0, 0, true);
    MergeSame(T.ReversedRows(a, e, r, period, date), T.ReversedRows(b, e, r, period, date),
              T.MirrorLines(a, e, r), T.MirrorLines(b, e, r));
  }

  lemma InvoiceSame(a: T.View, b: T.View, d: Id, e: Id, total: int, period: Id, date: Date)
    requires SameView(a, b)
    ensures SameResult(T.BookInvoice(a, d, e, total, period, date), T.BookInvoice(b, d, e, total, period, date))
  {
    var m, n := T.Numbered(a, T.DocumentRow(d), T.InvoiceNumberKey), T.Numbered(b, T.DocumentRow(d), T.InvoiceNumberKey);
    MovedSame(a, b, e, None, EntryPosted, period, date);
    NumberedSame(a, b, T.DocumentRow(d), T.InvoiceNumberKey);
    BalanceSame(a, b, 0, d, total);
    MergeSame(m, n, T.Owe(a, d, total), T.Owe(b, d, total));
    MergeSame(T.Merge(m, T.Owe(a, d, total)), T.Merge(n, T.Owe(b, d, total)),
              T.MovedEntry(a, e, None, EntryPosted, period, date), T.MovedEntry(b, e, None, EntryPosted, period, date));
  }

  lemma BillSame(a: T.View, b: T.View, d: Id, e: Id, total: int, period: Id, date: Date)
    requires SameView(a, b)
    ensures SameResult(T.BookBill(a, d, e, total, period, date), T.BookBill(b, d, e, total, period, date))
  {
    var m := T.MoveDocument(a, T.DocumentRow(d), DocDraft, DocPosted, None);
    var n := T.MoveDocument(b, T.DocumentRow(d), DocDraft, DocPosted, None);
    MovedSame(a, b, e, None, EntryPosted, period, date);
    RowSame(a, b, T.DocumentRow(d), DocDraft, DocPosted, None, 0, 0);
    BalanceSame(a, b, 0, d, total);
    MergeSame(m, n, T.Owe(a, d, total), T.Owe(b, d, total));
    MergeSame(T.Merge(m, T.Owe(a, d, total)), T.Merge(n, T.Owe(b, d, total)),
              T.MovedEntry(a, e, None, EntryPosted, period, date), T.MovedEntry(b, e, None, EntryPosted, period, date));
  }

  lemma NoteSame(a: T.View, b: T.View, job: T.Job)
    requires SameView(a, b) && job.PostNote?
    ensures SameResult(T.Body(job, a), T.Body(job, b))
  {
    MovedSame(a, b, job.e, None, EntryPosted, job.period, job.date);
    NumberedSame(a, b, T.NoteRow(job.n), T.NoteNumberKey);
    BalanceSame(a, b, 0, job.d, 0);
    MergeSame(T.Numbered(a, T.NoteRow(job.n), T.NoteNumberKey), T.Numbered(b, T.NoteRow(job.n), T.NoteNumberKey),
              T.MovedEntry(a, job.e, None, EntryPosted, job.period, job.date),
              T.MovedEntry(b, job.e, None, EntryPosted, job.period, job.date));
  }

  lemma PostingSame(a: T.View, b: T.View, job: T.Job)
    requires SameView(a, b) && (job.PostInvoice? || job.PostBill? || job.PostNote?)
    ensures SameResult(T.Body(job, a), T.Body(job, b))
  {
    match job
    case PostInvoice(d, e, total, period, date) =>
      LinesSame(a, b, 0, 0, d, total, true);
      InvoiceSame(a, b, d, e, total, period, date);
    case PostBill(d, e, total, period, date) =>
      LinesSame(a, b, 0, 0, d, total, true);
      BillSame(a, b, d, e, total, period, date);
    case PostNote(_, _, _, _, _) => NoteSame(a, b, job);
  }

  lemma LineSame(a: T.View, b: T.View, job: T.Job)
    requires SameView(a, b) && T.BooksLine(job)
    ensures SameResult(T.Body(job, a), T.Body(job, b))
  {
    var x := T.MovedEntry(a, job.e, None, EntryPosted, job.period, job.date);
    var y := T.MovedEntry(b, job.e, None, EntryPosted, job.period, job.date);
    MovedSame(a, b, job.e, None, EntryPosted, job.period, job.date);
    RowSame(a, b, T.LineRow(job.l), DocDraft, DocPosted, None, job.l, 0);
    match job
    case AssignLine(l, _, _, _) => MergeSame(T.BookLine(a, l), T.BookLine(b, l), x, y);
    case ConfirmMatch(l, d, p, _, amount, _, _) =>
      BalanceSame(a, b, p, d, amount);
      MergeSame(T.BookLine(a, l), T.BookLine(b, l), T.PayOff(a, d, p, amount), T.PayOff(b, d, p, amount));
      MergeSame(T.Merge(T.BookLine(a, l), T.PayOff(a, d, p, amount)), T.Merge(T.BookLine(b, l), T.PayOff(b, d, p, amount)), x, y);
  }

  lemma CancelSame(a: T.View, b: T.View, job: T.Job)
    requires SameView(a, b) && job.CancelDocument?
    ensures SameResult(T.Body(job, a), T.Body(job, b))
  {
    var m := T.MoveDocument(a, T.DocumentRow(job.d), DocPosted, DocCancelled, None);
    var n := T.MoveDocument(b, T.DocumentRow(job.d), DocPosted, DocCancelled, None);
    RowSame(a, b, T.DocumentRow(job.d), DocPosted, DocCancelled, None, 0, 0);
    BalanceSame(a, b, 0, job.d, 0);
    ReversedSame(a, b, job.e, job.r, job.period, job.date);
    MergeSame(m, n, T.Owe(a, job.d, 0), T.Owe(b, job.d, 0));
    MergeSame(T.Merge(m, T.Owe(a, job.d, 0)), T.Merge(n, T.Owe(b, job.d, 0)),
              T.ReversedEntry(a, job.e, job.r, job.period, job.date), T.ReversedEntry(b, job.e, job.r, job.period, job.date));
  }

  lemma MarkedSame(a: T.View, b: T.View, i: Id, x: Option<T.View>, y: Option<T.View>)
    requires SameView(a, b) && SameResult(x, y)
    ensures SameResult(T.Merge(T.Mark(a, i), x), T.Merge(T.Mark(b, i), y))
  {
    RowSame(a, b, T.AllocationRow(i), DocDraft, DocPosted, None, 0, i);
    MergeSame(T.Mark(a, i), T.Mark(b, i), x, y);
  }

  lemma BackSame(a: T.View, b: T.View, i: Id, p: Id, d: Id, amount: int, x: Option<T.View>, y: Option<T.View>)
    requires x == T.TakeBoth(a, p, d, -amount) && y == T.TakeBoth(b, p, d, -amount)
    requires SameResult(T.Merge(T.Mark(a, i), x), T.Merge(T.Mark(b, i), y))
    ensures SameResult(T.GiveBack(a, i, p, d, amount), T.GiveBack(b, i, p, d, amount))
  {
    if amount > 0 {
      assert T.GiveBack(a, i, p, d, amount) == T.Merge(T.Mark(a, i), x);
      assert T.GiveBack(b, i, p, d, amount) == T.Merge(T.Mark(b, i), y);
    }
  }

  lemma ReversalSame(a: T.View, b: T.View, i: Id, p: Id, d: Id, amount: int)
    requires SameView(a, b)
    ensures SameResult(T.GiveBack(a, i, p, d, amount), T.GiveBack(b, i, p, d, amount))
  {
    var x, y := T.TakeBoth(a, p, d, -amount), T.TakeBoth(b, p, d, -amount);
    assert SameResult(x, y) by { TakeSame(a, b, p, d, -amount); }
    assert SameResult(T.Merge(T.Mark(a, i), x), T.Merge(T.Mark(b, i), y)) by { MarkedSame(a, b, i, x, y); }
    BackSame(a, b, i, p, d, amount, x, y);
  }

  /** What a transaction does depends on a period's dates and on whether it is open, not on its past. */
  lemma {:induction false} BodyIgnoresLog(a: T.View, b: T.View, job: T.Job)
    requires SameView(a, b)
    ensures SameResult(T.Body(job, a), T.Body(job, b))
  {
    if job.PostInvoice? || job.PostBill? || job.PostNote? {
      PostingSame(a, b, job);
    } else if T.BooksLine(job) {
      LineSame(a, b, job);
    } else if job.CancelDocument? {
      CancelSame(a, b, job);
    } else {
      match job
      case Allocate(p, d, amount) => TakeSame(a, b, p, d, amount); BalanceSame(a, b, p, d, amount);
      case PostEntry(e, period, date) => MovedSame(a, b, e, Some(EntryDraft), EntryPosted, period, date);
      case ReverseEntry(e, r, period, date) => ReversedSame(a, b, e, r, period, date);
      case VoidEntry(e) => EntrySame(a, b, e, Some(EntryDraft), EntryVoided, true);
      case UpdateEntry(e, balanced) => EntrySame(a, b, e, None, EntryVoided, balanced);
      case UpdateDocument(d, total, bookable) => LinesSame(a, b, 0, 0, d, total, bookable);
      case VoidDocument(d) => RowSame(a, b, T.DocumentRow(d), DocDraft, DocVoided, None, 0, 0);
      case VoidNote(n) => RowSame(a, b, T.NoteRow(n), DocDraft, DocVoided, None, 0, 0);
      case Close(period) => PeriodSame(a, b, period, 0, false);
      case Reopen(period) => PeriodSame(a, b, period, 0, true);
      case ReverseAllocation(i, p, d, amount) => ReversalSame(a, b, i, p, d, amount);
    }
  }

  // --- runs -----------------------------------------------------------------------------------------

  function Cells(db: Db, keys: set<T.Lock>): map<T.Lock, T.Cell> { map k | k in keys :: CellOf(db, k) }

  /** The store says what the tables say. */
  ghost predicate Tells(store: map<T.Lock, T.Cell>, db: Db)
  {
    forall k :: k in store ==> Same(store[k], CellOf(db, k))
  }

  /** The transaction of the call run alone; refused, it changes nothing. */
  function After(text: Id -> string, store: map<T.Lock, T.Cell>, job: Option<T.Job>): map<T.Lock, T.Cell>
  {
    if job.None? then store
    else
      var after := X.Execute(store, T.TxnOf(text, job.value));
      if after.Some? then after.value else store
  }

  /** The transactions of the calls of a run, each looked up in the state of its call, one after the other. */
  function Transacted(text: Id -> string, store: map<T.Lock, T.Cell>, db: Db, calls: seq<O.Call>): map<T.Lock, T.Cell>
  {
    if calls == [] then store
    else
      var init, last := calls[..|calls| - 1], calls[|calls| - 1];
      After(text, Transacted(text, store, db, init), JobOf(O.Run(db, init), last))
  }

  /** The store has a value for everything the transactions of the run touch. */
  ghost predicate Covers(store: map<T.Lock, T.Cell>, db: Db, calls: seq<O.Call>)
  {
    forall n :: 0 <= n < |calls| ==>
      var job := JobOf(O.Run(db, calls[..n]), calls[n]);
      job.Some? ==> Keys(job.value) <= store.Keys
  }

  lemma ViewIsSound(view: T.View, db: Db, job: T.Job)
    requires Inv(db) && Shows(view, db, job)
    ensures T.AllOk(view)
  {
    forall k | k in view ensures T.CellOk(view[k]) && T.KindOk(k, view[k]) {
      assert Sees(view, db, k);
      ProjectionIsSound(db, k);
    }
  }

  lemma RestrictedIsSame(text: Id -> string, store: map<T.Lock, T.Cell>, db: Db, job: T.Job, view: T.View)
    requires Tells(store, db) && Keys(job) <= store.Keys && Shows(view, db, job)
    ensures SameView(X.Restrict(store, X.Footprint(T.TxnOf(text, job))), view)
  {
    KeysAreFootprint(text, job);
    forall k | k in view ensures Same(store[k], view[k]) {
      assert Sees(view, db, k);
    }
  }

  lemma BodyIs(text: Id -> string, job: T.Job, view: T.View, r: Option<T.View>)
    requires T.Body(job, view) == r
    ensures T.TxnOf(text, job).body(view) == r
  {
  }

  lemma AfterIs(text: Id -> string, store: map<T.Lock, T.Cell>, job: T.Job, t: X.Txn<T.Lock, T.Cell, T.Job>)
    requires t == T.TxnOf(text, job)
    ensures After(text, store, Some(job)) == if X.Execute(store, t).Some? then X.Execute(store, t).value else store
  {
  }

  /** What the transaction writes when it runs on the store. */
  lemma ExecutedWrites(text: Id -> string, store: map<T.Lock, T.Cell>, job: T.Job, view: T.View, cells: T.View)
    returns (result: T.View)
    requires Keys(job) <= store.Keys && T.Body(job, view) == Some(cells) && cells.Keys <= Keys(job)
    requires SameView(X.Restrict(store, X.Footprint(T.TxnOf(text, job))), view)
    ensures SameView(result, cells) && After(text, store, Some(job)) == store + result
  {
    var mine := X.Restrict(store, X.Footprint(T.TxnOf(text, job)));
    KeysAreFootprint(text, job);
    BodyIgnoresLog(mine, view, job);
    result := T.Body(job, mine).value;
    BodyIs(text, job, mine, Some(result));
    X.ExecuteWrites(store, T.TxnOf(text, job), result);
    AfterIs(text, store, job, T.TxnOf(text, job));
  }

  lemma WritesWithinKeys(view: T.View, db: Db, job: T.Job, cells: T.View)
    requires Inv(db) && Shows(view, db, job) && Writes(job, view, cells)
    ensures cells.Keys <= Keys(job)
  {
    ViewIsSound(view, db, job);
    T.BodyOk(view, job);
  }

  lemma CommittedTells(text: Id -> string, store: map<T.Lock, T.Cell>, db: Db, after: Db, job: T.Job)
    requires Inv(db) && Tells(store, db) && Keys(job) <= store.Keys && Performs(db, after, job)
    ensures Tells(After(text, store, Some(job)), after) && After(text, store, Some(job)).Keys == store.Keys
  {
    var view, cells :| Shows(view, db, job) && Writes(job, view, cells) && Becomes(db, after, cells);
    RestrictedIsSame(text, store, db, job, view);
    WritesWithinKeys(view, db, job, cells);
    var result := ExecutedWrites(text, store, job, view, cells);
    WrittenTells(store, db, after, result, cells);
  }

  lemma WrittenTells(store: map<T.Lock, T.Cell>, db: Db, after: Db, result: T.View, cells: T.View)
    requires Tells(store, db) && Becomes(db, after, cells) && SameView(result, cells) && result.Keys <= store.Keys
    ensures Tells(store + result, after) && (store + result).Keys == store.Keys
  {
    forall k | k in store + result ensures Same((store + result)[k], CellOf(after, k)) {
      assert BecomesAt(db, after, cells, k);
    }
  }

  lemma RefusedIs(text: Id -> string, store: map<T.Lock, T.Cell>, job: T.Job, mine: T.View)
    requires mine == X.Restrict(store, X.Footprint(T.TxnOf(text, job))) && T.TxnOf(text, job).body(mine).None?
    ensures After(text, store, Some(job)) == store
  {
  }

  lemma RefusedStays(text: Id -> string, store: map<T.Lock, T.Cell>, db: Db, job: T.Job)
    requires Tells(store, db) && Keys(job) <= store.Keys && Refuses(db, job)
    ensures After(text, store, Some(job)) == store
  {
    var view :| Shows(view, db, job) && T.Body(job, view).None?;
    RestrictedIsSame(text, store, db, job, view);
    var mine := X.Restrict(store, X.Footprint(T.TxnOf(text, job)));
    BodyIgnoresLog(mine, view, job);
    BodyIs(text, job, mine, None);
    RefusedIs(text, store, job, mine);
  }

  lemma StepTells(text: Id -> string, store: map<T.Lock, T.Cell>, db: Db, call: O.Call)
    requires Inv(db) && Followed(call) && Tells(store, db)
    requires JobOf(db, call).Some? ==> Keys(JobOf(db, call).value) <= store.Keys
    ensures Tells(After(text, store, JobOf(db, call)), O.Step(db, call))
    ensures After(text, store, JobOf(db, call)).Keys == store.Keys
  {
    CallsAgree(db, call);
    var job := JobOf(db, call);
    if job.Some? {
      if O.Apply(db, call).Success? {
        CommittedTells(text, store, db, O.Apply(db, call).value, job.value);
      } else {
        RefusedStays(text, store, db, job.value);
      }
    }
  }

  lemma CoversPrefix(store: map<T.Lock, T.Cell>, db: Db, calls: seq<O.Call>)
    requires calls != [] && Covers(store, db, calls)
    ensures var init, last := calls[..|calls| - 1], calls[|calls| - 1];
            && Covers(store, db, init)
            && (JobOf(O.Run(db, init), last).Some? ==> Keys(JobOf(O.Run(db, init), last).value) <= store.Keys)
  {
    var n := |calls| - 1;
    forall k | 0 <= k < n
      ensures var job := JobOf(O.Run(db, calls[..n][..k]), calls[..n][k]); job.Some? ==> Keys(job.value) <= store.Keys
    {
      assert calls[..n][..k] == calls[..k];
    }
  }

  /** A run of these calls, some refused, leaves behind the locks exactly what their transactions, each
      run alone and in the same order, leave there. */
  lemma {:induction false} RunsMatch(text: Id -> string, store: map<T.Lock, T.Cell>, db: Db, calls: seq<O.Call>)
    requires Inv(db) && Tells(store, db) && Covers(store, db, calls)
    requires forall n :: 0 <= n < |calls| ==> Followed(calls[n])
    ensures var after := Transacted(text, store, db, calls);
            after.Keys == store.Keys && Tells(after, O.Run(db, calls))
  {
    if calls != [] {
      var init := calls[..|calls| - 1];
      CoversPrefix(store, db, calls);
      RunsMatch(text, store, db, init);
      RunKeepsInv(db, init);
      StepTells(text, Transacted(text, store, db, init), O.Run(db, init), calls[|calls| - 1]);
    }
  }

  // --- where interleaved runs can start ---------------------------------------------------------------

  /** The values of a reachable state are sound, and its rows carry exactly the numbers issued. */
  lemma CellsAreSound(db: Db, keys: set<T.Lock>)
    requires Inv(db)
    ensures T.AllOk(Cells(db, keys))
  {
    forall k | k in keys ensures T.CellOk(CellOf(db, k)) && T.KindOk(k, CellOf(db, k)) {
      ProjectionIsSound(db, k);
    }
  }

  lemma GaplessOnRows(store: map<T.Lock, T.Cell>, key: T.Lock, numbers: seq<Option<nat>>)
    requires N.IsKey(key) && Gapless(numbers) && key in store && store[key] == T.NumbersCell(UpTo(Count(numbers)))
    requires forall d: Id, k: nat :: N.HasNumber(store, key, d, k) <==> d < |numbers| && numbers[d] == Some(k)
    requires forall d: Id, k: nat :: N.HasNumber(store, key, d, k) ==> Issued(store[N.RowOf(key, d)].status)
    ensures N.NumbersOnRows(store, key)
  {
    SumNonNegative(numbers, Given());
    assert |store[key].issued| == Count(numbers);
    forall k: nat | 1 <= k <= Count(numbers) ensures N.OnSomeRow(store, key, k) {
      assert Some(k) in numbers;
      var d :| 0 <= d < |numbers| && numbers[d] == Some(k);
      assert N.HasNumber(store, key, d, k);
    }
  }

  lemma NumberedIsIssued(db: Db, d: Id, n: Id)
    requires DocumentsOk(db.chart, db.entries, db.documents) && NotesOk(db.chart, db.documents, db.notes)
    ensures d < |db.documents| && db.documents[d].number.Some? ==> Issued(db.documents[d].status)
    ensures n < |db.notes| && db.notes[n].number.Some? ==> Issued(db.notes[n].status)
  {
    if d < |db.documents| { assert DocumentOk(db.chart, db.entries, db.documents[d]); }
    if n < |db.notes| { assert NoteOk(db.chart, db.documents, db.notes[n]); }
  }

  lemma InvoiceRowsSay(db: Db, keys: set<T.Lock>, d: Id, k: nat)
    requires forall d: Id :: d < |db.documents| ==> T.DocumentRow(d) in keys
    ensures N.HasNumber(Cells(db, keys), T.InvoiceNumberKey, d, k) <==> d < |db.documents| && db.documents[d].number == Some(k)
  {
  }

  lemma InvoicesCarryNumbers(db: Db, keys: set<T.Lock>)
    requires Gapless(D.DocumentNumbers(db.documents)) && T.InvoiceNumberKey in keys
    requires forall d: Id :: d < |db.documents| && db.documents[d].number.Some? ==> Issued(db.documents[d].status)
    requires forall d: Id :: d < |db.documents| ==> T.DocumentRow(d) in keys
    ensures N.NumbersOnRows(Cells(db, keys), T.InvoiceNumberKey)
  {
    var store, numbers := Cells(db, keys), D.DocumentNumbers(db.documents);
    forall d: Id, k: nat
      ensures N.HasNumber(store, T.InvoiceNumberKey, d, k) <==> d < |numbers| && numbers[d] == Some(k)
      ensures N.HasNumber(store, T.InvoiceNumberKey, d, k) ==> Issued(store[N.RowOf(T.InvoiceNumberKey, d)].status)
    {
      InvoiceRowsSay(db, keys, d, k);
    }
    GaplessOnRows(store, T.InvoiceNumberKey, numbers);
  }

  lemma {:induction false} InvoicesAreNumbered(db: Db, keys: set<T.Lock>)
    requires Inv(db) && T.InvoiceNumberKey in keys
    requires forall d: Id :: d < |db.documents| ==> T.DocumentRow(d) in keys
    ensures N.NumbersOnRows(Cells(db, keys), T.InvoiceNumberKey)
  {
    forall d: Id | d < |db.documents| && db.documents[d].number.Some? ensures Issued(db.documents[d].status) {
      NumberedIsIssued(db, d, 0);
    }
    InvoicesCarryNumbers(db, keys);
  }

  lemma NoteRowsSay(db: Db, keys: set<T.Lock>, n: Id, k: nat)
    requires forall n: Id :: n < |db.notes| ==> T.NoteRow(n) in keys
    ensures N.HasNumber(Cells(db, keys), T.NoteNumberKey, n, k) <==> n < |db.notes| && db.notes[n].number == Some(k)
  {
  }

  lemma NotesCarryNumbers(db: Db, keys: set<T.Lock>)
    requires Gapless(D.NoteNumbers(db.notes)) && T.NoteNumberKey in keys
    requires forall n: Id :: n < |db.notes| && db.notes[n].number.Some? ==> Issued(db.notes[n].status)
    requires forall n: Id :: n < |db.notes| ==> T.NoteRow(n) in keys
    ensures N.NumbersOnRows(Cells(db, keys), T.NoteNumberKey)
  {
    var store, numbers := Cells(db, keys), D.NoteNumbers(db.notes);
    forall n: Id, k: nat
      ensures N.HasNumber(store, T.NoteNumberKey, n, k) <==> n < |numbers| && numbers[n] == Some(k)
      ensures N.HasNumber(store, T.NoteNumberKey, n, k) ==> Issued(store[N.RowOf(T.NoteNumberKey, n)].status)
    {
      NoteRowsSay(db, keys, n, k);
    }
    GaplessOnRows(store, T.NoteNumberKey, numbers);
  }

  lemma {:induction false} NotesAreNumbered(db: Db, keys: set<T.Lock>)
    requires Inv(db) && T.NoteNumberKey in keys
    requires forall n: Id :: n < |db.notes| ==> T.NoteRow(n) in keys
    ensures N.NumbersOnRows(Cells(db, keys), T.NoteNumberKey)
  {
    forall n: Id | n < |db.notes| && db.notes[n].number.Some? ensures Issued(db.notes[n].status) {
      NumberedIsIssued(db, 0, n);
    }
    NotesCarryNumbers(db, keys);
  }
}
