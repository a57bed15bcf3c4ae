/** How the tables look through the locks: each value a lock guards is a projection of the tables,
    and a committed service changes those values exactly as its transaction in the traffic does. */
module Projection {
  import opened Wrappers
  import opened Sums
  import opened Records
  import opened Numbering
  import opened Subledger
  import opened Invariants
  import P = Periods
  import J = Journal
  import D = Documents
  import Y = Payments
  import B = Banking
  import T = Traffic
  import X = TwoPhase
  import U = LateUpdates

  // --- the values behind the locks ------------------------------------------------------

  function ReversersOf(entries: seq<Entry>, e: Id): nat
  {
    if entries == [] then 0
    else ReversersOf(entries[..|entries| - 1], e) + if entries[|entries| - 1].reverses == Some(e) then 1 else 0
  }

  /** 1..n. */
  function UpTo(n: int): seq<nat> { if n <= 0 then [] else seq(n, i requires 0 <= i => i + 1) }

  function CellOf(db: Db, lock: T.Lock): T.Cell
  {
    match lock
    case LineRow(l) => T.LineCell(if l < |db.bankLines| && db.bankLines[l].match_ != Unmatched then 1 else 0)
    case DocumentKey(d) => T.OwedCell(if d < |db.documents| then db.documents[d].outstanding else 0)
    case PaymentKey(p) =>
      if p < |db.payments| then T.FundsCell(db.payments[p].unallocated, db.payments[p].amount) else T.FundsCell(0, 0)
    case DocumentRow(d) =>
      if d < |db.documents| then T.DocumentCell(db.documents[d].status, db.documents[d].number)
      else T.DocumentCell(DocDraft, None)
    case NoteRow(n) =>
      if n < |db.notes| then T.DocumentCell(db.notes[n].status, db.notes[n].number) else T.DocumentCell(DocDraft, None)
    case InvoiceNumberKey => T.NumbersCell(UpTo(Count(D.DocumentNumbers(db.documents))))
    case NoteNumberKey => T.NumbersCell(UpTo(Count(D.NoteNumbers(db.notes))))
    case EntryRow(e) =>
      T.EntryCell(if e < |db.entries| then Some(db.entries[e].status) else None, ReversersOf(db.entries, e))
    case PeriodKey(p) =>
      if p < |db.periods| then T.PeriodCell(db.periods[p].start, db.periods[p].end, db.periods[p].open,
                                            if db.periods[p].open then [] else [T.Closed])
      else T.PeriodCell(0, -1, true, [])
    case AllocationRow(i) => T.AllocationCell(if Y.IsReversed(db.allocations, i) then 1 else 0)
    case DocumentLines(d) =>
      if d < |db.documents| then T.ContentsCell(db.documents[d].total, Bookable(db.documents[d].lines))
      else T.ContentsCell(0, false)
    case EntryLines(e) => T.LinesCell(e < |db.entries| ==> Balanced(db.entries[e].lines))
  }

  /** The lines of a document allow an entry: there are some, they come to something, none is free. */
  predicate Bookable(lines: seq<DocumentLine>)
  {
    lines != [] && D.Total(lines) > 0 && D.NoFreeLine(lines)
  }

  predicate Balanced(lines: seq<JournalLine>) { J.Debits(lines) == J.Credits(lines) }

  /** Equal, but for a period's log, which the tables do not keep. */
  predicate Same(a: T.Cell, b: T.Cell)
  {
    if a.PeriodCell? && b.PeriodCell? then a.start == b.start && a.end == b.end && a.open == b.open else a == b
  }

  predicate BecomesAt(db: Db, after: Db, cells: T.View, k: T.Lock)
  {
    Same(CellOf(after, k), if k in cells then cells[k] else CellOf(db, k))
  }

  /** The cells written are what becomes of the tables, everywhere. */
  ghost predicate Becomes(db: Db, after: Db, cells: T.View)
  {
    forall k :: BecomesAt(db, after, cells, k)
  }

  /** The locks of a job, and what it touches without one. */
  function Keys(job: T.Job): set<T.Lock>
  {
    match job
    case Allocate(p, d, _) => {T.DocumentKey(d), T.PaymentKey(p), T.DocumentRow(d)}
    case PostEntry(e, p, _) => {T.EntryRow(e), T.EntryLines(e), T.PeriodKey(p)}
    case ReverseEntry(e, r, p, _) => {T.EntryRow(e), T.EntryRow(r), T.EntryLines(e), T.EntryLines(r), T.PeriodKey(p)}
    case VoidEntry(e) => {T.EntryRow(e)}
    case UpdateEntry(e, _) => {T.EntryRow(e), T.EntryLines(e)}
    case PostInvoice(d, e, _, p, _) =>
      {T.DocumentRow(d), T.DocumentLines(d), T.InvoiceNumberKey, T.EntryRow(e), T.PeriodKey(p), T.DocumentKey(d)}
    case PostBill(d, e, _, p, _) => {T.DocumentRow(d), T.DocumentLines(d), T.EntryRow(e), T.PeriodKey(p), T.DocumentKey(d)}
    case UpdateDocument(d, _, _) => {T.DocumentRow(d), T.DocumentLines(d)}
    case PostNote(n, d, e, p, _) => {T.NoteRow(n), T.NoteNumberKey, T.EntryRow(e), T.PeriodKey(p), T.DocumentRow(d)}
    case VoidDocument(d) => {T.DocumentRow(d)}
    case VoidNote(n) => {T.NoteRow(n)}
    case AssignLine(l, e, p, _) => {T.LineRow(l), T.EntryRow(e), T.PeriodKey(p)}
    case Close(p) => {T.PeriodKey(p)}
    case Reopen(p) => {T.PeriodKey(p)}
    case CancelDocument(d, e, r, p, _) =>
      {T.DocumentRow(d), T.EntryRow(e), T.EntryRow(r), T.EntryLines(e), T.EntryLines(r), T.PeriodKey(p), T.DocumentKey(d)}
    case ReverseAllocation(i, p, d, _) => {T.DocumentKey(d), T.PaymentKey(p), T.AllocationRow(i)}
    case ConfirmMatch(l, d, p, e, _, q, _) =>
      {T.LineRow(l), T.DocumentKey(d), T.PaymentKey(p), T.EntryRow(e), T.PeriodKey(q), T.DocumentRow(d)}
  }

  lemma {:induction false} KeysAreFootprint(text: Id -> string, job: T.Job)
    ensures X.Footprint(T.TxnOf(text, job)) == Keys(job)
  {
    if T.TakesPair(job) {
      T.DocumentKeyFirst(text, job.p, job.d);
      if job.ConfirmMatch? {
        assert T.Plan(text, job)
            == [T.LineRow(job.l), T.DocumentKey(job.d), T.PaymentKey(job.p), T.EntryRow(job.e), T.PeriodKey(job.period)];
      }
    }
  }

  /** The view has the table's value under the lock. */
  predicate Sees(view: T.View, db: Db, k: T.Lock) { k in view && view[k] == CellOf(db, k) }

  /** The view is what the tables say under the locks of the job, neither more nor less. */
  predicate Shows(view: T.View, db: Db, job: T.Job)
  {
    view.Keys == Keys(job) && forall k :: k in Keys(job) ==> Sees(view, db, k)
  }

  ghost predicate Writes(job: T.Job, view: T.View, cells: T.View)
  {
    T.LookedUp(view, job) && T.Body(job, view) == Some(cells)
  }

  /** The job, given what the tables say under its locks, commits, and its writes are what became of
      the tables. */
  ghost predicate Performs(db: Db, after: Db, job: T.Job)
  {
    exists view, cells :: Shows(view, db, job) && Writes(job, view, cells) && Becomes(db, after, cells)
  }

  lemma Performed(db: Db, after: Db, job: T.Job, view: T.View, cells: T.View)
    requires Shows(view, db, job) && Writes(job, view, cells) && Becomes(db, after, cells)
    ensures Performs(db, after, job)
  {
  }

  /** The job, given what the tables say under its locks, is refused. */
  ghost predicate Refuses(db: Db, job: T.Job)
  {
    exists view :: Shows(view, db, job) && T.Body(job, view).None?
  }

  lemma Show(db: Db, job: T.Job) returns (view: T.View)
    ensures Shows(view, db, job)
  {
    view := map k | k in Keys(job) :: CellOf(db, k);
  }

  // --- a reachable ledger projects to sound values -------------------------------------------

  lemma {:induction false} NoReversers(entries: seq<Entry>, e: Id)
    requires forall i :: 0 <= i < |entries| ==> entries[i].reverses != Some(e)
    ensures ReversersOf(entries, e) == 0
  {
    if entries != [] { NoReversers(entries[..|entries| - 1], e); }
  }

  lemma {:induction false} OneReverser(entries: seq<Entry>, e: Id, j: Id)
    requires j < |entries| && entries[j].reverses == Some(e)
    requires forall i :: 0 <= i < |entries| && entries[i].reverses == Some(e) ==> i == j
    ensures ReversersOf(entries, e) == 1
  {
    if j == |entries| - 1 {
      NoReversers(entries[..j], e);
    } else {
      OneReverser(entries[..|entries| - 1], e, j);
    }
  }

  lemma ReversersFollowStatus(entries: seq<Entry>, periods: seq<Period>, e: Id)
    requires J.EntriesOk(entries, periods)
    ensures ReversersOf(entries, e) == if e < |entries| && entries[e].status == EntryReversed then 1 else 0
  {
    forall i | 0 <= i < |entries| && entries[i].reverses == Some(e)
      ensures e < |entries| && entries[e].status == EntryReversed
    {
      assert J.EntryOk(entries, periods, i);
    }
    if e < |entries| && entries[e].status == EntryReversed {
      assert J.EntryOk(entries, periods, e);
      var j :| e < j < |entries| && entries[j].reverses == Some(e);
      OneReverser(entries, e, j);
    } else {
      NoReversers(entries, e);
    }
  }

  lemma BalancesAreSound(db: Db, lock: T.Lock)
    requires Y.AllocationsOk(db.documents, db.payments, db.allocations) && (lock.DocumentKey? || lock.PaymentKey?)
    ensures T.CellOk(CellOf(db, lock)) && T.KindOk(lock, CellOf(db, lock))
  {
    match lock
    case DocumentKey(d) =>
      if d < |db.documents| { assert Y.SettlementOk(db.documents[d], Y.LiveTotal(db.allocations, Y.OfDocument(d))); }
    case PaymentKey(p) =>
      if p < |db.payments| { FundsStayWithin(db, p); }
  }

  /** Whatever the tables of a reachable state say under a lock is a sound value of the right kind. */
  lemma ProjectionIsSound(db: Db, lock: T.Lock)
    requires Inv(db)
    ensures T.CellOk(CellOf(db, lock)) && T.KindOk(lock, CellOf(db, lock))
  {
    match lock
    case DocumentKey(d) => BalancesAreSound(db, lock);
    case PaymentKey(p) => BalancesAreSound(db, lock);
    case EntryRow(e) => ReversersFollowStatus(db.entries, db.periods, e);
    case _ =>
  }

  /** And its posted and reversed entries balance. */
  lemma ProjectionBalances(db: Db, e: Id)
    requires Inv(db) && U.Final(CellOf(db, T.EntryRow(e)).state)
    ensures CellOf(db, T.EntryLines(e)) == T.LinesCell(true)
  {
    if e < |db.entries| { assert J.EntryOk(db.entries, db.periods, e); }
  }

  // --- counting goes along with the rows -------------------------------------------------------

  lemma ReversersAppend(entries: seq<Entry>, x: Entry, e: Id)
    ensures ReversersOf(entries + [x], e) == ReversersOf(entries, e) + if x.reverses == Some(e) then 1 else 0
  {
    assert (entries + [x])[..|entries|] == entries;
  }

  lemma {:induction false} ReversersUpdate(entries: seq<Entry>, i: nat, x: Entry, e: Id)
    requires i < |entries| && x.reverses == entries[i].reverses
    ensures ReversersOf(entries[i := x], e) == ReversersOf(entries, e)
  {
    var n := |entries| - 1;
    if i < n {
      ReversersUpdate(entries[..n], i, x, e);
      assert entries[i := x][..n] == entries[..n][i := x];
    } else {
      assert entries[i := x][..n] == entries[..n];
    }
  }

  lemma ReversalAppends(allocations: seq<Allocation>, x: Allocation, i: Id)
    ensures Y.IsReversed(allocations + [x], i) <==> Y.IsReversed(allocations, i) || x.reverses == Some(i)
  {
    var after := allocations + [x];
    if Y.IsReversed(allocations, i) {
      var j :| 0 <= j < |allocations| && allocations[j].reverses == Some(i);
      assert after[j].reverses == Some(i);
    }
    if x.reverses == Some(i) { assert after[|allocations|].reverses == Some(i); }
  }

  /** Equal tables look equal. */
  lemma SameTables(db: Db, after: Db, k: T.Lock)
    requires k.LineRow? ==> after.bankLines == db.bankLines
    requires k.PaymentKey? ==> after.payments == db.payments
    requires k.DocumentKey? || k.DocumentRow? || k.DocumentLines? || k == T.InvoiceNumberKey ==> after.documents == db.documents
    requires k.NoteRow? || k == T.NoteNumberKey ==> after.notes == db.notes
    requires k.EntryRow? || k.EntryLines? ==> after.entries == db.entries
    requires k.PeriodKey? ==> after.periods == db.periods
    requires k.AllocationRow? ==> after.allocations == db.allocations
    ensures CellOf(after, k) == CellOf(db, k)
  {
  }

  lemma OpenPeriodCovers(db: Db, date: Date)
    requires P.PeriodsOk(db.periods) && J.OpenPeriod(db.periods, date).Success?
    ensures var p := J.OpenPeriod(db.periods, date).value;
            p < |db.periods| && db.periods[p].open && P.Covers(db.periods[p], date)
  {
  }

  // --- journal ---------------------------------------------------------------------------------------

  /** The two cells a post, or the row of a reversal, writes. */
  function EntryCells(db: Db, e: Id, to: EntryStatus, p: Id, date: Date): T.View
  {
    var period, entry := CellOf(db, T.PeriodKey(p)), CellOf(db, T.EntryRow(e));
    map[T.EntryRow(e) := T.EntryCell(Some(to), entry.reversers + if to == EntryReversed then 1 else 0),
        T.PeriodKey(p) := period.(log := period.log + [T.PostedOn(date)])]
  }

  lemma MovedEntryCells(view: T.View, db: Db, e: Id, from: Option<EntryStatus>, to: EntryStatus, p: Id, date: Date)
    requires Sees(view, db, T.EntryRow(e)) && Sees(view, db, T.PeriodKey(p))
    requires CellOf(db, T.EntryRow(e)).state == from && p < |db.periods| && db.periods[p].open
    ensures T.MovedEntry(view, e, from, to, p, date) == Some(EntryCells(db, e, to, p, date))
  {
    var cells := EntryCells(db, e, to, p, date);
    assert map[T.EntryRow(e) := cells[T.EntryRow(e)]] + map[T.PeriodKey(p) := cells[T.PeriodKey(p)]] == cells;
  }

  /** The looked-up period is open and covers the date. */
  predicate OpenAt(db: Db, p: Id, date: Date)
  {
    p < |db.periods| && db.periods[p].open && P.Covers(db.periods[p], date)
  }

  /** Only a row's status changes in the journal. */
  lemma ChangedEntryBecomes(db: Db, e: Id, x: Entry, p: Id, date: Date)
    requires e < |db.entries| && x.reverses == db.entries[e].reverses && x.lines == db.entries[e].lines
    requires x.status != EntryReversed && p < |db.periods|
    ensures Becomes(db, db.(entries := db.entries[e := x]), EntryCells(db, e, x.status, p, date))
  {
    var after := db.(entries := db.entries[e := x]);
    forall k ensures BecomesAt(db, after, EntryCells(db, e, x.status, p, date), k) {
      if k.EntryRow? { ReversersUpdate(db.entries, e, x, k.e); } else if !k.EntryLines? { SameTables(db, after, k); }
    }
  }

  lemma PostEntryWrites(view: T.View, db: Db, e: Id, p: Id, date: Date)
    requires e < |db.entries| && db.entries[e].status == EntryDraft && Balanced(db.entries[e].lines) && OpenAt(db, p, date)
    requires Sees(view, db, T.EntryRow(e)) && Sees(view, db, T.EntryLines(e)) && Sees(view, db, T.PeriodKey(p))
    ensures Writes(T.PostEntry(e, p, date), view, EntryCells(db, e, EntryPosted, p, date))
  {
    MovedEntryCells(view, db, e, Some(EntryDraft), EntryPosted, p, date);
  }

  lemma PostEntryPerforms(db: Db, e: Id)
    requires P.PeriodsOk(db.periods) && J.PostEntry(db, e).Success?
    ensures Performs(db, J.PostEntry(db, e).value,
                     T.PostEntry(e, J.OpenPeriod(db.periods, db.entries[e].date).value, db.entries[e].date))
  {
    var date := db.entries[e].date;
    var p := J.OpenPeriod(db.periods, date).value;
    OpenPeriodCovers(db, date);
    var view := Show(db, T.PostEntry(e, p, date));
    PostEntryWrites(view, db, e, p, date);
    ChangedEntryBecomes(db, e, J.PostEntry(db, e).value.entries[e], p, date);
  }

  lemma VoidEntryBecomes(db: Db, e: Id, after: Db)
    requires e < |db.entries| && after == db.(entries := db.entries[e := db.entries[e].(status := EntryVoided)])
    ensures Becomes(db, after, map[T.EntryRow(e) := T.EntryCell(Some(EntryVoided), ReversersOf(db.entries, e))])
  {
    var cells: T.View := map[T.EntryRow(e) := T.EntryCell(Some(EntryVoided), ReversersOf(db.entries, e))];
    forall k ensures BecomesAt(db, after, cells, k) {
      if k.EntryRow? {
        ReversersUpdate(db.entries, e, after.entries[e], k.e);
      } else if !k.EntryLines? {
        SameTables(db, after, k);
      }
    }
  }

  lemma VoidEntryPerforms(db: Db, e: Id)
    requires J.VoidEntry(db, e).Success?
    ensures Performs(db, J.VoidEntry(db, e).value, T.VoidEntry(e))
  {
    var view := Show(db, T.VoidEntry(e));
    var cells: T.View := map[T.EntryRow(e) := T.EntryCell(Some(EntryVoided), ReversersOf(db.entries, e))];
    VoidEntryBecomes(db, e, J.VoidEntry(db, e).value);
    assert Writes(T.VoidEntry(e), view, cells);
  }

  lemma UpdateEntryBecomes(db: Db, e: Id, lines: seq<JournalLine>, after: Db)
    requires e < |db.entries| && after == db.(entries := db.entries[e := db.entries[e].(lines := lines)])
    ensures Becomes(db, after, map[T.EntryLines(e) := T.LinesCell(Balanced(lines))])
  {
    var cells: T.View := map[T.EntryLines(e) := T.LinesCell(Balanced(lines))];
    forall k ensures BecomesAt(db, after, cells, k) {
      if k.EntryRow? {
        ReversersUpdate(db.entries, e, after.entries[e], k.e);
      } else if !k.EntryLines? {
        SameTables(db, after, k);
      }
    }
  }

  lemma UpdateEntryPerforms(db: Db, e: Id, lines: seq<JournalLine>)
    requires J.UpdateEntry(db, e, lines).Success?
    ensures Performs(db, J.UpdateEntry(db, e, lines).value, T.UpdateEntry(e, Balanced(lines)))
  {
    var view := Show(db, T.UpdateEntry(e, Balanced(lines)));
    UpdateEntryBecomes(db, e, lines, J.UpdateEntry(db, e, lines).value);
    assert Writes(T.UpdateEntry(e, Balanced(lines)), view, map[T.EntryLines(e) := T.LinesCell(Balanced(lines))]);
  }

  /** What reversing does to the rows of the journal. */
  lemma ReversedEntries(entries: seq<Entry>, e: Id, date: Date, p: Id, manual: bool, x: Id)
    requires e < |entries|
    ensures var after := J.Reverse(entries, e, date, p, manual);
            && |after| == |entries| + 1
            && ReversersOf(after, x) == ReversersOf(entries, x) + (if x == e then 1 else 0)
            && (x < |entries| ==> after[x].status == (if x == e then EntryReversed else entries[x].status)
                                  && after[x].lines == entries[x].lines)
            && after[|entries|].status == EntryPosted && after[|entries|].lines == J.Mirror(entries[e].lines)
  {
    var changed := entries[e].(status := EntryReversed);
    ReversersUpdate(entries, e, changed, x);
    ReversersAppend(entries[e := changed], J.Reverse(entries, e, date, p, manual)[|entries|], x);
  }

  /** The four cells a reversal writes. */
  function ReversedCells(db: Db, e: Id, p: Id, date: Date): T.View
  {
    map[T.EntryRow(e) := T.EntryCell(Some(EntryReversed), ReversersOf(db.entries, e) + 1)]
    + EntryCells(db, |db.entries|, EntryPosted, p, date)
    + map[T.EntryLines(|db.entries|) := CellOf(db, T.EntryLines(e))]
  }

  predicate Reversible(db: Db, e: Id)
  {
    e < |db.entries| && db.entries[e].status == EntryPosted
  }

  /** The view has what a reversal reads. */
  predicate SeesReversal(view: T.View, db: Db, e: Id, p: Id)
  {
    && Sees(view, db, T.EntryRow(e)) && Sees(view, db, T.EntryRow(|db.entries|)) && Sees(view, db, T.PeriodKey(p))
    && Sees(view, db, T.EntryLines(e)) && Sees(view, db, T.EntryLines(|db.entries|))
  }

  lemma ReversedEntryCells(view: T.View, db: Db, e: Id, p: Id, date: Date)
    requires Reversible(db, e) && OpenAt(db, p, date)
    requires SeesReversal(view, db, e, p)
    ensures T.ReversedEntry(view, e, |db.entries|, p, date) == Some(ReversedCells(db, e, p, date))
  {
    MovedEntryCells(view, db, |db.entries|, None, EntryPosted, p, date);
    assert T.MoveEntry(view, e, Some(EntryPosted), EntryReversed)
        == Some(map[T.EntryRow(e) := T.EntryCell(Some(EntryReversed), ReversersOf(db.entries, e) + 1)]);
    assert T.MirrorLines(view, e, |db.entries|) == Some(map[T.EntryLines(|db.entries|) := CellOf(db, T.EntryLines(e))]);
  }

  lemma ReversedAt(db: Db, after: Db, e: Id, date: Date, p: Id, manual: bool, k: T.Lock)
    requires Reversible(db, e) && p < |db.periods| && after.periods == db.periods
    requires after.entries == J.Reverse(db.entries, e, date, p, manual)
    requires k.EntryRow? || k.EntryLines? || k.PeriodKey?
    ensures BecomesAt(db, after, ReversedCells(db, e, p, date), k)
  {
    if !k.PeriodKey? {
      ReversedEntries(db.entries, e, date, p, manual, k.e);
      J.MirrorTotals(db.entries[e].lines, 0);
    }
  }

  lemma ReversedBecomes(db: Db, e: Id, date: Date, p: Id, manual: bool)
    requires Reversible(db, e) && p < |db.periods|
    ensures Becomes(db, db.(entries := J.Reverse(db.entries, e, date, p, manual)), ReversedCells(db, e, p, date))
  {
    var after := db.(entries := J.Reverse(db.entries, e, date, p, manual));
    forall k ensures BecomesAt(db, after, ReversedCells(db, e, p, date), k) {
      if k.EntryRow? || k.EntryLines? || k.PeriodKey? {
        ReversedAt(db, after, e, date, p, manual, k);
      } else {
        SameTables(db, after, k);
      }
    }
  }

  /** The looked-up period covers the date of the job. */
  lemma PeriodIsCovered(view: T.View, db: Db, p: Id, date: Date)
    requires Sees(view, db, T.PeriodKey(p)) && OpenAt(db, p, date)
    ensures T.CoveredBy(view, p, date)
  {
  }

  lemma ReversalIs(view: T.View, job: T.Job, cells: T.View)
    requires job.ReverseEntry? && T.ReversedEntry(view, job.e, job.r, job.period, job.date) == Some(cells)
    ensures T.Body(job, view) == Some(cells)
  {
  }

  lemma ReverseEntryWrites(view: T.View, db: Db, e: Id, p: Id, date: Date)
    requires Reversible(db, e) && OpenAt(db, p, date)
    requires SeesReversal(view, db, e, p)
    ensures Writes(T.ReverseEntry(e, |db.entries|, p, date), view, ReversedCells(db, e, p, date))
  {
    ReversedEntryCells(view, db, e, p, date);
    ReversalIs(view, T.ReverseEntry(e, |db.entries|, p, date), ReversedCells(db, e, p, date));
    PeriodIsCovered(view, db, p, date);
  }

  lemma ReverseEntryPerforms(db: Db, e: Id, date: Date, manual: bool)
    requires P.PeriodsOk(db.periods) && J.ReverseEntry(db, e, date, manual).Success?
    ensures Performs(db, J.ReverseEntry(db, e, date, manual).value,
                     T.ReverseEntry(e, |db.entries|, J.OpenPeriod(db.periods, date).value, date))
  {
    var p := J.OpenPeriod(db.periods, date).value;
    OpenPeriodCovers(db, date);
    var view := Show(db, T.ReverseEntry(e, |db.entries|, p, date));
    ReverseEntryWrites(view, db, e, p, date);
    ReversedBecomes(db, e, date, p, manual);
  }

  lemma SetPeriodBecomes(db: Db, p: Id, open: bool, cells: T.View, after: Db)
    requires p < |db.periods| && after == db.(periods := db.periods[p := db.periods[p].(open := open)])
    requires cells.Keys == {T.PeriodKey(p)} && Same(cells[T.PeriodKey(p)], CellOf(after, T.PeriodKey(p)))
    ensures Becomes(db, after, cells)
  {
    forall k ensures BecomesAt(db, after, cells, k) {
      if !k.PeriodKey? { SameTables(db, after, k); }
    }
  }

  lemma SetPeriodPerforms(db: Db, p: Id, open: bool)
    requires P.SetPeriod(db, p, open).Success?
    ensures Performs(db, P.SetPeriod(db, p, open).value, if open then T.Reopen(p) else T.Close(p))
  {
    var job := if open then T.Reopen(p) else T.Close(p);
    var view := Show(db, job);
    var cells := T.SetOpen(view, p, open).value;
    SetPeriodBecomes(db, p, open, cells, P.SetPeriod(db, p, open).value);
    assert Writes(job, view, cells);
  }

  // --- documents ---------------------------------------------------------------------------------------

  lemma UpToGrows(n: int)
    requires n >= 0
    ensures UpTo(n + 1) == UpTo(n) + [n + 1]
    ensures UpTo(n) == [] <==> n == 0
    ensures n > 0 ==> UpTo(n)[|UpTo(n)| - 1] == n
  {
  }

  predicate NewlyPosted(x: Entry) { x.status == EntryPosted && x.reverses.None? && Balanced(x.lines) }

  /** A new, unreversed row at the end of the journal. */
  lemma AppendedEntry(db: Db, after: Db, x: Entry, p: Id, date: Date, k: T.Lock)
    requires p < |db.periods| && db.periods[p].open
    requires after.entries == db.entries + [x] && after.periods == db.periods
    requires NewlyPosted(x)
    requires k.EntryRow? || k.EntryLines? || k.PeriodKey?
    ensures BecomesAt(db, after, EntryCells(db, |db.entries|, EntryPosted, p, date), k)
  {
    if k.EntryRow? { ReversersAppend(db.entries, x, k.e); }
  }

  lemma NumberedCells(view: T.View, db: Db, row: T.Lock, key: T.Lock, n: nat)
    requires row in view && key in view && row != key
    requires view[row].DocumentCell? && view[row].status == DocDraft && view[key] == T.NumbersCell(UpTo(n))
    ensures T.Numbered(view, row, key)
         == Some(map[row := T.DocumentCell(DocPosted, Some(n + 1)), key := T.NumbersCell(UpTo(n + 1))])
  {
    UpToGrows(n);
    assert T.NextNumber(view, key) == Some(n + 1);
    assert map[row := T.DocumentCell(DocPosted, Some(n + 1))] + map[key := T.NumbersCell(UpTo(n + 1))]
        == map[row := T.DocumentCell(DocPosted, Some(n + 1)), key := T.NumbersCell(UpTo(n + 1))];
  }

  /** The row is issued with its new journal row. */
  ghost predicate Issues(db: Db, after: Db, d: Id, row: Document, x: Entry)
  {
    && d < |db.documents| && db.documents[d].status == DocDraft && db.documents[d].number.None?
    && row.status == DocPosted && row.outstanding == row.total >= 0 && NewlyPosted(x)
    && row.lines == db.documents[d].lines && row.total == db.documents[d].total && Bookable(row.lines)
    && after == db.(entries := db.entries + [x], documents := db.documents[d := row])
  }

  lemma PostIssues(db: Db, kind: DocumentKind, d: Id) returns (p: Id, row: Document, x: Entry)
    requires Inv(db) && D.PostDocument(db, kind, d).Success?
    ensures Issues(db, D.PostDocument(db, kind, d).value, d, row, x)
    ensures row.outstanding == db.documents[d].total && row.number == D.NextNumber(db.documents, kind)
    ensures OpenAt(db, p, db.documents[d].date) && J.OpenPeriod(db.periods, db.documents[d].date) == Success(p)
  {
    p := PostWrites(db, kind, d);
    var doc := db.documents[d];
    assert DocumentOk(db.chart, db.entries, doc);
    D.EntryLinesOneSided(db.chart, kind == Invoice, doc.control, doc.lines);
    D.EntryLinesBalance(db.chart, kind == Invoice, doc.control, doc.lines, 0);
    x := DocumentEntry(db, kind, doc, p);
    row := doc.(number := D.NextNumber(db.documents, kind), outstanding := doc.total,
                entry := Some(|db.entries|), status := DocPosted);
  }

  /** How many invoices are numbered, before and after one more is. */
  lemma NextInvoiceNumber(documents: seq<Document>, d: Id, row: Document) returns (n: nat)
    requires Gapless(D.DocumentNumbers(documents)) && d < |documents| && documents[d].number.None?
    requires row.number == D.NextNumber(documents, Invoice)
    ensures Count(D.DocumentNumbers(documents)) == n && row.number == Some(n + 1)
    ensures Count(D.DocumentNumbers(documents[d := row])) == n + 1
  {
    var numbers := D.DocumentNumbers(documents);
    LastNumberIsCount(numbers);
    NextKeepsGapless(numbers, d);
    n := LastNumber(numbers);
    assert D.DocumentNumbers(documents[d := row]) == numbers[d := Some(n + 1)];
  }

  /** The cells a posted invoice writes. */
  function InvoiceCells(db: Db, d: Id, n: nat, total: int, p: Id, date: Date): T.View
  {
    map[T.DocumentRow(d) := T.DocumentCell(DocPosted, Some(n + 1)), T.InvoiceNumberKey := T.NumbersCell(UpTo(n + 1))]
    + map[T.DocumentKey(d) := T.OwedCell(total)]
    + EntryCells(db, |db.entries|, EntryPosted, p, date)
  }

  lemma InvoiceBecomes(db: Db, after: Db, d: Id, n: nat, row: Document, x: Entry, p: Id, date: Date)
    requires Issues(db, after, d, row, x) && row.number == Some(n + 1)
    requires Count(D.DocumentNumbers(after.documents)) == n + 1 && p < |db.periods| && db.periods[p].open
    ensures Becomes(db, after, InvoiceCells(db, d, n, row.outstanding, p, date))
  {
    var cells := InvoiceCells(db, d, n, row.outstanding, p, date);
    forall k ensures BecomesAt(db, after, cells, k) {
      if k.EntryRow? || k.EntryLines? || k.PeriodKey? {
        AppendedEntry(db, after, x, p, date, k);
      } else if !(k.DocumentKey? || k.DocumentRow? || k.DocumentLines? || k == T.InvoiceNumberKey) {
        SameTables(db, after, k);
      }
    }
  }

  lemma InvoiceMerges(view: T.View, job: T.Job, numbered: T.View, owed: T.View, entry: T.View)
    requires job.PostInvoice? && T.ComesTo(view, job.d, job.total)
    requires T.Numbered(view, T.DocumentRow(job.d), T.InvoiceNumberKey) == Some(numbered)
    requires T.Owe(view, job.d, job.total) == Some(owed)
    requires T.MovedEntry(view, job.e, None, EntryPosted, job.period, job.date) == Some(entry)
    ensures T.Body(job, view) == Some(numbered + owed + entry)
  {
  }

  lemma InvoiceWrites(view: T.View, db: Db, d: Id, n: nat, total: int, p: Id, date: Date)
    requires d < |db.documents| && db.documents[d].status == DocDraft && db.documents[d].total == total >= 0
    requires Bookable(db.documents[d].lines) && Sees(view, db, T.DocumentLines(d))
    requires Count(D.DocumentNumbers(db.documents)) == n
    requires OpenAt(db, p, date)
    requires Sees(view, db, T.DocumentRow(d)) && Sees(view, db, T.InvoiceNumberKey) && Sees(view, db, T.DocumentKey(d))
    requires Sees(view, db, T.EntryRow(|db.entries|)) && Sees(view, db, T.PeriodKey(p))
    ensures Writes(T.PostInvoice(d, |db.entries|, total, p, date), view, InvoiceCells(db, d, n, total, p, date))
  {
    NumberedCells(view, db, T.DocumentRow(d), T.InvoiceNumberKey, n);
    MovedEntryCells(view, db, |db.entries|, None, EntryPosted, p, date);
    assert T.Owe(view, d, total) == Some(map[T.DocumentKey(d) := T.OwedCell(total)]);
    InvoiceMerges(view, T.PostInvoice(d, |db.entries|, total, p, date),
                  map[T.DocumentRow(d) := T.DocumentCell(DocPosted, Some(n + 1)),
                      T.InvoiceNumberKey := T.NumbersCell(UpTo(n + 1))],
                  map[T.DocumentKey(d) := T.OwedCell(total)], EntryCells(db, |db.entries|, EntryPosted, p, date));
    PeriodIsCovered(view, db, p, date);
  }

  lemma InvoicePerforms(db: Db, after: Db, d: Id, n: nat, row: Document, x: Entry, p: Id, date: Date)
    requires Issues(db, after, d, row, x) && row.number == Some(n + 1)
    requires Count(D.DocumentNumbers(db.documents)) == n && Count(D.DocumentNumbers(after.documents)) == n + 1
    requires OpenAt(db, p, date)
    ensures Performs(db, after, T.PostInvoice(d, |db.entries|, row.outstanding, p, date))
  {
    var view := Show(db, T.PostInvoice(d, |db.entries|, row.outstanding, p, date));
    InvoiceWrites(view, db, d, n, row.outstanding, p, date);
    InvoiceBecomes(db, after, d, n, row, x, p, date);
  }

  lemma {:induction false} PostInvoicePerforms(db: Db, d: Id) returns (p: Id)
    requires Inv(db) && D.PostDocument(db, Invoice, d).Success?
    ensures d < |db.documents| && J.OpenPeriod(db.periods, db.documents[d].date) == Success(p)
    ensures Performs(db, D.PostDocument(db, Invoice, d).value,
                     T.PostInvoice(d, |db.entries|, db.documents[d].total, p, db.documents[d].date))
  {
    var row, x;
    p, row, x := PostIssues(db, Invoice, d);
    var n := NextInvoiceNumber(db.documents, d, row);
    InvoicePerforms(db, D.PostDocument(db, Invoice, d).value, d, n, row, x, p, db.documents[d].date);
  }

  /** A row that keeps its number leaves the number sequence alone. */
  lemma SameNumbers(documents: seq<Document>, d: Id, row: Document)
    requires d < |documents| && row.number == documents[d].number
    ensures D.DocumentNumbers(documents[d := row]) == D.DocumentNumbers(documents)
  {
  }

  function BillCells(db: Db, d: Id, total: int, p: Id, date: Date): T.View
  {
    map[T.DocumentRow(d) := T.DocumentCell(DocPosted, None)] + map[T.DocumentKey(d) := T.OwedCell(total)]
    + EntryCells(db, |db.entries|, EntryPosted, p, date)
  }

  lemma BillWrites(view: T.View, db: Db, d: Id, total: int, p: Id, date: Date)
    requires d < |db.documents| && db.documents[d].status == DocDraft && db.documents[d].number.None?
    requires db.documents[d].total == total >= 0 && Bookable(db.documents[d].lines) && Sees(view, db, T.DocumentLines(d))
    requires OpenAt(db, p, date)
    requires Sees(view, db, T.DocumentRow(d)) && Sees(view, db, T.DocumentKey(d))
    requires Sees(view, db, T.EntryRow(|db.entries|)) && Sees(view, db, T.PeriodKey(p))
    ensures Writes(T.PostBill(d, |db.entries|, total, p, date), view, BillCells(db, d, total, p, date))
  {
    MovedEntryCells(view, db, |db.entries|, None, EntryPosted, p, date);
    assert T.MoveDocument(view, T.DocumentRow(d), DocDraft, DocPosted, None)
        == Some(map[T.DocumentRow(d) := T.DocumentCell(DocPosted, None)]);
    assert T.Owe(view, d, total) == Some(map[T.DocumentKey(d) := T.OwedCell(total)]);
  }

  lemma BillBecomes(db: Db, after: Db, d: Id, row: Document, x: Entry, p: Id, date: Date)
    requires Issues(db, after, d, row, x) && row.number.None? && p < |db.periods| && db.periods[p].open
    ensures Becomes(db, after, BillCells(db, d, row.outstanding, p, date))
  {
    var cells := BillCells(db, d, row.outstanding, p, date);
    SameNumbers(db.documents, d, row);
    forall k ensures BecomesAt(db, after, cells, k) {
      if k.EntryRow? || k.EntryLines? || k.PeriodKey? {
        AppendedEntry(db, after, x, p, date, k);
      } else if !(k.DocumentKey? || k.DocumentRow? || k.DocumentLines? || k == T.InvoiceNumberKey) {
        SameTables(db, after, k);
      }
    }
  }

  lemma {:induction false} PostBillPerforms(db: Db, d: Id) returns (p: Id)
    requires Inv(db) && D.PostDocument(db, Bill, d).Success?
    ensures d < |db.documents| && J.OpenPeriod(db.periods, db.documents[d].date) == Success(p)
    ensures Performs(db, D.PostDocument(db, Bill, d).value,
                     T.PostBill(d, |db.entries|, db.documents[d].total, p, db.documents[d].date))
  {
    var row, x;
    p, row, x := PostIssues(db, Bill, d);
    var date := db.documents[d].date;
    var view := Show(db, T.PostBill(d, |db.entries|, row.outstanding, p, date));
    BillWrites(view, db, d, row.outstanding, p, date);
    BillBecomes(db, D.PostDocument(db, Bill, d).value, d, row, x, p, date);
  }

  lemma UpdateDocumentBecomes(db: Db, after: Db, d: Id, row: Document)
    requires d < |db.documents| && row.status == db.documents[d].status && row.number == db.documents[d].number
    requires row.outstanding == db.documents[d].outstanding && after == db.(documents := db.documents[d := row])
    ensures Becomes(db, after, map[T.DocumentLines(d) := T.ContentsCell(row.total, Bookable(row.lines))])
  {
    var cells: T.View := map[T.DocumentLines(d) := T.ContentsCell(row.total, Bookable(row.lines))];
    SameNumbers(db.documents, d, row);
    forall k ensures BecomesAt(db, after, cells, k) {
      if !(k.DocumentKey? || k.DocumentRow? || k.DocumentLines? || k == T.InvoiceNumberKey) { SameTables(db, after, k); }
    }
  }

  lemma UpdateDocumentPerforms(db: Db, kind: DocumentKind, d: Id, inputs: seq<D.LineInput>)
    requires D.UpdateDocument(db, kind, d, inputs).Success?
    ensures D.ComputeLines(db.chart, inputs).Success?
    ensures var lines := D.ComputeLines(db.chart, inputs).value;
            Performs(db, D.UpdateDocument(db, kind, d, inputs).value, T.UpdateDocument(d, D.Total(lines), Bookable(lines)))
  {
    var lines := D.ComputeLines(db.chart, inputs).value;
    var job := T.UpdateDocument(d, D.Total(lines), Bookable(lines));
    var view := Show(db, job);
    var cells: T.View := map[T.DocumentLines(d) := T.ContentsCell(D.Total(lines), Bookable(lines))];
    assert Sees(view, db, T.DocumentRow(d)) && Sees(view, db, T.DocumentLines(d));
    UpdateDocumentBecomes(db, D.UpdateDocument(db, kind, d, inputs).value, d,
                          db.documents[d].(lines := lines, total := D.Total(lines)));
    Performed(db, D.UpdateDocument(db, kind, d, inputs).value, job, view, cells);
  }

  lemma VoidDocumentPerforms(db: Db, kind: DocumentKind, d: Id)
    requires D.VoidDocument(db, kind, d).Success?
    ensures Performs(db, D.VoidDocument(db, kind, d).value, T.VoidDocument(d))
  {
    var after := D.VoidDocument(db, kind, d).value;
    var cells: T.View := map[T.DocumentRow(d) := CellOf(after, T.DocumentRow(d))];
    SameNumbers(db.documents, d, after.documents[d]);
    forall k ensures BecomesAt(db, after, cells, k) {
      if !(k.DocumentKey? || k.DocumentRow? || k.DocumentLines? || k == T.InvoiceNumberKey) { SameTables(db, after, k); }
    }
    var view := Show(db, T.VoidDocument(d));
    assert Writes(T.VoidDocument(d), view, cells) && Becomes(db, after, cells);
  }

  /** The row is cancelled and its entry reversed. */
  ghost predicate Cancels(db: Db, after: Db, d: Id, e: Id, p: Id, date: Date)
  {
    && d < |db.documents| && db.documents[d].status == DocPosted && Reversible(db, e) && OpenAt(db, p, date)
    && after == db.(entries := J.Reverse(db.entries, e, date, p, false),
                    documents := db.documents[d := db.documents[d].(status := DocCancelled, outstanding := 0)])
  }

  function CancelCells(db: Db, d: Id, e: Id, p: Id, date: Date): T.View
  {
    map[T.DocumentRow(d) := T.DocumentCell(DocCancelled, if d < |db.documents| then db.documents[d].number else None)]
    + map[T.DocumentKey(d) := T.OwedCell(0)] + ReversedCells(db, e, p, date)
  }

  lemma CancelledRow(view: T.View, db: Db, d: Id)
    requires d < |db.documents| && db.documents[d].status == DocPosted
    requires Sees(view, db, T.DocumentRow(d)) && Sees(view, db, T.DocumentKey(d))
    ensures T.Merge(T.MoveDocument(view, T.DocumentRow(d), DocPosted, DocCancelled, None), T.Owe(view, d, 0))
         == Some(map[T.DocumentRow(d) := T.DocumentCell(DocCancelled, db.documents[d].number)]
                 + map[T.DocumentKey(d) := T.OwedCell(0)])
  {
  }

  lemma CancelMerges(view: T.View, job: T.Job, row: T.View, entries: T.View)
    requires job.CancelDocument?
    requires T.Merge(T.MoveDocument(view, T.DocumentRow(job.d), DocPosted, DocCancelled, None), T.Owe(view, job.d, 0))
          == Some(row)
    requires T.ReversedEntry(view, job.e, job.r, job.period, job.date) == Some(entries)
    ensures T.Body(job, view) == Some(row + entries)
  {
  }

  lemma CancelledBody(view: T.View, db: Db, job: T.Job)
    requires job.CancelDocument? && job.r == |db.entries|
    requires job.d < |db.documents| && db.documents[job.d].status == DocPosted
    requires Reversible(db, job.e) && OpenAt(db, job.period, job.date)
    requires Sees(view, db, T.DocumentRow(job.d)) && Sees(view, db, T.DocumentKey(job.d))
    requires SeesReversal(view, db, job.e, job.period)
    ensures T.Body(job, view) == Some(CancelCells(db, job.d, job.e, job.period, job.date))
  {
    CancelledRow(view, db, job.d);
    ReversedEntryCells(view, db, job.e, job.period, job.date);
    CancelMerges(view, job, map[T.DocumentRow(job.d) := T.DocumentCell(DocCancelled, db.documents[job.d].number)]
                            + map[T.DocumentKey(job.d) := T.OwedCell(0)], ReversedCells(db, job.e, job.period, job.date));
  }

  lemma CancelWrites(view: T.View, db: Db, job: T.Job, d: Id, e: Id, p: Id, date: Date)
    requires d < |db.documents| && db.documents[d].status == DocPosted && Reversible(db, e) && OpenAt(db, p, date)
    requires job == T.CancelDocument(d, e, |db.entries|, p, date)
    requires Sees(view, db, T.DocumentRow(d)) && Sees(view, db, T.DocumentKey(d))
    requires SeesReversal(view, db, e, p)
    ensures Writes(job, view, CancelCells(db, d, e, p, date))
  {
    CancelledBody(view, db, job);
    PeriodIsCovered(view, db, p, date);
  }

  lemma CancelBecomes(db: Db, after: Db, d: Id, e: Id, p: Id, date: Date)
    requires Cancels(db, after, d, e, p, date)
    ensures Becomes(db, after, CancelCells(db, d, e, p, date))
  {
    var cells := CancelCells(db, d, e, p, date);
    SameNumbers(db.documents, d, after.documents[d]);
    forall k ensures BecomesAt(db, after, cells, k) {
      if k.EntryRow? || k.EntryLines? || k.PeriodKey? {
        ReversedAt(db, after, e, date, p, false, k);
      } else if !(k.DocumentKey? || k.DocumentRow? || k.DocumentLines? || k == T.InvoiceNumberKey) {
        SameTables(db, after, k);
      }
    }
  }

  lemma CancelPerforms(db: Db, after: Db, d: Id, e: Id, p: Id, date: Date)
    requires Cancels(db, after, d, e, p, date)
    ensures Performs(db, after, T.CancelDocument(d, e, |db.entries|, p, date))
  {
    var view := Show(db, T.CancelDocument(d, e, |db.entries|, p, date));
    CancelWrites(view, db, T.CancelDocument(d, e, |db.entries|, p, date), d, e, p, date);
    CancelBecomes(db, after, d, e, p, date);
  }

  lemma {:induction false} CancelDocumentPerforms(db: Db, kind: DocumentKind, d: Id, date: Date) returns (e: Id, p: Id)
    requires P.PeriodsOk(db.periods) && D.CancelDocument(db, kind, d, date).Success?
    ensures d < |db.documents| && db.documents[d].entry == Some(e) && J.OpenPeriod(db.periods, date) == Success(p)
    ensures Performs(db, D.CancelDocument(db, kind, d, date).value, T.CancelDocument(d, e, |db.entries|, p, date))
  {
    e, p := db.documents[d].entry.value, J.OpenPeriod(db.periods, date).value;
    OpenPeriodCovers(db, date);
    CancelPerforms(db, D.CancelDocument(db, kind, d, date).value, d, e, p, date);
  }

  // --- credit notes -----------------------------------------------------------------------------------

  lemma VoidNotePerforms(db: Db, n: Id)
    requires D.VoidNote(db, n).Success?
    ensures Performs(db, D.VoidNote(db, n).value, T.VoidNote(n))
  {
    var after := D.VoidNote(db, n).value;
    var cells: T.View := map[T.NoteRow(n) := CellOf(after, T.NoteRow(n))];
    assert D.NoteNumbers(after.notes) == D.NoteNumbers(db.notes);
    forall k ensures BecomesAt(db, after, cells, k) {
      if !(k.NoteRow? || k == T.NoteNumberKey) { SameTables(db, after, k); }
    }
    var view := Show(db, T.VoidNote(n));
    assert Writes(T.VoidNote(n), view, cells) && Becomes(db, after, cells);
  }

  ghost predicate IssuesNote(db: Db, after: Db, n: Id, row: CreditNote, x: Entry)
  {
    && n < |db.notes| && db.notes[n].status == DocDraft && db.notes[n].number.None?
    && db.notes[n].invoice < |db.documents| && db.documents[db.notes[n].invoice].status == DocPosted
    && row.status == DocPosted && NewlyPosted(x)
    && after == db.(entries := db.entries + [x], notes := db.notes[n := row])
  }

  lemma PostsOnPostedInvoice(db: Db, n: Id)
    requires D.PostNote(db, n).Success?
    ensures n < |db.notes| && db.notes[n].invoice < |db.documents| && db.documents[db.notes[n].invoice].status == DocPosted
  {
  }

  lemma DraftNoteHasNoNumber(db: Db, n: Id)
    requires Inv(db) && n < |db.notes| && db.notes[n].status == DocDraft
    ensures db.notes[n].number.None? && P.PeriodsOk(db.periods) && D.LinesOk(db.chart, db.notes[n].lines)
  {
    assert NoteOk(db.chart, db.documents, db.notes[n]);
  }

  lemma NotePostedIssues(db: Db, after: Db, n: Id, p: Id) returns (row: CreditNote, x: Entry)
    requires NotePosted(db, after, n, p) && db.notes[n].number.None? && db.documents[db.notes[n].invoice].status == DocPosted
    requires D.LinesOk(db.chart, db.notes[n].lines)
    ensures IssuesNote(db, after, n, row, x)
    ensures row.number == Some(LastNumber(D.NoteNumbers(db.notes)) + 1)
    ensures J.OpenPeriod(db.periods, db.notes[n].date) == Success(p)
  {
    var note := db.notes[n];
    x := NoteEntry(db, note, db.documents[note.invoice].control, p);
    D.NoteEntryLinesBalance(db.chart, db.documents[note.invoice].control, note.lines, 0);
    row := note.(number := Some(LastNumber(D.NoteNumbers(db.notes)) + 1), entry := Some(|db.entries|), status := DocPosted);
  }

  lemma NextNoteNumber(notes: seq<CreditNote>, n: Id, row: CreditNote) returns (m: nat)
    requires Gapless(D.NoteNumbers(notes)) && n < |notes| && notes[n].number.None?
    requires row.number == Some(LastNumber(D.NoteNumbers(notes)) + 1)
    ensures Count(D.NoteNumbers(notes)) == m && row.number == Some(m + 1)
    ensures Count(D.NoteNumbers(notes[n := row])) == m + 1
  {
    var numbers := D.NoteNumbers(notes);
    LastNumberIsCount(numbers);
    NextKeepsGapless(numbers, n);
    m := LastNumber(numbers);
    assert D.NoteNumbers(notes[n := row]) == numbers[n := Some(m + 1)];
  }

  function NoteCells(db: Db, n: Id, m: nat, p: Id, date: Date): T.View
  {
    map[T.NoteRow(n) := T.DocumentCell(DocPosted, Some(m + 1)), T.NoteNumberKey := T.NumbersCell(UpTo(m + 1))]
    + EntryCells(db, |db.entries|, EntryPosted, p, date)
  }

  lemma NoteWrites(view: T.View, db: Db, n: Id, d: Id, m: nat, p: Id, date: Date)
    requires n < |db.notes| && db.notes[n].status == DocDraft && d < |db.documents| && db.documents[d].status == DocPosted
    requires Count(D.NoteNumbers(db.notes)) == m
    requires OpenAt(db, p, date)
    requires Sees(view, db, T.NoteRow(n)) && Sees(view, db, T.NoteNumberKey) && Sees(view, db, T.DocumentRow(d))
    requires Sees(view, db, T.EntryRow(|db.entries|)) && Sees(view, db, T.PeriodKey(p))
    ensures Writes(T.PostNote(n, d, |db.entries|, p, date), view, NoteCells(db, n, m, p, date))
  {
    NumberedCells(view, db, T.NoteRow(n), T.NoteNumberKey, m);
    MovedEntryCells(view, db, |db.entries|, None, EntryPosted, p, date);
  }

  lemma NoteBecomes(db: Db, after: Db, n: Id, m: nat, row: CreditNote, x: Entry, p: Id, date: Date)
    requires IssuesNote(db, after, n, row, x) && row.number == Some(m + 1)
    requires Count(D.NoteNumbers(after.notes)) == m + 1 && p < |db.periods| && db.periods[p].open
    ensures Becomes(db, after, NoteCells(db, n, m, p, date))
  {
    var cells := NoteCells(db, n, m, p, date);
    forall k ensures BecomesAt(db, after, cells, k) {
      if k.EntryRow? || k.EntryLines? || k.PeriodKey? {
        AppendedEntry(db, after, x, p, date, k);
      } else if !(k.NoteRow? || k == T.NoteNumberKey) {
        SameTables(db, after, k);
      }
    }
  }

  lemma NotePerforms(db: Db, after: Db, n: Id, m: nat, row: CreditNote, x: Entry, p: Id, date: Date)
    requires IssuesNote(db, after, n, row, x) && row.number == Some(m + 1)
    requires Count(D.NoteNumbers(db.notes)) == m && Count(D.NoteNumbers(after.notes)) == m + 1
    requires OpenAt(db, p, date)
    ensures Performs(db, after, T.PostNote(n, db.notes[n].invoice, |db.entries|, p, date))
  {
    var view := Show(db, T.PostNote(n, db.notes[n].invoice, |db.entries|, p, date));
    NoteWrites(view, db, n, db.notes[n].invoice, m, p, date);
    NoteBecomes(db, after, n, m, row, x, p, date);
  }

  lemma PostedNotePerforms(db: Db, after: Db, n: Id, p: Id)
    requires NotePosted(db, after, n, p) && db.notes[n].number.None? && db.documents[db.notes[n].invoice].status == DocPosted
    requires D.LinesOk(db.chart, db.notes[n].lines)
    requires Gapless(D.NoteNumbers(db.notes)) && P.PeriodsOk(db.periods)
    ensures Performs(db, after, T.PostNote(n, db.notes[n].invoice, |db.entries|, p, db.notes[n].date))
  {
    var row, x := NotePostedIssues(db, after, n, p);
    var m := NextNoteNumber(db.notes, n, row);
    OpenPeriodCovers(db, db.notes[n].date);
    NotePerforms(db, after, n, m, row, x, p, db.notes[n].date);
  }

  lemma {:induction false} PostNotePerforms(db: Db, n: Id) returns (p: Id)
    requires Inv(db) && D.PostNote(db, n).Success?
    ensures n < |db.notes| && J.OpenPeriod(db.periods, db.notes[n].date) == Success(p)
    ensures Performs(db, D.PostNote(db, n).value, T.PostNote(n, db.notes[n].invoice, |db.entries|, p, db.notes[n].date))
  {
    p := PostNoteWrites(db, n);
    PostsOnPostedInvoice(db, n);
    DraftNoteHasNoNumber(db, n);
    PostedNotePerforms(db, D.PostNote(db, n).value, n, p);
  }

  // --- payments ---------------------------------------------------------------------------------------

  /** Both balances move by an amount and a row is added to the allocations. */
  ghost predicate Moves(db: Db, after: Db, p: Id, d: Id, amount: int, row: Allocation)
  {
    && p < |db.payments| && d < |db.documents|
    && 0 <= db.payments[p].unallocated - amount <= db.payments[p].amount && db.documents[d].outstanding >= amount
    && after == db.(payments := db.payments[p := db.payments[p].(unallocated := db.payments[p].unallocated - amount)],
                    documents := db.documents[d := db.documents[d].(outstanding := db.documents[d].outstanding - amount)],
                    allocations := db.allocations + [row])
  }

  function BalanceCells(db: Db, p: Id, d: Id, amount: int): T.View
  {
    var funds := CellOf(db, T.PaymentKey(p));
    map[T.PaymentKey(p) := T.FundsCell(funds.amount - amount, funds.limit)]
    + map[T.DocumentKey(d) := T.OwedCell(CellOf(db, T.DocumentKey(d)).amount - amount)]
  }

  lemma TakeBothCells(view: T.View, db: Db, after: Db, p: Id, d: Id, amount: int, row: Allocation)
    requires Moves(db, after, p, d, amount, row)
    requires Sees(view, db, T.PaymentKey(p)) && Sees(view, db, T.DocumentKey(d))
    ensures T.TakeBoth(view, p, d, amount) == Some(BalanceCells(db, p, d, amount))
  {
    var payment, doc := db.payments[p], db.documents[d];
    assert T.Take(view, T.PaymentKey(p), amount)
        == Some(map[T.PaymentKey(p) := T.FundsCell(payment.unallocated - amount, payment.amount)]);
    assert T.Take(view, T.DocumentKey(d), amount) == Some(map[T.DocumentKey(d) := T.OwedCell(doc.outstanding - amount)]);
  }

  lemma MovesBecomes(db: Db, after: Db, p: Id, d: Id, amount: int, row: Allocation, marks: T.View)
    requires Moves(db, after, p, d, amount, row)
    requires match row.reverses
             case None => marks == map[]
             case Some(i) => marks == map[T.AllocationRow(i) := T.AllocationCell(1)]
    ensures Becomes(db, after, marks + BalanceCells(db, p, d, amount))
  {
    var cells := marks + BalanceCells(db, p, d, amount);
    SameNumbers(db.documents, d, after.documents[d]);
    forall k ensures BecomesAt(db, after, cells, k) {
      if k.AllocationRow? {
        ReversalAppends(db.allocations, row, k.i);
      } else if !(k.DocumentKey? || k.DocumentRow? || k.DocumentLines? || k == T.InvoiceNumberKey || k.PaymentKey?) {
        SameTables(db, after, k);
      }
    }
  }

  lemma AllocationWrites(view: T.View, db: Db, after: Db, p: Id, d: Id, amount: int, row: Allocation)
    requires Moves(db, after, p, d, amount, row) && amount > 0 && db.documents[d].status == DocPosted
    requires Sees(view, db, T.PaymentKey(p)) && Sees(view, db, T.DocumentKey(d)) && Sees(view, db, T.DocumentRow(d))
    ensures Writes(T.Allocate(p, d, amount), view, map[] + BalanceCells(db, p, d, amount))
  {
    TakeBothCells(view, db, after, p, d, amount, row);
    assert map[] + BalanceCells(db, p, d, amount) == BalanceCells(db, p, d, amount);
  }

  lemma AllocationPerforms(db: Db, after: Db, p: Id, d: Id, amount: int, row: Allocation)
    requires Moves(db, after, p, d, amount, row) && amount > 0 && db.documents[d].status == DocPosted && row.reverses.None?
    ensures Performs(db, after, T.Allocate(p, d, amount))
  {
    var view := Show(db, T.Allocate(p, d, amount));
    AllocationWrites(view, db, after, p, d, amount, row);
    MovesBecomes(db, after, p, d, amount, row, map[]);
  }

  lemma CreateAllocationPerforms(db: Db, p: Id, kind: DocumentKind, d: Id, amount: int)
    requires Y.AllocationsOk(db.documents, db.payments, db.allocations)
    requires Y.CreateAllocation(db, p, kind, d, amount).Success?
    ensures Performs(db, Y.CreateAllocation(db, p, kind, d, amount).value, T.Allocate(p, d, amount))
  {
    FundsStayWithin(db, p);
    AllocationPerforms(db, Y.CreateAllocation(db, p, kind, d, amount).value, p, d, amount, Allocation(p, d, amount, None));
  }

  lemma FundsStayWithin(db: Db, p: Id)
    requires Y.AllocationsOk(db.documents, db.payments, db.allocations) && p < |db.payments|
    ensures 0 <= db.payments[p].unallocated <= db.payments[p].amount
    ensures db.payments[p].amount - db.payments[p].unallocated == Y.LiveTotal(db.allocations, Y.OfPayment(p))
  {
    assert Y.PaymentOk(db.payments[p], Y.LiveTotal(db.allocations, Y.OfPayment(p)));
    Y.LiveNonNegative(db.allocations, Y.OfPayment(p), |db.allocations|);
  }

  lemma ReverseAllocationMoves(db: Db, i: Id)
    requires Y.AllocationsOk(db.documents, db.payments, db.allocations) && Y.ReverseAllocation(db, i).Success?
    ensures i < |db.allocations| && db.allocations[i].amount > 0 && !Y.IsReversed(db.allocations, i)
    ensures var a := db.allocations[i];
            Moves(db, Y.ReverseAllocation(db, i).value, a.payment, a.document, -a.amount, a.(reverses := Some(i)))
  {
    var a := db.allocations[i];
    assert Y.AllocationOk(db.allocations, i) && Y.ReferencesOk(db.documents, db.payments, a);
    assert Y.PaymentOk(db.payments[a.payment], Y.LiveTotal(db.allocations, Y.OfPayment(a.payment)));
    assert Y.SettlementOk(db.documents[a.document], Y.LiveTotal(db.allocations, Y.OfDocument(a.document)));
  }

  lemma ReversalWrites(view: T.View, db: Db, after: Db, i: Id, p: Id, d: Id, amount: int, row: Allocation)
    requires Moves(db, after, p, d, -amount, row) && amount > 0 && !Y.IsReversed(db.allocations, i)
    requires Sees(view, db, T.PaymentKey(p)) && Sees(view, db, T.DocumentKey(d)) && Sees(view, db, T.AllocationRow(i))
    ensures Writes(T.ReverseAllocation(i, p, d, amount), view,
                   map[T.AllocationRow(i) := T.AllocationCell(1)] + BalanceCells(db, p, d, -amount))
  {
    TakeBothCells(view, db, after, p, d, -amount, row);
    assert T.Mark(view, i) == Some(map[T.AllocationRow(i) := T.AllocationCell(1)]);
  }

  lemma ReversalBecomes(db: Db, after: Db, i: Id, p: Id, d: Id, amount: int, row: Allocation)
    requires Moves(db, after, p, d, -amount, row) && row.reverses == Some(i) && !Y.IsReversed(db.allocations, i)
    ensures Becomes(db, after, map[T.AllocationRow(i) := T.AllocationCell(1)] + BalanceCells(db, p, d, -amount))
  {
    MovesBecomes(db, after, p, d, -amount, row, map[T.AllocationRow(i) := T.AllocationCell(1)]);
  }

  lemma ReversalPerforms(db: Db, after: Db, i: Id, p: Id, d: Id, amount: int, row: Allocation)
    requires Moves(db, after, p, d, -amount, row) && amount > 0
    requires row.reverses == Some(i) && !Y.IsReversed(db.allocations, i)
    ensures Performs(db, after, T.ReverseAllocation(i, p, d, amount))
  {
    var view := Show(db, T.ReverseAllocation(i, p, d, amount));
    ReversalWrites(view, db, after, i, p, d, amount, row);
    ReversalBecomes(db, after, i, p, d, amount, row);
    Performed(db, after, T.ReverseAllocation(i, p, d, amount), view,
              map[T.AllocationRow(i) := T.AllocationCell(1)] + BalanceCells(db, p, d, -amount));
  }

  lemma ReverseAllocationPerforms(db: Db, i: Id)
    requires Y.AllocationsOk(db.documents, db.payments, db.allocations) && Y.ReverseAllocation(db, i).Success?
    ensures i < |db.allocations|
    ensures var a := db.allocations[i];
            Performs(db, Y.ReverseAllocation(db, i).value, T.ReverseAllocation(i, a.payment, a.document, a.amount))
  {
    ReverseAllocationMoves(db, i);
    var a := db.allocations[i];
    ReversalPerforms(db, Y.ReverseAllocation(db, i).value, i, a.payment, a.document, a.amount, a.(reverses := Some(i)));
  }

  // --- bank lines ----------------------------------------------------------------------------------------

  ghost predicate Reconciles(db: Db, after: Db, l: Id, row: BankLine, x: Entry)
  {
    && l < |db.bankLines| && db.bankLines[l].match_ == Unmatched && row.match_ != Unmatched
    && NewlyPosted(x)
    && after == db.(entries := db.entries + [x], bankLines := db.bankLines[l := row])
  }

  function LineCells(db: Db, l: Id, p: Id, date: Date): T.View
  {
    map[T.LineRow(l) := T.LineCell(1)] + EntryCells(db, |db.entries|, EntryPosted, p, date)
  }

  lemma AssignmentWrites(view: T.View, db: Db, l: Id, p: Id, date: Date)
    requires l < |db.bankLines| && db.bankLines[l].match_ == Unmatched
    requires OpenAt(db, p, date)
    requires Sees(view, db, T.LineRow(l)) && Sees(view, db, T.EntryRow(|db.entries|)) && Sees(view, db, T.PeriodKey(p))
    ensures Writes(T.AssignLine(l, |db.entries|, p, date), view, LineCells(db, l, p, date))
  {
    MovedEntryCells(view, db, |db.entries|, None, EntryPosted, p, date);
    assert T.BookLine(view, l) == Some(map[T.LineRow(l) := T.LineCell(1)]);
  }

  lemma ReconcilesBecomes(db: Db, after: Db, l: Id, row: BankLine, x: Entry, p: Id, date: Date)
    requires Reconciles(db, after, l, row, x) && p < |db.periods| && db.periods[p].open
    ensures Becomes(db, after, LineCells(db, l, p, date))
  {
    var cells := LineCells(db, l, p, date);
    forall k ensures BecomesAt(db, after, cells, k) {
      if k.EntryRow? || k.EntryLines? || k.PeriodKey? {
        AppendedEntry(db, after, x, p, date, k);
      } else if !k.LineRow? {
        SameTables(db, after, k);
      }
    }
  }

  /** The entry a reconciliation writes is posted and balances. */
  lemma ReconciledEntry(db: Db, after: Db, l: Id, match_: Match, p: Id)
    requires LineReconciled(db, after, l, match_, p)
    ensures |after.entries| == |db.entries| + 1 && NewlyPosted(after.entries[|db.entries|])
  {
    var line := db.bankLines[l].(match_ := match_, entry := Some(|db.entries|));
    var counter := Counterpart(db.chart, db.documents, line).value;
    B.BankEntryLinesEffect(db.chart.bankAccounts[line.bankAccount].ledger, counter.0, line.amount, 0);
  }

  lemma AssignReconciles(db: Db, l: Id, account: Id) returns (p: Id, row: BankLine, x: Entry)
    requires Inv(db) && B.AssignLine(db, l, account).Success?
    ensures Reconciles(db, B.AssignLine(db, l, account).value, l, row, x)
    ensures OpenAt(db, p, db.bankLines[l].date) && J.OpenPeriod(db.periods, db.bankLines[l].date) == Success(p)
  {
    p := AssignWrites(db, l, account);
    var after := B.AssignLine(db, l, account).value;
    ReconciledEntry(db, after, l, ToAccount(account), p);
    row, x := after.bankLines[l], after.entries[|db.entries|];
  }

  lemma {:induction false} AssignLinePerforms(db: Db, l: Id, account: Id) returns (p: Id)
    requires Inv(db) && B.AssignLine(db, l, account).Success?
    ensures l < |db.bankLines| && J.OpenPeriod(db.periods, db.bankLines[l].date) == Success(p)
    ensures Performs(db, B.AssignLine(db, l, account).value, T.AssignLine(l, |db.entries|, p, db.bankLines[l].date))
  {
    var row, x;
    p, row, x := AssignReconciles(db, l, account);
    var date := db.bankLines[l].date;
    var view := Show(db, T.AssignLine(l, |db.entries|, p, date));
    AssignmentWrites(view, db, l, p, date);
    ReconcilesBecomes(db, B.AssignLine(db, l, account).value, l, row, x, p, date);
  }

  ghost predicate Settles(db: Db, after: Db, l: Id, d: Id, row: BankLine, pay: Payment, a: Allocation, x: Entry)
  {
    && l < |db.bankLines| && db.bankLines[l].match_ == Unmatched && row.match_ != Unmatched
    && d < |db.documents| && db.documents[d].status == DocPosted && db.documents[d].outstanding > 0
    && pay.unallocated == 0 && pay.amount == db.documents[d].outstanding && a.reverses.None? && NewlyPosted(x)
    && after == db.(entries := db.entries + [x], bankLines := db.bankLines[l := row],
                    payments := db.payments + [pay], allocations := db.allocations + [a],
                    documents := db.documents[d := db.documents[d].(outstanding := 0)])
  }

  function MatchCells(db: Db, l: Id, d: Id, amount: int, p: Id, date: Date): T.View
  {
    map[T.LineRow(l) := T.LineCell(1)]
    + map[T.DocumentKey(d) := T.OwedCell(0), T.PaymentKey(|db.payments|) := T.FundsCell(0, amount)]
    + EntryCells(db, |db.entries|, EntryPosted, p, date)
  }

  lemma PaidOffCells(view: T.View, db: Db, d: Id, amount: int)
    requires d < |db.documents| && db.documents[d].status == DocPosted && db.documents[d].outstanding == amount > 0
    requires Sees(view, db, T.DocumentKey(d)) && Sees(view, db, T.DocumentRow(d)) && Sees(view, db, T.PaymentKey(|db.payments|))
    ensures T.PayOff(view, d, |db.payments|, amount)
         == Some(map[T.DocumentKey(d) := T.OwedCell(0), T.PaymentKey(|db.payments|) := T.FundsCell(0, amount)])
  {
  }

  lemma MatchMerges(view: T.View, job: T.Job, line: T.View, paid: T.View, entry: T.View)
    requires job.ConfirmMatch? && T.BookLine(view, job.l) == Some(line) && T.PayOff(view, job.d, job.p, job.amount) == Some(paid)
    requires T.MovedEntry(view, job.e, None, EntryPosted, job.period, job.date) == Some(entry)
    ensures T.Body(job, view) == Some(line + paid + entry)
  {
  }

  lemma MatchWrites(view: T.View, db: Db, l: Id, d: Id, amount: int, p: Id, date: Date)
    requires l < |db.bankLines| && db.bankLines[l].match_ == Unmatched
    requires d < |db.documents| && db.documents[d].status == DocPosted && db.documents[d].outstanding == amount > 0
    requires OpenAt(db, p, date)
    requires Sees(view, db, T.LineRow(l)) && Sees(view, db, T.DocumentKey(d)) && Sees(view, db, T.DocumentRow(d))
    requires Sees(view, db, T.PaymentKey(|db.payments|))
    requires Sees(view, db, T.EntryRow(|db.entries|)) && Sees(view, db, T.PeriodKey(p))
    ensures Writes(T.ConfirmMatch(l, d, |db.payments|, |db.entries|, amount, p, date), view,
                   MatchCells(db, l, d, amount, p, date))
  {
    MovedEntryCells(view, db, |db.entries|, None, EntryPosted, p, date);
    PaidOffCells(view, db, d, amount);
    MatchMerges(view, T.ConfirmMatch(l, d, |db.payments|, |db.entries|, amount, p, date), map[T.LineRow(l) := T.LineCell(1)],
                map[T.DocumentKey(d) := T.OwedCell(0), T.PaymentKey(|db.payments|) := T.FundsCell(0, amount)],
                EntryCells(db, |db.entries|, EntryPosted, p, date));
  }

  lemma MatchBecomes(db: Db, after: Db, l: Id, d: Id, row: BankLine, pay: Payment, a: Allocation, x: Entry, p: Id,
                     date: Date)
    requires Settles(db, after, l, d, row, pay, a, x) && p < |db.periods| && db.periods[p].open
    ensures Becomes(db, after, MatchCells(db, l, d, db.documents[d].outstanding, p, date))
  {
    var cells := MatchCells(db, l, d, db.documents[d].outstanding, p, date);
    SameNumbers(db.documents, d, after.documents[d]);
    forall k ensures BecomesAt(db, after, cells, k) {
      if k.EntryRow? || k.EntryLines? || k.PeriodKey? {
        AppendedEntry(db, after, x, p, date, k);
      } else if k.AllocationRow? {
        ReversalAppends(db.allocations, a, k.i);
      } else if k.NoteRow? || k == T.NoteNumberKey {
        SameTables(db, after, k);
      }
    }
  }

  /** The tables after a confirmed match, told by its two parts: paid and allocated, then reconciled. */
  lemma ReconciledSettles(db: Db, after: Db, l: Id, d: Id, p: Id) returns (row: BankLine, pay: Payment, a: Allocation, x: Entry)
    requires l < |db.bankLines| && db.bankLines[l].match_ == Unmatched
    requires d < |db.documents| && db.documents[d].status == DocPosted
    requires db.documents[d].outstanding == Abs(db.bankLines[l].amount) > 0
    requires LineReconciled(Settled(db, db.bankLines[l], d), after, l, ToDocument(d, |db.payments|), p)
    ensures Settles(db, after, l, d, row, pay, a, x)
  {
    var line := db.bankLines[l];
    ReconciledEntry(Settled(db, line, d), after, l, ToDocument(d, |db.payments|), p);
    row, x := after.bankLines[l], after.entries[|db.entries|];
    pay := LinePayment(line, db.documents[d]).(unallocated := 0);
    a := Allocation(|db.payments|, d, pay.amount, None);
  }

  lemma ConfirmSettles(db: Db, l: Id, kind: DocumentKind, d: Id)
    returns (p: Id, row: BankLine, pay: Payment, a: Allocation, x: Entry)
    requires TablesOk(db) && B.ConfirmMatch(db, l, kind, d).Success?
    ensures Settles(db, B.ConfirmMatch(db, l, kind, d).value, l, d, row, pay, a, x)
    ensures db.documents[d].outstanding == Abs(db.bankLines[l].amount)
    ensures OpenAt(db, p, db.bankLines[l].date) && J.OpenPeriod(db.periods, db.bankLines[l].date) == Success(p)
  {
    p := ConfirmWrites(db, l, kind, d);
    row, pay, a, x := ReconciledSettles(db, B.ConfirmMatch(db, l, kind, d).value, l, d, p);
    OpenPeriodCovers(db, db.bankLines[l].date);
  }

  lemma MatchPerforms(db: Db, after: Db, l: Id, d: Id, row: BankLine, pay: Payment, a: Allocation, x: Entry, p: Id,
                      date: Date)
    requires Settles(db, after, l, d, row, pay, a, x)
    requires OpenAt(db, p, date)
    ensures Performs(db, after, T.ConfirmMatch(l, d, |db.payments|, |db.entries|, db.documents[d].outstanding, p, date))
  {
    var amount := db.documents[d].outstanding;
    var view := Show(db, T.ConfirmMatch(l, d, |db.payments|, |db.entries|, amount, p, date));
    MatchWrites(view, db, l, d, amount, p, date);
    MatchBecomes(db, after, l, d, row, pay, a, x, p, date);
  }

  lemma {:induction false} ConfirmMatchPerforms(db: Db, l: Id, kind: DocumentKind, d: Id) returns (p: Id)
    requires Inv(db) && B.ConfirmMatch(db, l, kind, d).Success?
    ensures l < |db.bankLines| && J.OpenPeriod(db.periods, db.bankLines[l].date) == Success(p)
    ensures Performs(db, B.ConfirmMatch(db, l, kind, d).value,
                     T.ConfirmMatch(l, d, |db.payments|, |db.entries|, Abs(db.bankLines[l].amount), p, db.bankLines[l].date))
  {
    var row, pay, a, x;
    p, row, pay, a, x := ConfirmSettles(db, l, kind, d);
    MatchPerforms(db, B.ConfirmMatch(db, l, kind, d).value, l, d, row, pay, a, x, p, db.bankLines[l].date);
  }
}
