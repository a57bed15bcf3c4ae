/** The accounting transactions as they lock: which locks each takes, in which order, which values
    it reads under them, and which it reads without. */
module Traffic {
  import opened Wrappers
  import opened Sums
  import opened Records
  import opened TwoPhase

  // --- the two allocation keys -----------------------------------------------------

  /** Lexicographic order of strings by code point. */
  predicate StringLess(a: string, b: string)
  {
    b != "" && (a == "" || a[0] < b[0] || (a[0] == b[0] && StringLess(a[1..], b[1..])))
  }

  lemma {:induction false} CommonPrefix(prefix: string, a: string, b: string)
    ensures StringLess(prefix + a, prefix + b) == StringLess(a, b)
  {
    if prefix == "" {
      assert prefix + a == a && prefix + b == b;
    } else {
      assert (prefix + a)[1..] == prefix[1..] + a && (prefix + b)[1..] == prefix[1..] + b;
      CommonPrefix(prefix[1..], a, b);
    }
  }

  function PaymentText(id: string): string { "accounting.payment." + id }
  function DocumentText(id: string): string { "accounting.document." + id }

  /** `sorted` over the two key texts; `text` renders an id. */
  function LockPair(text: Id -> string, p: Id, d: Id): seq<Lock>
  {
    if StringLess(DocumentText(text(d)), PaymentText(text(p))) then [DocumentKey(d), PaymentKey(p)]
    else [PaymentKey(p), DocumentKey(d)]
  }

  /** Whatever the ids, the document's key comes first. */
  lemma DocumentKeyFirst(text: Id -> string, p: Id, d: Id)
    ensures LockPair(text, p, d) == [DocumentKey(d), PaymentKey(p)]
  {
    var pay, doc := "payment." + text(p), "document." + text(d);
    assert PaymentText(text(p)) == "accounting." + pay && DocumentText(text(d)) == "accounting." + doc;
    CommonPrefix("accounting.", doc, pay);
    assert doc[0] == 'd' && pay[0] == 'p';
  }

  // --- locks, values, jobs --------------------------------------------------------------

  /** Row locks, advisory keys, the lines of a journal entry or of a document (inserting lines takes a
      share lock on the row they belong to, which waits for a post that holds it, and makes a post
      wait), and one value that no lock guards: whether an allocation has been reversed. */
  datatype Lock =
    | LineRow(l: Id) | DocumentKey(d: Id) | PaymentKey(p: Id) | DocumentRow(d: Id) | NoteRow(n: Id) | DocumentLines(d: Id)
    | InvoiceNumberKey | NoteNumberKey | EntryRow(e: Id) | EntryLines(e: Id) | PeriodKey(p: Id) | AllocationRow(i: Id)

  /** The one global order: bank line, document key, payment key, document row, its lines, number key,
      journal entry rows (older before newer, up to the newest one there will be), their lines in the
      same order, period key. */
  function Rank(newest: Id): Lock -> nat
  {
    (lock: Lock) =>
      match lock
      case LineRow(_) => 0
      case DocumentKey(_) => 1
      case PaymentKey(_) => 2
      case DocumentRow(_) => 3
      case NoteRow(_) => 3
      case DocumentLines(_) => 4
      case InvoiceNumberKey => 5
      case NoteNumberKey => 5
      case EntryRow(e) => 6 + if e < newest then e else newest
      case EntryLines(e) => newest + 7 + if e < newest then e else newest
      case PeriodKey(_) => 2 * newest + 8
      case AllocationRow(_) => 2 * newest + 9
  }

  datatype Event = PostedOn(date: Date) | Closed | Reopened

  datatype Cell =
    | LineCell(bookings: nat)
    | OwedCell(amount: int)
    | FundsCell(amount: int, limit: int)
    | DocumentCell(status: DocumentStatus, number: Option<nat>)
    | NumbersCell(issued: seq<nat>)
    | EntryCell(state: Option<EntryStatus>, reversers: nat)
    | PeriodCell(start: Date, end: Date, open: bool, log: seq<Event>)
    | AllocationCell(reversals: nat)
    | LinesCell(balanced: bool)
    | ContentsCell(total: int, bookable: bool)

  datatype Job =
    | Allocate(p: Id, d: Id, amount: int)
    | PostEntry(e: Id, period: Id, date: Date)
    | ReverseEntry(e: Id, r: Id, period: Id, date: Date)
    | VoidEntry(e: Id)
    | UpdateEntry(e: Id, balanced: bool)
    | PostInvoice(d: Id, e: Id, total: int, period: Id, date: Date)
    | PostBill(d: Id, e: Id, total: int, period: Id, date: Date)
    | PostNote(n: Id, d: Id, e: Id, period: Id, date: Date)
    | UpdateDocument(d: Id, total: int, bookable: bool)
    | VoidDocument(d: Id)
    | VoidNote(n: Id)
    | AssignLine(l: Id, e: Id, period: Id, date: Date)
    | Close(period: Id)
    | Reopen(period: Id)
    | CancelDocument(d: Id, e: Id, r: Id, period: Id, date: Date)
    | ReverseAllocation(i: Id, p: Id, d: Id, amount: int)
    | ConfirmMatch(l: Id, d: Id, p: Id, e: Id, amount: int, period: Id, date: Date)

  /** A new row is newer than the rows there are: the reversing entry than the one it reverses. */
  predicate WellFormed(job: Job)
  {
    job.ReverseEntry? || job.CancelDocument? ==> job.e < job.r
  }

  function Plan(text: Id -> string, job: Job): seq<Lock>
  {
    match job
    case Allocate(p, d, _) => LockPair(text, p, d)
    case PostEntry(e, period, _) => [EntryRow(e), EntryLines(e), PeriodKey(period)]
    case ReverseEntry(e, r, period, _) => [EntryRow(e), EntryRow(r), EntryLines(e), EntryLines(r), PeriodKey(period)]
    case VoidEntry(e) => [EntryRow(e)]
    case UpdateEntry(e, _) => [EntryLines(e)]
    case PostInvoice(d, e, _, period, _) =>
      [DocumentRow(d), DocumentLines(d), InvoiceNumberKey, EntryRow(e), PeriodKey(period)]
    case PostBill(d, e, _, period, _) => [DocumentRow(d), DocumentLines(d), EntryRow(e), PeriodKey(period)]
    case PostNote(n, _, e, period, _) => [NoteRow(n), NoteNumberKey, EntryRow(e), PeriodKey(period)]
    case UpdateDocument(d, _, _) => [DocumentLines(d)]
    case VoidDocument(d) => [DocumentRow(d)]
    case VoidNote(n) => [NoteRow(n)]
    case AssignLine(l, e, period, _) => [LineRow(l), EntryRow(e), PeriodKey(period)]
    case Close(period) => [PeriodKey(period)]
    case Reopen(period) => [PeriodKey(period)]
    case CancelDocument(d, e, r, period, _) =>
      [DocumentRow(d), EntryRow(e), EntryRow(r), EntryLines(e), EntryLines(r), PeriodKey(period)]
    case ReverseAllocation(_, p, d, _) => LockPair(text, p, d)
    case ConfirmMatch(l, d, p, e, _, period, _) => [LineRow(l)] + LockPair(text, p, d) + [EntryRow(e), PeriodKey(period)]
  }

  /** What is read before its lock, or written without one. Updating an entry or a document looks at its
      status without the row lock that posting takes. Posting and cancelling a document set the
      outstanding amount under the document's row lock only; allocating, confirming a match and
      posting a credit note look at a document's status without its row lock; confirming also loads
      the document before locking its key; and reversing an allocation looks for an earlier reversal
      before locking. */
  function Early(job: Job): set<Lock>
  {
    match job
    case Allocate(_, d, _) => {DocumentRow(d)}
    case UpdateEntry(e, _) => {EntryRow(e)}
    case UpdateDocument(d, _, _) => {DocumentRow(d)}
    case PostInvoice(d, _, _, _, _) => {DocumentKey(d)}
    case PostBill(d, _, _, _, _) => {DocumentKey(d)}
    case PostNote(_, d, _, _, _) => {DocumentRow(d)}
    case CancelDocument(d, _, _, _, _) => {DocumentKey(d)}
    case ReverseAllocation(i, _, _, _) => {AllocationRow(i)}
    case ConfirmMatch(_, d, _, _, _, _, _) => {DocumentKey(d), DocumentRow(d)}
    case _ => {}
  }

  // --- what each job does with the values it read --------------------------------------------

  type View = map<Lock, Cell>

  function Merge(a: Option<View>, b: Option<View>): (r: Option<View>)
    ensures r.Some? ==> a.Some? && b.Some? && r.value.Keys == a.value.Keys + b.value.Keys
  {
    if a.Some? && b.Some? then Some(a.value + b.value) else None
  }

  /** Takes an amount, or gives back a negative one, if the balance allows it: a payment's cannot rise
      above the payment itself. */
  function Take(view: View, lock: Lock, amount: int): (r: Option<View>)
    ensures r.Some? ==> r.value.Keys == {lock}
  {
    if lock in view && view[lock].OwedCell? && view[lock].amount >= amount
    then Some(map[lock := OwedCell(view[lock].amount - amount)])
    else if lock in view && view[lock].FundsCell? && 0 <= view[lock].amount - amount <= view[lock].limit
    then Some(map[lock := FundsCell(view[lock].amount - amount, view[lock].limit)])
    else None
  }

  function LogPost(view: View, period: Id, date: Date): (r: Option<View>)
    ensures r.Some? ==> r.value.Keys == {PeriodKey(period)}
  {
    if PeriodKey(period) in view && view[PeriodKey(period)].PeriodCell? && view[PeriodKey(period)].open
    then Some(map[PeriodKey(period) := view[PeriodKey(period)].(log := view[PeriodKey(period)].log + [PostedOn(date)])])
    else None
  }

  function SetOpen(view: View, period: Id, open: bool): (r: Option<View>)
    ensures r.Some? ==> r.value.Keys == {PeriodKey(period)}
  {
    var k := PeriodKey(period);
    if k in view && view[k].PeriodCell? && view[k].open != open
    then Some(map[k := view[k].(open := open, log := view[k].log + [if open then Reopened else Closed])])
    else None
  }

  function MoveEntry(view: View, e: Id, from: Option<EntryStatus>, to: EntryStatus): (r: Option<View>)
    ensures r.Some? ==> r.value.Keys == {EntryRow(e)}
  {
    var k := EntryRow(e);
    if k in view && view[k].EntryCell? && view[k].state == from
    then Some(map[k := EntryCell(Some(to), if to == EntryReversed then view[k].reversers + 1 else view[k].reversers)])
    else None
  }

  function MoveDocument(view: View, lock: Lock, from: DocumentStatus, to: DocumentStatus,
                        number: Option<nat>): (r: Option<View>)
    ensures r.Some? ==> r.value.Keys == {lock}
  {
    if lock in view && view[lock].DocumentCell? && view[lock].status == from
    then Some(map[lock := DocumentCell(to, if number.Some? then number else view[lock].number)])
    else None
  }

  /** The next number after the highest issued, and the list with it. */
  function NextNumber(view: View, lock: Lock): Option<nat>
  {
    if lock in view && view[lock].NumbersCell?
    then Some(if view[lock].issued == [] then 1 else view[lock].issued[|view[lock].issued| - 1] + 1)
    else None
  }

  function AssignNumber(view: View, lock: Lock): (r: Option<View>)
    ensures r.Some? ==> r.value.Keys == {lock}
  {
    var next := NextNumber(view, lock);
    if next.Some? then Some(map[lock := NumbersCell(view[lock].issued + [next.value])]) else None
  }

  function BookLine(view: View, l: Id): (r: Option<View>)
    ensures r.Some? ==> r.value.Keys == {LineRow(l)}
  {
    if LineRow(l) in view && view[LineRow(l)] == LineCell(0) then Some(map[LineRow(l) := LineCell(1)]) else None
  }

  predicate IsPosted(view: View, d: Id)
  {
    DocumentRow(d) in view && view[DocumentRow(d)].DocumentCell? && view[DocumentRow(d)].status == DocPosted
  }

  /** Sets what a document owes. */
  function Owe(view: View, d: Id, amount: int): (r: Option<View>)
    ensures r.Some? ==> r.value.Keys == {DocumentKey(d)}
  {
    if amount >= 0 && DocumentKey(d) in view && view[DocumentKey(d)].OwedCell?
    then Some(map[DocumentKey(d) := OwedCell(amount)]) else None
  }

  /** The entry's move and the post into its period. */
  function MovedEntry(view: View, e: Id, from: Option<EntryStatus>, to: EntryStatus, period: Id,
                      date: Date): (r: Option<View>)
    ensures r.Some? ==> r.value.Keys == {EntryRow(e), PeriodKey(period)}
  {
    Merge(MoveEntry(view, e, from, to), LogPost(view, period, date))
  }

  /** The entry's reversal, its new row, and the post into the period. */
  function ReversedRows(view: View, e: Id, r: Id, period: Id, date: Date): (result: Option<View>)
    ensures result.Some? ==> result.value.Keys == {EntryRow(e), EntryRow(r), PeriodKey(period)}
  {
    Merge(MoveEntry(view, e, Some(EntryPosted), EntryReversed), MovedEntry(view, r, None, EntryPosted, period, date))
  }

  /** The lines found are mirrored into the new row, whether they balance or not. */
  function MirrorLines(view: View, e: Id, r: Id): (result: Option<View>)
    ensures result.Some? ==> result.value.Keys == {EntryLines(r)}
  {
    if EntryLines(e) in view && view[EntryLines(e)].LinesCell? && EntryLines(r) in view
    then Some(map[EntryLines(r) := view[EntryLines(e)]]) else None
  }

  function ReversedEntry(view: View, e: Id, r: Id, period: Id, date: Date): (result: Option<View>)
    ensures result.Some? ==> result.value.Keys == {EntryRow(e), EntryRow(r), EntryLines(r), PeriodKey(period)}
  {
    Merge(ReversedRows(view, e, r, period, date), MirrorLines(view, e, r))
  }

  /** A numbered row with its number. */
  function Numbered(view: View, row: Lock, key: Lock): (r: Option<View>)
    ensures r.Some? ==> r.value.Keys == {row, key}
  {
    Merge(MoveDocument(view, row, DocDraft, DocPosted, NextNumber(view, key)), AssignNumber(view, key))
  }

  /** The balances an allocation of an amount, or the reversal of one, moves. */
  function TakeBoth(view: View, p: Id, d: Id, amount: int): (r: Option<View>)
    ensures r.Some? ==> r.value.Keys == {PaymentKey(p), DocumentKey(d)}
  {
    Merge(Take(view, PaymentKey(p), amount), Take(view, DocumentKey(d), amount))
  }

  function Mark(view: View, i: Id): (r: Option<View>)
    ensures r.Some? ==> r.value.Keys == {AllocationRow(i)}
  {
    if AllocationRow(i) in view && view[AllocationRow(i)] == AllocationCell(0)
    then Some(map[AllocationRow(i) := AllocationCell(1)]) else None
  }

  /** Both balances get the amount back, once. */
  function GiveBack(view: View, i: Id, p: Id, d: Id, amount: int): (r: Option<View>)
    ensures r.Some? ==> r.value.Keys == {AllocationRow(i), PaymentKey(p), DocumentKey(d)}
  {
    if amount <= 0 then None else Merge(Mark(view, i), TakeBoth(view, p, d, -amount))
  }

  /** The document is paid off through a new payment, at once fully allocated. */
  function PayOff(view: View, d: Id, p: Id, amount: int): (r: Option<View>)
    ensures r.Some? ==> r.value.Keys == {PaymentKey(p), DocumentKey(d)}
  {
    if IsPosted(view, d) && amount > 0 && DocumentKey(d) in view && view[DocumentKey(d)] == OwedCell(amount)
       && PaymentKey(p) in view && view[PaymentKey(p)] == FundsCell(0, 0)
    then Some(map[DocumentKey(d) := OwedCell(0), PaymentKey(p) := FundsCell(0, amount)]) else None
  }

  /** The draft's lines are replaced. */
  function Replace(view: View, e: Id, balanced: bool): (r: Option<View>)
    ensures r.Some? ==> r.value.Keys == {EntryLines(e)}
  {
    if EntryRow(e) in view && view[EntryRow(e)].EntryCell? && view[EntryRow(e)].state == Some(EntryDraft)
       && EntryLines(e) in view
    then Some(map[EntryLines(e) := LinesCell(balanced)]) else None
  }

  /** The draft document's lines, and its total with them, are replaced. */
  function Rewrite(view: View, d: Id, total: int, bookable: bool): (r: Option<View>)
    ensures r.Some? ==> r.value.Keys == {DocumentLines(d)}
  {
    if DocumentRow(d) in view && view[DocumentRow(d)].DocumentCell? && view[DocumentRow(d)].status == DocDraft
       && DocumentLines(d) in view
    then Some(map[DocumentLines(d) := ContentsCell(total, bookable)]) else None
  }

  /** The document's lines can be booked, and come to the total. */
  predicate ComesTo(view: View, d: Id, total: int)
  {
    DocumentLines(d) in view && view[DocumentLines(d)] == ContentsCell(total, true)
  }

  /** An invoice is numbered, owes its total, and is booked; a bill is not numbered. */
  function BookInvoice(view: View, d: Id, e: Id, total: int, period: Id, date: Date): (r: Option<View>)
    ensures r.Some? ==> r.value.Keys == {DocumentRow(d), InvoiceNumberKey, DocumentKey(d), EntryRow(e), PeriodKey(period)}
  {
    Merge(Merge(Numbered(view, DocumentRow(d), InvoiceNumberKey), Owe(view, d, total)),
          MovedEntry(view, e, None, EntryPosted, period, date))
  }

  function BookBill(view: View, d: Id, e: Id, total: int, period: Id, date: Date): (r: Option<View>)
    ensures r.Some? ==> r.value.Keys == {DocumentRow(d), DocumentKey(d), EntryRow(e), PeriodKey(period)}
  {
    Merge(Merge(MoveDocument(view, DocumentRow(d), DocDraft, DocPosted, None), Owe(view, d, total)),
          MovedEntry(view, e, None, EntryPosted, period, date))
  }

  function BookNote(view: View, n: Id, e: Id, period: Id, date: Date): (r: Option<View>)
    ensures r.Some? ==> r.value.Keys == {NoteRow(n), NoteNumberKey, EntryRow(e), PeriodKey(period)}
  {
    Merge(Numbered(view, NoteRow(n), NoteNumberKey), MovedEntry(view, e, None, EntryPosted, period, date))
  }

  function BookLineEntry(view: View, l: Id, e: Id, period: Id, date: Date): (r: Option<View>)
    ensures r.Some? ==> r.value.Keys == {LineRow(l), EntryRow(e), PeriodKey(period)}
  {
    Merge(BookLine(view, l), MovedEntry(view, e, None, EntryPosted, period, date))
  }

  function BookMatch(view: View, l: Id, d: Id, p: Id, e: Id, amount: int, period: Id, date: Date): (r: Option<View>)
    ensures r.Some? ==> r.value.Keys == {LineRow(l), DocumentKey(d), PaymentKey(p), EntryRow(e), PeriodKey(period)}
  {
    Merge(Merge(BookLine(view, l), PayOff(view, d, p, amount)), MovedEntry(view, e, None, EntryPosted, period, date))
  }

  function Unbook(view: View, d: Id, e: Id, r: Id, period: Id, date: Date): (result: Option<View>)
    ensures result.Some? ==>
              result.value.Keys == {DocumentRow(d), DocumentKey(d), EntryRow(e), EntryRow(r), EntryLines(r), PeriodKey(period)}
  {
    Merge(Merge(MoveDocument(view, DocumentRow(d), DocPosted, DocCancelled, None), Owe(view, d, 0)),
          ReversedEntry(view, e, r, period, date))
  }

  /** What a job that commits writes. */
  function Written(job: Job): set<Lock>
  {
    match job
    case Allocate(p, d, _) => {PaymentKey(p), DocumentKey(d)}
    case PostEntry(e, period, _) => {EntryRow(e), PeriodKey(period)}
    case ReverseEntry(e, r, period, _) => {EntryRow(e), EntryRow(r), EntryLines(r), PeriodKey(period)}
    case VoidEntry(e) => {EntryRow(e)}
    case UpdateEntry(e, _) => {EntryLines(e)}
    case PostInvoice(d, e, _, period, _) => {DocumentRow(d), InvoiceNumberKey, DocumentKey(d), EntryRow(e), PeriodKey(period)}
    case PostBill(d, e, _, period, _) => {DocumentRow(d), DocumentKey(d), EntryRow(e), PeriodKey(period)}
    case PostNote(n, _, e, period, _) => {NoteRow(n), NoteNumberKey, EntryRow(e), PeriodKey(period)}
    case UpdateDocument(d, _, _) => {DocumentLines(d)}
    case VoidDocument(d) => {DocumentRow(d)}
    case VoidNote(n) => {NoteRow(n)}
    case AssignLine(l, e, period, _) => {LineRow(l), EntryRow(e), PeriodKey(period)}
    case Close(period) => {PeriodKey(period)}
    case Reopen(period) => {PeriodKey(period)}
    case CancelDocument(d, e, r, period, _) =>
      {DocumentRow(d), DocumentKey(d), EntryRow(e), EntryRow(r), EntryLines(r), PeriodKey(period)}
    case ReverseAllocation(i, p, d, _) => {AllocationRow(i), PaymentKey(p), DocumentKey(d)}
    case ConfirmMatch(l, d, p, e, _, period, _) => {LineRow(l), DocumentKey(d), PaymentKey(p), EntryRow(e), PeriodKey(period)}
  }

  function Body(job: Job, view: View): Option<View>
  {
    match job
    case Allocate(p, d, amount) =>
      if amount <= 0 || !IsPosted(view, d) then None else TakeBoth(view, p, d, amount)
    case PostEntry(e, period, date) =>
      if EntryLines(e) !in view || view[EntryLines(e)] != LinesCell(true) then None
      else MovedEntry(view, e, Some(EntryDraft), EntryPosted, period, date)
    case ReverseEntry(e, r, period, date) => ReversedEntry(view, e, r, period, date)
    case VoidEntry(e) => MoveEntry(view, e, Some(EntryDraft), EntryVoided)
    case UpdateEntry(e, balanced) => Replace(view, e, balanced)
    case PostInvoice(d, e, total, period, date) =>
      if ComesTo(view, d, total) then BookInvoice(view, d, e, total, period, date) else None
    case PostBill(d, e, total, period, date) =>
      if ComesTo(view, d, total) then BookBill(view, d, e, total, period, date) else None
    case UpdateDocument(d, total, bookable) => Rewrite(view, d, total, bookable)
    case PostNote(n, d, e, period, date) =>
      if IsPosted(view, d) then BookNote(view, n, e, period, date) else None
    case VoidDocument(d) => MoveDocument(view, DocumentRow(d), DocDraft, DocVoided, None)
    case VoidNote(n) => MoveDocument(view, NoteRow(n), DocDraft, DocVoided, None)
    case AssignLine(l, e, period, date) => BookLineEntry(view, l, e, period, date)
    case Close(period) => SetOpen(view, period, false)
    case Reopen(period) => SetOpen(view, period, true)
    case CancelDocument(d, e, r, period, date) => Unbook(view, d, e, r, period, date)
    case ReverseAllocation(i, p, d, amount) => GiveBack(view, i, p, d, amount)
    case ConfirmMatch(l, d, p, e, amount, period, date) => BookMatch(view, l, d, p, e, amount, period, date)
  }

  lemma BookingWritten(job: Job, view: View)
    requires job.PostInvoice? || job.PostBill? || job.PostNote? || job.AssignLine?
    ensures Body(job, view).Some? ==> Body(job, view).value.Keys == Written(job)
  {
  }

  lemma UnbookingWritten(job: Job, view: View)
    requires job.CancelDocument? || job.ReverseEntry?
    ensures Body(job, view).Some? ==> Body(job, view).value.Keys == Written(job)
  {
  }

  lemma MoneyWritten(job: Job, view: View)
    requires job.Allocate? || job.ReverseAllocation? || job.ConfirmMatch?
    ensures Body(job, view).Some? ==> Body(job, view).value.Keys == Written(job)
  {
  }

  lemma BodyWritten(job: Job, view: View)
    ensures Body(job, view).Some? ==> Body(job, view).value.Keys == Written(job)
  {
    if job.PostInvoice? || job.PostBill? || job.PostNote? || job.AssignLine? {
      BookingWritten(job, view);
    } else if job.CancelDocument? || job.ReverseEntry? {
      UnbookingWritten(job, view);
    } else if job.Allocate? || job.ReverseAllocation? || job.ConfirmMatch? {
      MoneyWritten(job, view);
    }
  }

  function TxnOf(text: Id -> string, job: Job): Txn<Lock, Cell, Job>
  {
    Txn(job, Plan(text, job), Early(job), (view: View) => Body(job, view))
  }

  type Store = map<Lock, Cell>
  type Moves = seq<Move<Lock, Cell, Job>>

  /** The run from a store on. */
  function From(store: Store, moves: Moves): System<Lock, Cell, Job> { Run(Start<Lock, Cell, Job>(store), moves) }

  // --- deadlock freedom ---------------------------------------------------------------------------

  predicate TakesPair(job: Job) { job.Allocate? || job.ReverseAllocation? || job.ConfirmMatch? }

  ghost predicate InOrder(plan: seq<Lock>, newest: Id)
  {
    forall i, j :: 0 <= i < j < |plan| ==> Rank(newest)(plan[i]) < Rank(newest)(plan[j])
  }

  /** The newest entry row the job locks, where it locks two. */
  function Newest(job: Job): Id
  {
    if job.ReverseEntry? || job.CancelDocument? then job.r else 0
  }

  lemma PairPlansInOrder(text: Id -> string, job: Job, newest: Id)
    requires TakesPair(job)
    ensures InOrder(Plan(text, job), newest)
  {
    DocumentKeyFirst(text, job.p, job.d);
    if job.ConfirmMatch? {
      var pair := LockPair(text, job.p, job.d);
      assert Plan(text, job) == [LineRow(job.l), pair[0], pair[1], EntryRow(job.e), PeriodKey(job.period)];
    }
  }

  lemma OtherPlansInOrder(text: Id -> string, job: Job, newest: Id)
    requires !TakesPair(job) && WellFormed(job) && Newest(job) <= newest
    ensures InOrder(Plan(text, job), newest)
  {
  }

  /** Every service takes its locks in the global order. */
  lemma PlansAreRanked(text: Id -> string, job: Job, newest: Id)
    requires WellFormed(job) && Newest(job) <= newest
    ensures Ranked(TxnOf(text, job), Rank(newest))
  {
    if TakesPair(job) { PairPlansInOrder(text, job, newest); } else { OtherPlansInOrder(text, job, newest); }
  }

  /** Only transactions of the services start. */
  ghost predicate ServiceMoves(text: Id -> string, moves: seq<Move<Lock, Cell, Job>>)
  {
    forall k :: 0 <= k < |moves| && moves[k].Begin? ==>
      moves[k].txn == TxnOf(text, moves[k].txn.job) && WellFormed(moves[k].txn.job)
  }

  /** The newest entry row among the transactions begun. */
  function NewestOf(moves: seq<Move<Lock, Cell, Job>>): (n: Id)
    ensures forall k :: 0 <= k < |moves| && moves[k].Begin? ==> Newest(moves[k].txn.job) <= n
  {
    if moves == [] then 0
    else
      var earlier, last := NewestOf(moves[..|moves| - 1]), moves[|moves| - 1];
      if last.Begin? && Newest(last.txn.job) > earlier then Newest(last.txn.job) else earlier
  }

  /** Under any interleaving of any number of post, reverse, cancel, allocate, reconcile, close, update
      and void transactions, no set of them waits in a circle, and as long as one is running, one can
      take its next lock or finish. */
  lemma {:induction false} NoDeadlocks(text: Id -> string, store: map<Lock, Cell>, moves: seq<Move<Lock, Cell, Job>>,
                                       path: seq<nat>, i: nat) returns (j: nat)
    requires ServiceMoves(text, moves)
    requires var sys := Run(Start<Lock, Cell, Job>(store), moves); i < |sys.workers| && sys.workers[i].running
    ensures var sys := Run(Start<Lock, Cell, Job>(store), moves);
            && (WaitPath(sys, path) ==> path[0] != path[|path| - 1])
            && j < |sys.workers| && sys.workers[j].running
            && (CanAcquire(sys, j) || sys.workers[j].held == |sys.workers[j].txn.plan|)
  {
    var sys, newest := Run(Start<Lock, Cell, Job>(store), moves), NewestOf(moves);
    forall k | 0 <= k < |moves| && moves[k].Begin? ensures Ranked(moves[k].txn, Rank(newest)) {
      PlansAreRanked(text, moves[k].txn.job, newest);
    }
    RunKeepsRanked(store, moves, Rank(newest));
    if WaitPath(sys, path) { NoDeadlock(sys, Rank(newest), path); }
    j := SomeoneCanGoOn(sys, Rank(newest), 2 * newest + 9, i);
  }

  // --- what every serial step keeps ----------------------------------------------------------------

  function OpenAfter(log: seq<Event>): bool
  {
    if log == [] then true
    else match log[|log| - 1]
      case PostedOn(_) => OpenAfter(log[..|log| - 1])
      case Closed => false
      case Reopened => true
  }

  /** Posts happen only while the period is open and on dates of the period; closes and reopens
      alternate. */
  predicate LogOk(log: seq<Event>, start: Date, end: Date)
  {
    forall k :: 0 <= k < |log| ==>
      match log[k]
      case PostedOn(date) => OpenAfter(log[..k]) && start <= date <= end
      case Closed => OpenAfter(log[..k])
      case Reopened => !OpenAfter(log[..k])
  }

  predicate CellOk(cell: Cell)
  {
    match cell
    case LineCell(bookings) => bookings <= 1
    case OwedCell(amount) => amount >= 0
    case FundsCell(amount, limit) => 0 <= amount <= limit
    case DocumentCell(_, _) => true
    case NumbersCell(issued) => forall i :: 0 <= i < |issued| ==> issued[i] == i + 1
    case EntryCell(state, reversers) => reversers == if state == Some(EntryReversed) then 1 else 0
    case PeriodCell(start, end, open, log) => open == OpenAfter(log) && LogOk(log, start, end)
    case AllocationCell(reversals) => reversals <= 1
    case LinesCell(_) => true
    case ContentsCell(_, _) => true
  }

  /** The kind of value a lock guards. */
  predicate KindOk(lock: Lock, cell: Cell)
  {
    match lock
    case LineRow(_) => cell.LineCell?
    case DocumentKey(_) => cell.OwedCell?
    case PaymentKey(_) => cell.FundsCell?
    case DocumentRow(_) => cell.DocumentCell?
    case NoteRow(_) => cell.DocumentCell?
    case InvoiceNumberKey => cell.NumbersCell?
    case NoteNumberKey => cell.NumbersCell?
    case EntryRow(_) => cell.EntryCell?
    case PeriodKey(_) => cell.PeriodCell?
    case AllocationRow(_) => cell.AllocationCell?
    case EntryLines(_) => cell.LinesCell?
    case DocumentLines(_) => cell.ContentsCell?
  }

  ghost predicate AllOk(store: map<Lock, Cell>)
  {
    forall k :: k in store ==> CellOk(store[k]) && KindOk(k, store[k])
  }

  /** The period's dates, which never change, cover the date of the job that looked it up. */
  predicate LookedUp(store: map<Lock, Cell>, job: Job)
  {
    match job
    case PostEntry(_, period, date) => CoveredBy(store, period, date)
    case ReverseEntry(_, _, period, date) => CoveredBy(store, period, date)
    case PostInvoice(_, _, _, period, date) => CoveredBy(store, period, date)
    case PostBill(_, _, _, period, date) => CoveredBy(store, period, date)
    case PostNote(_, _, _, period, date) => CoveredBy(store, period, date)
    case AssignLine(_, _, period, date) => CoveredBy(store, period, date)
    case CancelDocument(_, _, _, period, date) => CoveredBy(store, period, date)
    case ConfirmMatch(_, _, _, _, _, period, date) => CoveredBy(store, period, date)
    case _ => true
  }

  predicate CoveredBy(store: map<Lock, Cell>, period: Id, date: Date)
  {
    PeriodKey(period) in store && store[PeriodKey(period)].PeriodCell? ==>
      store[PeriodKey(period)].start <= date <= store[PeriodKey(period)].end
  }

  predicate DocumentForward(a: DocumentStatus, b: DocumentStatus)
  {
    a == b || a == DocDraft || (a == DocPosted && b == DocCancelled)
  }

  predicate EntryForward(a: Option<EntryStatus>, b: Option<EntryStatus>)
  {
    a == b || a == None || (a == Some(EntryDraft) && b != None) || (a == Some(EntryPosted) && b == Some(EntryReversed))
  }

  /** What one cell may become: a booked line stays booked, a document or an entry never goes back
      to an earlier status, a number stays, numbers are only added, and a payment's amount, a period's
      dates and the past of its log never change. */
  predicate CellGrows(a: Cell, b: Cell)
  {
    match a
    case LineCell(n) => b.LineCell? && b.bookings >= n
    case OwedCell(_) => b.OwedCell?
    case FundsCell(_, limit) => b.FundsCell? && (limit != 0 ==> b.limit == limit)
    case DocumentCell(status, number) =>
      b.DocumentCell? && DocumentForward(status, b.status) && (status != DocDraft ==> b.number == number)
    case NumbersCell(issued) => b.NumbersCell? && issued <= b.issued
    case EntryCell(state, n) => b.EntryCell? && EntryForward(state, b.state) && b.reversers >= n
    case PeriodCell(start, end, _, log) => b.PeriodCell? && b.start == start && b.end == end && log <= b.log
    case AllocationCell(n) => b.AllocationCell? && b.reversals >= n
    case LinesCell(_) => b.LinesCell?
    case ContentsCell(_, _) => b.ContentsCell?
  }

  lemma LogExtends(log: seq<Event>, event: Event, start: Date, end: Date)
    requires LogOk(log, start, end)
    requires match event
             case PostedOn(date) => OpenAfter(log) && start <= date <= end
             case Closed => OpenAfter(log)
             case Reopened => !OpenAfter(log)
    ensures LogOk(log + [event], start, end)
    ensures OpenAfter(log + [event]) == (if event.PostedOn? then OpenAfter(log) else event.Reopened?)
  {
    var after := log + [event];
    assert after[..|log|] == log;
    forall k | 0 <= k < |log| ensures after[..k] == log[..k] {
    }
  }

  /** The cells a job writes are sound again and grow out of the ones it read. */
  ghost predicate WritesOk(view: View, result: View)
  {
    forall k :: k in result ==> k in view && CellOk(result[k]) && KindOk(k, result[k]) && CellGrows(view[k], result[k])
  }

  ghost predicate Writes(view: View, r: Option<View>)
  {
    r.Some? ==> WritesOk(view, r.value)
  }

  lemma LogPostOk(view: View, period: Id, date: Date)
    requires AllOk(view) && CoveredBy(view, period, date)
    ensures Writes(view, LogPost(view, period, date))
  {
    if LogPost(view, period, date).Some? {
      var cell := view[PeriodKey(period)];
      LogExtends(cell.log, PostedOn(date), cell.start, cell.end);
    }
  }

  lemma SetOpenOk(view: View, period: Id, open: bool)
    requires AllOk(view)
    ensures Writes(view, SetOpen(view, period, open))
  {
    if SetOpen(view, period, open).Some? {
      var cell := view[PeriodKey(period)];
      LogExtends(cell.log, if open then Reopened else Closed, cell.start, cell.end);
    }
  }

  lemma MergeOk(view: View, a: Option<View>, b: Option<View>)
    requires Writes(view, a) && Writes(view, b)
    ensures Writes(view, Merge(a, b))
  {
  }

  lemma MovedEntryOk(view: View, e: Id, from: Option<EntryStatus>, to: EntryStatus, period: Id, date: Date)
    requires AllOk(view) && CoveredBy(view, period, date) && EntryForward(from, Some(to)) && from != Some(EntryReversed)
    ensures Writes(view, MoveEntry(view, e, from, to))
    ensures Writes(view, MovedEntry(view, e, from, to, period, date))
  {
    LogPostOk(view, period, date);
    MergeOk(view, MoveEntry(view, e, from, to), LogPost(view, period, date));
  }

  lemma ReversedEntryOk(view: View, e: Id, r: Id, period: Id, date: Date)
    requires AllOk(view) && CoveredBy(view, period, date)
    ensures Writes(view, ReversedEntry(view, e, r, period, date))
  {
    MovedEntryOk(view, e, Some(EntryPosted), EntryReversed, period, date);
    MovedEntryOk(view, r, None, EntryPosted, period, date);
    MergeOk(view, MoveEntry(view, e, Some(EntryPosted), EntryReversed), MovedEntry(view, r, None, EntryPosted, period, date));
    MirrorLinesOk(view, e, r);
    MergeOk(view, ReversedRows(view, e, r, period, date), MirrorLines(view, e, r));
  }

  lemma MirrorLinesOk(view: View, e: Id, r: Id)
    requires AllOk(view)
    ensures Writes(view, MirrorLines(view, e, r))
  {
  }

  lemma RewriteOk(view: View, d: Id, total: int, bookable: bool)
    requires AllOk(view)
    ensures Writes(view, Rewrite(view, d, total, bookable))
  {
  }

  lemma NumberedOk(view: View, row: Lock, key: Lock)
    requires AllOk(view)
    ensures Writes(view, Numbered(view, row, key))
  {
  }

  lemma SmallWritesOk(view: View, d: Id, l: Id, amount: int, from: DocumentStatus, to: DocumentStatus)
    requires AllOk(view) && DocumentForward(from, to)
    ensures Writes(view, Owe(view, d, amount)) && Writes(view, BookLine(view, l))
    ensures Writes(view, MoveDocument(view, DocumentRow(d), from, to, None))
  {
  }

  lemma TakeBothOk(view: View, p: Id, d: Id, amount: int)
    requires AllOk(view)
    ensures Writes(view, TakeBoth(view, p, d, amount))
  {
    assert Writes(view, Take(view, PaymentKey(p), amount)) && Writes(view, Take(view, DocumentKey(d), amount));
    MergeOk(view, Take(view, PaymentKey(p), amount), Take(view, DocumentKey(d), amount));
  }

  lemma PayOffOk(view: View, d: Id, p: Id, amount: int)
    requires AllOk(view)
    ensures Writes(view, PayOff(view, d, p, amount))
  {
  }

  predicate PostsDocument(job: Job) { job.PostInvoice? || job.PostBill? || job.PostNote? || job.CancelDocument? }

  lemma DocumentBodyOk(view: View, job: Job)
    requires AllOk(view) && LookedUp(view, job) && PostsDocument(job)
    ensures Writes(view, Body(job, view))
  {
    match job
    case PostInvoice(d, e, total, period, date) =>
      NumberedOk(view, DocumentRow(d), InvoiceNumberKey);
      SmallWritesOk(view, d, 0, total, DocDraft, DocPosted);
      MovedEntryOk(view, e, None, EntryPosted, period, date);
      MergeOk(view, Numbered(view, DocumentRow(d), InvoiceNumberKey), Owe(view, d, total));
      MergeOk(view, Merge(Numbered(view, DocumentRow(d), InvoiceNumberKey), Owe(view, d, total)),
              MovedEntry(view, e, None, EntryPosted, period, date));
      assert Writes(view, BookInvoice(view, d, e, total, period, date));
    case PostBill(d, e, total, period, date) =>
      var moved := MoveDocument(view, DocumentRow(d), DocDraft, DocPosted, None);
      SmallWritesOk(view, d, 0, total, DocDraft, DocPosted);
      MovedEntryOk(view, e, None, EntryPosted, period, date);
      MergeOk(view, moved, Owe(view, d, total));
      MergeOk(view, Merge(moved, Owe(view, d, total)), MovedEntry(view, e, None, EntryPosted, period, date));
      assert Writes(view, BookBill(view, d, e, total, period, date));
    case PostNote(n, d, e, period, date) =>
      NumberedOk(view, NoteRow(n), NoteNumberKey);
      MovedEntryOk(view, e, None, EntryPosted, period, date);
      MergeOk(view, Numbered(view, NoteRow(n), NoteNumberKey), MovedEntry(view, e, None, EntryPosted, period, date));
    case CancelDocument(d, e, r, period, date) =>
      var moved := MoveDocument(view, DocumentRow(d), DocPosted, DocCancelled, None);
      SmallWritesOk(view, d, 0, 0, DocPosted, DocCancelled);
      ReversedEntryOk(view, e, r, period, date);
      MergeOk(view, moved, Owe(view, d, 0));
      MergeOk(view, Merge(moved, Owe(view, d, 0)), ReversedEntry(view, e, r, period, date));
  }

  predicate BooksLine(job: Job) { job.AssignLine? || job.ConfirmMatch? }

  lemma LineBodyOk(view: View, job: Job)
    requires AllOk(view) && LookedUp(view, job) && BooksLine(job)
    ensures Writes(view, Body(job, view))
  {
    SmallWritesOk(view, 0, job.l, 0, DocDraft, DocVoided);
    MovedEntryOk(view, job.e, None, EntryPosted, job.period, job.date);
    match job
    case AssignLine(l, e, period, date) =>
      MergeOk(view, BookLine(view, l), MovedEntry(view, e, None, EntryPosted, period, date));
    case ConfirmMatch(l, d, p, e, amount, period, date) =>
      PayOffOk(view, d, p, amount);
      MergeOk(view, BookLine(view, l), PayOff(view, d, p, amount));
      MergeOk(view, Merge(BookLine(view, l), PayOff(view, d, p, amount)), MovedEntry(view, e, None, EntryPosted, period, date));
  }

  lemma MarkOk(view: View, i: Id)
    requires AllOk(view)
    ensures Writes(view, Mark(view, i))
  {
  }

  lemma MarkedOk(view: View, i: Id, rest: Option<View>)
    requires AllOk(view) && Writes(view, rest)
    ensures Writes(view, Merge(Mark(view, i), rest))
  {
    MarkOk(view, i);
    MergeOk(view, Mark(view, i), rest);
  }

  lemma GiveBackOk(view: View, i: Id, p: Id, d: Id, amount: int)
    requires AllOk(view)
    ensures Writes(view, GiveBack(view, i, p, d, amount))
  {
    TakeBothOk(view, p, d, -amount);
    MarkedOk(view, i, TakeBoth(view, p, d, -amount));
  }

  predicate OnEntries(job: Job) { job.PostEntry? || job.ReverseEntry? || job.VoidEntry? || job.UpdateEntry? }

  lemma EntryBodyOk(view: View, job: Job)
    requires AllOk(view) && LookedUp(view, job) && OnEntries(job)
    ensures Writes(view, Body(job, view))
  {
    match job
    case PostEntry(e, period, date) => MovedEntryOk(view, e, Some(EntryDraft), EntryPosted, period, date);
    case ReverseEntry(e, r, period, date) => ReversedEntryOk(view, e, r, period, date);
    case VoidEntry(e) =>
    case UpdateEntry(e, balanced) =>
  }

  /** Whatever a service does with sound values it read, it writes sound values. */
  lemma {:induction false} BodyOk(view: View, job: Job)
    requires AllOk(view) && LookedUp(view, job)
    ensures Writes(view, Body(job, view))
  {
    if PostsDocument(job) {
      DocumentBodyOk(view, job);
    } else if BooksLine(job) {
      LineBodyOk(view, job);
    } else if OnEntries(job) {
      EntryBodyOk(view, job);
    } else {
      match job
      case ReverseAllocation(i, p, d, amount) => GiveBackOk(view, i, p, d, amount);
      case Allocate(p, d, amount) => TakeBothOk(view, p, d, amount);
      case UpdateDocument(d, total, bookable) => RewriteOk(view, d, total, bookable);
      case VoidDocument(d) =>
      case VoidNote(n) =>
      case Close(period) => SetOpenOk(view, period, false);
      case Reopen(period) => SetOpenOk(view, period, true);
    }
  }

  /** A transaction of a service whose period lookup was right. */
  ghost predicate FromService(text: Id -> string, store: map<Lock, Cell>, t: Txn<Lock, Cell, Job>)
  {
    t == TxnOf(text, t.job) && WellFormed(t.job) && LookedUp(store, t.job)
  }

  // --- any interleaving ---------------------------------------------------------------------------------

  /** Only transactions of the services start, each after a right period lookup. */
  ghost predicate ServiceRun(text: Id -> string, store: map<Lock, Cell>, moves: seq<Move<Lock, Cell, Job>>)
  {
    forall k :: 0 <= k < |moves| && moves[k].Begin? ==> FromService(text, store, moves[k].txn)
  }

  /** Only the others are ever written without their lock. */
  predicate Locked(lock: Lock) { !lock.DocumentKey? && !lock.AllocationRow? }

  ghost predicate WorkerOk(text: Id -> string, store: map<Lock, Cell>, w: Worker<Lock, Cell, Job>)
  {
    FromService(text, store, w.txn) && w.view.Keys <= store.Keys && AllOk(w.view)
  }

  ghost predicate LockedGrow(store: map<Lock, Cell>, after: map<Lock, Cell>)
  {
    store.Keys == after.Keys && forall k :: k in store && Locked(k) ==> CellGrows(store[k], after[k])
  }

  /** What every state of every interleaving satisfies, however stale the early reads are. */
  ghost predicate TrafficOk(text: Id -> string, store: map<Lock, Cell>, sys: System<Lock, Cell, Job>)
  {
    && AllOk(sys.store) && LockedGrow(store, sys.store)
    && forall i :: 0 <= i < |sys.workers| ==> WorkerOk(text, store, sys.workers[i])
  }

  lemma LockedViewKeepsLookup(store: map<Lock, Cell>, sys: System<Lock, Cell, Job>, i: nat)
    requires i < |sys.workers| && sys.workers[i].running && Guarded(sys, i, Locked)
    requires AllOk(store) && LockedGrow(store, sys.store) && sys.workers[i].view.Keys <= store.Keys
    requires LookedUp(store, sys.workers[i].txn.job) && sys.workers[i].txn.early == Early(sys.workers[i].txn.job)
    ensures LookedUp(sys.workers[i].view, sys.workers[i].txn.job)
  {
    var view := sys.workers[i].view;
    forall period, date | CoveredBy(store, period, date) ensures CoveredBy(view, period, date) {
      if PeriodKey(period) in view { assert CellGrows(store[PeriodKey(period)], sys.store[PeriodKey(period)]); }
    }
  }

  lemma CommitWrites(text: Id -> string, store: map<Lock, Cell>, sys: System<Lock, Cell, Job>, i: nat)
    requires CanCommit(sys, i) && Guarded(sys, i, Locked) && AllOk(store) && TrafficOk(text, store, sys)
    ensures Writes(sys.workers[i].view, Body(sys.workers[i].txn.job, sys.workers[i].view))
    ensures sys.workers[i].txn.body(sys.workers[i].view) == Body(sys.workers[i].txn.job, sys.workers[i].view)
  {
    var w := sys.workers[i];
    assert WorkerOk(text, store, w);
    LockedViewKeepsLookup(store, sys, i);
    BodyOk(w.view, w.txn.job);
  }

  /** What a commit does to one value whose reader still had it right. */
  lemma CommitChanges(sys: System<Lock, Cell, Job>, i: nat, k: Lock)
    requires CanCommit(sys, i) && CurrentAt(sys, i, k) && k in sys.store
    requires var w := sys.workers[i]; Writes(w.view, w.txn.body(w.view))
    ensures var w, after := sys.workers[i], Do(sys, Commit(i));
            match w.txn.body(w.view)
            case None => after.store == sys.store && after.history == sys.history
            case Some(result) =>
              && after.history == sys.history + [w.txn] && k in after.store
              && (if k in result then k in w.view && w.view[k] == sys.store[k] && after.store[k] == result[k]
                  else after.store[k] == sys.store[k])
  {
  }

  lemma EarlyWritesAreNotLocked(job: Job, view: View, lock: Lock)
    requires Body(job, view).Some? && lock in Body(job, view).value && lock in Early(job)
    ensures !Locked(lock)
  {
    if job.ConfirmMatch? || job.PostNote? { StatusIsOnlyRead(job, view); }
  }

  lemma StatusIsOnlyRead(job: Job, view: View)
    requires (job.ConfirmMatch? || job.PostNote?) && Body(job, view).Some?
    ensures DocumentRow(job.d) !in Body(job, view).value
  {
  }

  lemma ServicesRespectLocked(text: Id -> string, store: map<Lock, Cell>, moves: seq<Move<Lock, Cell, Job>>)
    requires ServiceRun(text, store, moves)
    ensures BeginsRespect(moves, Locked)
  {
    forall k | 0 <= k < |moves| && moves[k].Begin? ensures Respects(moves[k].txn, Locked) {
      var t := moves[k].txn;
      assert FromService(text, store, t);
      forall view: View, r | t.body(view).Some? && r in t.body(view).value && r in t.early ensures !Locked(r) {
        assert t.body(view) == Body(t.job, view);
        EarlyWritesAreNotLocked(t.job, view, r);
      }
    }
  }

  /** What the worker read of a value it is about to write is what the store still says. */
  ghost predicate CurrentAt(sys: System<Lock, Cell, Job>, i: nat, lock: Lock)
    requires i < |sys.workers|
  {
    var w := sys.workers[i];
    lock in w.view && w.txn.body(w.view).Some? && lock in w.txn.body(w.view).value ==>
      lock in sys.store && w.view[lock] == sys.store[lock]
  }

  lemma GuardedIsCurrent(sys: System<Lock, Cell, Job>, i: nat, k: Lock)
    requires CanCommit(sys, i) && Guarded(sys, i, Locked) && Locked(k)
    ensures CurrentAt(sys, i, k)
  {
  }

  /** The value at `k` is what was written there, by someone who had it right, or has not changed. */
  predicate Follows(view: View, result: View, before: map<Lock, Cell>, after: map<Lock, Cell>, k: Lock)
  {
    && k in before && k in after
    && (if k in result then k in view && view[k] == before[k] && after[k] == result[k] else after[k] == before[k])
  }

  lemma CommitFollows(text: Id -> string, store: map<Lock, Cell>, sys: System<Lock, Cell, Job>, i: nat, k: Lock)
    requires CanCommit(sys, i) && Guarded(sys, i, Locked) && AllOk(store) && TrafficOk(text, store, sys)
    requires k in sys.store && Locked(k) && Body(sys.workers[i].txn.job, sys.workers[i].view).Some?
    ensures var w := sys.workers[i];
            Follows(w.view, Body(w.txn.job, w.view).value, sys.store, Do(sys, Commit(i)).store, k)
  {
    CommitWrites(text, store, sys, i);
    GuardedIsCurrent(sys, i, k);
    CommitChanges(sys, i, k);
  }

  lemma CommitKeepsTraffic(text: Id -> string, store: map<Lock, Cell>, sys: System<Lock, Cell, Job>, i: nat)
    requires CanCommit(sys, i) && Guarded(sys, i, Locked) && AllOk(store) && TrafficOk(text, store, sys)
    ensures AllOk(Do(sys, Commit(i)).store) && LockedGrow(store, Do(sys, Commit(i)).store)
  {
    var after := Do(sys, Commit(i)).store;
    CommitWrites(text, store, sys, i);
    forall k | k in store && Locked(k) ensures k in after && CellGrows(store[k], after[k]) {
      GuardedIsCurrent(sys, i, k);
      CommitChanges(sys, i, k);
      CellsKeepGrowing(store[k], sys.store[k], after[k]);
    }
  }

  lemma CellsKeepGrowing(a: Cell, b: Cell, c: Cell)
    requires CellGrows(a, b) && (b == c || CellGrows(b, c))
    ensures CellGrows(a, c)
  {
  }

  lemma WorkersStayOk(text: Id -> string, store: map<Lock, Cell>, sys: System<Lock, Cell, Job>, m: Move<Lock, Cell, Job>, i: nat)
    requires TrafficOk(text, store, sys) && i < |Do(sys, m).workers|
    requires m.Begin? ==> FromService(text, store, m.txn)
    ensures WorkerOk(text, store, Do(sys, m).workers[i])
  {
    assert i < |sys.workers| ==> WorkerOk(text, store, sys.workers[i]);
  }

  lemma DoKeepsTraffic(text: Id -> string, store: map<Lock, Cell>, sys: System<Lock, Cell, Job>, m: Move<Lock, Cell, Job>)
    requires AllOk(store) && TrafficOk(text, store, sys) && AllGuarded(sys, Locked)
    requires m.Begin? ==> FromService(text, store, m.txn)
    ensures TrafficOk(text, store, Do(sys, m))
  {
    var after := Do(sys, m);
    forall i | 0 <= i < |after.workers| ensures WorkerOk(text, store, after.workers[i]) {
      WorkersStayOk(text, store, sys, m, i);
    }
    if m.Commit? && CanCommit(sys, m.i) {
      assert Guarded(sys, m.i, Locked);
      CommitKeepsTraffic(text, store, sys, m.i);
    }
  }

  lemma {:induction false} RunKeepsTraffic(text: Id -> string, store: map<Lock, Cell>, moves: seq<Move<Lock, Cell, Job>>)
    requires AllOk(store) && ServiceRun(text, store, moves)
    ensures TrafficOk(text, store, Run(Start<Lock, Cell, Job>(store), moves))
    ensures AllGuarded(Run(Start<Lock, Cell, Job>(store), moves), Locked)
  {
    ServicesRespectLocked(text, store, moves);
    LockedReadsStayCurrent(store, moves, Locked);
    if moves != [] {
      var n := |moves| - 1;
      RunKeepsTraffic(text, store, moves[..n]);
      DoKeepsTraffic(text, store, Run(Start<Lock, Cell, Job>(store), moves[..n]), moves[n]);
    } else {
      assert forall k :: k in store ==> CellGrows(store[k], store[k]);
    }
  }

  /** Any interleaving of any number of these services, aborts included, also those that look before
      they lock, keeps every value sound: no balance goes negative, numbers are exactly 1..n, an
      entry is reversed exactly when it has its one reverser, posts go only into open periods on
      dates of the period. And what is touched only under its lock never goes back: a booked line
      stays booked, numbers and a period's log are only added to. */
  lemma {:induction false} AnyTrafficIsSound(text: Id -> string, store: map<Lock, Cell>, moves: seq<Move<Lock, Cell,
                                        Job>>, lock: Lock)
    requires AllOk(store) && ServiceRun(text, store, moves) && lock in store
    ensures var final := Run(Start<Lock, Cell, Job>(store), moves);
            && AllOk(final.store) && lock in final.store
            && (Locked(lock) ==> CellGrows(store[lock], final.store[lock]))
  {
    RunKeepsTraffic(text, store, moves);
  }

  // --- tallies ----------------------------------------------------------------------------------------------

  /** Bookings of a bank line, numbers issued, reversers of an entry, reversals of an allocation,
      and the two balances. */
  function Tally(cell: Cell): int
  {
    match cell
    case LineCell(bookings) => bookings
    case OwedCell(amount) => amount
    case FundsCell(amount, _) => amount
    case NumbersCell(issued) => |issued|
    case EntryCell(_, reversers) => reversers
    case AllocationCell(reversals) => reversals
    case _ => 0
  }

  /** The value under the lock is not a tally, or the job sets it outright. */
  predicate Sets(job: Job, lock: Lock)
  {
    || lock.DocumentRow? || lock.NoteRow? || lock.PeriodKey?
    || (lock.DocumentKey? && (job.PostInvoice? || job.PostBill? || job.CancelDocument?) && job.d == lock.d)
  }

  /** What one commit of a job adds to the tally under a lock. */
  function Adds(job: Job, lock: Lock): int
  {
    match lock
    case LineRow(l) => Indicator(BooksLine(job) && job.l == l)
    case InvoiceNumberKey => Indicator(job.PostInvoice?)
    case NoteNumberKey => Indicator(job.PostNote?)
    case EntryRow(e) => Indicator((job.ReverseEntry? || job.CancelDocument?) && job.e == e)
    case AllocationRow(i) => Indicator(job.ReverseAllocation? && job.i == i)
    case PaymentKey(p) =>
      if job.Allocate? && job.p == p then -job.amount else if job.ReverseAllocation? && job.p == p then job.amount else 0
    case DocumentKey(d) =>
      if (job.Allocate? || job.ConfirmMatch?) && job.d == d then -job.amount
      else if job.ReverseAllocation? && job.d == d then job.amount else 0
    case _ => 0
  }

  function Gain(lock: Lock): Txn<Lock, Cell, Job> -> int
  {
    (t: Txn<Lock, Cell, Job>) => Adds(t.job, lock)
  }

  /** The cells written change the tally under `lock` by `gain`. */
  predicate Tallies(view: View, r: Option<View>, lock: Lock, gain: int)
  {
    r.Some? ==>
      if lock in r.value then lock in view && Tally(r.value[lock]) == Tally(view[lock]) + gain else gain == 0
  }

  lemma MergeTallies(view: View, a: Option<View>, b: Option<View>, lock: Lock, x: int, y: int)
    requires Tallies(view, a, lock, x) && Tallies(view, b, lock, y)
    requires a.Some? && b.Some? ==> !(lock in a.value && lock in b.value)
    ensures Tallies(view, Merge(a, b), lock, x + y)
  {
  }

  lemma EntryTallies(view: View, e: Id, from: Option<EntryStatus>, to: EntryStatus, period: Id, date: Date, lock: Lock)
    requires !lock.PeriodKey? && AllOk(view)
    ensures Tallies(view, MoveEntry(view, e, from, to), lock, Indicator(to == EntryReversed && lock == EntryRow(e)))
    ensures Tallies(view, MovedEntry(view, e, from, to, period, date), lock,
                    Indicator(to == EntryReversed && lock == EntryRow(e)))
  {
  }

  lemma ReversalTallies(view: View, e: Id, r: Id, period: Id, date: Date, lock: Lock)
    requires !lock.PeriodKey? && AllOk(view)
    ensures Tallies(view, ReversedEntry(view, e, r, period, date), lock, Indicator(lock == EntryRow(e)))
  {
    EntryTallies(view, e, Some(EntryPosted), EntryReversed, period, date, lock);
    EntryTallies(view, r, None, EntryPosted, period, date, lock);
    MergeTallies(view, MoveEntry(view, e, Some(EntryPosted), EntryReversed), MovedEntry(view, r, None, EntryPosted, period, date),
                 lock, Indicator(lock == EntryRow(e)), 0);
    LineTally(view, e, r, lock);
    MergeTallies(view, ReversedRows(view, e, r, period, date), MirrorLines(view, e, r), lock, Indicator(lock == EntryRow(e)), 0);
  }

  lemma LineTally(view: View, e: Id, r: Id, lock: Lock)
    requires AllOk(view)
    ensures Tallies(view, MirrorLines(view, e, r), lock, 0)
  {
  }

  lemma SmallTallies(view: View, l: Id, i: Id, lock: Lock)
    ensures Tallies(view, BookLine(view, l), lock, Indicator(lock == LineRow(l)))
    ensures Tallies(view, Mark(view, i), lock, Indicator(lock == AllocationRow(i)))
  {
  }

  lemma NumberTallies(view: View, row: Lock, number: Lock, lock: Lock)
    requires row.DocumentRow? || row.NoteRow?
    requires !lock.DocumentRow? && !lock.NoteRow? && (number == InvoiceNumberKey || number == NoteNumberKey)
    ensures Tallies(view, Numbered(view, row, number), lock, Indicator(lock == number))
  {
  }

  lemma TakeTallies(view: View, p: Id, d: Id, amount: int, lock: Lock)
    ensures Tallies(view, TakeBoth(view, p, d, amount), lock,
                    if lock == PaymentKey(p) || lock == DocumentKey(d) then -amount else 0)
  {
  }

  lemma PayOffTallies(view: View, d: Id, p: Id, amount: int, lock: Lock)
    ensures Tallies(view, PayOff(view, d, p, amount), lock, if lock == DocumentKey(d) then -amount else 0)
  {
  }

  lemma BookInvoiceTallies(view: View, d: Id, e: Id, total: int, period: Id, date: Date, lock: Lock)
    requires AllOk(view) && !lock.DocumentRow? && !lock.NoteRow? && !lock.PeriodKey? && lock != DocumentKey(d)
    ensures Tallies(view, BookInvoice(view, d, e, total, period, date), lock, Indicator(lock == InvoiceNumberKey))
  {
    var numbered, owed := Numbered(view, DocumentRow(d), InvoiceNumberKey), Owe(view, d, total);
    NumberTallies(view, DocumentRow(d), InvoiceNumberKey, lock);
    EntryTallies(view, e, None, EntryPosted, period, date, lock);
    MergeTallies(view, numbered, owed, lock, Indicator(lock == InvoiceNumberKey), 0);
    MergeTallies(view, Merge(numbered, owed), MovedEntry(view, e, None, EntryPosted, period, date),
                 lock, Indicator(lock == InvoiceNumberKey), 0);
  }

  lemma InvoiceTallies(view: View, job: Job, lock: Lock)
    requires job.PostInvoice? && !Sets(job, lock) && AllOk(view)
    ensures Tallies(view, Body(job, view), lock, Adds(job, lock))
  {
    BookInvoiceTallies(view, job.d, job.e, job.total, job.period, job.date, lock);
  }

  lemma BillTallies(view: View, job: Job, lock: Lock)
    requires job.PostBill? && !Sets(job, lock) && AllOk(view)
    ensures Tallies(view, Body(job, view), lock, Adds(job, lock))
  {
    var moved, owed := MoveDocument(view, DocumentRow(job.d), DocDraft, DocPosted, None), Owe(view, job.d, job.total);
    EntryTallies(view, job.e, None, EntryPosted, job.period, job.date, lock);
    MergeTallies(view, moved, owed, lock, 0, 0);
    MergeTallies(view, Merge(moved, owed), MovedEntry(view, job.e, None, EntryPosted, job.period, job.date), lock, 0, 0);
  }

  lemma NoteTallies(view: View, job: Job, lock: Lock)
    requires job.PostNote? && !Sets(job, lock) && AllOk(view)
    ensures Tallies(view, Body(job, view), lock, Adds(job, lock))
  {
    NumberTallies(view, NoteRow(job.n), NoteNumberKey, lock);
    EntryTallies(view, job.e, None, EntryPosted, job.period, job.date, lock);
    MergeTallies(view, Numbered(view, NoteRow(job.n), NoteNumberKey),
                 MovedEntry(view, job.e, None, EntryPosted, job.period, job.date), lock, Indicator(lock == NoteNumberKey), 0);
  }

  lemma CancelTallies(view: View, job: Job, lock: Lock)
    requires job.CancelDocument? && !Sets(job, lock) && AllOk(view)
    ensures Tallies(view, Body(job, view), lock, Adds(job, lock))
  {
    var moved, owed := MoveDocument(view, DocumentRow(job.d), DocPosted, DocCancelled, None), Owe(view, job.d, 0);
    ReversalTallies(view, job.e, job.r, job.period, job.date, lock);
    MergeTallies(view, moved, owed, lock, 0, 0);
    MergeTallies(view, Merge(moved, owed), ReversedEntry(view, job.e, job.r, job.period, job.date),
                 lock, 0, Indicator(lock == EntryRow(job.e)));
  }

  lemma GiveBackTallies(view: View, i: Id, p: Id, d: Id, amount: int, lock: Lock)
    ensures Tallies(view, GiveBack(view, i, p, d, amount), lock,
                    Indicator(lock == AllocationRow(i)) + if lock == PaymentKey(p) || lock == DocumentKey(d) then amount else 0)
  {
    var given := if lock == PaymentKey(p) || lock == DocumentKey(d) then amount else 0;
    TakeTallies(view, p, d, -amount, lock);
    SmallTallies(view, 0, i, lock);
    MergeTallies(view, Mark(view, i), TakeBoth(view, p, d, -amount), lock, Indicator(lock == AllocationRow(i)), given);
  }

  lemma BookMatchTallies(view: View, l: Id, d: Id, p: Id, e: Id, amount: int, period: Id, date: Date, lock: Lock)
    requires AllOk(view) && !lock.PeriodKey?
    ensures Tallies(view, BookMatch(view, l, d, p, e, amount, period, date), lock,
                    Indicator(lock == LineRow(l)) + if lock == DocumentKey(d) then -amount else 0)
  {
    var booked, paid := Indicator(lock == LineRow(l)), if lock == DocumentKey(d) then -amount else 0;
    SmallTallies(view, l, 0, lock);
    EntryTallies(view, e, None, EntryPosted, period, date, lock);
    PayOffTallies(view, d, p, amount, lock);
    MergeTallies(view, BookLine(view, l), PayOff(view, d, p, amount), lock, booked, paid);
    MergeTallies(view, Merge(BookLine(view, l), PayOff(view, d, p, amount)),
                 MovedEntry(view, e, None, EntryPosted, period, date), lock, booked + paid, 0);
  }

  lemma LineTallies(view: View, job: Job, lock: Lock)
    requires BooksLine(job) && !Sets(job, lock) && AllOk(view)
    ensures Tallies(view, Body(job, view), lock, Adds(job, lock))
  {
    match job
    case AssignLine(l, e, period, date) =>
      SmallTallies(view, l, 0, lock);
      EntryTallies(view, e, None, EntryPosted, period, date, lock);
      MergeTallies(view, BookLine(view, l), MovedEntry(view, e, None, EntryPosted, period, date), lock,
                   Indicator(lock == LineRow(l)), 0);
    case ConfirmMatch(l, d, p, e, amount, period, date) =>
      BookMatchTallies(view, l, d, p, e, amount, period, date, lock);
  }

  lemma EntryBodyTallies(view: View, job: Job, lock: Lock)
    requires OnEntries(job) && !Sets(job, lock) && AllOk(view)
    ensures Tallies(view, Body(job, view), lock, Adds(job, lock))
  {
    match job
    case PostEntry(e, period, date) => EntryTallies(view, e, Some(EntryDraft), EntryPosted, period, date, lock);
    case ReverseEntry(e, r, period, date) => ReversalTallies(view, e, r, period, date, lock);
    case VoidEntry(e) => EntryTallies(view, e, Some(EntryDraft), EntryVoided, 0, 0, lock);
    case UpdateEntry(e, balanced) =>
  }

  lemma BodyTallies(view: View, job: Job, lock: Lock)
    requires !Sets(job, lock) && AllOk(view)
    ensures Tallies(view, Body(job, view), lock, Adds(job, lock))
  {
    if OnEntries(job) {
      EntryBodyTallies(view, job, lock);
    } else if BooksLine(job) {
      LineTallies(view, job, lock);
    } else {
      match job
      case PostInvoice(_, _, _, _, _) => InvoiceTallies(view, job, lock);
      case PostBill(_, _, _, _, _) => BillTallies(view, job, lock);
      case PostNote(_, _, _, _, _) => NoteTallies(view, job, lock);
      case CancelDocument(_, _, _, _, _) => CancelTallies(view, job, lock);
      case Allocate(p, d, amount) => TakeTallies(view, p, d, amount, lock);
      case ReverseAllocation(i, p, d, amount) => GiveBackTallies(view, i, p, d, amount, lock);
      case _ =>
    }
  }

  ghost predicate AlwaysCurrent(store: map<Lock, Cell>, moves: seq<Move<Lock, Cell, Job>>, lock: Lock)
  {
    forall k :: 0 <= k < |moves| && moves[k].Commit? ==>
      var before := Run(Start<Lock, Cell, Job>(store), moves[..k]);
      CanCommit(before, moves[k].i) ==> CurrentAt(before, moves[k].i, lock)
  }

  /** Nobody sets the value under the lock outright: every change is an addition. */
  ghost predicate NobodySets(moves: seq<Move<Lock, Cell, Job>>, lock: Lock)
  {
    forall k :: 0 <= k < |moves| && moves[k].Begin? ==> !Sets(moves[k].txn.job, lock)
  }

  ghost predicate WorkersDoNotSet(sys: System<Lock, Cell, Job>, lock: Lock)
  {
    forall i :: 0 <= i < |sys.workers| ==> !Sets(sys.workers[i].txn.job, lock)
  }

  lemma {:induction false} RunDoesNotSet(store: map<Lock, Cell>, moves: seq<Move<Lock, Cell, Job>>, lock: Lock)
    requires NobodySets(moves, lock)
    ensures WorkersDoNotSet(Run(Start<Lock, Cell, Job>(store), moves), lock)
  {
    if moves != [] { RunDoesNotSet(store, moves[..|moves| - 1], lock); }
  }

  lemma {:induction false} CommitTallies(text: Id -> string, store: map<Lock, Cell>, sys: System<Lock, Cell, Job>,
                                        i: nat, lock: Lock)
    requires CanCommit(sys, i) && Guarded(sys, i, Locked) && AllOk(store) && TrafficOk(text, store, sys)
    requires lock in sys.store && CurrentAt(sys, i, lock) && !Sets(sys.workers[i].txn.job, lock)
    ensures var after := Do(sys, Commit(i));
            lock in after.store
            && Tally(after.store[lock]) - Sum(after.history, Gain(lock)) == Tally(sys.store[lock]) - Sum(sys.history, Gain(lock))
  {
    var w := sys.workers[i];
    assert WorkerOk(text, store, w);
    CommitWrites(text, store, sys, i);
    BodyTallies(w.view, w.txn.job, lock);
    SumAppend(sys.history, w.txn, Gain(lock));
    CommitChanges(sys, i, lock);
  }

  lemma CurrentUpToNow(store: map<Lock, Cell>, moves: seq<Move<Lock, Cell, Job>>, lock: Lock)
    requires moves != [] && AlwaysCurrent(store, moves, lock)
    ensures var n := |moves| - 1;
            var before := Run(Start<Lock, Cell, Job>(store), moves[..n]);
            && AlwaysCurrent(store, moves[..n], lock) && (NobodySets(moves, lock) ==> NobodySets(moves[..n], lock))
            && (moves[n].Commit? && CanCommit(before, moves[n].i) ==> CurrentAt(before, moves[n].i, lock))
  {
    var n := |moves| - 1;
    forall k | 0 <= k < n && moves[..n][k].Commit?
      ensures var before := Run(Start<Lock, Cell, Job>(store), moves[..n][..k]);
              CanCommit(before, moves[k].i) ==> CurrentAt(before, moves[k].i, lock)
    {
      assert moves[..n][..k] == moves[..k];
    }
  }

  lemma DoTallies(text: Id -> string, store: map<Lock, Cell>, sys: System<Lock, Cell, Job>, m: Move<Lock, Cell, Job>,
                  lock: Lock)
    requires AllOk(store) && TrafficOk(text, store, sys) && AllGuarded(sys, Locked) && WorkersDoNotSet(sys, lock)
    requires lock in sys.store && (m.Commit? && CanCommit(sys, m.i) ==> CurrentAt(sys, m.i, lock))
    ensures var after := Do(sys, m);
            lock in after.store
            && Tally(after.store[lock]) - Sum(after.history, Gain(lock)) == Tally(sys.store[lock]) - Sum(sys.history, Gain(lock))
  {
    if m.Commit? && CanCommit(sys, m.i) {
      assert Guarded(sys, m.i, Locked);
      CommitTallies(text, store, sys, m.i, lock);
    }
  }

  /** Where no commit acts on a stale value, the tally is its starting value plus what the committed
      transactions add. */
  lemma {:induction false} TalliesAddUp(text: Id -> string, store: map<Lock, Cell>, moves: seq<Move<Lock, Cell,
                                        Job>>, lock: Lock)
    requires AllOk(store) && ServiceRun(text, store, moves) && lock in store
    requires AlwaysCurrent(store, moves, lock) && NobodySets(moves, lock)
    ensures var final := Run(Start<Lock, Cell, Job>(store), moves);
            lock in final.store && Tally(final.store[lock]) == Tally(store[lock]) + Sum(final.history, Gain(lock))
  {
    if moves != [] {
      var init := moves[..|moves| - 1];
      CurrentUpToNow(store, moves, lock);
      TalliesAddUp(text, store, init, lock);
      RunKeepsTraffic(text, store, init);
      RunDoesNotSet(store, init, lock);
      DoTallies(text, store, Run(Start<Lock, Cell, Job>(store), init), moves[|moves| - 1], lock);
    }
  }

  function Just(lock: Lock): Lock -> bool { (k: Lock) => k == lock }

  /** A value nobody touches without its lock is always current. */
  lemma UntouchedIsCurrent(store: map<Lock, Cell>, moves: seq<Move<Lock, Cell, Job>>, lock: Lock)
    requires BeginsRespect(moves, Just(lock))
    ensures AlwaysCurrent(store, moves, lock)
  {
    forall k | 0 <= k < |moves| && moves[k].Commit?
      ensures var before := Run(Start<Lock, Cell, Job>(store), moves[..k]);
              CanCommit(before, moves[k].i) ==> CurrentAt(before, moves[k].i, lock)
    {
      var before := Run(Start<Lock, Cell, Job>(store), moves[..k]);
      LockedReadsStayCurrent(store, moves[..k], Just(lock));
      if CanCommit(before, moves[k].i) { assert Guarded(before, moves[k].i, Just(lock)); }
    }
  }

  lemma ServicesRespectJust(text: Id -> string, store: map<Lock, Cell>, moves: seq<Move<Lock, Cell, Job>>, lock: Lock)
    requires ServiceRun(text, store, moves) && Locked(lock)
    ensures BeginsRespect(moves, Just(lock))
  {
    ServicesRespectLocked(text, store, moves);
    forall k | 0 <= k < |moves| && moves[k].Begin? ensures Respects(moves[k].txn, Just(lock)) {
      assert Respects(moves[k].txn, Locked);
    }
  }

  /** In any interleaving of all services: bookings of a bank line, reversals of an entry and numbers
      issued equal their starting value plus the committed bookings, reversals and posts; and each
      payment's unallocated amount is its starting value minus the committed allocations plus the
      committed reversals, and never negative. */
  lemma {:induction false} LockedTalliesAddUp(text: Id -> string, store: map<Lock, Cell>, moves: seq<Move<Lock, Cell,
                                        Job>>, lock: Lock)
    requires AllOk(store) && ServiceRun(text, store, moves) && lock in store
    requires lock.LineRow? || lock.EntryRow? || lock.InvoiceNumberKey? || lock.NoteNumberKey? || lock.PaymentKey?
    ensures var final := Run(Start<Lock, Cell, Job>(store), moves);
            lock in final.store && 0 <= Tally(final.store[lock]) == Tally(store[lock]) + Sum(final.history, Gain(lock))
  {
    ServicesRespectJust(text, store, moves, lock);
    UntouchedIsCurrent(store, moves, lock);
    TalliesAddUp(text, store, moves, lock);
    AnyTrafficIsSound(text, store, moves, lock);
  }

  /** At most one confirm or assign of a bank line ever commits, and at most one reversal of an
      entry, by cancellation or by hand. */
  lemma {:induction false} AtMostOneCommits(text: Id -> string, store: map<Lock, Cell>, moves: seq<Move<Lock, Cell,
                                        Job>>, lock: Lock)
    requires AllOk(store) && ServiceRun(text, store, moves) && lock in store && (lock.LineRow? || lock.EntryRow?)
    ensures 0 <= Sum(Run(Start<Lock, Cell, Job>(store), moves).history, Gain(lock)) <= 1
  {
    LockedTalliesAddUp(text, store, moves, lock);
    AnyTrafficIsSound(text, store, moves, lock);
    var final := Run(Start<Lock, Cell, Job>(store), moves);
    assert KindOk(lock, store[lock]) && KindOk(lock, final.store[lock]);
    SumNonNegative(final.history, Gain(lock));
  }

  /** Nobody posts or cancels the document, or confirms a match to it, during the run. */
  ghost predicate OnlyAllocated(moves: seq<Move<Lock, Cell, Job>>, d: Id)
  {
    forall k :: 0 <= k < |moves| && moves[k].Begin? ==> DocumentKey(d) !in moves[k].txn.early
  }

  /** As long as a document is only allocated to, what it owes is its starting value minus the
      committed allocations plus the committed reversals, and never negative, whatever else runs. */
  lemma {:induction false} AllocationsAddUp(text: Id -> string, store: map<Lock, Cell>, moves: seq<Move<Lock, Cell,
                                        Job>>, d: Id)
    requires AllOk(store) && ServiceRun(text, store, moves) && DocumentKey(d) in store && OnlyAllocated(moves, d)
    ensures var final := Run(Start<Lock, Cell, Job>(store), moves);
            DocumentKey(d) in final.store
            && 0 <= Tally(final.store[DocumentKey(d)])
                 == Tally(store[DocumentKey(d)]) + Sum(final.history, Gain(DocumentKey(d)))
  {
    UntouchedIsCurrent(store, moves, DocumentKey(d));
    TalliesAddUp(text, store, moves, DocumentKey(d));
    AnyTrafficIsSound(text, store, moves, DocumentKey(d));
  }

  /** If no reversal commits on an outdated look, at most one reversal of an allocation commits. */
  lemma {:induction false} CurrentLooksReverseOnce(text: Id -> string, store: map<Lock, Cell>, moves: seq<Move<Lock,
                                        Cell, Job>>, i: Id)
    requires AllOk(store) && ServiceRun(text, store, moves)
    requires AllocationRow(i) in store && AlwaysCurrent(store, moves, AllocationRow(i))
    ensures var reversals := Sum(Run(Start<Lock, Cell, Job>(store), moves).history, Gain(AllocationRow(i)));
            0 <= reversals && Tally(store[AllocationRow(i)]) + reversals <= 1
  {
    var lock := AllocationRow(i);
    TalliesAddUp(text, store, moves, lock);
    AnyTrafficIsSound(text, store, moves, lock);
    var final := Run(Start<Lock, Cell, Job>(store), moves);
    assert KindOk(lock, store[lock]) && KindOk(lock, final.store[lock]);
    SumNonNegative(final.history, Gain(lock));
  }

  /** If every commit acts on current values, the outcome is that of the committed transactions run
      one after the other; services that touch nothing without its lock need no such condition. */
  lemma {:induction false} TrafficIsSerial(text: Id -> string, store: map<Lock, Cell>, moves: seq<Move<Lock, Cell, Job>>)
    requires ServiceRun(text, store, moves)
    requires || CommitsFresh(Start<Lock, Cell, Job>(store), moves)
             || forall k :: 0 <= k < |moves| && moves[k].Begin? ==> Early(moves[k].txn.job) == {}
    ensures var final := Run(Start<Lock, Cell, Job>(store), moves);
            Replay(store, final.history) == Some(final.store)
  {
    if CommitsFresh(Start<Lock, Cell, Job>(store), moves) {
      FreshRunsAreSerial(store, moves);
    } else {
      assert NothingEarly(moves);
      LockedRunsAreSerial(store, moves);
    }
  }
}
