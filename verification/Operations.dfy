/** Service calls on the accounting tables, one transaction each, and runs of them. */
module Operations {
  import opened Wrappers
  import opened Records
  import Periods
  import Journal
  import Documents
  import Payments
  import Banking

  datatype Call =
    | EditChart(chart: Chart)
    | CreatePeriod(start: Date, end: Date)
    | ClosePeriod(p: Id)
    | ReopenPeriod(p: Id)
    | CreateEntry(date: Date, currency: Currency, lines: seq<JournalLine>)
    | UpdateEntry(e: Id, lines: seq<JournalLine>)
    | VoidEntry(e: Id)
    | PostEntry(e: Id)
    | ReverseEntry(e: Id, date: Date)
    | CreateDocument(kind: DocumentKind, control: Id, currency: Currency, date: Date, inputs: seq<Documents.LineInput>)
    | UpdateDocument(kind: DocumentKind, d: Id, inputs: seq<Documents.LineInput>)
    | VoidDocument(kind: DocumentKind, d: Id)
    | PostDocument(kind: DocumentKind, d: Id)
    | CancelDocument(kind: DocumentKind, d: Id, date: Date)
    | CreateNote(invoice: Id, currency: Currency, date: Date, inputs: seq<Documents.LineInput>)
    | VoidNote(n: Id)
    | PostNote(n: Id)
    | CreatePayment(direction: Direction, amount: int, currency: Currency)
    | CreateAllocation(payment: Id, kind: DocumentKind, d: Id, amount: int)
    | ReverseAllocation(i: Id)
    | ImportStatement(bankAccount: Id, rows: seq<ParsedLine>)
    | ConfirmMatch(l: Id, kind: DocumentKind, d: Id)
    | AssignLine(l: Id, account: Id)

  function EditedChart(db: Db, chart: Chart): Result<Db, Error>
  {
    if ChartGrows(db.chart, chart) then Success(db.(chart := chart)) else Failure(Conflict)
  }

  function Apply(db: Db, call: Call): Result<Db, Error>
  {
    match call
    case EditChart(chart) => EditedChart(db, chart)
    case CreatePeriod(start, end) => Periods.CreatePeriod(db, start, end)
    case ClosePeriod(p) => Periods.SetPeriod(db, p, false)
    case ReopenPeriod(p) => Periods.SetPeriod(db, p, true)
    case CreateEntry(date, currency, lines) => Journal.CreateEntry(db, date, currency, lines)
    case UpdateEntry(e, lines) => Journal.UpdateEntry(db, e, lines)
    case VoidEntry(e) => Journal.VoidEntry(db, e)
    case PostEntry(e) => Journal.PostEntry(db, e)
    case ReverseEntry(e, date) => Journal.ReverseEntry(db, e, date, true)
    case CreateDocument(kind, control, currency, date, inputs) =>
      Documents.CreateDocument(db, kind, control, currency, date, inputs)
    case UpdateDocument(kind, d, inputs) => Documents.UpdateDocument(db, kind, d, inputs)
    case VoidDocument(kind, d) => Documents.VoidDocument(db, kind, d)
    case PostDocument(kind, d) => Documents.PostDocument(db, kind, d)
    case CancelDocument(kind, d, date) => Documents.CancelDocument(db, kind, d, date)
    case CreateNote(invoice, currency, date, inputs) => Documents.CreateNote(db, invoice, currency, date, inputs)
    case VoidNote(n) => Documents.VoidNote(db, n)
    case PostNote(n) => Documents.PostNote(db, n)
    case CreatePayment(direction, amount, currency) => Payments.CreatePayment(db, direction, amount, currency)
    case CreateAllocation(p, kind, d, amount) => Payments.CreateAllocation(db, p, kind, d, amount)
    case ReverseAllocation(i) => Payments.ReverseAllocation(db, i)
    case ImportStatement(bankAccount, rows) => Banking.ImportStatement(db, bankAccount, rows)
    case ConfirmMatch(l, kind, d) => Banking.ConfirmMatch(db, l, kind, d)
    case AssignLine(l, account) => Banking.AssignLine(db, l, account)
  }

  /** A transaction commits whole or leaves the tables as they were. */
  function Step(db: Db, call: Call): Db
  {
    match Apply(db, call)
    case Success(after) => after
    case Failure(_) => db
  }

  function Run(db: Db, calls: seq<Call>): Db
  {
    if calls == [] then db else Step(Run(db, calls[..|calls| - 1]), calls[|calls| - 1])
  }

  /** A tenant with a chart of accounts and no activity yet. */
  predicate Initial(db: Db)
  {
    && db.periods == [] && db.entries == [] && db.documents == [] && db.notes == []
    && db.payments == [] && db.allocations == [] && db.bankLines == []
  }
}
