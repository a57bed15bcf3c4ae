/** The accounting tables of one tenant. A table is a sequence of rows and a row's id is its
    position, so ids are fresh and in creation order. Money is whole cents, a date is a day number. */
module Records {
  import opened Wrappers

  type Id = nat
  type Currency = string
  type Date = int

  /** NotFound, Invalid, PeriodMissing and PeriodClosed are the package's own exceptions;
      Conflict is an aborted flush (a CHECK, UNIQUE or EXCLUDE constraint). */
  datatype Error = NotFound | Invalid | PeriodMissing | PeriodClosed | Conflict

  datatype AccountType = Asset | Liability | Equity | Revenue | Expense
  datatype Account = Account(kind: AccountType, active: bool)

  /** `rate` is in thousandths of a percent. */
  datatype TaxCode = TaxCode(rate: nat, account: Id)
  datatype BankAccount = BankAccount(ledger: Id, currency: Currency)
  datatype Chart = Chart(accounts: seq<Account>, taxCodes: seq<TaxCode>, bankAccounts: seq<BankAccount>)

  datatype Period = Period(start: Date, end: Date, open: bool)

  datatype JournalLine = JournalLine(account: Id, debit: int, credit: int)

  datatype EntryStatus = EntryDraft | EntryPosted | EntryVoided | EntryReversed

  /** `manual` is an auxiliary column: true when the entry came from the journal service itself,
      false when a document, a cancellation, a credit note or a bank line produced it. */
  datatype Entry = Entry(date: Date, currency: Currency, status: EntryStatus, period: Option<Id>,
                         reverses: Option<Id>, lines: seq<JournalLine>, manual: bool)

  datatype DocumentKind = Invoice | Bill
  datatype DocumentStatus = DocDraft | DocPosted | DocCancelled | DocVoided

  /** `quantity` and `price` are in hundredths. */
  datatype DocumentLine = DocumentLine(account: Id, quantity: int, price: int, taxCode: Option<Id>,
                                       subtotal: int, tax: int)

  /** An invoice or a bill. `control` is the receivable or the payable account. */
  datatype Document = Document(kind: DocumentKind, control: Id, currency: Currency, date: Date,
                               status: DocumentStatus, lines: seq<DocumentLine>, total: int,
                               outstanding: int, number: Option<nat>, entry: Option<Id>)

  datatype CreditNote = CreditNote(invoice: Id, currency: Currency, date: Date, status: DocumentStatus,
                                   lines: seq<DocumentLine>, total: int, number: Option<nat>, entry: Option<Id>)

  datatype Direction = Inbound | Outbound
  datatype Payment = Payment(direction: Direction, amount: int, currency: Currency, unallocated: int)
  datatype Allocation = Allocation(payment: Id, document: Id, amount: int, reverses: Option<Id>)

  /** A decimal number as a parser keeps it, coefficient * 10^exponent: 10.5 is Decimal(105, -1) and
      10.50 is Decimal(1050, -2). Printing is one-to-one on these pairs. */
  datatype Decimal = Decimal(coefficient: int, exponent: int)

  function PowerOfTen(n: nat): (r: nat)
    ensures r > 0
  {
    if n == 0 then 1 else 10 * PowerOfTen(n - 1)
  }

  predicate WholeCents(d: Decimal)
  {
    d.exponent >= -2 || d.coefficient % PowerOfTen(-2 - d.exponent) == 0
  }

  function Cents(d: Decimal): int
  {
    if d.exponent >= -2 then d.coefficient * PowerOfTen(d.exponent + 2)
    else d.coefficient / PowerOfTen(-2 - d.exponent)
  }

  type Money = d: Decimal | WholeCents(d) witness Decimal(0, 0)

  /** A row of an imported statement; the amount is signed, positive for an inflow. */
  datatype ParsedLine = ParsedLine(date: Date, written: Money, description: string, reference: Option<string>)

  datatype Match = Unmatched | ToDocument(document: Id, payment: Id) | ToAccount(account: Id)
  datatype BankLine = BankLine(bankAccount: Id, date: Date, amount: int, description: string,
                               digest: nat, match_: Match, entry: Option<Id>)

  /** What the line digest is computed from. */
  datatype Payload = Payload(bankAccount: Id, date: Date, written: Decimal, description: string)

  datatype Db = Db(chart: Chart, periods: seq<Period>, entries: seq<Entry>, documents: seq<Document>,
                   notes: seq<CreditNote>, payments: seq<Payment>, allocations: seq<Allocation>,
                   bankLines: seq<BankLine>, digest: Payload -> nat)

  // --- chart of accounts --------------------------------------------------

  /** What account, tax-code and bank-account administration may change: accounts are added or
      switched on and off, a tax code keeps its account, a bank account keeps its ledger account. */
  predicate ChartGrows(old_: Chart, new_: Chart)
  {
    && |old_.accounts| <= |new_.accounts|
    && |old_.taxCodes| <= |new_.taxCodes|
    && |old_.bankAccounts| <= |new_.bankAccounts|
    && (forall i :: 0 <= i < |old_.taxCodes| ==> new_.taxCodes[i].account == old_.taxCodes[i].account)
    && (forall i :: 0 <= i < |old_.bankAccounts| ==> new_.bankAccounts[i] == old_.bankAccounts[i])
  }
}
