/** What the calls on payments, allocations and bank lines answer. */
module BankAnswers {
  import opened Wrappers
  import opened Sums
  import opened Records
  import opened Journal
  import opened Documents
  import opened Payments
  import opened Banking
  import opened Subledger
  import opened Invariants
  import opened Theorems
  import opened JournalAnswers
  import O = Operations

  // --- payments and allocations ---------------------------------------------------------------

  lemma CreatePaymentAnswer(db: Db, direction: Direction, amount: int, currency: Currency)
    ensures var r := O.Apply(db, O.CreatePayment(direction, amount, currency));
            && ErrorOf(r) == (if amount <= 0 then Some(Invalid) else None)
            && (r.Success? ==>
                  r.value == db.(payments := db.payments + [Payment(direction, amount, currency, amount)]))
  {
  }

  /** The amount went off what the payment has left and off what the document owes (or back, when it
      is negative), and a row says so; every other row stays. */
  ghost predicate MovedBetween(db: Db, after: Db, p: Id, d: Id, amount: int, row: Allocation)
    requires p < |db.payments| && d < |db.documents|
  {
    && |after.payments| == |db.payments| && |after.documents| == |db.documents|
    && after.payments[p] == db.payments[p].(unallocated := db.payments[p].unallocated - amount)
    && after.documents[d] == db.documents[d].(outstanding := db.documents[d].outstanding - amount)
    && (forall i :: 0 <= i < |db.payments| && i != p ==> after.payments[i] == db.payments[i])
    && (forall i :: 0 <= i < |db.documents| && i != d ==> after.documents[i] == db.documents[i])
    && after == db.(payments := after.payments, documents := after.documents, allocations := db.allocations + [row])
  }

  /** A positive amount is allocated exactly when the payment has it left and the document, posted,
      owes it. */
  lemma CreateAllocationAnswer(db: Db, p: Id, kind: DocumentKind, d: Id, amount: int)
    ensures var r := O.Apply(db, O.CreateAllocation(p, kind, d, amount));
            && ErrorOf(r) == (if amount <= 0 then Some(Invalid)
                              else if p >= |db.payments| then Some(NotFound)
                              else if amount > db.payments[p].unallocated then Some(Invalid)
                              else if d >= |db.documents| || db.documents[d].kind != kind then Some(NotFound)
                              else if db.documents[d].status != DocPosted || amount > db.documents[d].outstanding
                              then Some(Invalid) else None)
            && (r.Success? ==> MovedBetween(db, r.value, p, d, amount, Allocation(p, d, amount, None)))
  {
  }

  /** In a reachable state an allocation is reversed exactly when it is not a reversal and no row
      reverses it. */
  lemma ReverseAllocationAnswer(db: Db, i: Id)
    requires Inv(db)
    ensures i < |db.allocations| ==>
              db.allocations[i].payment < |db.payments| && db.allocations[i].document < |db.documents|
    ensures var r := O.Apply(db, O.ReverseAllocation(i));
            && ErrorOf(r) == (if i >= |db.allocations| then Some(NotFound)
                              else if db.allocations[i].reverses.Some?
                                      || (exists j :: 0 <= j < |db.allocations| && db.allocations[j].reverses == Some(i))
                              then Some(Invalid) else None)
            && (r.Success? ==>
                  var a := db.allocations[i];
                  MovedBetween(db, r.value, a.payment, a.document, -a.amount,
                               Allocation(a.payment, a.document, a.amount, Some(i))))
  {
    if i < |db.allocations| {
      assert ReferencesOk(db.documents, db.payments, db.allocations[i]);
      if db.allocations[i].reverses.None? && !IsReversed(db.allocations, i) { ReversalHasRoom(db, i); }
    }
  }

  // --- import --------------------------------------------------------------------------------------

  /** `amount` cents are the number as written, sign included. */
  predicate InCents(written: Decimal, amount: int)
  {
    if written.exponent >= -2 then amount == written.coefficient * PowerOfTen(written.exponent + 2)
    else amount * PowerOfTen(-2 - written.exponent) == written.coefficient
  }

  function DigestOf(h: Payload -> nat, bankAccount: Id, row: ParsedLine): nat
  {
    h(Payload(bankAccount, row.date, row.written, row.description))
  }

  /** The unmatched line a row is stored as. */
  predicate StoredAs(h: Payload -> nat, bankAccount: Id, row: ParsedLine, line: BankLine)
  {
    && line.bankAccount == bankAccount && line.date == row.date && line.description == row.description
    && InCents(row.written, line.amount) && line.digest == DigestOf(h, bankAccount, row)
    && line.match_ == Unmatched && line.entry == None
  }

  /** No line of the bank account has the digest of row `i` yet, and no earlier row has it. */
  predicate IsNew(h: Payload -> nat, bankAccount: Id, lines: seq<BankLine>, rows: seq<ParsedLine>, i: nat)
    requires i < |rows|
  {
    && (forall j :: 0 <= j < |lines| && lines[j].bankAccount == bankAccount ==>
          lines[j].digest != DigestOf(h, bankAccount, rows[i]))
    && (forall j :: 0 <= j < i ==> DigestOf(h, bankAccount, rows[j]) != DigestOf(h, bankAccount, rows[i]))
  }

  /** The new rows, in the order of the file. */
  ghost predicate NewRows(h: Payload -> nat, bankAccount: Id, lines: seq<BankLine>, rows: seq<ParsedLine>, kept: seq<nat>)
  {
    && (forall k :: 0 <= k < |kept| ==> kept[k] < |rows| && IsNew(h, bankAccount, lines, rows, kept[k]))
    && (forall k, m :: 0 <= k < m < |kept| ==> kept[k] < kept[m])
    && (forall i: nat :: i < |rows| && IsNew(h, bankAccount, lines, rows, i) ==> i in kept)
  }

  ghost predicate StoredInOrder(h: Payload -> nat, bankAccount: Id, lines: seq<BankLine>, rows: seq<ParsedLine>,
                                kept: seq<nat>, after: seq<BankLine>)
    requires forall k :: 0 <= k < |kept| ==> kept[k] < |rows|
  {
    && |after| == |lines| + |kept| && after[..|lines|] == lines
    && forall k :: 0 <= k < |kept| ==> StoredAs(h, bankAccount, rows[kept[k]], after[|lines| + k])
  }

  lemma CentsAnswer(written: Money)
    ensures InCents(written, Cents(written))
    ensures Cents(written) == 0 <==> written.coefficient == 0
  {
    if written.exponent >= -2 {
      NonZeroProduct(written.coefficient, PowerOfTen(written.exponent + 2));
    } else {
      NonZeroProduct(Cents(written), PowerOfTen(-2 - written.exponent));
    }
  }

  lemma NonZeroProduct(x: int, n: nat)
    requires n > 0
    ensures x * n == 0 <==> x == 0
  {
  }

  lemma NewExactlyWhen(h: Payload -> nat, bankAccount: Id, lines: seq<BankLine>, rows: seq<ParsedLine>)
    requires DigestsDistinct(lines) && rows != []
    ensures var n := |rows| - 1;
            IsNew(h, bankAccount, lines, rows, n)
            <==> Digest(h, bankAccount, rows[n]) !in Digests(ImportRows(h, bankAccount, lines, rows[..n]), bankAccount)
  {
    var n := |rows| - 1;
    var init, digest := rows[..n], Digest(h, bankAccount, rows[n]);
    ImportIsUnion(h, bankAccount, lines, init, bankAccount);
    assert digest in RowDigests(h, bankAccount, init)
      <==> exists j :: 0 <= j < |init| && Digest(h, bankAccount, init[j]) == digest;
  }

  lemma NewAmongFirst(h: Payload -> nat, bankAccount: Id, lines: seq<BankLine>, rows: seq<ParsedLine>, n: nat, i: nat)
    requires i < n <= |rows|
    ensures IsNew(h, bankAccount, lines, rows, i) <==> IsNew(h, bankAccount, lines, rows[..n], i)
  {
    assert forall j :: 0 <= j < n ==> rows[j] == rows[..n][j];
  }

  lemma OneMoreRow(h: Payload -> nat, bankAccount: Id, lines: seq<BankLine>, rows: seq<ParsedLine>, kept: seq<nat>)
    requires rows != [] && NewRows(h, bankAccount, lines, rows[..|rows| - 1], kept)
    ensures var n := |rows| - 1;
            NewRows(h, bankAccount, lines, rows, if IsNew(h, bankAccount, lines, rows, n) then kept + [n] else kept)
  {
    var n := |rows| - 1;
    var more := if IsNew(h, bankAccount, lines, rows, n) then kept + [n] else kept;
    forall k | 0 <= k < |kept| ensures kept[k] < n && IsNew(h, bankAccount, lines, rows, kept[k]) {
      NewAmongFirst(h, bankAccount, lines, rows, n, kept[k]);
    }
    forall i: nat | i < |rows| && IsNew(h, bankAccount, lines, rows, i) ensures i in more {
      if i < n { NewAmongFirst(h, bankAccount, lines, rows, n, i); }
    }
  }

  lemma OneMoreStored(h: Payload -> nat, bankAccount: Id, lines: seq<BankLine>, rows: seq<ParsedLine>, kept: seq<nat>,
                      table: seq<BankLine>, line: BankLine)
    requires rows != [] && forall k :: 0 <= k < |kept| ==> kept[k] < |rows| - 1
    requires StoredInOrder(h, bankAccount, lines, rows[..|rows| - 1], kept, table)
    requires StoredAs(h, bankAccount, rows[|rows| - 1], line)
    ensures StoredInOrder(h, bankAccount, lines, rows, kept, table)
    ensures StoredInOrder(h, bankAccount, lines, rows, kept + [|rows| - 1], table + [line])
  {
    assert (table + [line])[..|lines|] == table[..|lines|];
  }

  lemma {:induction false} RowsAnswer(h: Payload -> nat, bankAccount: Id, lines: seq<BankLine>, rows: seq<ParsedLine>)
    returns (kept: seq<nat>)
    requires DigestsDistinct(lines)
    ensures NewRows(h, bankAccount, lines, rows, kept)
    ensures StoredInOrder(h, bankAccount, lines, rows, kept, ImportRows(h, bankAccount, lines, rows))
  {
    if rows == [] {
      kept := [];
    } else {
      var n := |rows| - 1;
      var earlier := RowsAnswer(h, bankAccount, lines, rows[..n]);
      var table, line := ImportRows(h, bankAccount, lines, rows[..n]), NewLine(h, bankAccount, rows[n]);
      NewExactlyWhen(h, bankAccount, lines, rows);
      OneMoreRow(h, bankAccount, lines, rows, earlier);
      CentsAnswer(rows[n].written);
      OneMoreStored(h, bankAccount, lines, rows, earlier, table, line);
      kept := if IsNew(h, bankAccount, lines, rows, n) then earlier + [n] else earlier;
    }
  }

  /** An import is refused for an empty file or a zero amount, or without its bank account. Otherwise
      the old lines stay in place, and every row whose digest is new is stored behind them, in order,
      as an unmatched line with its date, its signed amount and its description. */
  lemma {:induction false} ImportAnswer(db: Db, bankAccount: Id, rows: seq<ParsedLine>) returns (kept: seq<nat>)
    requires Inv(db)
    ensures NewRows(db.digest, bankAccount, db.bankLines, rows, kept)
    ensures var r := O.Apply(db, O.ImportStatement(bankAccount, rows));
            && ErrorOf(r) == (if rows == [] || (exists i :: 0 <= i < |rows| && rows[i].written.coefficient == 0)
                              then Some(Invalid)
                              else if bankAccount >= |db.chart.bankAccounts| then Some(NotFound) else None)
            && (r.Success? ==>
                  && r.value == db.(bankLines := r.value.bankLines)
                  && StoredInOrder(db.digest, bankAccount, db.bankLines, rows, kept, r.value.bankLines))
  {
    kept := RowsAnswer(db.digest, bankAccount, db.bankLines, rows);
    forall i | 0 <= i < |rows| ensures Cents(rows[i].written) == 0 <==> rows[i].written.coefficient == 0 {
      CentsAnswer(rows[i].written);
    }
  }

  /** So afterwards every row of the file has a line of the bank account with its digest. */
  lemma {:induction false} EveryRowIsStored(db: Db, bankAccount: Id, rows: seq<ParsedLine>, row: ParsedLine)
    requires Inv(db) && O.Apply(db, O.ImportStatement(bankAccount, rows)).Success? && row in rows
    ensures var lines := O.Step(db, O.ImportStatement(bankAccount, rows)).bankLines;
            exists l :: 0 <= l < |lines| && lines[l].bankAccount == bankAccount
              && lines[l].digest == db.digest(Payload(bankAccount, row.date, row.written, row.description))
  {
    ImportIsUnion(db.digest, bankAccount, db.bankLines, rows, bankAccount);
    var i :| 0 <= i < |rows| && rows[i] == row;
    assert Digest(db.digest, bankAccount, rows[i]) in RowDigests(db.digest, bankAccount, rows);
  }

  // --- reconciliation ----------------------------------------------------------------------------------

  /** An inflow debits the bank's ledger account and credits the counterpart; an outflow the other way. */
  predicate MovesMoney(legs: seq<JournalLine>, ledger: Id, counterpart: Id, amount: int)
  {
    legs == if amount > 0 then [JournalLine(ledger, amount, 0), JournalLine(counterpart, 0, amount)]
            else [JournalLine(counterpart, -amount, 0), JournalLine(ledger, 0, -amount)]
  }

  lemma BankBookingAnswer(db: Db, date: Date, currency: Currency, ledger: Id, counterpart: Id, amount: int)
    requires amount != 0
    ensures var r := WriteAndPost(db, date, currency, BankEntryLines(ledger, counterpart, amount));
            && ErrorOf(r) == DateRefused(db.periods, date)
            && (r.Success? ==>
                  && r.value == db.(entries := r.value.entries) && BookedOn(db, r.value, date, currency)
                  && MovesMoney(r.value.entries[|db.entries|].lines, ledger, counterpart, amount))
  {
    BankEntryLinesEffect(ledger, counterpart, amount, 0);
    BookingAnswer(db, date, currency, BankEntryLines(ledger, counterpart, amount));
  }

  /** A line is assigned to an active account on its own date, in the bank account's currency. */
  lemma {:induction false} AssignLineAnswer(db: Db, l: Id, account: Id)
    requires Inv(db)
    ensures l < |db.bankLines| ==> db.bankLines[l].bankAccount < |db.chart.bankAccounts|
    ensures var r := O.Apply(db, O.AssignLine(l, account));
            && ErrorOf(r) == (if l >= |db.bankLines| then Some(NotFound)
                              else if db.bankLines[l].match_ != Unmatched then Some(Invalid)
                              else if account >= |db.chart.accounts| then Some(NotFound)
                              else if !db.chart.accounts[account].active then Some(Invalid)
                              else DateRefused(db.periods, db.bankLines[l].date))
            && (r.Success? ==>
                  var line, e := db.bankLines[l], |db.entries|;
                  var bank := db.chart.bankAccounts[line.bankAccount];
                  && BookedOn(db, r.value, line.date, bank.currency)
                  && MovesMoney(r.value.entries[e].lines, bank.ledger, account, line.amount)
                  && r.value == db.(entries := r.value.entries,
                                    bankLines := db.bankLines[l := line.(match_ := ToAccount(account), entry := Some(e))]))
  {
    if l < |db.bankLines| {
      var line := db.bankLines[l];
      assert BankLineOk(db.chart, db.documents, line);
      var bank := db.chart.bankAccounts[line.bankAccount];
      BankBookingAnswer(db, line.date, bank.currency, bank.ledger, account, line.amount);
    }
  }

  ghost predicate Confirmed(db: Db, after: Db, l: Id, d: Id)
    requires l < |db.bankLines| && d < |db.documents| && db.bankLines[l].bankAccount < |db.chart.bankAccounts|
  {
    var line, doc, p, e := db.bankLines[l], db.documents[d], |db.payments|, |db.entries|;
    var paid := if line.amount > 0 then line.amount else -line.amount;
    && BookedOn(db, after, line.date, doc.currency)
    && MovesMoney(after.entries[e].lines, db.chart.bankAccounts[line.bankAccount].ledger, doc.control, line.amount)
    && after == db.(entries := after.entries,
                    payments := db.payments
                                + [Payment(if line.amount > 0 then Inbound else Outbound, paid, doc.currency, 0)],
                    allocations := db.allocations + [Allocation(p, d, paid, None)],
                    documents := db.documents[d := doc.(outstanding := 0)],
                    bankLines := db.bankLines[l := line.(match_ := ToDocument(d, p), entry := Some(e))])
  }

  /** The document is posted, of the side the sign asks for, and owes exactly the amount. */
  predicate Fits(line: BankLine, doc: Document)
  {
    && doc.status == DocPosted && (doc.kind == Invoice <==> line.amount > 0)
    && (doc.outstanding == line.amount || doc.outstanding == -line.amount)
  }

  lemma FittingPays(db: Db, l: Id, d: Id)
    requires Inv(db) && l < |db.bankLines| && d < |db.documents|
    requires db.bankLines[l].match_ == Unmatched && Fits(db.bankLines[l], db.documents[d])
    ensures db.bankLines[l].bankAccount < |db.chart.bankAccounts| && db.bankLines[l].amount != 0
    ensures var line, doc := db.bankLines[l], db.documents[d];
            var direction := if line.amount > 0 then Inbound else Outbound;
            && doc.outstanding == Abs(line.amount) && doc.kind == (if line.amount > 0 then Invoice else Bill)
            && PayInFull(db, direction, Abs(line.amount), doc.currency, doc.kind, d) == Success(Settled(db, line, d))
  {
    var line, doc := db.bankLines[l], db.documents[d];
    assert BankLineOk(db.chart, db.documents, line);
    assert SettlementOk(doc, LiveTotal(db.allocations, OfDocument(d)));
    PayAndAllocate(db, line, d);
  }

  /** With the payment made and allocated, booking the line is all that is left to go wrong. */
  lemma FittingBooks(db: Db, l: Id, d: Id)
    requires Inv(db) && l < |db.bankLines| && d < |db.documents|
    requires db.bankLines[l].match_ == Unmatched && Fits(db.bankLines[l], db.documents[d])
    ensures db.bankLines[l].bankAccount < |db.chart.bankAccounts| && db.bankLines[l].amount != 0
    ensures var line, doc := db.bankLines[l], db.documents[d];
            var ledger := db.chart.bankAccounts[line.bankAccount].ledger;
            var posted := WriteAndPost(Settled(db, line, d), line.date, doc.currency,
                                       BankEntryLines(ledger, doc.control, line.amount));
            ConfirmMatch(db, l, doc.kind, d)
            == if posted.Failure? then posted
               else Success(posted.value.(bankLines := db.bankLines[l :=
                              line.(match_ := ToDocument(d, |db.payments|), entry := Some(|db.entries|))]))
  {
    FittingPays(db, l, d);
  }

  lemma BookedIsConfirmed(db: Db, l: Id, d: Id, posted: Db)
    requires l < |db.bankLines| && d < |db.documents| && db.bankLines[l].bankAccount < |db.chart.bankAccounts|
    requires var line, doc, settled := db.bankLines[l], db.documents[d], Settled(db, db.bankLines[l], d);
             && posted == settled.(entries := posted.entries) && BookedOn(settled, posted, line.date, doc.currency)
             && MovesMoney(posted.entries[|db.entries|].lines, db.chart.bankAccounts[line.bankAccount].ledger, doc.control,
                           line.amount)
    ensures var row := db.bankLines[l].(match_ := ToDocument(d, |db.payments|), entry := Some(|db.entries|));
            Confirmed(db, posted.(bankLines := db.bankLines[l := row]), l, d)
  {
  }

  lemma FittingAnswer(db: Db, l: Id, d: Id)
    requires Inv(db) && l < |db.bankLines| && d < |db.documents|
    requires db.bankLines[l].match_ == Unmatched && Fits(db.bankLines[l], db.documents[d])
    ensures db.bankLines[l].bankAccount < |db.chart.bankAccounts|
    ensures var r := ConfirmMatch(db, l, db.documents[d].kind, d);
            && ErrorOf(r) == DateRefused(db.periods, db.bankLines[l].date)
            && (r.Success? ==> Confirmed(db, r.value, l, d))
  {
    var line, doc := db.bankLines[l], db.documents[d];
    FittingBooks(db, l, d);
    var ledger := db.chart.bankAccounts[line.bankAccount].ledger;
    var settled := Settled(db, line, d);
    var posted := WriteAndPost(settled, line.date, doc.currency, BankEntryLines(ledger, doc.control, line.amount));
    BankBookingAnswer(settled, line.date, doc.currency, ledger, doc.control, line.amount);
    if posted.Success? { BookedIsConfirmed(db, l, d, posted.value); }
  }

  /** A match is confirmed when the document fits: an inflow pays an invoice, an outflow a bill, in
      full. The entry has the line's date and the document's currency, and the payment is used up by
      the one allocation. */
  lemma {:induction false} ConfirmMatchAnswer(db: Db, l: Id, kind: DocumentKind, d: Id)
    requires Inv(db)
    ensures l < |db.bankLines| ==> db.bankLines[l].bankAccount < |db.chart.bankAccounts|
    ensures var r := O.Apply(db, O.ConfirmMatch(l, kind, d));
            && ErrorOf(r) == (if l >= |db.bankLines| then Some(NotFound)
                              else if db.bankLines[l].match_ != Unmatched then Some(Invalid)
                              else if d >= |db.documents| || db.documents[d].kind != kind then Some(NotFound)
                              else if !Fits(db.bankLines[l], db.documents[d]) then Some(Invalid)
                              else DateRefused(db.periods, db.bankLines[l].date))
            && (r.Success? ==> Confirmed(db, r.value, l, d))
  {
    if l < |db.bankLines| {
      assert BankLineOk(db.chart, db.documents, db.bankLines[l]);
      if d < |db.documents| && db.documents[d].kind == kind && db.bankLines[l].match_ == Unmatched {
        if Fits(db.bankLines[l], db.documents[d]) {
          FittingAnswer(db, l, d);
        } else {
          UnfittingAnswer(db, l, d);
        }
      }
    }
  }

  lemma UnfittingAnswer(db: Db, l: Id, d: Id)
    requires l < |db.bankLines| && d < |db.documents| && db.bankLines[l].bankAccount < |db.chart.bankAccounts|
    requires db.bankLines[l].match_ == Unmatched && !Fits(db.bankLines[l], db.documents[d])
    ensures ConfirmMatch(db, l, db.documents[d].kind, d) == Failure(Invalid)
  {
  }
}
