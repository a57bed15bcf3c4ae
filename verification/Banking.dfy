/** Bank statements: import with duplicate detection, and reconciliation (banking.py). */
module Banking {
  import opened Wrappers
  import opened Sums
  import opened Records
  import opened Journal
  import opened Documents
  import opened Payments

  // --- import ------------------------------------------------------------------

  function Digest(h: Payload -> nat, bankAccount: Id, row: ParsedLine): nat
  {
    h(Payload(bankAccount, row.date, row.written, row.description))
  }

  /** The digests already stored for a bank account. */
  function Digests(lines: seq<BankLine>, bankAccount: Id): set<nat>
  {
    set i | 0 <= i < |lines| && lines[i].bankAccount == bankAccount :: lines[i].digest
  }

  function RowDigests(h: Payload -> nat, bankAccount: Id, rows: seq<ParsedLine>): set<nat>
  {
    set i | 0 <= i < |rows| :: Digest(h, bankAccount, rows[i])
  }

  function NewLine(h: Payload -> nat, bankAccount: Id, row: ParsedLine): BankLine
  {
    BankLine(bankAccount, row.date, Cents(row.written), row.description, Digest(h, bankAccount, row), Unmatched, None)
  }

  /** The table after the import loop: each row is appended unless its digest is already there. */
  function ImportRows(h: Payload -> nat, bankAccount: Id, lines: seq<BankLine>, rows: seq<ParsedLine>): (r: seq<BankLine>)
    ensures |lines| <= |r| <= |lines| + |rows| && r[..|lines|] == lines
  {
    if rows == [] then lines
    else
      var table, row := ImportRows(h, bankAccount, lines, rows[..|rows| - 1]), rows[|rows| - 1];
      if Digest(h, bankAccount, row) in Digests(table, bankAccount) then table
      else table + [NewLine(h, bankAccount, row)]
  }

  /** Parsing refuses an empty file and a zero amount before the bank account is looked up. */
  function ImportStatement(db: Db, bankAccount: Id, rows: seq<ParsedLine>): Result<Db, Error>
  {
    if rows == [] || (exists i :: 0 <= i < |rows| && Cents(rows[i].written) == 0) then Failure(Invalid)
    else if bankAccount >= |db.chart.bankAccounts| then Failure(NotFound)
    else Success(db.(bankLines := ImportRows(db.digest, bankAccount, db.bankLines, rows)))
  }

  ghost predicate DigestsDistinct(lines: seq<BankLine>)
  {
    forall i, j :: 0 <= i < j < |lines| && lines[i].bankAccount == lines[j].bankAccount ==>
      lines[i].digest != lines[j].digest
  }

  lemma AppendDigest(lines: seq<BankLine>, line: BankLine, bankAccount: Id)
    ensures Digests(lines + [line], bankAccount)
         == Digests(lines, bankAccount) + (if line.bankAccount == bankAccount then {line.digest} else {})
  {
    var after := lines + [line];
    forall d | d in Digests(lines, bankAccount) ensures d in Digests(after, bankAccount) {
      var i :| 0 <= i < |lines| && lines[i].bankAccount == bankAccount && lines[i].digest == d;
      assert after[i].digest == d && after[i].bankAccount == bankAccount;
    }
    if line.bankAccount == bankAccount { assert after[|lines|].digest == line.digest; }
  }

  /** The stored digests become the union of the old ones and the file's; no two lines of a bank
      account share one; other bank accounts are untouched. */
  lemma {:induction false} ImportIsUnion(h: Payload -> nat, bankAccount: Id, lines: seq<BankLine>, rows: seq<ParsedLine>,
                                         other: Id)
    requires DigestsDistinct(lines)
    ensures Digests(ImportRows(h, bankAccount, lines, rows), bankAccount)
         == Digests(lines, bankAccount) + RowDigests(h, bankAccount, rows)
    ensures DigestsDistinct(ImportRows(h, bankAccount, lines, rows))
    ensures other != bankAccount ==>
              Digests(ImportRows(h, bankAccount, lines, rows), other) == Digests(lines, other)
  {
    if rows != [] {
      var n := |rows| - 1;
      ImportIsUnion(h, bankAccount, lines, rows[..n], other);
      var table, row := ImportRows(h, bankAccount, lines, rows[..n]), rows[n];
      AppendDigest(table, NewLine(h, bankAccount, row), bankAccount);
      AppendDigest(table, NewLine(h, bankAccount, row), other);
      RowDigestsStep(h, bankAccount, rows);
    }
  }

  lemma RowDigestsStep(h: Payload -> nat, bankAccount: Id, rows: seq<ParsedLine>)
    requires rows != []
    ensures RowDigests(h, bankAccount, rows)
         == RowDigests(h, bankAccount, rows[..|rows| - 1]) + {Digest(h, bankAccount, rows[|rows| - 1])}
  {
    var init := rows[..|rows| - 1];
    assert Digest(h, bankAccount, rows[|rows| - 1]) in RowDigests(h, bankAccount, rows);
    forall d | d in RowDigests(h, bankAccount, init) ensures d in RowDigests(h, bankAccount, rows) {
      var i :| 0 <= i < |init| && Digest(h, bankAccount, init[i]) == d;
      assert Digest(h, bankAccount, rows[i]) == d;
    }
    forall d | d in RowDigests(h, bankAccount, rows)
      ensures d in RowDigests(h, bankAccount, init) + {Digest(h, bankAccount, rows[|rows| - 1])}
    {
      var i :| 0 <= i < |rows| && Digest(h, bankAccount, rows[i]) == d;
      if i < |init| { assert Digest(h, bankAccount, init[i]) == d; }
    }
  }

  /** A file whose digests are all stored adds nothing. */
  lemma {:induction false} KnownRowsAddNothing(h: Payload -> nat, bankAccount: Id, lines: seq<BankLine>, rows: seq<ParsedLine>)
    requires RowDigests(h, bankAccount, rows) <= Digests(lines, bankAccount)
    ensures ImportRows(h, bankAccount, lines, rows) == lines
  {
    if rows != [] {
      RowDigestsStep(h, bankAccount, rows);
      KnownRowsAddNothing(h, bankAccount, lines, rows[..|rows| - 1]);
    }
  }

  /** Importing the same file again, after any other file, changes nothing; and two files can be
      imported in either order with the same digests stored in the end. */
  lemma {:induction false} ImportIsIdempotentAndCommutes(h: Payload -> nat, bankAccount: Id, lines: seq<BankLine>,
                                      file: seq<ParsedLine>, other: seq<ParsedLine>)
    requires DigestsDistinct(lines)
    ensures var once := ImportRows(h, bankAccount, ImportRows(h, bankAccount, lines, file), other);
            var swapped := ImportRows(h, bankAccount, ImportRows(h, bankAccount, lines, other), file);
            && ImportRows(h, bankAccount, once, file) == once
            && Digests(once, bankAccount) == Digests(swapped, bankAccount)
            && |once| == |swapped|
  {
    var first := ImportRows(h, bankAccount, lines, file);
    var second := ImportRows(h, bankAccount, lines, other);
    ImportIsUnion(h, bankAccount, lines, file, bankAccount);
    ImportIsUnion(h, bankAccount, lines, other, bankAccount);
    ImportIsUnion(h, bankAccount, first, other, bankAccount);
    ImportIsUnion(h, bankAccount, second, file, bankAccount);
    KnownRowsAddNothing(h, bankAccount, ImportRows(h, bankAccount, first, other), file);
    ImportGrowsByNewDigests(h, bankAccount, lines, file);
    ImportGrowsByNewDigests(h, bankAccount, lines, other);
    ImportGrowsByNewDigests(h, bankAccount, first, other);
    ImportGrowsByNewDigests(h, bankAccount, second, file);
  }

  /** The imported count is the number of digests that are new. */
  lemma {:induction false} ImportGrowsByNewDigests(h: Payload -> nat, bankAccount: Id, lines: seq<BankLine>,
                                                   rows: seq<ParsedLine>)
    requires DigestsDistinct(lines)
    ensures |ImportRows(h, bankAccount, lines, rows)| - |lines|
         == |Digests(ImportRows(h, bankAccount, lines, rows), bankAccount)| - |Digests(lines, bankAccount)|
  {
    if rows != [] {
      var n := |rows| - 1;
      ImportGrowsByNewDigests(h, bankAccount, lines, rows[..n]);
      AppendDigest(ImportRows(h, bankAccount, lines, rows[..n]), NewLine(h, bankAccount, rows[n]), bankAccount);
    }
  }

  ghost predicate CollisionFree(h: Payload -> nat)
  {
    forall p, q :: h(p) == h(q) ==> p == q
  }

  predicate SameSpelling(row: ParsedLine, other: ParsedLine)
  {
    row.date == other.date && row.written == other.written && row.description == other.description
  }

  /** Under a collision-free digest a row is dropped exactly when an earlier row has its date, its
      amount spelled the same way, and its description. */
  lemma {:induction false} DroppedExactlyWhen(h: Payload -> nat, bankAccount: Id, rows: seq<ParsedLine>, other: ParsedLine)
    requires CollisionFree(h)
    ensures ImportRows(h, bankAccount, [], rows + [other]) == ImportRows(h, bankAccount, [], rows)
       <==> exists i :: 0 <= i < |rows| && SameSpelling(rows[i], other)
  {
    assert (rows + [other])[..|rows|] == rows;
    ImportIsUnion(h, bankAccount, [], rows, bankAccount);
    assert Digests([], bankAccount) == {};
    var table := ImportRows(h, bankAccount, [], rows);
    assert Digest(h, bankAccount, other) in Digests(table, bankAccount)
       <==> exists i :: 0 <= i < |rows| && Digest(h, bankAccount, rows[i]) == Digest(h, bankAccount, other);
    forall i | 0 <= i < |rows|
      ensures Digest(h, bankAccount, rows[i]) == Digest(h, bankAccount, other) <==> SameSpelling(rows[i], other)
    {
    }
    assert |table + [NewLine(h, bankAccount, other)]| == |table| + 1;
  }

  /** So one movement of 10.50, written 10.5 in one row and 10.50 in the next, is imported twice. */
  lemma {:induction false} SpellingEscapesDetection(h: Payload -> nat, bankAccount: Id, date: Date, description: string)
    requires CollisionFree(h)
    ensures var row := ParsedLine(date, Decimal(105, -1), description, None);
            var other := ParsedLine(date, Decimal(1050, -2), description, None);
            && Cents(row.written) == Cents(other.written) == 1050
            && ImportRows(h, bankAccount, [], [row, other]) == [NewLine(h, bankAccount, row), NewLine(h, bankAccount, other)]
  {
    var row := ParsedLine(date, Decimal(105, -1), description, None);
    var other := ParsedLine(date, Decimal(1050, -2), description, None);
    assert PowerOfTen(1) == 10 && PowerOfTen(0) == 1;
    ImportOneRow(h, bankAccount, [], row);
    DroppedExactlyWhen(h, bankAccount, [row], other);
    assert [row] + [other] == [row, other] && [row, other][..1] == [row];
    assert [] + [NewLine(h, bankAccount, row)] == [NewLine(h, bankAccount, row)];
  }

  lemma ImportOneRow(h: Payload -> nat, bankAccount: Id, lines: seq<BankLine>, row: ParsedLine)
    requires Digest(h, bankAccount, row) !in Digests(lines, bankAccount)
    ensures ImportRows(h, bankAccount, lines, [row]) == lines + [NewLine(h, bankAccount, row)]
  {
    assert [row][..0] == [];
  }

  // --- reconciliation -----------------------------------------------------------------

  /** Debit the bank and credit the counterpart for an inflow, the other way round for an outflow. */
  function BankEntryLines(ledger: Id, counter: Id, amount: int): seq<JournalLine>
  {
    if amount > 0 then [Leg(ledger, amount, true), Leg(counter, amount, false)]
    else [Leg(counter, -amount, true), Leg(ledger, -amount, false)]
  }

  lemma BankEntryLinesEffect(ledger: Id, counter: Id, amount: int, a: Id)
    requires amount != 0
    ensures var legs := BankEntryLines(ledger, counter, amount);
            && AllOneSided(legs) && |legs| == 2
            && Debits(legs) == Credits(legs) == Abs(amount)
            && Effect(legs, a) == (if a == ledger then amount else 0) - (if a == counter then amount else 0)
  {
    var legs := BankEntryLines(ledger, counter, amount);
    assert legs == [legs[0]] + [legs[1]];
    LinesConcat([legs[0]], [legs[1]], a);
    LegTotals(if amount > 0 then ledger else counter, Abs(amount), true, a);
    LegTotals(if amount > 0 then counter else ledger, Abs(amount), false, a);
  }

  /** The unmatched line `l`, or the reason it cannot be reconciled. */
  function OpenLine(db: Db, l: Id): (r: Result<BankLine, Error>)
    ensures r.Success? ==> l < |db.bankLines| && r.value == db.bankLines[l] && r.value.match_ == Unmatched
  {
    if l >= |db.bankLines| then Failure(NotFound)
    else if db.bankLines[l].match_ != Unmatched then Failure(Invalid)
    else Success(db.bankLines[l])
  }

  /** A new payment, allocated at once and in full to one document. */
  function PayInFull(db: Db, direction: Direction, amount: int, currency: Currency, kind: DocumentKind, d: Id): Result<Db, Error>
  {
    var paid :- CreatePayment(db, direction, amount, currency);
    CreateAllocation(paid, |db.payments|, kind, d, amount)
  }

  /** One transaction: payment, allocation, posted entry, reconciled line. */
  function ConfirmMatch(db: Db, l: Id, kind: DocumentKind, d: Id): Result<Db, Error>
  {
    var line :- OpenLine(db, l);
    if line.bankAccount >= |db.chart.bankAccounts| then Failure(NotFound)
    else
      var doc :- FindDocument(db, kind, d);
      if doc.status != DocPosted then Failure(Invalid)
      else if kind != (if line.amount > 0 then Invoice else Bill) then Failure(Invalid)
      else if Abs(line.amount) != doc.outstanding then Failure(Invalid)
      else
        var p := |db.payments|;
        var direction := if line.amount > 0 then Inbound else Outbound;
        var settled :- PayInFull(db, direction, Abs(line.amount), doc.currency, kind, d);
        var lines := BankEntryLines(db.chart.bankAccounts[line.bankAccount].ledger, doc.control, line.amount);
        var posted :- WriteAndPost(settled, line.date, doc.currency, lines);
        Success(posted.(bankLines := db.bankLines[l :=
                  line.(match_ := ToDocument(d, p), entry := Some(|db.entries|))]))
  }

  /** One transaction: posted entry, reconciled line. */
  function AssignLine(db: Db, l: Id, account: Id): Result<Db, Error>
  {
    var line :- OpenLine(db, l);
    if line.bankAccount >= |db.chart.bankAccounts| then Failure(NotFound)
    else if account >= |db.chart.accounts| then Failure(NotFound)
    else if !db.chart.accounts[account].active then Failure(Invalid)
    else
      var bank := db.chart.bankAccounts[line.bankAccount];
      var posted :- WriteAndPost(db, line.date, bank.currency, BankEntryLines(bank.ledger, account, line.amount));
      Success(posted.(bankLines := db.bankLines[l := line.(match_ := ToAccount(account), entry := Some(|db.entries|))]))
  }
}
