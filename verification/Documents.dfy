/** Gapless numbering: the numbers already given out, one slot per document row. */
module Numbering {
  import opened Wrappers
  import opened Sums

  function LastNumber(numbers: seq<Option<nat>>): nat
  {
    if numbers == [] then 0
    else
      var earlier, last := LastNumber(numbers[..|numbers| - 1]), numbers[|numbers| - 1];
      if last.Some? && last.value > earlier then last.value else earlier
  }

  function Given(): Option<nat> -> int { (n: Option<nat>) => Indicator(n.Some?) }

  /** The number column of a table. */
  function Column<T>(rows: seq<T>, number: T -> Option<nat>): (r: seq<Option<nat>>)
    ensures |r| == |rows| && forall i :: 0 <= i < |r| ==> r[i] == number(rows[i])
  {
    seq(|rows|, i requires 0 <= i < |rows| => number(rows[i]))
  }

  /** How many rows carry a number. */
  function Count(numbers: seq<Option<nat>>): int { Sum(numbers, Given()) }

  /** The numbers in use are exactly 1..n, each once, where n counts the numbered rows. */
  ghost predicate Gapless(numbers: seq<Option<nat>>)
  {
    && (forall i :: 0 <= i < |numbers| && numbers[i].Some? ==> 1 <= numbers[i].value <= Count(numbers))
    && (forall k: nat :: 1 <= k <= Count(numbers) ==> Some(k) in numbers)
    && (forall i, j :: 0 <= i < j < |numbers| && numbers[i].Some? ==> numbers[i] != numbers[j])
  }

  lemma {:induction false} LastNumberIsMax(numbers: seq<Option<nat>>)
    ensures forall i :: 0 <= i < |numbers| && numbers[i].Some? ==> numbers[i].value <= LastNumber(numbers)
    ensures LastNumber(numbers) == 0 || Some(LastNumber(numbers)) in numbers
  {
    if numbers != [] {
      LastNumberIsMax(numbers[..|numbers| - 1]);
    }
  }

  lemma LastNumberIsCount(numbers: seq<Option<nat>>)
    requires Gapless(numbers)
    ensures LastNumber(numbers) == Count(numbers)
  {
    LastNumberIsMax(numbers);
    SumNonNegative(numbers, Given());
    var n: nat := Count(numbers);
    if n > 0 {
      assert Some(n) in numbers;
    }
  }

  /** Handing the next number to an unnumbered row leaves no gap and no repeat. */
  lemma NextKeepsGapless(numbers: seq<Option<nat>>, i: nat)
    requires Gapless(numbers) && i < |numbers| && numbers[i].None?
    ensures Gapless(numbers[i := Some(LastNumber(numbers) + 1)])
    ensures Count(numbers[i := Some(LastNumber(numbers) + 1)]) == Count(numbers) + 1
  {
    LastNumberIsCount(numbers);
    var next: Option<nat> := Some(LastNumber(numbers) + 1);
    var after := numbers[i := next];
    SumUpdate<Option<nat>>(numbers, i, next, Given());
    forall k: nat | 1 <= k <= Count(after) ensures Some(k) in after {
      if k == Count(after) {
        assert after[i] == Some(k);
      } else {
        assert Some(k) in numbers;
        var j :| 0 <= j < |numbers| && numbers[j] == Some(k);
        assert after[j] == Some(k);
      }
    }
  }

  lemma AppendKeepsGapless(numbers: seq<Option<nat>>)
    requires Gapless(numbers)
    ensures Gapless(numbers + [None])
  {
    SumAppend(numbers, None, Given());
    forall k: nat | 1 <= k <= Count(numbers) ensures Some(k) in numbers + [None] {
      assert Some(k) in numbers;
    }
  }
}

/** Invoices, bills and credit notes: line totals, posting and cancellation
    (invoices.py, bills.py, credit_notes.py). */
module Documents {
  import opened Wrappers
  import opened Sums
  import opened Records
  import opened Periods
  import opened Journal
  import opened Numbering
  import opened Rounding

  // --- lines and totals ------------------------------------------------------

  datatype LineInput = LineInput(account: Id, quantity: int, price: int, taxCode: Option<Id>)

  function ComputeLine(chart: Chart, input: LineInput): Result<DocumentLine, Error>
  {
    if input.account >= |chart.accounts| then Failure(NotFound)
    else if !chart.accounts[input.account].active then Failure(Invalid)
    else if input.quantity <= 0 || input.price < 0 then Failure(Invalid)
    else if input.taxCode.Some? && input.taxCode.value >= |chart.taxCodes| then Failure(NotFound)
    else
      var subtotal := LineSubtotal(input.quantity, input.price);
      var tax := if input.taxCode.Some? then LineTax(subtotal, chart.taxCodes[input.taxCode.value].rate) else 0;
      Success(DocumentLine(input.account, input.quantity, input.price, input.taxCode, subtotal, tax))
  }

  function ComputeAll(chart: Chart, inputs: seq<LineInput>): (r: Result<seq<DocumentLine>, Error>)
    ensures r.Success? ==>
              && |r.value| == |inputs|
              && forall i :: 0 <= i < |inputs| ==> ComputeLine(chart, inputs[i]) == Success(r.value[i])
  {
    if inputs == [] then Success([])
    else
      var earlier :- ComputeAll(chart, inputs[..|inputs| - 1]);
      var last :- ComputeLine(chart, inputs[|inputs| - 1]);
      Success(earlier + [last])
  }

  function ComputeLines(chart: Chart, inputs: seq<LineInput>): Result<seq<DocumentLine>, Error>
  {
    if inputs == [] then Failure(Invalid) else ComputeAll(chart, inputs)
  }

  function SubtotalOf(): DocumentLine -> int { (l: DocumentLine) => l.subtotal }
  function TaxOf(): DocumentLine -> int { (l: DocumentLine) => l.tax }
  function Total(lines: seq<DocumentLine>): int { Sum(lines, SubtotalOf()) + Sum(lines, TaxOf()) }

  ghost predicate LineOk(chart: Chart, line: DocumentLine)
  {
    && line.subtotal >= 0 && line.tax >= 0
    && (line.tax > 0 ==> line.taxCode.Some? && line.taxCode.value < |chart.taxCodes|)
  }

  ghost predicate LinesOk(chart: Chart, lines: seq<DocumentLine>)
  {
    forall i :: 0 <= i < |lines| ==> LineOk(chart, lines[i])
  }

  lemma ComputedLinesOk(chart: Chart, inputs: seq<LineInput>)
    requires ComputeLines(chart, inputs).Success?
    ensures LinesOk(chart, ComputeLines(chart, inputs).value)
    ensures Total(ComputeLines(chart, inputs).value) >= 0
  {
    var lines := ComputeLines(chart, inputs).value;
    forall i | 0 <= i < |lines| ensures LineOk(chart, lines[i]) {
      assert ComputeLine(chart, inputs[i]) == Success(lines[i]);
    }
    SumNonNegative(lines, SubtotalOf());
    SumNonNegative(lines, TaxOf());
  }

  function RateOf(chart: Chart, taxCode: Option<Id>): nat
  {
    if taxCode.Some? && taxCode.value < |chart.taxCodes| then chart.taxCodes[taxCode.value].rate else 0
  }

  /** What a line comes to without rounding, in cents times 10^7. */
  function Unrounded(chart: Chart): LineInput -> int
  {
    (input: LineInput) => input.quantity * input.price * (100_000 + RateOf(chart, input.taxCode))
  }

  function LineTotal(): DocumentLine -> int { (l: DocumentLine) => l.subtotal + l.tax }

  lemma {:induction false} TotalIsSumOfLineTotals(lines: seq<DocumentLine>)
    ensures Total(lines) == Sum(lines, LineTotal())
  {
    if lines != [] { TotalIsSumOfLineTotals(lines[..|lines| - 1]); }
  }

  /** The same as the line total, in the units of `Unrounded`. */
  function ScaledLineTotal(): DocumentLine -> int { (l: DocumentLine) => 10_000_000 * (l.subtotal + l.tax) }

  lemma {:induction false} SumOfScaled(lines: seq<DocumentLine>)
    ensures Sum(lines, ScaledLineTotal()) == 10_000_000 * Sum(lines, LineTotal())
  {
    if lines != [] { SumOfScaled(lines[..|lines| - 1]); }
  }

  /** A document's total is off by at most a cent, and the highest tax on half a cent, per line. */
  lemma {:induction false} TotalRoundingBound(chart: Chart, inputs: seq<LineInput>, maxRate: nat)
    requires ComputeAll(chart, inputs).Success?
    requires forall i :: 0 <= i < |inputs| ==> RateOf(chart, inputs[i].taxCode) <= maxRate
    ensures Abs(10_000_000 * Total(ComputeAll(chart, inputs).value) - Sum(inputs, Unrounded(chart)))
         <= |inputs| * (10_000_000 + 50 * maxRate)
  {
    var lines, bound: int := ComputeAll(chart, inputs).value, 10_000_000 + 50 * maxRate;
    forall i | 0 <= i < |inputs|
      ensures -bound <= ScaledLineTotal()(lines[i]) - Unrounded(chart)(inputs[i]) <= bound
    {
      ComputedLineBound(chart, inputs[i], maxRate);
    }
    SumsStayClose(lines, inputs, ScaledLineTotal(), Unrounded(chart), bound);
    SumOfScaled(lines);
    TotalIsSumOfLineTotals(lines);
  }

  lemma ComputedLineBound(chart: Chart, input: LineInput, maxRate: nat)
    requires ComputeLine(chart, input).Success? && RateOf(chart, input.taxCode) <= maxRate
    ensures var line := ComputeLine(chart, input).value;
            Abs(10_000_000 * (line.subtotal + line.tax) - Unrounded(chart)(input)) <= 10_000_000 + 50 * maxRate
  {
    var rate := RateOf(chart, input.taxCode);
    var subtotal := LineSubtotal(input.quantity, input.price);
    LineRoundingBound(input.quantity, input.price, rate);
    assert input.taxCode.None? ==> LineTax(subtotal, 0) == 0;
  }

  // --- the tax dictionary -----------------------------------------------------

  /** An insertion-ordered dictionary from tax account to accumulated tax. */
  datatype TaxTable = TaxTable(order: seq<Id>, amounts: map<Id, int>)

  const NO_TAX := TaxTable([], map[])

  function AddTax(table: TaxTable, account: Id, tax: int): TaxTable
  {
    if account in table.amounts then table.(amounts := table.amounts[account := table.amounts[account] + tax])
    else TaxTable(table.order + [account], table.amounts[account := tax])
  }

  /** The account a line's tax goes to, if it has any tax. */
  function TaxAccount(chart: Chart, line: DocumentLine): Option<Id>
  {
    if line.tax > 0 && line.taxCode.Some? && line.taxCode.value < |chart.taxCodes|
    then Some(chart.taxCodes[line.taxCode.value].account) else None
  }

  function Accumulate(chart: Chart, lines: seq<DocumentLine>): TaxTable
  {
    if lines == [] then NO_TAX
    else
      var table, last := Accumulate(chart, lines[..|lines| - 1]), lines[|lines| - 1];
      var account := TaxAccount(chart, last);
      if account.Some? then AddTax(table, account.value, last.tax) else table
  }

  function AmountIn(table: TaxTable): Id -> int
  {
    (a: Id) => if a in table.amounts then table.amounts[a] else 0
  }

  /** It is the account of the line's tax code. */
  predicate TaxedTo(chart: Chart, line: DocumentLine, a: Id)
  {
    && line.taxCode.Some? && line.taxCode.value < |chart.taxCodes|
    && chart.taxCodes[line.taxCode.value].account == a
  }

  function TaxOnto(chart: Chart, a: Id): DocumentLine -> int
  {
    (l: DocumentLine) => if TaxedTo(chart, l, a) then l.tax else 0
  }

  ghost predicate TableOk(table: TaxTable)
  {
    && (forall i, j :: 0 <= i < j < |table.order| ==> table.order[i] != table.order[j])
    && (forall a :: a in table.order <==> a in table.amounts)
    && (forall a :: a in table.amounts ==> table.amounts[a] > 0)
  }

  /** Functions that agree away from one key have sums over distinct keys that differ by that key only. */
  lemma {:induction false} SumAtKey(keys: seq<Id>, f: Id -> int, g: Id -> int, x: Id)
    requires forall i, j :: 0 <= i < j < |keys| ==> keys[i] != keys[j]
    requires forall i :: 0 <= i < |keys| && keys[i] != x ==> f(keys[i]) == g(keys[i])
    ensures Sum(keys, g) - Sum(keys, f) == if x in keys then g(x) - f(x) else 0
  {
    if keys != [] {
      var n := |keys| - 1;
      SumAtKey(keys[..n], f, g, x);
      assert x in keys <==> x in keys[..n] || x == keys[n];
    }
  }

  lemma AddTaxKeepsTable(table: TaxTable, account: Id, tax: int)
    requires TableOk(table) && tax > 0
    ensures TableOk(AddTax(table, account, tax))
  {
    var after := AddTax(table, account, tax);
    if account !in table.amounts {
      assert account !in table.order;
      assert forall x :: x in after.order <==> x in table.order || x == account;
    }
  }

  lemma AddTaxSum(table: TaxTable, account: Id, tax: int)
    requires TableOk(table)
    ensures Sum(AddTax(table, account, tax).order, AmountIn(AddTax(table, account, tax)))
         == Sum(table.order, AmountIn(table)) + tax
  {
    var after := AddTax(table, account, tax);
    SumAtKey(table.order, AmountIn(table), AmountIn(after), account);
    if account !in table.amounts {
      assert account !in table.order;
      SumAppend<Id>(table.order, account, AmountIn(after));
    }
  }

  lemma {:induction false} AccumulateKeepsTable(chart: Chart, lines: seq<DocumentLine>)
    ensures TableOk(Accumulate(chart, lines))
  {
    if lines != [] {
      var init, last := lines[..|lines| - 1], lines[|lines| - 1];
      AccumulateKeepsTable(chart, init);
      var account := TaxAccount(chart, last);
      if account.Some? { AddTaxKeepsTable(Accumulate(chart, init), account.value, last.tax); }
    }
  }

  lemma {:induction false} AccumulateTotal(chart: Chart, lines: seq<DocumentLine>)
    requires LinesOk(chart, lines)
    ensures Sum(Accumulate(chart, lines).order, AmountIn(Accumulate(chart, lines))) == Sum(lines, TaxOf())
  {
    if lines != [] {
      var init, last := lines[..|lines| - 1], lines[|lines| - 1];
      AccumulateTotal(chart, init);
      AccumulateKeepsTable(chart, init);
      assert LineOk(chart, last);
      var account := TaxAccount(chart, last);
      if account.Some? { AddTaxSum(Accumulate(chart, init), account.value, last.tax); }
    }
  }

  /** What the accumulation loop computes: one positive amount per tax account, namely the taxes of
      the lines whose tax code has that account; altogether (AccumulateTotal) the tax total. */
  lemma {:induction false} AccumulateByAccount(chart: Chart, lines: seq<DocumentLine>, a: Id)
    requires LinesOk(chart, lines)
    ensures AmountIn(Accumulate(chart, lines))(a) == Sum(lines, TaxOnto(chart, a))
  {
    if lines != [] {
      AccumulateByAccount(chart, lines[..|lines| - 1], a);
      assert LineOk(chart, lines[|lines| - 1]);
    }
  }

  // --- the journal entry of a document ---------------------------------------------

  function Leg(account: Id, amount: int, debit: bool): JournalLine
  {
    if debit then JournalLine(account, amount, 0) else JournalLine(account, 0, amount)
  }

  /** One line per row, all on one side. */
  function Legs<T>(rows: seq<T>, account: T -> Id, amount: T -> int, debit: bool): (r: seq<JournalLine>)
    ensures |r| == |rows| && forall i :: 0 <= i < |rows| ==> r[i] == Leg(account(rows[i]), amount(rows[i]), debit)
  {
    seq(|rows|, i requires 0 <= i < |rows| => Leg(account(rows[i]), amount(rows[i]), debit))
  }

  function AmountOn<T>(account: T -> Id, amount: T -> int, a: Id): T -> int
  {
    (row: T) => if account(row) == a then amount(row) else 0
  }

  function Signed(debit: bool, amount: int): int { if debit then amount else -amount }

  lemma {:induction false} LegsTotals<T>(rows: seq<T>, account: T -> Id, amount: T -> int, debit: bool, a: Id)
    ensures Debits(Legs(rows, account, amount, debit)) == if debit then Sum(rows, amount) else 0
    ensures Credits(Legs(rows, account, amount, debit)) == if debit then 0 else Sum(rows, amount)
    ensures Effect(Legs(rows, account, amount, debit), a) == Signed(debit, Sum(rows, AmountOn(account, amount, a)))
  {
    if rows != [] {
      var n := |rows| - 1;
      LegsTotals(rows[..n], account, amount, debit, a);
      assert Legs(rows, account, amount, debit)[..n] == Legs(rows[..n], account, amount, debit);
    }
  }

  lemma LinesConcat(left: seq<JournalLine>, right: seq<JournalLine>, a: Id)
    ensures Debits(left + right) == Debits(left) + Debits(right)
    ensures Credits(left + right) == Credits(left) + Credits(right)
    ensures Effect(left + right, a) == Effect(left, a) + Effect(right, a)
  {
    SumConcat(left, right, DebitOf());
    SumConcat(left, right, CreditOf());
    SumConcat(left, right, EffectOn(a));
  }

  function LineAccount(): DocumentLine -> Id { (l: DocumentLine) => l.account }
  function Self(): Id -> Id { (a: Id) => a }

  function SubtotalLegs(lines: seq<DocumentLine>, debit: bool): seq<JournalLine>
  {
    Legs(lines, LineAccount(), SubtotalOf(), debit)
  }

  function TaxLegs(table: TaxTable, debit: bool): seq<JournalLine>
  {
    Legs(table.order, Self(), AmountIn(table), debit)
  }

  /** The control account's line on one side, then one line per document line and one per tax
      account on the other. */
  function EntryLines(chart: Chart, controlDebit: bool, control: Id, lines: seq<DocumentLine>): seq<JournalLine>
  {
    [Leg(control, Total(lines), controlDebit)]
    + (SubtotalLegs(lines, !controlDebit) + TaxLegs(Accumulate(chart, lines), !controlDebit))
  }

  /** A credit note writes the control line last, always on the credit side. */
  function NoteEntryLines(chart: Chart, control: Id, lines: seq<DocumentLine>): seq<JournalLine>
  {
    (SubtotalLegs(lines, true) + TaxLegs(Accumulate(chart, lines), true)) + [Leg(control, Total(lines), false)]
  }

  /** What a line adds to an account: its subtotal if it is booked there, its tax if its tax code has
      that account. */
  function Carried(chart: Chart, a: Id): DocumentLine -> int
  {
    (l: DocumentLine) => (if l.account == a then l.subtotal else 0) + (if TaxedTo(chart, l, a) then l.tax else 0)
  }

  /** The document's effect on an account, told without its journal entry: its total on the control
      account, against the subtotals and taxes of its lines. */
  function DocumentEffect(chart: Chart, controlDebit: bool, control: Id, lines: seq<DocumentLine>, a: Id): int
  {
    Signed(controlDebit, (if a == control then Total(lines) else 0) - Sum(lines, Carried(chart, a)))
  }

  lemma {:induction false} CarriedSplits(chart: Chart, lines: seq<DocumentLine>, a: Id)
    ensures Sum(lines, Carried(chart, a))
         == Sum(lines, AmountOn(LineAccount(), SubtotalOf(), a)) + Sum(lines, TaxOnto(chart, a))
  {
    if lines != [] {
      CarriedSplits(chart, lines[..|lines| - 1], a);
    }
  }

  lemma LineSideTotals(chart: Chart, lines: seq<DocumentLine>, debit: bool, a: Id)
    requires LinesOk(chart, lines)
    ensures var legs := SubtotalLegs(lines, debit) + TaxLegs(Accumulate(chart, lines), debit);
            && Debits(legs) == (if debit then Total(lines) else 0)
            && Credits(legs) == (if debit then 0 else Total(lines))
            && Effect(legs, a) == Signed(debit, Sum(lines, Carried(chart, a)))
  {
    var table := Accumulate(chart, lines);
    AccumulateKeepsTable(chart, lines);
    AccumulateTotal(chart, lines);
    AccumulateByAccount(chart, lines, a);
    LegsTotals(lines, LineAccount(), SubtotalOf(), debit, a);
    LegsTotals<Id>(table.order, Self(), AmountIn(table), debit, a);
    SumAtKey(table.order, Zero<Id>(), AmountOn<Id>(Self(), AmountIn(table), a), a);
    SumOfZeros<Id>(table.order);
    CarriedSplits(chart, lines, a);
    LinesConcat(SubtotalLegs(lines, debit), TaxLegs(table, debit), a);
  }

  lemma LegTotals(account: Id, amount: int, debit: bool, a: Id)
    ensures Debits([Leg(account, amount, debit)]) == if debit then amount else 0
    ensures Credits([Leg(account, amount, debit)]) == if debit then 0 else amount
    ensures Effect([Leg(account, amount, debit)], a) == Signed(debit, if a == account then amount else 0)
  {
    var leg := Leg(account, amount, debit);
    SumOfOne(leg, DebitOf());
    SumOfOne(leg, CreditOf());
    SumOfOne(leg, EffectOn(a));
  }

  /** The entry built for any document balances, and on every account it has exactly the
      document's effect. */
  lemma EntryLinesBalance(chart: Chart, controlDebit: bool, control: Id, lines: seq<DocumentLine>, a: Id)
    requires LinesOk(chart, lines)
    ensures var legs := EntryLines(chart, controlDebit, control, lines);
            && Debits(legs) == Credits(legs) == Total(lines)
            && Effect(legs, a) == DocumentEffect(chart, controlDebit, control, lines, a)
  {
    LineSideTotals(chart, lines, !controlDebit, a);
    LegTotals(control, Total(lines), controlDebit, a);
    LinesConcat([Leg(control, Total(lines), controlDebit)],
                SubtotalLegs(lines, !controlDebit) + TaxLegs(Accumulate(chart, lines), !controlDebit), a);
  }

  lemma NoteEntryLinesBalance(chart: Chart, control: Id, lines: seq<DocumentLine>, a: Id)
    requires LinesOk(chart, lines)
    ensures var legs := NoteEntryLines(chart, control, lines);
            && Debits(legs) == Credits(legs) == Total(lines)
            && Effect(legs, a) == DocumentEffect(chart, false, control, lines, a)
  {
    LineSideTotals(chart, lines, true, a);
    LegTotals(control, Total(lines), false, a);
    LinesConcat(SubtotalLegs(lines, true) + TaxLegs(Accumulate(chart, lines), true),
                [Leg(control, Total(lines), false)], a);
  }

  predicate NoFreeLine(lines: seq<DocumentLine>)
  {
    forall i :: 0 <= i < |lines| ==> lines[i].subtotal > 0
  }

  lemma SidesOneSided(chart: Chart, lines: seq<DocumentLine>, debit: bool)
    requires LinesOk(chart, lines)
    ensures AllOneSided(SubtotalLegs(lines, debit) + TaxLegs(Accumulate(chart, lines), debit)) <==> NoFreeLine(lines)
  {
    var table := Accumulate(chart, lines);
    var subs, taxes := SubtotalLegs(lines, debit), TaxLegs(table, debit);
    AccumulateKeepsTable(chart, lines);
    forall i | 0 <= i < |taxes| ensures OneSided(taxes[i]) {
      assert table.order[i] in table.order;
    }
    forall i | 0 <= i < |lines| ensures OneSided((subs + taxes)[i]) <==> lines[i].subtotal > 0 {
      assert (subs + taxes)[i] == Leg(lines[i].account, lines[i].subtotal, debit);
      assert LineOk(chart, lines[i]);
    }
  }

  /** The entry of a document with a positive total passes the one-sided CHECK exactly when no
      line is free. */
  lemma EntryLinesOneSided(chart: Chart, controlDebit: bool, control: Id, lines: seq<DocumentLine>)
    requires LinesOk(chart, lines) && Total(lines) > 0
    ensures AllOneSided(EntryLines(chart, controlDebit, control, lines)) <==> NoFreeLine(lines)
  {
    SidesOneSided(chart, lines, !controlDebit);
    OneMoreLeg(Leg(control, Total(lines), controlDebit),
               SubtotalLegs(lines, !controlDebit) + TaxLegs(Accumulate(chart, lines), !controlDebit));
  }

  lemma NoteEntryLinesOneSided(chart: Chart, control: Id, lines: seq<DocumentLine>)
    requires LinesOk(chart, lines) && Total(lines) > 0
    ensures AllOneSided(NoteEntryLines(chart, control, lines)) <==> NoFreeLine(lines)
  {
    SidesOneSided(chart, lines, true);
    OneMoreLeg(Leg(control, Total(lines), false), SubtotalLegs(lines, true) + TaxLegs(Accumulate(chart, lines), true));
  }

  lemma OneMoreLeg(leg: JournalLine, legs: seq<JournalLine>)
    requires OneSided(leg)
    ensures AllOneSided([leg] + legs) <==> AllOneSided(legs)
    ensures AllOneSided(legs + [leg]) <==> AllOneSided(legs)
  {
    assert forall i :: 0 <= i < |legs| ==> ([leg] + legs)[i + 1] == legs[i] && (legs + [leg])[i] == legs[i];
    if AllOneSided(legs) {
    } else {
      var i :| 0 <= i < |legs| && !OneSided(legs[i]);
      assert !OneSided(([leg] + legs)[i + 1]) && !OneSided((legs + [leg])[i]);
    }
  }

  // --- the services ---------------------------------------------------------------------

  function CreateDocument(db: Db, kind: DocumentKind, control: Id, currency: Currency, date: Date,
                          inputs: seq<LineInput>): Result<Db, Error>
  {
    var lines :- ComputeLines(db.chart, inputs);
    if control >= |db.chart.accounts| then Failure(NotFound)
    else Success(db.(documents := db.documents
                       + [Document(kind, control, currency, date, DocDraft, lines, Total(lines), 0, None, None)]))
  }

  function FindDocument(db: Db, kind: DocumentKind, d: Id): (r: Result<Document, Error>)
    ensures r.Success? ==> d < |db.documents| && r.value == db.documents[d] && r.value.kind == kind
    ensures r.Failure? ==> r.error == NotFound && (d >= |db.documents| || db.documents[d].kind != kind)
  {
    if d >= |db.documents| || db.documents[d].kind != kind then Failure(NotFound) else Success(db.documents[d])
  }

  function UpdateDocument(db: Db, kind: DocumentKind, d: Id, inputs: seq<LineInput>): Result<Db, Error>
  {
    var doc :- FindDocument(db, kind, d);
    if doc.status != DocDraft then Failure(Invalid)
    else
      var lines :- ComputeLines(db.chart, inputs);
      Success(db.(documents := db.documents[d := doc.(lines := lines, total := Total(lines))]))
  }

  function VoidDocument(db: Db, kind: DocumentKind, d: Id): Result<Db, Error>
  {
    var doc :- FindDocument(db, kind, d);
    if doc.status != DocDraft then Failure(Invalid)
    else Success(db.(documents := db.documents[d := doc.(status := DocVoided)]))
  }

  function DocumentNumbers(documents: seq<Document>): seq<Option<nat>>
  {
    Column(documents, (d: Document) => d.number)
  }

  function NoteNumbers(notes: seq<CreditNote>): seq<Option<nat>>
  {
    Column(notes, (n: CreditNote) => n.number)
  }

  /** Invoices are numbered; bills keep the supplier's reference. */
  function NextNumber(documents: seq<Document>, kind: DocumentKind): Option<nat>
  {
    if kind == Invoice then Some(LastNumber(DocumentNumbers(documents)) + 1) else None
  }

  function PostDocument(db: Db, kind: DocumentKind, d: Id): Result<Db, Error>
  {
    var doc :- FindDocument(db, kind, d);
    if doc.status != DocDraft || doc.lines == [] || Total(doc.lines) <= 0 then Failure(Invalid)
    else
      var total := Total(doc.lines);
      var posted :- WriteAndPost(db, doc.date, doc.currency,
                                 EntryLines(db.chart, kind == Invoice, doc.control, doc.lines));
      Success(posted.(documents := db.documents[d :=
                doc.(number := NextNumber(db.documents, kind), total := total, outstanding := total,
                     entry := Some(|db.entries|), status := DocPosted)]))
  }

  function CancelDocument(db: Db, kind: DocumentKind, d: Id, date: Date): Result<Db, Error>
  {
    var doc :- FindDocument(db, kind, d);
    if doc.status != DocPosted || doc.entry.None? then Failure(Invalid)
    else
      var reversed :- ReverseEntry(db, doc.entry.value, date, false);
      Success(reversed.(documents := db.documents[d := doc.(status := DocCancelled, outstanding := 0)]))
  }

  function CreateNote(db: Db, invoice: Id, currency: Currency, date: Date, inputs: seq<LineInput>): Result<Db, Error>
  {
    var doc :- FindDocument(db, Invoice, invoice);
    if doc.status != DocPosted then Failure(Invalid)
    else
      var lines :- ComputeLines(db.chart, inputs);
      Success(db.(notes := db.notes + [CreditNote(invoice, currency, date, DocDraft, lines, Total(lines), None, None)]))
  }

  function VoidNote(db: Db, n: Id): Result<Db, Error>
  {
    if n >= |db.notes| then Failure(NotFound)
    else if db.notes[n].status != DocDraft then Failure(Invalid)
    else Success(db.(notes := db.notes[n := db.notes[n].(status := DocVoided)]))
  }

  function PostNote(db: Db, n: Id): Result<Db, Error>
  {
    if n >= |db.notes| then Failure(NotFound)
    else
      var note := db.notes[n];
      if note.status != DocDraft then Failure(Invalid)
      else
        var invoice :- FindDocument(db, Invoice, note.invoice);
        if invoice.status != DocPosted || note.lines == [] || Total(note.lines) <= 0 then Failure(Invalid)
        else
          var posted :- WriteAndPost(db, note.date, note.currency,
                                     NoteEntryLines(db.chart, invoice.control, note.lines));
          Success(posted.(notes := db.notes[n :=
                    note.(number := Some(LastNumber(NoteNumbers(db.notes)) + 1), total := Total(note.lines),
                          entry := Some(|db.entries|), status := DocPosted)]))
  }
}
