/** What becomes of a document after its cancellation, and of one whose entry was reversed by hand,
    in general and on runs of service calls. */
module Cancellation {
  import opened Wrappers
  import opened Sums
  import opened Records
  import opened Journal
  import opened Documents
  import opened Payments
  import opened Banking
  import opened Subledger
  import opened Invariants
  import opened Theorems
  import O = Operations

  // --- what a cancelled document owes -------------------------------------------------

  /** The allocation is to the document, is no reversal, and was not reversed. */
  predicate LiveFor(allocations: seq<Allocation>, d: Id, i: Id)
  {
    i < |allocations| && allocations[i].document == d && allocations[i].reverses.None? && !IsReversed(allocations, i)
  }

  /** From `db` on nothing was added for the document but reversals, and what it owes plus what is
      live has not moved. */
  ghost predicate OnlyReversals(db: Db, after: Db, d: Id)
    requires d < |db.documents|
  {
    && d < |after.documents| && after.documents[d].status == DocCancelled
    && db.allocations <= after.allocations
    && (forall i :: |db.allocations| <= i < |after.allocations| && after.allocations[i].document == d ==>
          after.allocations[i].reverses.Some?)
    && after.documents[d].outstanding + LiveTotal(after.allocations, OfDocument(d))
       == db.documents[d].outstanding + LiveTotal(db.allocations, OfDocument(d))
  }

  predicate MovesMoney(call: O.Call) { call.CreateAllocation? || call.ReverseAllocation? || call.ConfirmMatch? }

  lemma AllocatingKeepsCancelled(db: Db, d: Id, p: Id, kind: DocumentKind, other: Id, amount: int)
    requires Inv(db) && d < |db.documents| && db.documents[d].status == DocCancelled
    requires CreateAllocation(db, p, kind, other, amount).Success?
    ensures OnlyReversals(db, CreateAllocation(db, p, kind, other, amount).value, d)
  {
    AppendedLive(db.allocations, Allocation(p, other, amount, None), OfDocument(d));
  }

  lemma ReversingKeepsCancelled(db: Db, d: Id, i: Id)
    requires Inv(db) && d < |db.documents| && db.documents[d].status == DocCancelled
    requires ReverseAllocation(db, i).Success?
    ensures OnlyReversals(db, ReverseAllocation(db, i).value, d)
  {
    assert AllocationOk(db.allocations, i);
    AppendedLive(db.allocations, db.allocations[i].(reverses := Some(i)), OfDocument(d));
  }

  lemma ConfirmingKeepsCancelled(db: Db, d: Id, l: Id, kind: DocumentKind, other: Id)
    requires Inv(db) && d < |db.documents| && db.documents[d].status == DocCancelled
    requires ConfirmMatch(db, l, kind, other).Success?
    ensures OnlyReversals(db, ConfirmMatch(db, l, kind, other).value, d)
  {
    var p := ConfirmWrites(db, l, kind, other);
    var row := Allocation(|db.payments|, other, Abs(db.bankLines[l].amount), None);
    AppendedLive(db.allocations, row, OfDocument(d));
  }

  lemma OthersKeepAllocations(db: Db, call: O.Call)
    requires !MovesMoney(call)
    ensures O.Step(db, call).allocations == db.allocations
  {
  }

  /** Only money moves change what an issued document owes without changing its status. */
  lemma OthersKeepCancelled(db: Db, call: O.Call, d: Id)
    requires !MovesMoney(call) && d < |db.documents| && db.documents[d].status == DocCancelled
    ensures d < |O.Step(db, call).documents| && O.Step(db, call).documents[d] == db.documents[d]
  {
  }

  lemma StepKeepsCancelled(db: Db, call: O.Call, d: Id)
    requires Inv(db) && d < |db.documents| && db.documents[d].status == DocCancelled
    ensures OnlyReversals(db, O.Step(db, call), d)
  {
    if MovesMoney(call) && O.Apply(db, call).Success? {
      match call
      case CreateAllocation(p, kind, other, amount) => AllocatingKeepsCancelled(db, d, p, kind, other, amount);
      case ReverseAllocation(i) => ReversingKeepsCancelled(db, d, i);
      case ConfirmMatch(l, kind, other) => ConfirmingKeepsCancelled(db, d, l, kind, other);
    } else if !MovesMoney(call) {
      OthersKeepAllocations(db, call);
      OthersKeepCancelled(db, call, d);
    }
  }

  lemma ReversalsCompose(db: Db, middle: Db, after: Db, d: Id)
    requires d < |db.documents| && OnlyReversals(db, middle, d) && OnlyReversals(middle, after, d)
    ensures OnlyReversals(db, after, d)
  {
  }

  lemma {:induction false} RunKeepsCancelled(db: Db, calls: seq<O.Call>, d: Id)
    requires Inv(db) && d < |db.documents| && db.documents[d].status == DocCancelled
    ensures OnlyReversals(db, O.Run(db, calls), d)
  {
    if calls != [] {
      var init := calls[..|calls| - 1];
      RunKeepsInv(db, init);
      RunKeepsCancelled(db, init, d);
      StepKeepsCancelled(O.Run(db, init), calls[|calls| - 1], d);
      ReversalsCompose(db, O.Run(db, init), O.Run(db, calls), d);
    }
  }

  /** Reversals only take live amounts away, and take the whole of each. */
  lemma {:induction false} LiveShrinks(before: seq<Allocation>, after: seq<Allocation>, d: Id, n: nat)
    requires EachOk(before) && before <= after && n <= |before|
    ensures LiveUpTo(after, OfDocument(d), n) <= LiveUpTo(before, OfDocument(d), n)
    ensures LiveUpTo(after, OfDocument(d), n) == LiveUpTo(before, OfDocument(d), n)
       <==> forall i :: 0 <= i < n && LiveFor(before, d, i) ==> !IsReversed(after, i)
  {
    if n > 0 {
      LiveShrinks(before, after, d, n - 1);
      assert AllocationOk(before, n - 1);
      if IsReversed(before, n - 1) {
        var j :| 0 <= j < |before| && before[j].reverses == Some(n - 1);
        assert after[j].reverses == Some(n - 1);
      }
    }
  }

  lemma {:induction false} LaterRowsAreNotLive(before: seq<Allocation>, after: seq<Allocation>, d: Id, n: nat)
    requires before <= after && |before| <= n <= |after|
    requires forall i :: |before| <= i < |after| && after[i].document == d ==> after[i].reverses.Some?
    ensures LiveUpTo(after, OfDocument(d), n) == LiveUpTo(after, OfDocument(d), |before|)
  {
    if n > |before| { LaterRowsAreNotLive(before, after, d, n - 1); }
  }

  /** From its cancellation on, along any run, a document owes what was live then less what is live
      now: nothing, exactly when none of the allocations live at the cancellation was reversed since. */
  lemma {:induction false} CancelledOwesWhatWasReversed(db: Db, kind: DocumentKind, d: Id, date: Date, calls: seq<O.Call>)
    requires Inv(db) && CancelDocument(db, kind, d, date).Success?
    ensures var after := CancelDocument(db, kind, d, date).value;
            var later := O.Run(after, calls);
            && d < |later.documents| && later.documents[d].status == DocCancelled
            && later.documents[d].outstanding
               == LiveTotal(after.allocations, OfDocument(d)) - LiveTotal(later.allocations, OfDocument(d))
            && (later.documents[d].outstanding == 0
                <==> forall i :: 0 <= i < |after.allocations| && LiveFor(after.allocations, d, i) ==>
                       !IsReversed(later.allocations, i))
  {
    var after := CancelDocument(db, kind, d, date).value;
    CancelDocumentKeepsInv(db, kind, d, date);
    RunKeepsCancelled(after, calls, d);
    var later := O.Run(after, calls);
    LiveShrinks(after.allocations, later.allocations, d, |after.allocations|);
    LaterRowsAreNotLive(after.allocations, later.allocations, d, |later.allocations|);
  }

  // --- a document's entry reversed by hand ---------------------------------------------------

  /** Any posted document can be put out of reach this way, as long as its entry is still posted. */
  lemma {:induction false} ReversingByHandBlocks(db: Db, kind: DocumentKind, d: Id, date: Date, other: Date)
    requires Inv(db) && d < |db.documents| && db.documents[d].kind == kind && db.documents[d].status == DocPosted
    requires db.entries[EntryOf(db, d)].status == EntryPosted && OpenPeriod(db.periods, date).Success?
    ensures var reversed := ReverseEntry(db, EntryOf(db, d), date, true);
            && reversed.Success? && reversed.value.documents == db.documents
            && CancelDocument(reversed.value, kind, d, other) == Failure(Invalid)
  {
  }

  // --- runs ------------------------------------------------------------------------------------

  const SALE := [LineInput(1, 100, 500, None)]
  const SALE_LINES := [DocumentLine(1, 100, 500, None, 500, 0)]
  const SELL := [O.CreatePeriod(1, 31), O.CreateDocument(Invoice, 0, "EUR", 10, SALE), O.PostDocument(Invoice, 0)]

  /** A tenant with a chart of accounts and nothing else. */
  function NewShop(digest: Payload -> nat): Db { Db(SHOP, [], [], [], [], [], [], [], digest) }

  lemma RunOneMore(db: Db, calls: seq<O.Call>, call: O.Call)
    ensures O.Run(db, calls + [call]) == O.Step(O.Run(db, calls), call)
  {
    assert (calls + [call])[..|calls|] == calls;
  }

  lemma SaleTotal()
    ensures ComputeLines(SHOP, SALE) == Success(SALE_LINES) && Total(SALE_LINES) == 500
  {
    ComputeAllAppend(SHOP, [], SALE[0], [], SALE_LINES[0]);
    assert [] + SALE == SALE && [] + SALE_LINES == SALE_LINES;
    assert [] + [SALE[0]] == SALE && [] + [SALE_LINES[0]] == SALE_LINES;
    TotalIsSumOfLineTotals(SALE_LINES);
    SumOfOne(SALE_LINES[0], LineTotal());
  }

  function DraftSale(digest: Payload -> nat): Db
  {
    NewShop(digest).(periods := [Period(1, 31, true)],
                     documents := [Document(Invoice, 0, "EUR", 10, DocDraft, SALE_LINES, 500, 0, None, None)])
  }

  lemma PeriodIsOpened(digest: Payload -> nat)
    ensures O.Run(NewShop(digest), SELL[..1]) == NewShop(digest).(periods := [Period(1, 31, true)])
  {
    RunOneMore(NewShop(digest), [], SELL[0]);
    assert [] + [SELL[0]] == SELL[..1];
    assert NewShop(digest).periods + [Period(1, 31, true)] == [Period(1, 31, true)];
  }

  lemma SaleIsDrafted(digest: Payload -> nat)
    ensures O.Step(NewShop(digest).(periods := [Period(1, 31, true)]), SELL[1]) == DraftSale(digest)
  {
    SaleTotal();
    var doc := Document(Invoice, 0, "EUR", 10, DocDraft, SALE_LINES, 500, 0, None, None);
    assert NewShop(digest).documents + [doc] == [doc];
  }

  lemma DraftSaleIsReached(digest: Payload -> nat)
    ensures O.Run(NewShop(digest), SELL[..2]) == DraftSale(digest)
    ensures Inv(DraftSale(digest))
  {
    PeriodIsOpened(digest);
    RunOneMore(NewShop(digest), SELL[..1], SELL[1]);
    assert SELL[..1] + [SELL[1]] == SELL[..2];
    SaleIsDrafted(digest);
    InitialInv(NewShop(digest));
    RunKeepsInv(NewShop(digest), SELL[..2]);
  }

  /** One posted invoice of 5.00, with its posted entry, in a period that is open. */
  ghost predicate SoldOnce(db: Db)
  {
    && |db.documents| == 1 && db.documents[0].kind == Invoice && db.documents[0].status == DocPosted
    && db.documents[0].outstanding == 500 && db.documents[0].entry == Some(0)
    && |db.entries| == 1 && db.entries[0].status == EntryPosted && OpenPeriod(db.periods, 10) == Success(0)
    && db.payments == [] && db.allocations == [] && db.bankLines == [] && db.chart == SHOP
  }

  lemma DraftSalePosts(digest: Payload -> nat)
    ensures PostDocument(DraftSale(digest), Invoice, 0).Success?
  {
    var draft := DraftSale(digest);
    DraftSaleIsReached(digest);
    TenthIsOpen();
    assert NoFreeLine(SALE_LINES);
    PostsExactlyWhen(draft, Invoice, 0);
  }

  lemma TenthIsOpen()
    ensures OpenPeriod([Period(1, 31, true)], 10) == Success(0)
  {
  }

  lemma PostedSale(draft: Db, after: Db, p: Id)
    requires DocumentPosted(draft, after, Invoice, 0, p) && |draft.documents| == 1 && draft.entries == []
    requires draft.documents[0].total == 500 && draft.periods == [Period(1, 31, true)]
    requires draft.payments == [] && draft.allocations == [] && draft.bankLines == [] && draft.chart == SHOP
    ensures SoldOnce(after) && after.digest == draft.digest
  {
    TenthIsOpen();
  }

  lemma PostingSells(draft: Db)
    requires TablesOk(draft) && PostDocument(draft, Invoice, 0).Success? && |draft.documents| == 1 && draft.entries == []
    requires draft.documents[0].total == 500 && draft.periods == [Period(1, 31, true)]
    requires draft.payments == [] && draft.allocations == [] && draft.bankLines == [] && draft.chart == SHOP
    ensures SoldOnce(O.Step(draft, O.PostDocument(Invoice, 0))) && O.Step(draft, O.PostDocument(Invoice, 0)).digest == draft.digest
  {
    var p := PostWrites(draft, Invoice, 0);
    PostedSale(draft, PostDocument(draft, Invoice, 0).value, p);
  }

  lemma DraftSaleIsSold(digest: Payload -> nat)
    ensures var after := O.Step(DraftSale(digest), O.PostDocument(Invoice, 0)); SoldOnce(after) && after.digest == digest
  {
    DraftSaleIsReached(digest);
    DraftSalePosts(digest);
    PostingSells(DraftSale(digest));
  }

  lemma SaleIsPosted(digest: Payload -> nat)
    ensures SoldOnce(O.Run(NewShop(digest), SELL)) && Inv(O.Run(NewShop(digest), SELL))
    ensures O.Run(NewShop(digest), SELL).digest == digest
  {
    DraftSaleIsReached(digest);
    assert SELL[..2] + [SELL[2]] == SELL;
    RunOneMore(NewShop(digest), SELL[..2], SELL[2]);
    DraftSaleIsSold(digest);
    InitialInv(NewShop(digest));
    RunKeepsInv(NewShop(digest), SELL);
  }

  /** Sell, then reverse the entry through the journal service: the invoice cannot be cancelled. */
  lemma {:induction false} ReversedSaleCannotBeCancelled(digest: Payload -> nat)
    ensures var db := O.Run(NewShop(digest), SELL + [O.ReverseEntry(0, 10)]);
            && |db.documents| == 1 && db.documents[0].status == DocPosted
            && CancelDocument(db, Invoice, 0, 10) == Failure(Invalid)
  {
    SaleIsPosted(digest);
    RunOneMore(NewShop(digest), SELL, O.ReverseEntry(0, 10));
    ReversingByHandBlocks(O.Run(NewShop(digest), SELL), Invoice, 0, 10, 10);
  }

  const PAY := O.CreatePayment(Inbound, 500, "EUR")
  const ALLOCATE := O.CreateAllocation(0, Invoice, 0, 500)
  const CANCEL := O.CancelDocument(Invoice, 0, 10)
  const GIVE_BACK := O.ReverseAllocation(0)

  lemma MoneyArrives(db: Db)
    requires db.payments == []
    ensures O.Step(db, PAY) == db.(payments := [Payment(Inbound, 500, "EUR", 500)])
  {
    assert db.payments + [Payment(Inbound, 500, "EUR", 500)] == [Payment(Inbound, 500, "EUR", 500)];
  }

  lemma MoneyIsAllocated(db: Db)
    requires |db.documents| == 1 && db.documents[0].kind == Invoice && db.documents[0].status == DocPosted
    requires db.documents[0].outstanding == 500
    requires db.payments == [Payment(Inbound, 500, "EUR", 500)] && db.allocations == []
    ensures O.Step(db, ALLOCATE)
         == db.(payments := [Payment(Inbound, 500, "EUR", 0)], allocations := [Allocation(0, 0, 500, None)],
                documents := [db.documents[0].(outstanding := 0)])
  {
    assert db.payments[0 := Payment(Inbound, 500, "EUR", 0)] == [Payment(Inbound, 500, "EUR", 0)];
    assert db.documents[0 := db.documents[0].(outstanding := 0)] == [db.documents[0].(outstanding := 0)];
    assert db.allocations + [Allocation(0, 0, 500, None)] == [Allocation(0, 0, 500, None)];
  }

  lemma PaidSale(db: Db)
    requires SoldOnce(db)
    ensures O.Step(O.Step(db, PAY), ALLOCATE)
         == db.(payments := [Payment(Inbound, 500, "EUR", 0)], allocations := [Allocation(0, 0, 500, None)],
                documents := [db.documents[0].(outstanding := 0)])
  {
    MoneyArrives(db);
    MoneyIsAllocated(O.Step(db, PAY));
  }

  lemma CancelledSale(db: Db)
    requires |db.documents| == 1 && db.documents[0].kind == Invoice && db.documents[0].status == DocPosted
    requires db.documents[0].entry == Some(0) && |db.entries| == 1 && db.entries[0].status == EntryPosted
    requires OpenPeriod(db.periods, 10) == Success(0)
    requires db.payments == [Payment(Inbound, 500, "EUR", 0)] && db.allocations == [Allocation(0, 0, 500, None)]
    ensures var after := O.Step(O.Step(db, CANCEL), GIVE_BACK);
            |after.documents| == 1 && after.documents[0].status == DocCancelled && after.documents[0].outstanding == 500
  {
    var cancelled := O.Step(db, CANCEL);
    assert cancelled.documents == [db.documents[0].(status := DocCancelled, outstanding := 0)];
    assert cancelled.payments == db.payments && cancelled.allocations == db.allocations;
    assert !IsReversed(cancelled.allocations, 0);
  }

  /** Sell, take the payment, cancel, give the payment back: the cancelled invoice owes 5.00. */
  lemma {:induction false} CancelledSaleOwesAgain(digest: Payload -> nat)
    ensures var db := O.Run(NewShop(digest), SELL + [PAY] + [ALLOCATE] + [CANCEL] + [GIVE_BACK]);
            |db.documents| == 1 && db.documents[0].status == DocCancelled && db.documents[0].outstanding == 500
  {
    var shop := NewShop(digest);
    SaleIsPosted(digest);
    RunOneMore(shop, SELL, PAY);
    RunOneMore(shop, SELL + [PAY], ALLOCATE);
    RunOneMore(shop, SELL + [PAY] + [ALLOCATE], CANCEL);
    RunOneMore(shop, SELL + [PAY] + [ALLOCATE] + [CANCEL], GIVE_BACK);
    PaidSale(O.Run(shop, SELL));
    CancelledSale(O.Run(shop, SELL + [PAY] + [ALLOCATE]));
  }
}
