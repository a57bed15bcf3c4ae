/** Runs from an empty tenant that reach the states in which services that look before they lock get
    past each other, and what they then leave. */
module Runs {
  import opened Wrappers
  import opened Sums
  import opened Records
  import opened Invariants
  import opened TwoPhase
  import opened Traffic
  import opened Races
  import opened Cancellation
  import P = Periods
  import J = Journal
  import D = Documents
  import Y = Payments
  import B = Banking
  import H = Theorems
  import O = Operations
  import U = LateUpdates
  import W = Projection
  import M = Mirror
  import V = Overlaps

  // --- one half of a payment reversed twice --------------------------------------------------

  const PAY_ONE := O.CreatePayment(Inbound, 100, "EUR")
  const ALLOCATE_HALF := O.CreateAllocation(0, Invoice, 0, 50)
  const HALVES := [Allocation(0, 0, 50, None), Allocation(0, 0, 50, None)]

  lemma PaidInHalves(db: Db)
    requires SoldOnce(db)
    ensures O.Step(O.Step(O.Step(db, PAY_ONE), ALLOCATE_HALF), ALLOCATE_HALF)
         == db.(payments := [Payment(Inbound, 100, "EUR", 0)], allocations := HALVES,
                documents := [db.documents[0].(outstanding := 400)])
  {
    var funded := db.(payments := [Payment(Inbound, 100, "EUR", 100)]);
    assert db.payments + [Payment(Inbound, 100, "EUR", 100)] == funded.payments;
    assert O.Step(db, PAY_ONE) == funded;
    var half := db.(payments := [Payment(Inbound, 100, "EUR", 50)], allocations := [HALVES[0]],
                    documents := [db.documents[0].(outstanding := 450)]);
    assert O.Step(funded, ALLOCATE_HALF) == half by {
      assert funded.payments[0 := Payment(Inbound, 100, "EUR", 50)] == half.payments;
      assert db.documents[0 := db.documents[0].(outstanding := 450)] == half.documents;
      assert funded.allocations + [HALVES[0]] == half.allocations;
    }
    assert half.payments[0 := Payment(Inbound, 100, "EUR", 0)] == [Payment(Inbound, 100, "EUR", 0)];
    assert half.documents[0 := half.documents[0].(outstanding := 400)] == [db.documents[0].(outstanding := 400)];
    assert half.allocations + [HALVES[1]] == HALVES;
  }

  function PaidTwice(digest: Payload -> nat): Db
  {
    O.Run(NewShop(digest), SELL + [PAY_ONE] + [ALLOCATE_HALF] + [ALLOCATE_HALF])
  }

  lemma PaidTwiceIs(digest: Payload -> nat)
    ensures var db := PaidTwice(digest);
            && db.payments == [Payment(Inbound, 100, "EUR", 0)] && db.allocations == HALVES
            && |db.documents| == 1 && db.documents[0].outstanding == 400
  {
    var shop := NewShop(digest);
    SaleIsPosted(digest);
    RunOneMore(shop, SELL, PAY_ONE);
    RunOneMore(shop, SELL + [PAY_ONE], ALLOCATE_HALF);
    RunOneMore(shop, SELL + [PAY_ONE] + [ALLOCATE_HALF], ALLOCATE_HALF);
    PaidInHalves(O.Run(shop, SELL));
  }

  function HalvesStore(digest: Payload -> nat): Store { M.Cells(PaidTwice(digest), W.Keys(ReverseAllocation(0, 0, 0, 50))) }

  lemma HalfIsLive(digest: Payload -> nat)
    ensures LiveAllocation(HalvesStore(digest), 0, 0, 0, 50, 0, 100, 400)
  {
    PaidTwiceIs(digest);
    V.TablesTell(PaidTwice(digest), W.Keys(ReverseAllocation(0, 0, 0, 50)), 0, 0, 0, 50);
  }

  /** Sell, take 1.00, allocate it in two halves, reverse the first half twice at the same time: both
      commit, the payment counts as wholly unallocated, and the second half is still allocated. */
  lemma {:induction false} HalfReversedTwice(text: Id -> string, digest: Payload -> nat) returns (moves: Moves)
    ensures PaidTwice(digest).allocations == HALVES && PaidTwice(digest).payments == [Payment(Inbound, 100, "EUR", 0)]
    ensures var t, final := Reversal(text, 0, 0, 0, 50), From(HalvesStore(digest), moves);
            && OnlyBegins(moves, t, t) && final.history == [t, t]
            && PaymentKey(0) in final.store && final.store[PaymentKey(0)] == FundsCell(100, 100)
            && DocumentKey(0) in final.store && final.store[DocumentKey(0)] == OwedCell(500)
  {
    PaidTwiceIs(digest);
    HalfIsLive(digest);
    moves := ReversesTwice(text, HalvesStore(digest), 0, 0, 0, 50, 0, 100, 400);
  }

  // --- a sale, a payment, and two bank lines of the same amount -----------------------------------

  const FIRST := ParsedLine(10, Decimal(500, -2), "first", None)
  const SECOND := ParsedLine(10, Decimal(500, -2), "second", None)
  const IMPORT := O.ImportStatement(0, [FIRST, SECOND])

  lemma ImportsTwo(db: Db)
    requires db.bankLines == [] && db.chart == H.SHOP && B.CollisionFree(db.digest)
    ensures O.Step(db, IMPORT) == db.(bankLines := [B.NewLine(db.digest, 0, FIRST), B.NewLine(db.digest, 0, SECOND)])
    ensures B.NewLine(db.digest, 0, FIRST).amount == 500 && B.NewLine(db.digest, 0, SECOND).amount == 500
  {
    var h := db.digest;
    B.ImportOneRow(h, 0, [], FIRST);
    assert [FIRST, SECOND][..1] == [FIRST];
    assert [] + [B.NewLine(h, 0, FIRST)] == [B.NewLine(h, 0, FIRST)];
    assert B.ImportRows(h, 0, [], [FIRST]) == [B.NewLine(h, 0, FIRST)];
    assert B.Digest(h, 0, SECOND) != B.Digest(h, 0, FIRST);
    assert [B.NewLine(h, 0, FIRST)] + [B.NewLine(h, 0, SECOND)] == [B.NewLine(h, 0, FIRST), B.NewLine(h, 0, SECOND)];
  }

  function Busy(digest: Payload -> nat): Db { O.Run(NewShop(digest), SELL + [PAY] + [IMPORT]) }

  ghost predicate IsBusy(db: Db)
  {
    && Inv(db) && |db.documents| == 1 && db.documents[0].kind == Invoice && db.documents[0].status == DocPosted
    && db.documents[0].outstanding == 500 && db.documents[0].entry == Some(0)
    && |db.entries| == 1 && db.entries[0].status == EntryPosted && J.OpenPeriod(db.periods, 10) == Success(0)
    && db.payments == [Payment(Inbound, 500, "EUR", 500)] && |db.bankLines| == 2
    && forall l :: 0 <= l < 2 ==>
         db.bankLines[l].match_ == Unmatched && db.bankLines[l].amount == 500 && db.bankLines[l].date == 10
  }

  lemma SoldThenBusy(db: Db)
    requires SoldOnce(db) && B.CollisionFree(db.digest) && Inv(O.Step(O.Step(db, PAY), IMPORT))
    ensures IsBusy(O.Step(O.Step(db, PAY), IMPORT))
  {
    MoneyArrives(db);
    ImportsTwo(O.Step(db, PAY));
  }

  lemma BusyIsReached(digest: Payload -> nat)
    requires B.CollisionFree(digest)
    ensures IsBusy(Busy(digest))
  {
    var shop := NewShop(digest);
    SaleIsPosted(digest);
    RunOneMore(shop, SELL, PAY);
    RunOneMore(shop, SELL + [PAY], IMPORT);
    InitialInv(shop);
    RunKeepsInv(shop, SELL + [PAY] + [IMPORT]);
    SoldThenBusy(O.Run(shop, SELL));
  }

  lemma BusyConfirms(db: Db, l: Id)
    requires IsBusy(db) && l < 2
    ensures B.ConfirmMatch(db, l, Invoice, 0).Success?
  {
    H.ConfirmsExactlyWhen(db, l, Invoice, 0);
  }

  lemma BusyAllocates(db: Db)
    requires IsBusy(db)
    ensures Y.CreateAllocation(db, 0, Invoice, 0, 100).Success?
  {
  }

  lemma BusyCancels(db: Db)
    requires IsBusy(db)
    ensures D.CancelDocument(db, Invoice, 0, 10).Success?
  {
  }

  /** Both lines are booked against the one invoice of 5.00. */
  lemma {:induction false} TwoLinesSettleOneSale(text: Id -> string, digest: Payload -> nat) returns (a: Job, b: Job, moves: Moves)
    requires B.CollisionFree(digest)
    ensures V.Rivals(a, b) && a.l == 0 && b.l == 1 && a.d == 0
    ensures var final := From(M.Cells(Busy(digest), W.Keys(a) + W.Keys(b)), moves);
            && OnlyBegins(moves, TxnOf(text, a), TxnOf(text, b)) && final.history == [TxnOf(text, a), TxnOf(text, b)]
            && V.SettledTwice(final.store, a, b)
  {
    BusyIsReached(digest);
    BusyConfirms(Busy(digest), 0);
    BusyConfirms(Busy(digest), 1);
    a, b, moves := V.TwoLinesSettleOneDocument(text, Busy(digest), 0, 1, Invoice, 0);
  }

  /** The invoice is cancelled while 1.00 is allocated to it, and owes 4.00. */
  lemma {:induction false} CancelledSaleOwes(text: Id -> string, digest: Payload -> nat) returns (cancel: Job, moves: Moves)
    requires B.CollisionFree(digest)
    ensures cancel.CancelDocument? && cancel.d == 0
    ensures var a, b := TxnOf(text, Allocate(0, 0, 100)), TxnOf(text, cancel);
            var final := From(M.Cells(Busy(digest), W.Keys(a.job) + W.Keys(cancel)), moves);
            && OnlyBegins(moves, a, b) && final.history == [b, a]
            && DocumentRow(0) in final.store && final.store[DocumentRow(0)].DocumentCell?
            && final.store[DocumentRow(0)].status == DocCancelled
            && DocumentKey(0) in final.store && final.store[DocumentKey(0)] == OwedCell(400)
  {
    BusyIsReached(digest);
    BusyAllocates(Busy(digest));
    BusyCancels(Busy(digest));
    cancel, moves := V.AllocationOvertaken(text, Busy(digest), 0, Invoice, 0, 100, 10);
  }

  /** The invoice of 5.00 is paid 5.00 by the line and 1.00 by the allocation, and owes nothing. */
  lemma {:induction false} OverpaidSaleOwesNothing(text: Id -> string, digest: Payload -> nat) returns (match_: Job, moves: Moves)
    requires B.CollisionFree(digest)
    ensures match_.ConfirmMatch? && match_.d == 0
    ensures var a, b := TxnOf(text, Allocate(0, 0, 100)), TxnOf(text, match_);
            var final := From(M.Cells(Busy(digest), W.Keys(a.job) + W.Keys(match_)), moves);
            && OnlyBegins(moves, a, b) && final.history == [a, b]
            && DocumentKey(0) in final.store && final.store[DocumentKey(0)] == OwedCell(0)
            && Sum(final.history, Gain(DocumentKey(0))) == -600
  {
    BusyIsReached(digest);
    BusyAllocates(Busy(digest));
    BusyConfirms(Busy(digest), 0);
    match_, moves := V.ConfirmationOvertaken(text, Busy(digest), 0, Invoice, 0, 100, 0);
  }

  // --- a draft entry, a draft invoice ---------------------------------------------------------------

  const LEGS := [JournalLine(0, 100, 0), JournalLine(1, 0, 100)]
  const DRAFT := [O.CreatePeriod(1, 31), O.CreateEntry(10, "EUR", LEGS)]

  function Drafted(digest: Payload -> nat): Db { O.Run(NewShop(digest), DRAFT) }

  lemma LegsBalance()
    ensures J.ValidateLines(H.SHOP, LEGS).None? && J.Debits(LEGS) == J.Credits(LEGS)
  {
    var one := [LEGS[0]];
    assert one[..0] == [] && LEGS[..1] == one;
    assert J.LinesError(H.SHOP, one).None?;
    assert LEGS == one + [LEGS[1]];
    SumOfOne(LEGS[0], J.DebitOf());
    SumOfOne(LEGS[0], J.CreditOf());
    SumAppend(one, LEGS[1], J.DebitOf());
    SumAppend(one, LEGS[1], J.CreditOf());
  }

  lemma DraftedIs(digest: Payload -> nat)
    ensures Drafted(digest) == NewShop(digest).(periods := [Period(1, 31, true)], entries := [J.DraftEntry(10, "EUR", LEGS, true)])
  {
    var shop := NewShop(digest);
    RunOneMore(shop, [], DRAFT[0]);
    RunOneMore(shop, [DRAFT[0]], DRAFT[1]);
    assert [] + [DRAFT[0]] == [DRAFT[0]] && [DRAFT[0]] + [DRAFT[1]] == DRAFT;
    PeriodIsOpened(digest);
    assert SELL[..1] == [DRAFT[0]];
    LegsBalance();
    assert [] + [J.DraftEntry(10, "EUR", LEGS, true)] == [J.DraftEntry(10, "EUR", LEGS, true)];
  }

  lemma DraftedPosts(digest: Payload -> nat)
    ensures var db := Drafted(digest);
            P.PeriodsOk(db.periods) && J.PostEntry(db, 0).Success? && J.OpenPeriod(db.periods, 10).Success? && |db.entries| == 1
  {
    DraftedIs(digest);
    TenthIsOpen();
    LegsBalance();
  }

  /** The entry is updated to unbalanced lines while it is posted, and then reversed: both the entry and
      the one that reverses it end unbalanced. */
  lemma {:induction false} DraftIsSpoiled(text: Id -> string, digest: Payload -> nat) returns (moves: Moves, all: Moves)
    ensures var db := Drafted(digest); |db.entries| == 1 && J.PostEntry(db, 0).Success? && J.OpenPeriod(db.periods, 10).Success?
    ensures var post, update := TxnOf(text, V.PostingOf(Drafted(digest), 0)), TxnOf(text, UpdateEntry(0, false));
            var final := From(M.Cells(Drafted(digest), W.Keys(post.job)), moves);
            && OnlyBegins(moves, post, update) && final.history == [post, update]
            && U.HasEntry(final.store, 0) && !U.BalancedAt(final.store, 0)
    ensures var post, update := TxnOf(text, V.PostingOf(Drafted(digest), 0)), TxnOf(text, UpdateEntry(0, false));
            var reverse := TxnOf(text, V.ReversalOfEntry(Drafted(digest), 0, 10));
            var final := From(M.Cells(Drafted(digest), W.Keys(post.job) + W.Keys(reverse.job)), all);
            final.history == [post, update, reverse] && U.HasEntry(final.store, 1) && !U.BalancedAt(final.store, 1)
  {
    DraftedPosts(digest);
    moves := V.UpdatingWhilePostingUnbalances(text, Drafted(digest), 0);
    all := V.SpoiledIsReversed(text, Drafted(digest), 0, 10);
  }

  /** The invoice of 5.00 is posted, owes 5.00, and shows a total of 1.00. */
  lemma {:induction false} SaleIsRewritten(text: Id -> string, digest: Payload -> nat) returns (post: Job, moves: Moves)
    ensures post.PostInvoice? || post.PostBill?
    ensures var a, b := TxnOf(text, post), TxnOf(text, UpdateDocument(0, 100, true));
            var final := From(M.Cells(O.Run(NewShop(digest), SELL[..2]), W.Keys(post)), moves);
            OnlyBegins(moves, a, b) && final.history == [a, b] && V.Rewritten(final.store, 0, 500, 100)
  {
    DraftSaleIsReached(digest);
    DraftSalePosts(digest);
    post, moves := V.UpdatingWhilePostingMovesTotal(text, DraftSale(digest), Invoice, 0, 100, true);
  }
}
