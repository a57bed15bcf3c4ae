/** Payments and their allocations to documents (payments.py). */
module Payments {
  import opened Wrappers
  import opened Records
  import opened Documents

  // --- the services ----------------------------------------------------------

  function CreatePayment(db: Db, direction: Direction, amount: int, currency: Currency): Result<Db, Error>
  {
    if amount <= 0 then Failure(Invalid)
    else Success(db.(payments := db.payments + [Payment(direction, amount, currency, amount)]))
  }

  function CreateAllocation(db: Db, p: Id, kind: DocumentKind, d: Id, amount: int): Result<Db, Error>
  {
    if amount <= 0 then Failure(Invalid)
    else if p >= |db.payments| then Failure(NotFound)
    else
      var payment := db.payments[p];
      if amount > payment.unallocated then Failure(Invalid)
      else
        var doc :- FindDocument(db, kind, d);
        if doc.status != DocPosted || amount > doc.outstanding then Failure(Invalid)
        else
          Success(db.(payments := db.payments[p := payment.(unallocated := payment.unallocated - amount)],
                      documents := db.documents[d := doc.(outstanding := doc.outstanding - amount)],
                      allocations := db.allocations + [Allocation(p, d, amount, None)]))
  }

  predicate IsReversed(allocations: seq<Allocation>, i: Id)
  {
    exists j :: 0 <= j < |allocations| && allocations[j].reverses == Some(i)
  }

  /** The document's status is not looked at: a cancelled document gets its amount back too. The
      CHECK on payments refuses an unallocated amount above the payment's. */
  function ReverseAllocation(db: Db, i: Id): Result<Db, Error>
  {
    if i >= |db.allocations| then Failure(NotFound)
    else
      var original := db.allocations[i];
      if original.reverses.Some? || IsReversed(db.allocations, i) then Failure(Invalid)
      else if original.payment >= |db.payments| || original.document >= |db.documents| then Failure(NotFound)
      else
        var payment, doc := db.payments[original.payment], db.documents[original.document];
        if payment.unallocated + original.amount > payment.amount then Failure(Conflict)
        else
          Success(db.(payments := db.payments[original.payment :=
                        payment.(unallocated := payment.unallocated + original.amount)],
                      documents := db.documents[original.document :=
                        doc.(outstanding := doc.outstanding + original.amount)],
                      allocations := db.allocations + [original.(reverses := Some(i))]))
  }

  // --- live allocations --------------------------------------------------------

  /** The payment or the document an allocation is counted for. */
  datatype Party = OfPayment(p: Id) | OfDocument(d: Id)

  predicate Concerns(a: Allocation, party: Party)
  {
    match party
    case OfPayment(p) => a.payment == p
    case OfDocument(d) => a.document == d
  }

  function LiveAmount(allocations: seq<Allocation>, party: Party, i: Id): int
    requires i < |allocations|
  {
    var a := allocations[i];
    if a.reverses.None? && !IsReversed(allocations, i) && Concerns(a, party) then a.amount else 0
  }

  function LiveUpTo(allocations: seq<Allocation>, party: Party, n: nat): int
    requires n <= |allocations|
  {
    if n == 0 then 0 else LiveUpTo(allocations, party, n - 1) + LiveAmount(allocations, party, n - 1)
  }

  /** Total of the party's allocations that are not reversals and were not reversed. */
  function LiveTotal(allocations: seq<Allocation>, party: Party): int
  {
    LiveUpTo(allocations, party, |allocations|)
  }

  ghost predicate AllocationOk(allocations: seq<Allocation>, i: Id)
    requires i < |allocations|
  {
    var a := allocations[i];
    && a.amount > 0
    && (a.reverses.Some? ==>
          && a.reverses.value < i
          && allocations[a.reverses.value] == a.(reverses := None))
  }

  ghost predicate EachOk(allocations: seq<Allocation>)
  {
    && (forall i :: 0 <= i < |allocations| ==> AllocationOk(allocations, i))
    && (forall i, j :: 0 <= i < |allocations| && 0 <= j < |allocations| ==>
          allocations[i].reverses.Some? && allocations[i].reverses == allocations[j].reverses ==> i == j)
  }

  /** `a` is a new allocation, or reverses a live one in full. */
  ghost predicate CanAppend(allocations: seq<Allocation>, a: Allocation)
  {
    a.reverses.Some? ==>
      && a.reverses.value < |allocations|
      && !IsReversed(allocations, a.reverses.value)
      && allocations[a.reverses.value] == a.(reverses := None)
  }

  lemma {:induction false} LiveNonNegative(allocations: seq<Allocation>, party: Party, n: nat)
    requires EachOk(allocations) && n <= |allocations|
    ensures LiveUpTo(allocations, party, n) >= 0
  {
    if n > 0 {
      assert AllocationOk(allocations, n - 1);
      LiveNonNegative(allocations, party, n - 1);
    }
  }

  lemma {:induction false} AppendedUpTo(allocations: seq<Allocation>, a: Allocation, party: Party, n: nat)
    requires EachOk(allocations) && n <= |allocations|
    requires CanAppend(allocations, a)
    ensures LiveUpTo(allocations + [a], party, n)
         == LiveUpTo(allocations, party, n)
            - (if a.reverses.Some? && a.reverses.value < n && Concerns(a, party) then a.amount else 0)
  {
    if n > 0 {
      AppendedUpTo(allocations, a, party, n - 1);
      var after := allocations + [a];
      assert IsReversed(after, n - 1) <==> IsReversed(allocations, n - 1) || a.reverses == Some(n - 1) by {
        if IsReversed(allocations, n - 1) {
          var j :| 0 <= j < |allocations| && allocations[j].reverses == Some(n - 1);
          assert after[j].reverses == Some(n - 1);
        }
        if a.reverses == Some(n - 1) {
          assert after[|allocations|].reverses == Some(n - 1);
        }
      }
    }
  }

  /** A new allocation adds its amount to its payment's and its document's live total; a reversal
      takes the original's amount off both. Every other total stays. */
  lemma AppendedLive(allocations: seq<Allocation>, a: Allocation, party: Party)
    requires EachOk(allocations) && a.amount > 0
    requires CanAppend(allocations, a)
    ensures EachOk(allocations + [a])
    ensures LiveTotal(allocations + [a], party)
         == LiveTotal(allocations, party)
            + (if !Concerns(a, party) then 0 else if a.reverses.None? then a.amount else -a.amount)
  {
    var n := |allocations|;
    var after := allocations + [a];
    AppendedUpTo(allocations, a, party, n);
    forall i | 0 <= i < |after| ensures AllocationOk(after, i) {
      if i < n { assert AllocationOk(allocations, i); }
    }
    if IsReversed(after, n) {
      var j :| 0 <= j < |after| && after[j].reverses == Some(n);
      assert AllocationOk(after, j);
    }
  }

  // --- settlement ------------------------------------------------------------------

  ghost predicate PaymentOk(payment: Payment, live: int)
  {
    && payment.amount > 0 && payment.unallocated >= 0
    && payment.amount == payment.unallocated + live
  }

  /** Nothing was ever allocated to a draft or voided document; a posted one owes its total minus
      its live allocations; a cancelled one started again from zero. */
  ghost predicate SettlementOk(doc: Document, live: int)
  {
    && 0 <= doc.outstanding && doc.total >= 0
    && match doc.status
       case DocDraft => doc.outstanding == 0 && live == 0
       case DocVoided => doc.outstanding == 0 && live == 0
       case DocPosted => doc.outstanding == doc.total - live
       case DocCancelled => doc.outstanding + live <= doc.total
  }

  ghost predicate ReferencesOk(documents: seq<Document>, payments: seq<Payment>, a: Allocation)
  {
    && a.payment < |payments| && a.document < |documents|
    && (documents[a.document].status == DocPosted || documents[a.document].status == DocCancelled)
  }

  ghost predicate AllocationsOk(documents: seq<Document>, payments: seq<Payment>, allocations: seq<Allocation>)
  {
    && EachOk(allocations)
    && (forall i :: 0 <= i < |allocations| ==> ReferencesOk(documents, payments, allocations[i]))
    && (forall p :: 0 <= p < |payments| ==> PaymentOk(payments[p], LiveTotal(allocations, OfPayment(p))))
    && (forall d :: 0 <= d < |documents| ==> SettlementOk(documents[d], LiveTotal(allocations, OfDocument(d))))
  }

  lemma {:induction false} UnusedPartyHasNoLive(allocations: seq<Allocation>, party: Party, n: nat)
    requires n <= |allocations|
    requires forall i :: 0 <= i < |allocations| ==> !Concerns(allocations[i], party)
    ensures LiveUpTo(allocations, party, n) == 0
  {
    if n > 0 { UnusedPartyHasNoLive(allocations, party, n - 1); }
  }

  lemma NewPaymentKeepsAllocationsOk(documents: seq<Document>, payments: seq<Payment>,
                                     allocations: seq<Allocation>, payment: Payment)
    requires AllocationsOk(documents, payments, allocations)
    requires payment.amount > 0 && payment.unallocated == payment.amount
    ensures AllocationsOk(documents, payments + [payment], allocations)
  {
    var n := |payments|;
    assert forall i :: 0 <= i < |allocations| ==> ReferencesOk(documents, payments, allocations[i]);
    UnusedPartyHasNoLive(allocations, OfPayment(n), |allocations|);
  }

  lemma NewDocumentKeepsAllocationsOk(documents: seq<Document>, payments: seq<Payment>,
                                      allocations: seq<Allocation>, doc: Document)
    requires AllocationsOk(documents, payments, allocations)
    requires doc.status == DocDraft && doc.outstanding == 0 && doc.total >= 0
    ensures AllocationsOk(documents + [doc], payments, allocations)
  {
    assert forall i :: 0 <= i < |allocations| ==> ReferencesOk(documents, payments, allocations[i]);
    UnusedPartyHasNoLive(allocations, OfDocument(|documents|), |allocations|);
  }

  /** A document row may change as long as it stays settled and does not leave posted or cancelled. */
  lemma DocumentChangeKeepsAllocationsOk(documents: seq<Document>, payments: seq<Payment>,
                                         allocations: seq<Allocation>, d: Id, doc: Document)
    requires AllocationsOk(documents, payments, allocations) && d < |documents|
    requires SettlementOk(doc, LiveTotal(allocations, OfDocument(d)))
    requires documents[d].status == DocPosted || documents[d].status == DocCancelled ==>
               doc.status == DocPosted || doc.status == DocCancelled
    ensures AllocationsOk(documents[d := doc], payments, allocations)
  {
    assert forall i :: 0 <= i < |allocations| ==> ReferencesOk(documents, payments, allocations[i]);
  }

  lemma AllocateKeepsAllocationsOk(db: Db, p: Id, kind: DocumentKind, d: Id, amount: int)
    requires AllocationsOk(db.documents, db.payments, db.allocations)
    requires CreateAllocation(db, p, kind, d, amount).Success?
    ensures var after := CreateAllocation(db, p, kind, d, amount).value;
            AllocationsOk(after.documents, after.payments, after.allocations)
  {
    var after := CreateAllocation(db, p, kind, d, amount).value;
    RowKeepsAllocationsOk(db, after, Allocation(p, d, amount, None));
  }

  lemma ReverseKeepsAllocationsOk(db: Db, i: Id)
    requires AllocationsOk(db.documents, db.payments, db.allocations)
    requires ReverseAllocation(db, i).Success?
    ensures var after := ReverseAllocation(db, i).value;
            AllocationsOk(after.documents, after.payments, after.allocations)
  {
    var after := ReverseAllocation(db, i).value;
    var row := db.allocations[i].(reverses := Some(i));
    assert ReferencesOk(db.documents, db.payments, db.allocations[i]);
    assert AllocationOk(db.allocations, i);
    AppendedLive(db.allocations, row, OfDocument(row.document));
    LiveNonNegative(after.allocations, OfDocument(row.document), |after.allocations|);
    RowKeepsAllocationsOk(db, after, row);
  }

  /** A new row moves its amount from both open balances into the live total, or back. */
  lemma RowKeepsAllocationsOk(db: Db, after: Db, row: Allocation)
    requires AllocationsOk(db.documents, db.payments, db.allocations)
    requires row.amount > 0 && ReferencesOk(db.documents, db.payments, row) && CanAppend(db.allocations, row)
    requires row.reverses.None? ==> db.documents[row.document].status == DocPosted
    requires var moved := if row.reverses.None? then row.amount else -row.amount;
             var payment, doc := db.payments[row.payment], db.documents[row.document];
             && payment.unallocated >= moved && doc.outstanding >= moved
             && after == db.(allocations := db.allocations + [row],
                             payments := db.payments[row.payment := payment.(unallocated := payment.unallocated - moved)],
                             documents := db.documents[row.document := doc.(outstanding := doc.outstanding - moved)])
    ensures AllocationsOk(after.documents, after.payments, after.allocations)
  {
    AppendedLive(db.allocations, row, OfPayment(row.payment));
    forall i | 0 <= i < |after.allocations| ensures ReferencesOk(after.documents, after.payments, after.allocations[i]) {
      if i < |db.allocations| { assert ReferencesOk(db.documents, db.payments, db.allocations[i]); }
    }
    forall p | 0 <= p < |after.payments| ensures PaymentOk(after.payments[p], LiveTotal(after.allocations, OfPayment(p))) {
      AppendedLive(db.allocations, row, OfPayment(p));
    }
    forall d | 0 <= d < |after.documents| ensures SettlementOk(after.documents[d], LiveTotal(after.allocations, OfDocument(d))) {
      AppendedLive(db.allocations, row, OfDocument(d));
    }
  }
}
