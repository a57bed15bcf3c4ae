/** Updating a draft invoice or bill looks at its status without a lock, as updating an entry does:
    when the total of a posted document is still the one that was booked. */
module LateTotals {
  import opened Wrappers
  import opened Sums
  import opened Records
  import opened Subledger
  import opened TwoPhase
  import opened Continuations
  import opened Traffic
  import N = Issuing
  import U = LateUpdates

  // --- the row and its lines -----------------------------------------------------------

  predicate HasDocument(store: Store, d: Id)
  {
    && DocumentRow(d) in store && store[DocumentRow(d)].DocumentCell?
    && DocumentLines(d) in store && store[DocumentLines(d)].ContentsCell?
  }

  predicate IssuedAt(store: Store, d: Id)
    requires HasDocument(store, d)
  {
    Issued(store[DocumentRow(d)].status)
  }

  predicate SawDraft(view: View, d: Id)
  {
    DocumentRow(d) in view && view[DocumentRow(d)].DocumentCell? && view[DocumentRow(d)].status == DocDraft
  }

  predicate Posts(job: Job, d: Id) { (job.PostInvoice? || job.PostBill?) && job.d == d }

  // --- what one commit does to them ------------------------------------------------------

  /** A row written is issued for good, and is issued only by a post that booked the total of its lines. */
  predicate Turns(view: View, result: View, job: Job, d: Id)
  {
    var row := DocumentRow(d);
    row in result ==>
      && row in view && view[row].DocumentCell? && result[row].DocumentCell?
      && (if Posts(job, d) then !Issued(view[row].status) && Issued(result[row].status) && ComesTo(view, d, job.total)
          else Issued(result[row].status) == Issued(view[row].status))
  }

  lemma InvoiceTurns(view: View, job: Job, d: Id)
    requires job.PostInvoice? && Body(job, view).Some?
    ensures Turns(view, Body(job, view).value, job, d) && (job.d == d ==> DocumentRow(d) in Body(job, view).value)
  {
  }

  lemma BillTurns(view: View, job: Job, d: Id)
    requires job.PostBill? && Body(job, view).Some?
    ensures Turns(view, Body(job, view).value, job, d) && (job.d == d ==> DocumentRow(d) in Body(job, view).value)
  {
  }

  lemma CancelTurns(view: View, job: Job, d: Id)
    requires job.CancelDocument? && Body(job, view).Some?
    ensures Turns(view, Body(job, view).value, job, d)
  {
  }

  lemma OtherTurns(view: View, job: Job, d: Id)
    requires Body(job, view).Some? && !(job.PostInvoice? || job.PostBill? || job.CancelDocument?)
    ensures Turns(view, Body(job, view).value, job, d)
  {
    if !(job.PostNote? || job.VoidDocument? || job.VoidNote?) { N.OtherStep(view, job, InvoiceNumberKey, d); }
  }

  lemma BodyTurns(view: View, job: Job, d: Id)
    requires Body(job, view).Some?
    ensures Turns(view, Body(job, view).value, job, d) && (Posts(job, d) ==> DocumentRow(d) in Body(job, view).value)
  {
    if job.PostInvoice? {
      InvoiceTurns(view, job, d);
    } else if job.PostBill? {
      BillTurns(view, job, d);
    } else if job.CancelDocument? {
      CancelTurns(view, job, d);
    } else {
      OtherTurns(view, job, d);
    }
  }

  /** Only updates write lines. */
  lemma LinesWritten(view: View, job: Job, d: Id)
    requires Body(job, view).Some? && DocumentLines(d) in Body(job, view).value
    ensures job.UpdateDocument? && job.d == d && SawDraft(view, d)
    ensures Body(job, view) == Some(map[DocumentLines(d) := ContentsCell(job.total, job.bookable)])
  {
    BodyWritten(job, view);
    assert DocumentLines(d) in Written(job);
  }

  // --- what one move does to them ---------------------------------------------------------

  /** What a move does to a document's lines and row: nothing, an update, or the post that books it. */
  datatype Change = Kept | Updated(total: int, bookable: bool) | Booked(total: int)

  predicate Commits(sys: System<Lock, Cell, Job>, m: Move<Lock, Cell, Job>)
  {
    m.Commit? && CanCommit(sys, m.i) && Body(sys.workers[m.i].txn.job, sys.workers[m.i].view).Some?
  }

  function ChangeOf(sys: System<Lock, Cell, Job>, m: Move<Lock, Cell, Job>, d: Id): Change
  {
    if !Commits(sys, m) then Kept
    else
      var job := sys.workers[m.i].txn.job;
      if job.UpdateDocument? && job.d == d then Updated(job.total, job.bookable)
      else if Posts(job, d) then Booked(job.total) else Kept
  }

  predicate DocumentStep(before: Store, after: Store, d: Id, change: Change)
    requires HasDocument(before, d)
  {
    && HasDocument(after, d)
    && match change
       case Updated(total, bookable) =>
         after[DocumentRow(d)] == before[DocumentRow(d)] && after[DocumentLines(d)] == ContentsCell(total, bookable)
       case Booked(total) =>
         && !IssuedAt(before, d) && IssuedAt(after, d)
         && before[DocumentLines(d)] == ContentsCell(total, true) && after[DocumentLines(d)] == before[DocumentLines(d)]
       case Kept => after[DocumentLines(d)] == before[DocumentLines(d)] && IssuedAt(after, d) == IssuedAt(before, d)
  }

  lemma DocumentFollows(view: View, result: View, before: Store, after: Store, job: Job, d: Id)
    requires HasDocument(before, d) && Body(job, view) == Some(result)
    requires Follows(view, result, before, after, DocumentRow(d)) && Follows(view, result, before, after, DocumentLines(d))
    requires Posts(job, d) && DocumentLines(d) in view ==> view[DocumentLines(d)] == before[DocumentLines(d)]
    ensures DocumentStep(before, after, d, if job.UpdateDocument? && job.d == d then Updated(job.total, job.bookable)
                                           else if Posts(job, d) then Booked(job.total) else Kept)
  {
    BodyTurns(view, job, d);
    if DocumentLines(d) in result { LinesWritten(view, job, d); }
  }

  /** Posting reads the lines under their lock. */
  lemma LinesReadUnderLock(text: Id -> string, store: Store, sys: System<Lock, Cell, Job>, i: nat, d: Id)
    requires CanCommit(sys, i) && Guarded(sys, i, Locked) && TrafficOk(text, store, sys) && Posts(sys.workers[i].txn.job, d)
    ensures DocumentLines(d) in sys.workers[i].view ==>
              DocumentLines(d) in sys.store && sys.workers[i].view[DocumentLines(d)] == sys.store[DocumentLines(d)]
  {
    assert WorkerOk(text, store, sys.workers[i]);
  }

  lemma CommitSteps(text: Id -> string, store: Store, sys: System<Lock, Cell, Job>, i: nat, d: Id)
    requires CanCommit(sys, i) && Guarded(sys, i, Locked) && AllOk(store) && TrafficOk(text, store, sys)
    requires HasDocument(sys.store, d) && Commits(sys, Commit(i))
    ensures DocumentStep(sys.store, Do(sys, Commit(i)).store, d, ChangeOf(sys, Commit(i), d))
  {
    var w := sys.workers[i];
    CommitFollows(text, store, sys, i, DocumentRow(d));
    CommitFollows(text, store, sys, i, DocumentLines(d));
    if Posts(w.txn.job, d) { LinesReadUnderLock(text, store, sys, i, d); }
    DocumentFollows(w.view, Body(w.txn.job, w.view).value, sys.store, Do(sys, Commit(i)).store, w.txn.job, d);
  }

  lemma OthersStore(text: Id -> string, store: Store, sys: System<Lock, Cell, Job>, m: Move<Lock, Cell, Job>)
    requires TrafficOk(text, store, sys) && !Commits(sys, m)
    ensures Do(sys, m).store == sys.store
  {
    if m.Commit? && CanCommit(sys, m.i) {
      var w := sys.workers[m.i];
      assert WorkerOk(text, store, w);
      assert w.txn.body(w.view) == Body(w.txn.job, w.view);
    }
  }

  lemma MoveSteps(text: Id -> string, store: Store, moves: Moves, m: Move<Lock, Cell, Job>, d: Id)
    requires AllOk(store) && ServiceRun(text, store, moves) && HasDocument(From(store, moves).store, d)
    ensures DocumentStep(From(store, moves).store, Do(From(store, moves), m).store, d, ChangeOf(From(store, moves), m, d))
  {
    var sys := From(store, moves);
    RunKeepsTraffic(text, store, moves);
    if Commits(sys, m) {
      assert Guarded(sys, m.i, Locked);
      CommitSteps(text, store, sys, m.i, d);
    } else {
      OthersStore(text, store, sys, m);
    }
  }

  // --- whole runs ----------------------------------------------------------------------------

  /** The total that was booked when the document was posted; for one that starts posted, its total
      then. */
  ghost function BookedTotal(store: Store, moves: Moves, d: Id): Option<int>
  {
    if moves == [] then if HasDocument(store, d) && IssuedAt(store, d) then Some(store[DocumentLines(d)].total) else None
    else
      var init, m := moves[..|moves| - 1], moves[|moves| - 1];
      match ChangeOf(From(store, init), m, d)
      case Booked(total) => Some(total)
      case _ => BookedTotal(store, init, d)
  }

  /** The total that the last update committed after the post has written. */
  ghost function LateTotal(store: Store, moves: Moves, d: Id): Option<int>
  {
    if moves == [] then None
    else
      var init, m := moves[..|moves| - 1], moves[|moves| - 1];
      var before := From(store, init);
      match ChangeOf(before, m, d)
      case Booked(_) => None
      case Updated(total, _) => if HasDocument(before.store, d) && IssuedAt(before.store, d) then Some(total) else None
      case Kept => LateTotal(store, init, d)
  }

  lemma {:induction false} TotalsFollow(text: Id -> string, store: Store, moves: Moves, d: Id)
    requires AllOk(store) && ServiceRun(text, store, moves) && HasDocument(store, d)
    ensures var final, late, booked := From(store, moves).store, LateTotal(store, moves, d), BookedTotal(store, moves, d);
            && HasDocument(final, d)
            && (if IssuedAt(final, d) then
                  booked.Some? && final[DocumentLines(d)].total == if late.Some? then late.value else booked.value
                else booked.None? && late.None?)
  {
    if moves != [] {
      var init, m := moves[..|moves| - 1], moves[|moves| - 1];
      TotalsFollow(text, store, init, d);
      MoveSteps(text, store, init, m, d);
    }
  }

  /** At the end of any interleaving of all services, a posted or cancelled document's total is the one
      that was booked exactly when no update committed after its post, or the last such one wrote the
      booked total again. */
  lemma {:induction false} TotalIsBookedExactlyWhen(text: Id -> string, store: Store, moves: Moves, d: Id)
    requires AllOk(store) && ServiceRun(text, store, moves) && HasDocument(store, d)
    ensures var final, late, booked := From(store, moves).store, LateTotal(store, moves, d), BookedTotal(store, moves, d);
            && HasDocument(final, d)
            && (IssuedAt(final, d) <==> booked.Some?)
            && (IssuedAt(final, d) ==>
                  (final[DocumentLines(d)].total == booked.value <==> late.None? || late == booked))
  {
    TotalsFollow(text, store, moves, d);
  }

  /** The booked total is the one of the post that committed, which is the amount of its entry. */
  lemma {:induction false} BookedByPost(store: Store, moves: Moves, d: Id)
    requires BookedTotal(store, moves, d).Some? && !(HasDocument(store, d) && IssuedAt(store, d))
    ensures exists k :: 0 <= k < |moves|
                        && ChangeOf(From(store, moves[..k]), moves[k], d) == Booked(BookedTotal(store, moves, d).value)
  {
    var n := |moves| - 1;
    if !ChangeOf(From(store, moves[..n]), moves[n], d).Booked? {
      BookedByPost(store, moves[..n], d);
      var k :| 0 <= k < n && ChangeOf(From(store, moves[..n][..k]), moves[..n][k], d)
                             == Booked(BookedTotal(store, moves[..n], d).value);
      assert moves[..n][..k] == moves[..k];
    }
  }

  // --- ledger and sub-ledger -------------------------------------------------------------------

  /** What the documents come to, what was booked for them, and how far late updates moved them. */
  function InSubledger(store: Store): Id -> int
  {
    (d: Id) => if HasDocument(store, d) && IssuedAt(store, d) then store[DocumentLines(d)].total else 0
  }

  ghost function InLedger(store: Store, moves: Moves): Id -> int
  {
    (d: Id) => if BookedTotal(store, moves, d).Some? then BookedTotal(store, moves, d).value else 0
  }

  ghost function Moved(store: Store, moves: Moves): Id -> int
  {
    (d: Id) => if LateTotal(store, moves, d).Some? && BookedTotal(store, moves, d).Some?
               then LateTotal(store, moves, d).value - BookedTotal(store, moves, d).value else 0
  }

  /** At the end of any interleaving the sub-ledger stands at what was booked plus what late updates
      moved: the two agree exactly when those movements cancel out. */
  lemma {:induction false} SubledgerIsLedgerPlusMoved(text: Id -> string, store: Store, moves: Moves, documents: seq<Id>)
    requires AllOk(store) && ServiceRun(text, store, moves)
    requires forall d :: d in documents ==> HasDocument(store, d)
    ensures Sum(documents, InSubledger(From(store, moves).store))
         == Sum(documents, InLedger(store, moves)) + Sum(documents, Moved(store, moves))
  {
    if documents != [] {
      var init, d := documents[..|documents| - 1], documents[|documents| - 1];
      assert forall x :: x in init ==> x in documents;
      SubledgerIsLedgerPlusMoved(text, store, moves, init);
      TotalsFollow(text, store, moves, d);
    }
  }

  // --- what is in flight --------------------------------------------------------------------------

  predicate ChangesLater(w: Worker<Lock, Cell, Job>, d: Id, total: int)
  {
    w.running && w.txn.job.UpdateDocument? && w.txn.job.d == d && w.txn.job.total != total && SawDraft(w.view, d)
  }

  /** A running update to another total has seen the document as a draft. */
  predicate InFlight(sys: System<Lock, Cell, Job>, d: Id, total: int)
  {
    exists i :: 0 <= i < |sys.workers| && ChangesLater(sys.workers[i], d, total)
  }

  predicate StandsAt(sys: System<Lock, Cell, Job>, d: Id, total: int)
  {
    HasDocument(sys.store, d) && IssuedAt(sys.store, d) && sys.store[DocumentLines(d)].total == total
  }

  lemma ViewSteps(sys: System<Lock, Cell, Job>, m: Move<Lock, Cell, Job>, d: Id, total: int)
    requires StandsAt(sys, d, total) && !InFlight(sys, d, total)
    ensures !InFlight(Do(sys, m), d, total)
  {
    var after := Do(sys, m);
    forall i | 0 <= i < |after.workers| ensures !ChangesLater(after.workers[i], d, total) {
      if i < |sys.workers| { assert !ChangesLater(sys.workers[i], d, total); }
    }
  }

  lemma UpdateSawDraft(view: View, job: Job)
    requires job.UpdateDocument? && Body(job, view).Some?
    ensures SawDraft(view, job.d)
  {
  }

  lemma StandStep(sys: System<Lock, Cell, Job>, m: Move<Lock, Cell, Job>, d: Id, total: int, change: Change)
    requires StandsAt(sys, d, total) && DocumentStep(sys.store, Do(sys, m).store, d, change)
    requires change.Updated? ==> change.total == total
    ensures StandsAt(Do(sys, m), d, total)
  {
  }

  lemma StandSteps(text: Id -> string, store: Store, moves: Moves, m: Move<Lock, Cell, Job>, d: Id, total: int)
    requires AllOk(store) && ServiceRun(text, store, moves)
    requires StandsAt(From(store, moves), d, total) && !InFlight(From(store, moves), d, total)
    ensures StandsAt(Do(From(store, moves), m), d, total) && !InFlight(Do(From(store, moves), m), d, total)
  {
    var sys := From(store, moves);
    ViewSteps(sys, m, d, total);
    MoveSteps(text, store, moves, m, d);
    if ChangeOf(sys, m, d).Updated? {
      UpdateSawDraft(sys.workers[m.i].view, sys.workers[m.i].txn.job);
      assert !ChangesLater(sys.workers[m.i], d, total);
    }
    StandStep(sys, m, d, total, ChangeOf(sys, m, d));
  }

  lemma {:induction false} StandStays(text: Id -> string, store: Store, moves: Moves, more: Moves, d: Id, total: int)
    requires AllOk(store) && ServiceRun(text, store, moves + more)
    requires StandsAt(From(store, moves), d, total) && !InFlight(From(store, moves), d, total)
    ensures StandsAt(From(store, moves + more), d, total) && !InFlight(From(store, moves + more), d, total)
  {
    if more == [] {
      assert moves + more == moves;
    } else {
      var init, m := more[..|more| - 1], more[|more| - 1];
      U.PrefixIsServiceRun(text, store, moves, more);
      StandStays(text, store, moves, init, d, total);
      StandSteps(text, store, moves + init, m, d, total);
      RunLonger(Start<Lock, Cell, Job>(store), moves, more);
    }
  }

  lemma UpdateFootprint(text: Id -> string, job: Job)
    requires job.UpdateDocument?
    ensures DocumentLines(job.d) in Footprint(TxnOf(text, job)) && DocumentRow(job.d) in Footprint(TxnOf(text, job))
  {
    assert Plan(text, job)[0] == DocumentLines(job.d);
  }

  lemma LoneUpdateChanges(text: Id -> string, alone: System<Lock, Cell, Job>, i: nat, d: Id, total: int)
    requires i < |alone.workers| && StandsAt(alone, d, total) && ChangesLater(alone.workers[i], d, total)
    requires alone.workers[i].txn == TxnOf(text, alone.workers[i].txn.job)
    requires TidyWorker(alone.store, alone.workers[i]) && CanCommit(Ready(alone, i), i)
    ensures !StandsAt(Do(Ready(alone, i), Commit(i)), d, total)
  {
    var w, done := alone.workers[i], Ready(alone, i);
    UpdateFootprint(text, w.txn.job);
    var view := done.workers[i].view;
    assert view[DocumentRow(d)] == w.view[DocumentRow(d)] && DocumentLines(d) in view;
    assert w.txn.body(view) == Body(w.txn.job, view);
  }

  /** Everyone else gives up, and the update in flight commits. */
  lemma InFlightChanges(text: Id -> string, store: Store, moves: Moves, d: Id, total: int) returns (more: Moves)
    requires AllOk(store) && ServiceRun(text, store, moves)
    requires StandsAt(From(store, moves), d, total) && InFlight(From(store, moves), d, total)
    ensures ServiceRun(text, store, moves + more) && !StandsAt(From(store, moves + more), d, total)
  {
    var sys := From(store, moves);
    var i: nat :| i < |sys.workers| && ChangesLater(sys.workers[i], d, total);
    RunKeepsTraffic(text, store, moves);
    RunKeepsTidy(store, moves);
    assert WorkerOk(text, store, sys.workers[i]);
    more := GoesOnAlone(sys, i);
    AloneStaysTidy(sys, i);
    LoneUpdateChanges(text, Alone(sys, i, |sys.workers|), i, d, total);
    RunConcat(Start<Lock, Cell, Job>(store), moves, more);
    U.NoBeginKeepsServiceRun(text, store, moves, more);
  }

  /** A posted document's total stays as it is however the run goes on exactly when no update to another
      total that saw the draft is in flight. */
  lemma {:induction false} SafeExactlyWhen(text: Id -> string, store: Store, moves: Moves, d: Id, total: int)
    requires AllOk(store) && ServiceRun(text, store, moves) && StandsAt(From(store, moves), d, total)
    ensures (forall more :: ServiceRun(text, store, moves + more) ==> StandsAt(From(store, moves + more), d, total))
       <==> !InFlight(From(store, moves), d, total)
  {
    if InFlight(From(store, moves), d, total) {
      var more := InFlightChanges(text, store, moves, d, total);
    } else {
      forall more | ServiceRun(text, store, moves + more) ensures StandsAt(From(store, moves + more), d, total) {
        StandStays(text, store, moves, more, d, total);
      }
    }
  }
}
