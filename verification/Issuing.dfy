/** Numbers on the rows of invoices and credit notes, under interleaved posters. */
module Issuing {
  import opened Wrappers
  import opened Records
  import opened TwoPhase
  import opened Traffic
  import opened Subledger

  function RowOf(key: Lock, id: Id): Lock { if key == InvoiceNumberKey then DocumentRow(id) else NoteRow(id) }

  predicate IsKey(key: Lock) { key == InvoiceNumberKey || key == NoteNumberKey }

  predicate HasNumber(store: map<Lock, Cell>, key: Lock, id: Id, k: nat)
  {
    RowOf(key, id) in store && store[RowOf(key, id)].DocumentCell? && store[RowOf(key, id)].number == Some(k)
  }

  /** With n numbers issued, the rows carry exactly 1..n, each number on exactly one row, and only
      posted and cancelled rows carry one. */
  ghost predicate NumbersOnRows(store: map<Lock, Cell>, key: Lock)
  {
    && key in store && store[key].NumbersCell?
    && (forall id: Id, k: nat :: HasNumber(store, key, id, k) ==>
          1 <= k <= |store[key].issued| && Issued(store[RowOf(key, id)].status))
    && (forall id: Id, other: Id, k: nat :: HasNumber(store, key, id, k) && HasNumber(store, key, other, k) ==> id == other)
    && (forall k: nat :: 1 <= k <= |store[key].issued| ==> OnSomeRow(store, key, k))
  }

  ghost predicate OnSomeRow(store: map<Lock, Cell>, key: Lock, k: nat)
  {
    exists id: Id :: HasNumber(store, key, id, k)
  }

  // --- what one commit does to rows and numbers ---------------------------------------------

  /** The job gives this row its number. */
  predicate Issues(job: Job, key: Lock, id: Id)
  {
    (job.PostInvoice? && key == InvoiceNumberKey && job.d == id) || (job.PostNote? && key == NoteNumberKey && job.n == id)
  }

  /** A row written is issued the next number, which the list gets too, or it keeps its number. */
  predicate RowStep(view: View, result: View, key: Lock, id: Id, issues: bool)
  {
    var row := RowOf(key, id);
    row in result ==>
      && row in view && view[row].DocumentCell? && result[row].DocumentCell?
      && DocumentForward(view[row].status, result[row].status)
      && (if issues then
            && view[row].status == DocDraft && result[row].status == DocPosted
            && NextNumber(view, key).Some? && result[row].number == NextNumber(view, key)
            && key in result && result[key] == NumbersCell(view[key].issued + [NextNumber(view, key).value])
          else result[row].number == view[row].number)
  }

  lemma InvoiceStep(view: View, job: Job, key: Lock, id: Id)
    requires Body(job, view).Some? && IsKey(key) && job.PostInvoice?
    ensures RowStep(view, Body(job, view).value, key, id, Issues(job, key, id))
    ensures Issues(job, key, id) ==> RowOf(key, id) in Body(job, view).value
  {
  }

  lemma NoteStep(view: View, job: Job, key: Lock, id: Id)
    requires Body(job, view).Some? && IsKey(key) && job.PostNote?
    ensures RowStep(view, Body(job, view).value, key, id, Issues(job, key, id))
    ensures Issues(job, key, id) ==> RowOf(key, id) in Body(job, view).value
  {
  }

  lemma BillStep(view: View, job: Job, key: Lock, id: Id)
    requires Body(job, view).Some? && IsKey(key) && job.PostBill?
    ensures RowStep(view, Body(job, view).value, key, id, false)
  {
  }

  lemma CancelStep(view: View, job: Job, key: Lock, id: Id)
    requires Body(job, view).Some? && IsKey(key) && job.CancelDocument?
    ensures RowStep(view, Body(job, view).value, key, id, false)
  {
  }

  lemma VoidStep(view: View, job: Job, key: Lock, id: Id)
    requires Body(job, view).Some? && IsKey(key) && (job.VoidDocument? || job.VoidNote?)
    ensures RowStep(view, Body(job, view).value, key, id, false)
  {
  }

  lemma OtherStep(view: View, job: Job, key: Lock, id: Id)
    requires Body(job, view).Some? && IsKey(key)
    requires !(job.PostInvoice? || job.PostNote? || job.PostBill? || job.CancelDocument? || job.VoidDocument? || job.VoidNote?)
    ensures RowOf(key, id) !in Body(job, view).value
  {
    BodyWritten(job, view);
    assert RowOf(key, id) !in Written(job);
  }

  lemma BodyStep(view: View, job: Job, key: Lock, id: Id)
    requires Body(job, view).Some? && IsKey(key)
    ensures RowStep(view, Body(job, view).value, key, id, Issues(job, key, id))
    ensures Issues(job, key, id) ==> RowOf(key, id) in Body(job, view).value
  {
    if job.PostInvoice? {
      InvoiceStep(view, job, key, id);
    } else if job.PostNote? {
      NoteStep(view, job, key, id);
    } else if job.PostBill? {
      BillStep(view, job, key, id);
    } else if job.CancelDocument? {
      CancelStep(view, job, key, id);
    } else if job.VoidDocument? || job.VoidNote? {
      VoidStep(view, job, key, id);
    } else {
      OtherStep(view, job, key, id);
    }
  }

  /** The list grows exactly when a row is issued. */
  lemma ListStep(view: View, job: Job, key: Lock)
    requires Body(job, view).Some? && IsKey(key)
    ensures key in Body(job, view).value <==>
              (job.PostInvoice? && key == InvoiceNumberKey) || (job.PostNote? && key == NoteNumberKey)
  {
    BodyWritten(job, view);
    ListWriters(job, key);
  }

  lemma ListWriters(job: Job, key: Lock)
    requires IsKey(key)
    ensures key in Written(job) <==> (job.PostInvoice? && key == InvoiceNumberKey) || (job.PostNote? && key == NoteNumberKey)
  {
  }

  // --- every state of every interleaving ------------------------------------------------------

  /** What a commit makes of one row: the issuer's row gets the next number, the others keep theirs. */
  predicate RowBecomes(before: map<Lock, Cell>, after: map<Lock, Cell>, key: Lock, id: Id, issuer: Option<Id>)
    requires key in before && before[key].NumbersCell?
  {
    var row := RowOf(key, id);
    row in before ==>
      && row in after && before[row].DocumentCell? && after[row].DocumentCell?
      && (if issuer == Some(id) then
            before[row].status == DocDraft && after[row] == DocumentCell(DocPosted, Some(|before[key].issued| + 1))
          else after[row].number == before[row].number && DocumentForward(before[row].status, after[row].status))
  }

  predicate ListBecomes(before: map<Lock, Cell>, after: map<Lock, Cell>, key: Lock, issuer: Option<Id>)
    requires key in before && before[key].NumbersCell?
  {
    && key in after
    && match issuer
       case None => after[key] == before[key]
       case Some(id) => RowOf(key, id) in before && after[key] == NumbersCell(before[key].issued + [|before[key].issued| + 1])
  }

  ghost predicate NumbersStep(before: map<Lock, Cell>, after: map<Lock, Cell>, key: Lock, issuer: Option<Id>)
  {
    && key in before && before[key].NumbersCell? && before.Keys == after.Keys
    && (forall id: Id :: RowBecomes(before, after, key, id, issuer)) && ListBecomes(before, after, key, issuer)
  }

  lemma StepKeepsNumbers(before: map<Lock, Cell>, after: map<Lock, Cell>, key: Lock, issuer: Option<Id>)
    requires NumbersOnRows(before, key) && NumbersStep(before, after, key, issuer)
    ensures NumbersOnRows(after, key)
  {
    var n := |before[key].issued|;
    forall id: Id, k: nat | HasNumber(after, key, id, k)
      ensures if issuer == Some(id) then k == n + 1 && after[RowOf(key, id)].status == DocPosted
              else HasNumber(before, key, id, k) && Issued(after[RowOf(key, id)].status)
    {
      assert RowBecomes(before, after, key, id, issuer);
      if issuer != Some(id) { assert HasNumber(before, key, id, k); }
    }
    forall k: nat | 1 <= k <= |after[key].issued| ensures OnSomeRow(after, key, k) {
      if k <= n {
        assert OnSomeRow(before, key, k);
        var id :| HasNumber(before, key, id, k);
        assert RowBecomes(before, after, key, id, issuer);
        assert HasNumber(after, key, id, k);
      } else {
        assert RowBecomes(before, after, key, issuer.value, issuer);
        assert HasNumber(after, key, issuer.value, k);
      }
    }
  }

  function IssuerOf(job: Job, key: Lock): Option<Id>
  {
    if job.PostInvoice? && key == InvoiceNumberKey then Some(job.d)
    else if job.PostNote? && key == NoteNumberKey then Some(job.n) else None
  }

  lemma RowFollows(view: View, result: View, before: map<Lock, Cell>, after: map<Lock, Cell>, key: Lock, id: Id,
                   issuer: Option<Id>)
    requires IsKey(key) && Follows(view, result, before, after, key) && Follows(view, result, before, after, RowOf(key, id))
    requires RowStep(view, result, key, id, issuer == Some(id)) && (issuer == Some(id) ==> RowOf(key, id) in result)
    requires before[key].NumbersCell? && CellOk(before[key]) && before[RowOf(key, id)].DocumentCell?
    ensures RowBecomes(before, after, key, id, issuer)
  {
  }

  lemma CommitMakesRow(text: Id -> string, store: map<Lock, Cell>, sys: System<Lock, Cell, Job>, i: nat, key: Lock, id: Id)
    requires CanCommit(sys, i) && Guarded(sys, i, Locked) && AllOk(store) && TrafficOk(text, store, sys)
    requires IsKey(key) && key in sys.store && sys.store[key].NumbersCell?
    requires Body(sys.workers[i].txn.job, sys.workers[i].view).Some?
    ensures RowBecomes(sys.store, Do(sys, Commit(i)).store, key, id, IssuerOf(sys.workers[i].txn.job, key))
  {
    var w, row := sys.workers[i], RowOf(key, id);
    if row in sys.store {
      BodyStep(w.view, w.txn.job, key, id);
      CommitFollows(text, store, sys, i, row);
      CommitFollows(text, store, sys, i, key);
      assert KindOk(row, sys.store[row]) && CellOk(sys.store[key]);
      RowFollows(w.view, Body(w.txn.job, w.view).value, sys.store, Do(sys, Commit(i)).store, key, id, IssuerOf(w.txn.job, key));
    }
  }

  lemma BodyMakesList(view: View, job: Job, key: Lock)
    requires Body(job, view).Some? && IsKey(key) && AllOk(view) && key in view
    ensures view[key].NumbersCell?
    ensures var result := Body(job, view).value;
            match IssuerOf(job, key)
            case None => key !in result
            case Some(id) => RowOf(key, id) in view && key in result
                             && result[key] == NumbersCell(view[key].issued + [|view[key].issued| + 1])
  {
    assert KindOk(key, view[key]) && CellOk(view[key]);
    var issuer := IssuerOf(job, key);
    if issuer.Some? {
      BodyStep(view, job, key, issuer.value);
    } else if key in Body(job, view).value {
      ListStep(view, job, key);
    }
  }

  lemma ListNotRead(view: View, job: Job, key: Lock)
    requires Body(job, view).Some? && IsKey(key) && key !in view
    ensures IssuerOf(job, key).None? && key !in Body(job, view).value
  {
    ListStep(view, job, key);
    if IssuerOf(job, key).Some? { BodyStep(view, job, key, IssuerOf(job, key).value); }
  }

  /** The list is written only for an issuer, whose number it then ends with. */
  predicate Lists(view: View, result: View, key: Lock, issuer: Option<Id>)
  {
    match issuer
    case None => key !in result
    case Some(id) => RowOf(key, id) in view && key in result && key in view && view[key].NumbersCell?
                     && result[key] == NumbersCell(view[key].issued + [|view[key].issued| + 1])
  }

  lemma ListWritten(view: View, job: Job, key: Lock)
    requires Body(job, view).Some? && IsKey(key) && AllOk(view)
    ensures Lists(view, Body(job, view).value, key, IssuerOf(job, key))
  {
    if key in view { BodyMakesList(view, job, key); } else { ListNotRead(view, job, key); }
  }

  lemma ListFollows(view: View, result: View, before: map<Lock, Cell>, after: map<Lock, Cell>, key: Lock, issuer: Option<Id>)
    requires Lists(view, result, key, issuer) && Follows(view, result, before, after, key) && view.Keys <= before.Keys
    requires before[key].NumbersCell?
    ensures ListBecomes(before, after, key, issuer)
  {
  }

  lemma CommitMakesList(text: Id -> string, store: map<Lock, Cell>, sys: System<Lock, Cell, Job>, i: nat, key: Lock)
    requires CanCommit(sys, i) && Guarded(sys, i, Locked) && AllOk(store) && TrafficOk(text, store, sys)
    requires IsKey(key) && key in sys.store && sys.store[key].NumbersCell?
    requires Body(sys.workers[i].txn.job, sys.workers[i].view).Some?
    ensures ListBecomes(sys.store, Do(sys, Commit(i)).store, key, IssuerOf(sys.workers[i].txn.job, key))
  {
    var w := sys.workers[i];
    assert WorkerOk(text, store, w);
    ListWritten(w.view, w.txn.job, key);
    CommitFollows(text, store, sys, i, key);
    ListFollows(w.view, Body(w.txn.job, w.view).value, sys.store, Do(sys, Commit(i)).store, key, IssuerOf(w.txn.job, key));
  }

  lemma DoKeepsNumbers(text: Id -> string, store: map<Lock, Cell>, sys: System<Lock, Cell, Job>, m: Move<Lock, Cell, Job>,
                       key: Lock)
    requires AllOk(store) && TrafficOk(text, store, sys) && AllGuarded(sys, Locked)
    requires IsKey(key) && NumbersOnRows(sys.store, key)
    ensures NumbersOnRows(Do(sys, m).store, key)
  {
    if m.Commit? && CanCommit(sys, m.i) {
      assert Guarded(sys, m.i, Locked);
      var w := sys.workers[m.i];
      CommitWrites(text, store, sys, m.i);
      if Body(w.txn.job, w.view).Some? {
        forall id: Id ensures RowBecomes(sys.store, Do(sys, m).store, key, id, IssuerOf(w.txn.job, key)) {
          CommitMakesRow(text, store, sys, m.i, key, id);
        }
        CommitMakesList(text, store, sys, m.i, key);
        CommitKeepsTraffic(text, store, sys, m.i);
        StepKeepsNumbers(sys.store, Do(sys, m).store, key, IssuerOf(w.txn.job, key));
      }
    }
  }

  /** Gapless numbering under interleaving: in every state of every interleaving of all services,
      aborts included, the numbers on the invoice rows are exactly 1..n, each on exactly one posted or
      cancelled invoice, and drafts and voided invoices carry none; credit notes have their own 1..m. */
  lemma {:induction false} NumbersStayOnRows(text: Id -> string, store: map<Lock, Cell>, moves: seq<Move<Lock, Cell, Job>>,
                                             key: Lock)
    requires AllOk(store) && ServiceRun(text, store, moves) && IsKey(key) && NumbersOnRows(store, key)
    ensures NumbersOnRows(Run(Start<Lock, Cell, Job>(store), moves).store, key)
  {
    if moves != [] {
      var init := moves[..|moves| - 1];
      NumbersStayOnRows(text, store, init, key);
      RunKeepsTraffic(text, store, init);
      DoKeepsNumbers(text, store, Run(Start<Lock, Cell, Job>(store), init), moves[|moves| - 1], key);
    }
  }
}
