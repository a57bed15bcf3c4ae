/** What a document owes at the end of an interleaving in which it is also posted, cancelled and
    confirmed, all of which go past the key that guards its balance. */
module OpenBalances {
  import opened Wrappers
  import opened Records
  import opened TwoPhase
  import opened Traffic

  // --- what one commit does to the balance ------------------------------------------------------

  /** A move leaves the balance alone, sets it, or moves what its transaction had read of it. */
  datatype Effect = Untouched | SetTo(amount: int) | Moved(change: int, read: int)

  /** What posting or cancelling sets the balance to. */
  function Outright(job: Job): int { if job.PostInvoice? || job.PostBill? then job.total else 0 }

  predicate HasBalance(view: View, d: Id) { DocumentKey(d) in view && view[DocumentKey(d)].OwedCell? }

  function JobEffect(job: Job, view: View, d: Id): Effect
  {
    if Body(job, view).None? || DocumentKey(d) !in Written(job) then Untouched
    else if Sets(job, DocumentKey(d)) then SetTo(Outright(job))
    else Moved(Adds(job, DocumentKey(d)), if HasBalance(view, d) then view[DocumentKey(d)].amount else 0)
  }

  function EffectOf(sys: System<Lock, Cell, Job>, m: Move<Lock, Cell, Job>, d: Id): Effect
  {
    if m.Commit? && CanCommit(sys, m.i) then JobEffect(sys.workers[m.i].txn.job, sys.workers[m.i].view, d) else Untouched
  }

  lemma BookingSets(view: View, job: Job)
    requires (job.PostInvoice? || job.PostBill?) && Body(job, view).Some?
    ensures HasBalance(Body(job, view).value, job.d) && Body(job, view).value[DocumentKey(job.d)].amount == job.total
  {
  }

  lemma CancellingSets(view: View, job: Job)
    requires job.CancelDocument? && Body(job, view).Some?
    ensures HasBalance(Body(job, view).value, job.d) && Body(job, view).value[DocumentKey(job.d)].amount == 0
  {
  }

  lemma OthersMove(view: View, job: Job, d: Id)
    requires Body(job, view).Some? && AllOk(view) && DocumentKey(d) in Written(job) && !Sets(job, DocumentKey(d))
    ensures HasBalance(view, d) && DocumentKey(d) in Body(job, view).value
    ensures Tally(Body(job, view).value[DocumentKey(d)]) == view[DocumentKey(d)].amount + Adds(job, DocumentKey(d))
  {
    BodyWritten(job, view);
    BodyTallies(view, job, DocumentKey(d));
    assert KindOk(DocumentKey(d), view[DocumentKey(d)]);
  }

  /** The balance after a move, by its effect. */
  predicate BalanceStep(before: Store, after: Store, d: Id, effect: Effect)
    requires HasBalance(before, d)
  {
    && HasBalance(after, d)
    && after[DocumentKey(d)].amount == match effect
                                       case Untouched => before[DocumentKey(d)].amount
                                       case SetTo(amount) => amount
                                       case Moved(change, read) => read + change
  }

  lemma BodyEffect(view: View, job: Job, d: Id, before: Store, after: Store)
    requires HasBalance(before, d) && HasBalance(after, d) && AllOk(view)
    requires Body(job, view).Some? && DocumentKey(d) in Written(job)
    requires DocumentKey(d) in Body(job, view).value && after[DocumentKey(d)] == Body(job, view).value[DocumentKey(d)]
    ensures BalanceStep(before, after, d, JobEffect(job, view, d))
  {
    if Sets(job, DocumentKey(d)) {
      if job.CancelDocument? { CancellingSets(view, job); } else { BookingSets(view, job); }
    } else {
      OthersMove(view, job, d);
    }
  }

  lemma CommitStores(sys: System<Lock, Cell, Job>, i: nat, k: Lock)
    requires CanCommit(sys, i) && k in sys.store
    requires var w := sys.workers[i]; w.txn.body(w.view) == Body(w.txn.job, w.view) && Written(w.txn.job) <= Footprint(w.txn)
    ensures var w, after := sys.workers[i], Do(sys, Commit(i)).store;
            && k in after
            && (Body(w.txn.job, w.view).Some? ==> Body(w.txn.job, w.view).value.Keys == Written(w.txn.job))
            && after[k] == if Body(w.txn.job, w.view).Some? && k in Written(w.txn.job) then Body(w.txn.job, w.view).value[k]
                           else sys.store[k]
  {
    BodyWritten(sys.workers[i].txn.job, sys.workers[i].view);
  }

  lemma WrittenInFootprint(text: Id -> string, job: Job)
    ensures Written(job) <= Footprint(TxnOf(text, job))
  {
    var plan := Plan(text, job);
    if TakesPair(job) {
      DocumentKeyFirst(text, job.p, job.d);
      if job.ConfirmMatch? {
        assert plan == [LineRow(job.l), DocumentKey(job.d), PaymentKey(job.p), EntryRow(job.e), PeriodKey(job.period)];
        assert plan[0] == LineRow(job.l) && plan[1] == DocumentKey(job.d) && plan[2] == PaymentKey(job.p);
        assert plan[3] == EntryRow(job.e) && plan[4] == PeriodKey(job.period);
      } else {
        assert plan[0] == DocumentKey(job.d) && plan[1] == PaymentKey(job.p);
      }
    }
  }

  lemma CommitSteps(text: Id -> string, store: Store, sys: System<Lock, Cell, Job>, i: nat, d: Id)
    requires CanCommit(sys, i) && TrafficOk(text, store, sys)
    requires HasBalance(sys.store, d) && HasBalance(Do(sys, Commit(i)).store, d)
    ensures BalanceStep(sys.store, Do(sys, Commit(i)).store, d, EffectOf(sys, Commit(i), d))
  {
    var w := sys.workers[i];
    assert WorkerOk(text, store, w);
    WrittenInFootprint(text, w.txn.job);
    assert w.txn.body(w.view) == Body(w.txn.job, w.view);
    CommitStores(sys, i, DocumentKey(d));
    if Body(w.txn.job, w.view).Some? && DocumentKey(d) in Written(w.txn.job) {
      BodyEffect(w.view, w.txn.job, d, sys.store, Do(sys, Commit(i)).store);
    }
  }

  // --- whole runs ----------------------------------------------------------------------------------

  /** What the document should owe: what the last post or cancellation set, or the start, less the
      allocations and confirmations committed since, plus the reversals. */
  ghost function Expected(store: Store, moves: Moves, d: Id): int
  {
    if moves == [] then if HasBalance(store, d) then store[DocumentKey(d)].amount else 0
    else
      var init, m := moves[..|moves| - 1], moves[|moves| - 1];
      match EffectOf(From(store, init), m, d)
      case Untouched => Expected(store, init, d)
      case SetTo(amount) => amount
      case Moved(change, _) => Expected(store, init, d) + change
  }

  /** How far the readings that committed since were from the balance at that moment, together. */
  ghost function Drift(store: Store, moves: Moves, d: Id): int
  {
    if moves == [] then 0
    else
      var init, m := moves[..|moves| - 1], moves[|moves| - 1];
      var before := From(store, init);
      match EffectOf(before, m, d)
      case Untouched => Drift(store, init, d)
      case SetTo(_) => 0
      case Moved(_, read) =>
        Drift(store, init, d) + read - if HasBalance(before.store, d) then before.store[DocumentKey(d)].amount else 0
  }

  lemma BalancesStay(text: Id -> string, store: Store, moves: Moves, d: Id)
    requires AllOk(store) && ServiceRun(text, store, moves) && DocumentKey(d) in store
    ensures HasBalance(store, d) && HasBalance(From(store, moves).store, d) && From(store, moves).store[DocumentKey(d)].amount >= 0
  {
    var final := From(store, moves).store;
    RunKeepsTraffic(text, store, moves);
    assert KindOk(DocumentKey(d), store[DocumentKey(d)]) && CellOk(store[DocumentKey(d)]);
    assert KindOk(DocumentKey(d), final[DocumentKey(d)]) && CellOk(final[DocumentKey(d)]);
  }

  /** In any interleaving of all services a document owes what it should plus the drift, and is never
      less than nothing; so the equation of payments holds exactly when the drift is zero, as it
      is when every commit read the balance as it was. */
  lemma {:induction false} OwesExpectedPlusDrift(text: Id -> string, store: Store, moves: Moves, d: Id)
    requires AllOk(store) && ServiceRun(text, store, moves) && DocumentKey(d) in store
    ensures var final := From(store, moves).store;
            && HasBalance(final, d) && 0 <= final[DocumentKey(d)].amount == Expected(store, moves, d) + Drift(store, moves, d)
            && (final[DocumentKey(d)].amount == Expected(store, moves, d) <==> Drift(store, moves, d) == 0)
  {
    BalancesStay(text, store, moves, d);
    if moves != [] {
      var init, m := moves[..|moves| - 1], moves[|moves| - 1];
      OwesExpectedPlusDrift(text, store, init, d);
      RunKeepsTraffic(text, store, init);
      if m.Commit? && CanCommit(From(store, init), m.i) { CommitSteps(text, store, From(store, init), m.i, d); }
    }
  }

  /** With every commit on a current reading, nothing drifts. */
  lemma {:induction false} CurrentReadsDoNotDrift(text: Id -> string, store: Store, moves: Moves, d: Id)
    requires AllOk(store) && ServiceRun(text, store, moves) && DocumentKey(d) in store
    requires AlwaysCurrent(store, moves, DocumentKey(d))
    ensures Drift(store, moves, d) == 0
  {
    if moves != [] {
      var init, m := moves[..|moves| - 1], moves[|moves| - 1];
      CurrentUpToNow(store, moves, DocumentKey(d));
      CurrentReadsDoNotDrift(text, store, init, d);
      if m.Commit? && CanCommit(From(store, init), m.i) {
        RunKeepsTraffic(text, store, init);
        CurrentDoesNotDrift(text, store, From(store, init), m.i, d);
      }
    }
  }

  lemma CurrentDoesNotDrift(text: Id -> string, store: Store, sys: System<Lock, Cell, Job>, i: nat, d: Id)
    requires CanCommit(sys, i) && TrafficOk(text, store, sys) && CurrentAt(sys, i, DocumentKey(d))
    ensures var effect := EffectOf(sys, Commit(i), d);
            effect.Moved? ==> HasBalance(sys.store, d) && effect.read == sys.store[DocumentKey(d)].amount
  {
    var w := sys.workers[i];
    assert WorkerOk(text, store, w);
    assert w.txn.body(w.view) == Body(w.txn.job, w.view);
    if EffectOf(sys, Commit(i), d).Moved? { OthersMove(w.view, w.txn.job, d); }
  }
}
