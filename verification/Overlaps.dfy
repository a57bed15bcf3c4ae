/** Interleavings on the tables of a reachable state: services that look before they lock, where the
    tables let two of them commit that no order of the two would. */
module Overlaps {
  import opened Wrappers
  import opened Sums
  import opened Records
  import opened Invariants
  import opened TwoPhase
  import opened Continuations
  import opened Traffic
  import opened Races
  import P = Periods
  import J = Journal
  import D = Documents
  import Y = Payments
  import B = Banking
  import U = LateUpdates
  import N = LateTotals
  import W = Projection
  import M = Mirror

  // --- one allocation reversed twice -----------------------------------------------------

  function ReversalOf(db: Db, i: Id): Job
    requires i < |db.allocations|
  {
    ReverseAllocation(i, db.allocations[i].payment, db.allocations[i].document, db.allocations[i].amount)
  }

  lemma TablesTell(db: Db, keys: set<Lock>, i: Id, p: Id, d: Id, amount: int)
    requires W.Keys(ReverseAllocation(i, p, d, amount)) <= keys && p < |db.payments| && d < |db.documents|
    requires amount > 0 && !Y.IsReversed(db.allocations, i) && db.documents[d].outstanding >= 0
    requires 0 <= db.payments[p].unallocated && db.payments[p].unallocated + amount <= db.payments[p].amount
    ensures LiveAllocation(M.Cells(db, keys), i, p, d, amount, db.payments[p].unallocated, db.payments[p].amount,
                           db.documents[d].outstanding)
  {
  }

  lemma TablesAreLive(db: Db, i: Id, keys: set<Lock>)
    requires Inv(db) && Y.ReverseAllocation(db, i).Success? && W.Keys(ReversalOf(db, i)) <= keys
    ensures var a := db.allocations[i];
            && a.payment < |db.payments| && a.document < |db.documents|
            && LiveAllocation(M.Cells(db, keys), i, a.payment, a.document, a.amount, db.payments[a.payment].unallocated,
                              db.payments[a.payment].amount, db.documents[a.document].outstanding)
  {
    var a := db.allocations[i];
    W.ReverseAllocationMoves(db, i);
    W.FundsStayWithin(db, a.payment);
    W.BalancesAreSound(db, DocumentKey(a.document));
    TablesTell(db, keys, i, a.payment, a.document, a.amount);
  }

  /** Two reversals of one allocation that start on the tables of a reachable state can both commit
      exactly when the payment's other live allocations come to at least the amount; otherwise at
      most one ever does, however they interleave. */
  lemma {:induction false} TablesReverseTwiceExactlyWhen(text: Id -> string, db: Db, i: Id, keys: set<Lock>)
    requires Inv(db) && Y.ReverseAllocation(db, i).Success? && W.Keys(ReversalOf(db, i)) <= keys
    ensures var a := db.allocations[i];
            (exists moves :: CommitsTwice(text, M.Cells(db, keys), moves, i, a.payment, a.document, a.amount))
            <==> Y.LiveTotal(db.allocations, Y.OfPayment(a.payment)) - a.amount >= a.amount
  {
    var a := db.allocations[i];
    TablesAreLive(db, i, keys);
    M.CellsAreSound(db, keys);
    W.FundsStayWithin(db, a.payment);
    TwiceExactlyWhen(text, M.Cells(db, keys), i, a.payment, a.document, a.amount, db.payments[a.payment].unallocated,
                     db.payments[a.payment].amount, db.documents[a.document].outstanding);
  }

  // --- the two looks overlap ------------------------------------------------------------------

  /** The move commits a reversal of the allocation. */
  ghost predicate CommitsReversal(sys: System<Lock, Cell, Job>, m: Move<Lock, Cell, Job>, i: Id)
  {
    && m.Commit? && CanCommit(sys, m.i) && sys.workers[m.i].txn.job.ReverseAllocation? && sys.workers[m.i].txn.job.i == i
    && Do(sys, m).history == sys.history + [sys.workers[m.i].txn]
  }

  predicate IsMarked(store: Store, i: Id) { AllocationRow(i) in store && store[AllocationRow(i)] == AllocationCell(1) }

  lemma OnlyReversalsMark(text: Id -> string, job: Job, i: Id)
    ensures AllocationRow(i) in Footprint(TxnOf(text, job)) ==> job.ReverseAllocation? && job.i == i
  {
    W.KeysAreFootprint(text, job);
  }

  lemma MarksOne(view: View, job: Job, i: Id)
    requires job.ReverseAllocation? && job.i == i && Body(job, view).Some?
    ensures AllocationRow(i) in Body(job, view).value && Body(job, view).value[AllocationRow(i)] == AllocationCell(1)
  {
  }

  lemma CommitMarks(text: Id -> string, sys: System<Lock, Cell, Job>, m: Move<Lock, Cell, Job>, i: Id)
    requires m.Commit? && CanCommit(sys, m.i)
    requires sys.workers[m.i].txn == TxnOf(text, sys.workers[m.i].txn.job)
    ensures IsMarked(sys.store, i) ==> IsMarked(Do(sys, m).store, i)
    ensures CommitsReversal(sys, m, i) ==> IsMarked(Do(sys, m).store, i)
  {
    var w := sys.workers[m.i];
    OnlyReversalsMark(text, w.txn.job, i);
    CommitsOrNot(sys, m.i);
    if w.txn.body(w.view).Some? && w.txn.job.ReverseAllocation? && w.txn.job.i == i {
      assert w.txn.body(w.view) == Body(w.txn.job, w.view);
      MarksOne(w.view, w.txn.job, i);
      W.KeysAreFootprint(text, w.txn.job);
    }
  }

  lemma MoveMarks(text: Id -> string, store: Store, moves: Moves, m: Move<Lock, Cell, Job>, i: Id)
    requires AllOk(store) && ServiceRun(text, store, moves)
    ensures IsMarked(From(store, moves).store, i) ==> IsMarked(Do(From(store, moves), m).store, i)
    ensures CommitsReversal(From(store, moves), m, i) ==> IsMarked(Do(From(store, moves), m).store, i)
  {
    var sys := From(store, moves);
    if m.Commit? && CanCommit(sys, m.i) {
      RunKeepsTraffic(text, store, moves);
      assert WorkerOk(text, store, sys.workers[m.i]);
      CommitMarks(text, sys, m, i);
    }
  }

  /** Once a reversal has committed, the allocation stays reversed. */
  lemma {:induction false} MarkStays(text: Id -> string, store: Store, moves: Moves, j: nat, i: Id)
    requires AllOk(store) && ServiceRun(text, store, moves) && j < |moves|
    requires CommitsReversal(From(store, moves[..j]), moves[j], i)
    ensures IsMarked(From(store, moves).store, i)
  {
    var init, m := moves[..|moves| - 1], moves[|moves| - 1];
    if j < |init| {
      assert init[..j] == moves[..j];
      MarkStays(text, store, init, j, i);
    }
    MoveMarks(text, store, init, m, i);
  }

  /** A reversal that commits after another one has looked before that one committed. */
  lemma {:induction false} LooksOverlap(text: Id -> string, store: Store, moves: Moves, w: nat, j: nat, i: Id, p: Id, d: Id,
                                        amount: int) returns (k: nat)
    requires AllOk(store) && ServiceRun(text, store, moves) && amount > 0 && j < |moves|
    requires CommitsReversal(From(store, moves[..j]), moves[j], i)
    requires CommitsReversal(From(store, moves), Commit(w), i)
    requires From(store, moves).workers[w].txn == Reversal(text, i, p, d, amount)
    ensures k < j && moves[k] == Read(w, AllocationRow(i))
  {
    k := SecondLookedBefore(text, store, moves, w, i, p, d, amount);
    if k > j {
      assert moves[..k][..j] == moves[..j] && moves[..k][j] == moves[j];
      MarkStays(text, store, moves[..k], j, i);
    }
  }

  // --- at most one reversal -----------------------------------------------------------------------

  /** Reversals committed so far are at least as many as the mark on the allocation says, however
      outdated their looks. */
  lemma {:induction false} MarksAreCounted(text: Id -> string, store: Store, moves: Moves, i: Id)
    requires AllOk(store) && ServiceRun(text, store, moves) && AllocationRow(i) in store
    ensures var final := From(store, moves);
            && AllocationRow(i) in final.store
            && Tally(final.store[AllocationRow(i)]) <= Tally(store[AllocationRow(i)]) + Sum(final.history, Gain(AllocationRow(i)))
  {
    if moves != [] {
      var init, m := moves[..|moves| - 1], moves[|moves| - 1];
      MarksAreCounted(text, store, init, i);
      MoveIsCounted(text, store, init, m, i);
    }
  }

  /** A move adds to the reversals committed what it adds to the mark, or more. */
  lemma MoveIsCounted(text: Id -> string, store: Store, moves: Moves, m: Move<Lock, Cell, Job>, i: Id)
    requires AllOk(store) && ServiceRun(text, store, moves) && AllocationRow(i) in From(store, moves).store
    ensures var lock, sys := AllocationRow(i), From(store, moves);
            var after := Do(sys, m);
            && lock in after.store
            && Tally(after.store[lock]) - Tally(sys.store[lock]) <= Sum(after.history, Gain(lock)) - Sum(sys.history, Gain(lock))
  {
    var sys := From(store, moves);
    if m.Commit? && CanCommit(sys, m.i) {
      RunKeepsTraffic(text, store, moves);
      assert WorkerOk(text, store, sys.workers[m.i]);
      CommitIsCounted(text, sys, m.i, i);
      HistoryGains(sys, m.i, AllocationRow(i));
    }
  }

  lemma OthersKeepMark(text: Id -> string, sys: System<Lock, Cell, Job>, w: nat, i: Id)
    requires CanCommit(sys, w) && sys.workers[w].txn == TxnOf(text, sys.workers[w].txn.job) && AllocationRow(i) in sys.store
    requires !(sys.workers[w].txn.job.ReverseAllocation? && sys.workers[w].txn.job.i == i)
    ensures AllocationRow(i) in Do(sys, Commit(w)).store
    ensures Do(sys, Commit(w)).store[AllocationRow(i)] == sys.store[AllocationRow(i)]
  {
    OnlyReversalsMark(text, sys.workers[w].txn.job, i);
  }

  /** What a commit that has this to add to the mark leaves of it, at most. */
  predicate MarkedAtMost(sys: System<Lock, Cell, Job>, w: nat, lock: Lock)
    requires CanCommit(sys, w) && lock in sys.store
  {
    var t, after := sys.workers[w].txn, Do(sys, Commit(w)).store;
    && lock in after
    && Tally(after[lock]) <= Tally(sys.store[lock]) + if t.body(sys.workers[w].view).Some? then Adds(t.job, lock) else 0
  }

  lemma ReversalIsCounted(text: Id -> string, sys: System<Lock, Cell, Job>, w: nat, i: Id)
    requires CanCommit(sys, w) && sys.workers[w].txn == TxnOf(text, sys.workers[w].txn.job) && AllOk(sys.store)
    requires AllocationRow(i) in sys.store && sys.workers[w].txn.job.ReverseAllocation? && sys.workers[w].txn.job.i == i
    ensures MarkedAtMost(sys, w, AllocationRow(i))
  {
    assert KindOk(AllocationRow(i), sys.store[AllocationRow(i)]);
    CommitsOrNot(sys, w);
    CommitMarks(text, sys, Commit(w), i);
  }

  lemma HistoryGains(sys: System<Lock, Cell, Job>, w: nat, lock: Lock)
    requires CanCommit(sys, w)
    ensures var t, view := sys.workers[w].txn, sys.workers[w].view;
            Sum(Do(sys, Commit(w)).history, Gain(lock))
            == Sum(sys.history, Gain(lock)) + if t.body(view).Some? then Adds(t.job, lock) else 0
  {
    CommitsOrNot(sys, w);
    SumAppend(sys.history, sys.workers[w].txn, Gain(lock));
  }

  lemma OthersMarkNothing(text: Id -> string, sys: System<Lock, Cell, Job>, w: nat, i: Id)
    requires CanCommit(sys, w) && sys.workers[w].txn == TxnOf(text, sys.workers[w].txn.job) && AllocationRow(i) in sys.store
    requires !(sys.workers[w].txn.job.ReverseAllocation? && sys.workers[w].txn.job.i == i)
    ensures MarkedAtMost(sys, w, AllocationRow(i))
  {
    OthersKeepMark(text, sys, w, i);
  }

  lemma CommitIsCounted(text: Id -> string, sys: System<Lock, Cell, Job>, w: nat, i: Id)
    requires CanCommit(sys, w) && sys.workers[w].txn == TxnOf(text, sys.workers[w].txn.job) && AllOk(sys.store)
    requires AllocationRow(i) in sys.store
    ensures MarkedAtMost(sys, w, AllocationRow(i))
  {
    if sys.workers[w].txn.job.ReverseAllocation? && sys.workers[w].txn.job.i == i {
      ReversalIsCounted(text, sys, w, i);
    } else {
      OthersMarkNothing(text, sys, w, i);
    }
  }

  lemma {:induction false} HistoryGrows(store: Store, moves: Moves, n: nat, lock: Lock)
    requires n <= |moves| && lock.AllocationRow?
    ensures Sum(From(store, moves[..n]).history, Gain(lock)) <= Sum(From(store, moves).history, Gain(lock))
  {
    if n == |moves| {
      assert moves[..n] == moves;
    } else {
      var init := moves[..|moves| - 1];
      assert init[..n] == moves[..n];
      HistoryGrows(store, init, n, lock);
      var before := From(store, init);
      var m := moves[|moves| - 1];
      if m.Commit? && CanCommit(before, m.i) { HistoryGains(before, m.i, lock); }
    }
  }

  /** A reversal that commits on an outdated look is the second. */
  lemma OutdatedIsSecond(text: Id -> string, store: Store, moves: Moves, k: nat, i: Id)
    requires AllOk(store) && ServiceRun(text, store, moves) && AllocationRow(i) in store && k < |moves| && moves[k].Commit?
    requires var before := From(store, moves[..k]);
             CanCommit(before, moves[k].i) && !CurrentAt(before, moves[k].i, AllocationRow(i))
    ensures Tally(store[AllocationRow(i)]) + Sum(From(store, moves).history, Gain(AllocationRow(i))) >= 2
  {
    var lock, init, m := AllocationRow(i), moves[..k], moves[k];
    var before := From(store, init);
    var t, view := before.workers[m.i].txn, before.workers[m.i].view;
    RunKeepsTraffic(text, store, init);
    assert WorkerOk(text, store, before.workers[m.i]);
    OnlyReversalsMark(text, t.job, i);
    assert t.body(view) == Body(t.job, view);
    BodyWritten(t.job, view);
    assert lock in Written(t.job);
    MarksAreCounted(text, store, init, i);
    MarkReadsZero(view, t.job, i);
    assert KindOk(lock, before.store[lock]);
    HistoryGains(before, m.i, lock);
    assert moves[..k + 1][..k] == init && moves[..k + 1][k] == m;
    HistoryGrows(store, moves, k + 1, lock);
  }

  lemma MarkReadsZero(view: View, job: Job, i: Id)
    requires AllocationRow(i) in Written(job) && Body(job, view).Some?
    ensures job.ReverseAllocation? && job.i == i && AllocationRow(i) in view && view[AllocationRow(i)] == AllocationCell(0)
  {
  }

  /** However the services interleave, at most one reversal of an allocation commits exactly when none
      commits on an outdated look at it. */
  lemma {:induction false} ReversedOnceExactlyWhen(text: Id -> string, store: Store, moves: Moves, i: Id)
    requires AllOk(store) && ServiceRun(text, store, moves) && AllocationRow(i) in store
    ensures Tally(store[AllocationRow(i)]) + Sum(From(store, moves).history, Gain(AllocationRow(i))) <= 1
       <==> AlwaysCurrent(store, moves, AllocationRow(i))
  {
    if AlwaysCurrent(store, moves, AllocationRow(i)) {
      CurrentLooksReverseOnce(text, store, moves, i);
    } else {
      var k :| 0 <= k < |moves| && moves[k].Commit? && CanCommit(From(store, moves[..k]), moves[k].i)
               && !CurrentAt(From(store, moves[..k]), moves[k].i, AllocationRow(i));
      OutdatedIsSecond(text, store, moves, k, i);
    }
  }

  // --- an entry updated while it is posted ---------------------------------------------------

  lemma FilledSees(db: Db, keys: set<Lock>, looks: View, wanted: set<Lock>, k: Lock)
    requires k in wanted && k in keys && k !in looks
    ensures W.Sees(Filled(looks, M.Cells(db, keys), wanted), db, k)
  {
  }

  function PostingOf(db: Db, e: Id): Job
    requires e < |db.entries| && J.OpenPeriod(db.periods, db.entries[e].date).Success?
  {
    PostEntry(e, J.OpenPeriod(db.periods, db.entries[e].date).value, db.entries[e].date)
  }

  lemma PostingWrites(text: Id -> string, db: Db, e: Id, keys: set<Lock>) returns (cells: View)
    requires P.PeriodsOk(db.periods) && J.PostEntry(db, e).Success? && W.Keys(PostingOf(db, e)) <= keys
    ensures var t := TxnOf(text, PostingOf(db, e));
            && DistinctLocks(t.plan) && Footprint(t) == W.Keys(t.job)
            && t.body(Filled(map[], M.Cells(db, keys), Footprint(t))) == Some(cells)
    ensures cells == W.EntryCells(db, e, EntryPosted, PostingOf(db, e).period, db.entries[e].date)
  {
    var job := PostingOf(db, e);
    var t := TxnOf(text, job);
    W.KeysAreFootprint(text, job);
    W.OpenPeriodCovers(db, job.date);
    var view := Filled(map[], M.Cells(db, keys), W.Keys(job));
    FilledSees(db, keys, map[], W.Keys(job), EntryRow(e));
    FilledSees(db, keys, map[], W.Keys(job), EntryLines(e));
    FilledSees(db, keys, map[], W.Keys(job), PeriodKey(job.period));
    W.PostEntryWrites(view, db, e, job.period, job.date);
    cells := W.EntryCells(db, e, EntryPosted, job.period, job.date);
    assert t.body(view) == Body(job, view);
  }

  lemma OldDraftIsUpdated(text: Id -> string, looks: View, now: Store, e: Id, reversers: nat)
    requires looks == map[EntryRow(e) := EntryCell(Some(EntryDraft), reversers)] && EntryLines(e) in now
    ensures var t := TxnOf(text, UpdateEntry(e, false));
            && DistinctLocks(t.plan) && Footprint(t) == {EntryRow(e), EntryLines(e)}
            && t.body(Filled(looks, now, Footprint(t))) == Some(map[EntryLines(e) := LinesCell(false)])
  {
    W.KeysAreFootprint(text, UpdateEntry(e, false));
    var t := TxnOf(text, UpdateEntry(e, false));
    assert t.body(Filled(looks, now, Footprint(t))) == Body(UpdateEntry(e, false), Filled(looks, now, Footprint(t)));
  }

  lemma PostedThenUpdated(text: Id -> string, store: Store, post: Txn<Lock, Cell, Job>, e: Id, reversers: nat, cells: View)
    returns (moves: Moves)
    requires DistinctLocks(post.plan) && Footprint(post) <= store.Keys && cells.Keys <= Footprint(post)
    requires post.body(Filled(map[], store, Footprint(post))) == Some(cells)
    requires EntryRow(e) in store && store[EntryRow(e)] == EntryCell(Some(EntryDraft), reversers) && EntryLines(e) in store
    ensures var update, final := TxnOf(text, UpdateEntry(e, false)), From(store, moves);
            && OnlyBegins(moves, post, update) && final.history == [post, update]
            && final.store == store + cells + map[EntryLines(e) := LinesCell(false)]
  {
    assert LookedAt(store, [EntryRow(e)]) == map[EntryRow(e) := store[EntryRow(e)]];
    assert LookedAt(store, []) == map[];
    OldDraftIsUpdated(text, LookedAt(store, [EntryRow(e)]), store + cells, e, reversers);
    moves := LookThenCommit(store, post, TxnOf(text, UpdateEntry(e, false)), [], [EntryRow(e)], cells,
                            map[EntryLines(e) := LinesCell(false)]);
  }

  /** The tables' cells after the post and the late update. */
  function SpoiledCells(db: Db, e: Id, keys: set<Lock>): Store
    requires e < |db.entries| && J.OpenPeriod(db.periods, db.entries[e].date).Success?
  {
    M.Cells(db, keys) + W.EntryCells(db, e, EntryPosted, PostingOf(db, e).period, db.entries[e].date)
    + map[EntryLines(e) := LinesCell(false)]
  }

  lemma PostsWhileUpdated(text: Id -> string, db: Db, e: Id, keys: set<Lock>) returns (moves: Moves)
    requires P.PeriodsOk(db.periods) && J.PostEntry(db, e).Success? && W.Keys(PostingOf(db, e)) <= keys
    ensures var post, update := TxnOf(text, PostingOf(db, e)), TxnOf(text, UpdateEntry(e, false));
            var final := From(M.Cells(db, keys), moves);
            && OnlyBegins(moves, post, update) && final.history == [post, update] && final.store == SpoiledCells(db, e, keys)
  {
    var cells := PostingWrites(text, db, e, keys);
    moves := PostedThenUpdated(text, M.Cells(db, keys), TxnOf(text, PostingOf(db, e)), e, W.ReversersOf(db.entries, e), cells);
  }

  /** Any draft that can be posted can be updated to unbalanced lines while it is posted, both
      committing, although in either order one of the two is refused. */
  lemma {:induction false} UpdatingWhilePostingUnbalances(text: Id -> string, db: Db, e: Id) returns (moves: Moves)
    requires P.PeriodsOk(db.periods) && J.PostEntry(db, e).Success?
    ensures var post, update := TxnOf(text, PostingOf(db, e)), TxnOf(text, UpdateEntry(e, false));
            var store := M.Cells(db, W.Keys(post.job));
            var final := From(store, moves);
            && OnlyBegins(moves, post, update) && final.history == [post, update] && U.HasEntry(final.store, e)
            && final.store[EntryRow(e)].state == Some(EntryPosted) && final.store[EntryLines(e)] == LinesCell(false)
            && Replay(store, [post, update]).None? && Replay(store, [update, post]).None?
  {
    var keys := W.Keys(PostingOf(db, e));
    moves := PostsWhileUpdated(text, db, e, keys);
    PostedRefusesUpdate(text, M.Cells(db, keys), e, PostingOf(db, e).period, db.entries[e].date);
    UpdatedRefusesPost(text, M.Cells(db, keys), e, PostingOf(db, e).period, db.entries[e].date);
  }

  lemma PostedRefusesUpdate(text: Id -> string, store: Store, e: Id, period: Id, date: Date)
    requires U.HasEntry(store, e)
    ensures Replay(store, [TxnOf(text, PostEntry(e, period, date)), TxnOf(text, UpdateEntry(e, false))]).None?
  {
    var post, update := TxnOf(text, PostEntry(e, period, date)), TxnOf(text, UpdateEntry(e, false));
    W.KeysAreFootprint(text, post.job);
    W.KeysAreFootprint(text, update.job);
    ReplayTwo(store, post, update);
  }

  lemma UpdatedRefusesPost(text: Id -> string, store: Store, e: Id, period: Id, date: Date)
    requires U.HasEntry(store, e)
    ensures Replay(store, [TxnOf(text, UpdateEntry(e, false)), TxnOf(text, PostEntry(e, period, date))]).None?
  {
    var post, update := TxnOf(text, PostEntry(e, period, date)), TxnOf(text, UpdateEntry(e, false));
    W.KeysAreFootprint(text, post.job);
    W.KeysAreFootprint(text, update.job);
    ReplayTwo(store, update, post);
  }

  // --- two bank lines confirmed against one document --------------------------------------------

  /** The view lets the match be confirmed. */
  predicate Settleable(view: View, job: Job)
    requires job.ConfirmMatch?
  {
    && LineRow(job.l) in view && view[LineRow(job.l)] == LineCell(0)
    && IsPosted(view, job.d) && job.amount > 0
    && DocumentKey(job.d) in view && view[DocumentKey(job.d)] == OwedCell(job.amount)
    && PaymentKey(job.p) in view && view[PaymentKey(job.p)] == FundsCell(0, 0)
    && EntryRow(job.e) in view && view[EntryRow(job.e)].EntryCell? && view[EntryRow(job.e)].state == None
    && PeriodKey(job.period) in view && view[PeriodKey(job.period)].PeriodCell? && view[PeriodKey(job.period)].open
  }

  /** What confirming it leaves. */
  predicate Settled(cells: View, job: Job)
    requires job.ConfirmMatch?
  {
    && cells.Keys == {LineRow(job.l), DocumentKey(job.d), PaymentKey(job.p), EntryRow(job.e), PeriodKey(job.period)}
    && cells[LineRow(job.l)] == LineCell(1) && cells[DocumentKey(job.d)] == OwedCell(0)
    && cells[PaymentKey(job.p)] == FundsCell(0, job.amount)
    && cells[EntryRow(job.e)].EntryCell? && cells[EntryRow(job.e)].state == Some(EntryPosted)
    && cells[PeriodKey(job.period)].PeriodCell? && cells[PeriodKey(job.period)].open
  }

  lemma ConfirmsExactlyOn(view: View, job: Job)
    requires job.ConfirmMatch?
    ensures Body(job, view).Some? <==> Settleable(view, job)
    ensures Body(job, view).Some? ==> Settled(Body(job, view).value, job)
  {
  }

  /** Two lines to one document, with nothing else in common but, maybe, the period. */
  predicate Rivals(a: Job, b: Job)
  {
    a.ConfirmMatch? && b.ConfirmMatch? && a.d == b.d && a.amount == b.amount && a.l != b.l && a.p != b.p && a.e != b.e
  }

  function DocumentLooks(d: Id): seq<Lock> { [DocumentKey(d), DocumentRow(d)] }

  lemma MatchFootprint(text: Id -> string, job: Job)
    requires job.ConfirmMatch?
    ensures var t := TxnOf(text, job);
            && Footprint(t) == W.Keys(job) && DistinctLocks(t.plan) && forall r :: r in DocumentLooks(job.d) ==> r in t.early
  {
    W.KeysAreFootprint(text, job);
    DocumentKeyFirst(text, job.p, job.d);
    assert Plan(text, job) == [LineRow(job.l), DocumentKey(job.d), PaymentKey(job.p), EntryRow(job.e), PeriodKey(job.period)];
  }

  lemma MatchIsSettled(text: Id -> string, looks: View, now: Store, job: Job) returns (cells: View)
    requires job.ConfirmMatch? && Settleable(Filled(looks, now, W.Keys(job)), job)
    ensures var t := TxnOf(text, job);
            Settled(cells, job) && t.body(Filled(looks, now, Footprint(t))) == Some(cells) && cells.Keys <= Footprint(t)
  {
    MatchFootprint(text, job);
    var view := Filled(looks, now, W.Keys(job));
    ConfirmsExactlyOn(view, job);
    cells := Body(job, view).value;
    assert TxnOf(text, job).body(view) == Body(job, view);
  }

  lemma StillSettleable(store: Store, cells: View, a: Job, b: Job)
    requires Rivals(a, b) && Settled(cells, a) && Settleable(store, b)
    ensures Settleable(Filled(LookedAt(store, DocumentLooks(b.d)), store + cells, W.Keys(b)), b)
  {
  }

  lemma FirstSettleable(store: Store, a: Job)
    requires a.ConfirmMatch? && Settleable(store, a)
    ensures Settleable(Filled(LookedAt(store, DocumentLooks(a.d)), store, W.Keys(a)), a)
  {
  }

  /** Two lines booked, two payments spent, one document paid off. */
  predicate SettledTwice(store: Store, a: Job, b: Job)
    requires Rivals(a, b)
  {
    && LineRow(a.l) in store && store[LineRow(a.l)] == LineCell(1)
    && LineRow(b.l) in store && store[LineRow(b.l)] == LineCell(1)
    && PaymentKey(a.p) in store && store[PaymentKey(a.p)] == FundsCell(0, a.amount)
    && PaymentKey(b.p) in store && store[PaymentKey(b.p)] == FundsCell(0, a.amount)
    && DocumentKey(a.d) in store && store[DocumentKey(a.d)] == OwedCell(0)
  }

  lemma BothSettled(store: Store, first: View, second: View, a: Job, b: Job)
    requires Rivals(a, b) && Settled(first, a) && Settled(second, b)
    ensures SettledTwice(store + first + second, a, b)
  {
  }

  lemma MatchesCommit(text: Id -> string, store: Store, a: Job, b: Job, first: View, second: View) returns (moves: Moves)
    requires Rivals(a, b) && W.Keys(a) <= store.Keys && W.Keys(b) <= store.Keys
    requires first.Keys <= W.Keys(a) && second.Keys <= W.Keys(b)
    requires var t := TxnOf(text, a); t.body(Filled(LookedAt(store, DocumentLooks(a.d)), store, Footprint(t))) == Some(first)
    requires var t := TxnOf(text, b);
             t.body(Filled(LookedAt(store, DocumentLooks(b.d)), store + first, Footprint(t))) == Some(second)
    ensures var s, t, final := TxnOf(text, a), TxnOf(text, b), From(store, moves);
            OnlyBegins(moves, s, t) && final.history == [s, t] && final.store == store + first + second
  {
    MatchFootprint(text, a);
    MatchFootprint(text, b);
    moves := LookThenCommit(store, TxnOf(text, a), TxnOf(text, b), DocumentLooks(a.d), DocumentLooks(b.d), first, second);
  }

  lemma SettleableIsThere(view: View, job: Job)
    requires job.ConfirmMatch? && Settleable(view, job)
    ensures W.Keys(job) <= view.Keys
  {
  }

  /** Both look at the document before either locks it: both commit. */
  lemma BothMatchesCommit(text: Id -> string, store: Store, a: Job, b: Job) returns (moves: Moves)
    requires Rivals(a, b) && Settleable(store, a) && Settleable(store, b)
    ensures var s, t, final := TxnOf(text, a), TxnOf(text, b), From(store, moves);
            && OnlyBegins(moves, s, t) && final.history == [s, t] && SettledTwice(final.store, a, b)
  {
    SettleableIsThere(store, a);
    SettleableIsThere(store, b);
    FirstSettleable(store, a);
    var first := MatchIsSettled(text, LookedAt(store, DocumentLooks(a.d)), store, a);
    StillSettleable(store, first, a, b);
    var second := MatchIsSettled(text, LookedAt(store, DocumentLooks(b.d)), store + first, b);
    MatchFootprint(text, a);
    MatchFootprint(text, b);
    moves := MatchesCommit(text, store, a, b, first, second);
    BothSettled(store, first, second, a, b);
  }

  lemma ConfirmedAlone(text: Id -> string, store: Store, job: Job)
    requires job.ConfirmMatch? && Execute(store, TxnOf(text, job)).Some?
    ensures var after := Execute(store, TxnOf(text, job)).value;
            && DocumentKey(job.d) in store && store[DocumentKey(job.d)] == OwedCell(job.amount) && job.amount > 0
            && DocumentKey(job.d) in after && after[DocumentKey(job.d)] == OwedCell(0)
  {
    var view := Restrict(store, W.Keys(job));
    MatchFootprint(text, job);
    ConfirmsExactlyOn(view, job);
    assert TxnOf(text, job).body(view) == Body(job, view);
  }

  /** One after the other, the second match is refused. */
  lemma SecondMatchIsRefused(text: Id -> string, store: Store, a: Job, b: Job)
    requires Rivals(a, b)
    ensures Replay(store, [TxnOf(text, a), TxnOf(text, b)]).None?
  {
    ReplayTwo(store, TxnOf(text, a), TxnOf(text, b));
    if Execute(store, TxnOf(text, a)).Some? {
      ConfirmedAlone(text, store, a);
      var after := Execute(store, TxnOf(text, a)).value;
      if Execute(after, TxnOf(text, b)).Some? { ConfirmedAlone(text, after, b); }
    }
  }

  /** What the looks must have said about the document, and what must be there now. */
  predicate MatchStands(looks: View, now: Store, job: Job)
    requires job.ConfirmMatch?
  {
    && IsPosted(looks, job.d) && job.amount > 0
    && DocumentKey(job.d) in looks && looks[DocumentKey(job.d)] == OwedCell(job.amount)
    && LineRow(job.l) in now && now[LineRow(job.l)] == LineCell(0)
    && PaymentKey(job.p) in now && now[PaymentKey(job.p)] == FundsCell(0, 0)
    && EntryRow(job.e) in now && now[EntryRow(job.e)].EntryCell? && now[EntryRow(job.e)].state == None
    && PeriodKey(job.period) in now && now[PeriodKey(job.period)].PeriodCell? && now[PeriodKey(job.period)].open
  }

  lemma MatchReads(view: View, now: Store, job: Job)
    requires job.ConfirmMatch? && W.Keys(job) <= view.Keys
    requires forall k :: k in view && Locked(k) && k !in Early(job) ==> k in now && view[k] == now[k]
    ensures Settleable(view, job) <==> MatchStands(view, now, job)
  {
    assert view[LineRow(job.l)] == now[LineRow(job.l)] && view[PaymentKey(job.p)] == now[PaymentKey(job.p)];
    assert view[EntryRow(job.e)] == now[EntryRow(job.e)] && view[PeriodKey(job.period)] == now[PeriodKey(job.period)];
  }

  /** In any state of any interleaving of all services, a match that is ready is confirmed exactly
      when its looks said the document was posted and owed the amount, whatever has happened since,
      and its line is not booked and its period open now. */
  lemma {:induction false} MatchCommitsExactlyWhen(text: Id -> string, store: Store, moves: Moves, w: nat)
    requires AllOk(store) && ServiceRun(text, store, moves) && CanCommit(From(store, moves), w)
    requires From(store, moves).workers[w].txn.job.ConfirmMatch?
    ensures var sys := From(store, moves);
            Do(sys, Commit(w)).history == sys.history + [sys.workers[w].txn]
            <==> MatchStands(sys.workers[w].view, sys.store, sys.workers[w].txn.job)
  {
    var sys := From(store, moves);
    var job, view := sys.workers[w].txn.job, sys.workers[w].view;
    ReadyReads(text, store, moves, w);
    MatchFootprint(text, job);
    ConfirmsExactlyOn(view, job);
    MatchReads(view, sys.store, job);
    assert sys.workers[w].txn.body(view) == Body(job, view);
    CommitsOrNot(sys, w);
  }

  /** The match on the tables, with the rows it will insert. */
  function MatchOf(db: Db, l: Id, d: Id, p: Id, e: Id): Job
    requires l < |db.bankLines| && J.OpenPeriod(db.periods, db.bankLines[l].date).Success?
  {
    var line := db.bankLines[l];
    ConfirmMatch(l, d, p, e, Abs(line.amount), J.OpenPeriod(db.periods, line.date).value, line.date)
  }

  lemma ConfirmableLine(db: Db, l: Id, kind: DocumentKind, d: Id)
    requires Inv(db) && B.ConfirmMatch(db, l, kind, d).Success?
    ensures l < |db.bankLines| && db.bankLines[l].match_ == Unmatched
    ensures d < |db.documents| && db.documents[d].status == DocPosted && db.documents[d].outstanding > 0
    ensures db.documents[d].outstanding == Abs(db.bankLines[l].amount)
    ensures var p := J.OpenPeriod(db.periods, db.bankLines[l].date); p.Success? && W.OpenAt(db, p.value, db.bankLines[l].date)
  {
    var p, row, pay, a, x := W.ConfirmSettles(db, l, kind, d);
  }

  lemma NewRowsAreFree(db: Db, p: Id, e: Id)
    requires Inv(db) && |db.payments| <= p && |db.entries| <= e
    ensures W.CellOf(db, PaymentKey(p)) == FundsCell(0, 0) && W.CellOf(db, EntryRow(e)) == EntryCell(None, 0)
  {
    W.ReversersFollowStatus(db.entries, db.periods, e);
  }

  lemma RowsSettle(db: Db, job: Job, keys: set<Lock>)
    requires job.ConfirmMatch? && W.Keys(job) <= keys && job.l < |db.bankLines| && db.bankLines[job.l].match_ == Unmatched
    requires job.d < |db.documents| && db.documents[job.d].status == DocPosted
    requires db.documents[job.d].outstanding == job.amount > 0
    requires W.CellOf(db, PaymentKey(job.p)) == FundsCell(0, 0) && W.CellOf(db, EntryRow(job.e)) == EntryCell(None, 0)
    requires job.period < |db.periods| && db.periods[job.period].open
    ensures Settleable(M.Cells(db, keys), job)
  {
    var cells := M.Cells(db, keys);
    assert forall k :: k in W.Keys(job) ==> k in cells && cells[k] == W.CellOf(db, k);
  }

  lemma TablesSettle(db: Db, l: Id, kind: DocumentKind, d: Id, p: Id, e: Id, keys: set<Lock>)
    requires Inv(db) && B.ConfirmMatch(db, l, kind, d).Success? && |db.payments| <= p && |db.entries| <= e
    requires l < |db.bankLines| && J.OpenPeriod(db.periods, db.bankLines[l].date).Success?
    requires W.Keys(MatchOf(db, l, d, p, e)) <= keys
    ensures Settleable(M.Cells(db, keys), MatchOf(db, l, d, p, e))
  {
    ConfirmableLine(db, l, kind, d);
    NewRowsAreFree(db, p, e);
    RowsSettle(db, MatchOf(db, l, d, p, e), keys);
  }

  /** Any two lines that can each be confirmed against one document can both be, at the same time;
      one after the other, the second is refused. */
  lemma {:induction false} TwoLinesSettleOneDocument(text: Id -> string, db: Db, l: Id, other: Id, kind: DocumentKind, d: Id)
    returns (a: Job, b: Job, moves: Moves)
    requires Inv(db) && l != other && B.ConfirmMatch(db, l, kind, d).Success? && B.ConfirmMatch(db, other, kind, d).Success?
    ensures Rivals(a, b) && a.l == l && b.l == other && a.d == d
    ensures var store := M.Cells(db, W.Keys(a) + W.Keys(b));
            var final := From(store, moves);
            && OnlyBegins(moves, TxnOf(text, a), TxnOf(text, b)) && final.history == [TxnOf(text, a), TxnOf(text, b)]
            && SettledTwice(final.store, a, b)
            && Replay(store, [TxnOf(text, a), TxnOf(text, b)]).None? && Replay(store, [TxnOf(text, b), TxnOf(text, a)]).None?
  {
    ConfirmableLine(db, l, kind, d);
    ConfirmableLine(db, other, kind, d);
    a := MatchOf(db, l, d, |db.payments|, |db.entries|);
    b := MatchOf(db, other, d, |db.payments| + 1, |db.entries| + 1);
    var keys := W.Keys(a) + W.Keys(b);
    TablesSettle(db, l, kind, d, |db.payments|, |db.entries|, keys);
    TablesSettle(db, other, kind, d, |db.payments| + 1, |db.entries| + 1, keys);
    moves := BothMatchesCommit(text, M.Cells(db, keys), a, b);
    SecondMatchIsRefused(text, M.Cells(db, keys), a, b);
    SecondMatchIsRefused(text, M.Cells(db, keys), b, a);
  }

  // --- the reversal of an entry spoiled that way ---------------------------------------------------

  function ReversalOfEntry(db: Db, e: Id, date: Date): Job
    requires J.OpenPeriod(db.periods, date).Success?
  {
    ReverseEntry(e, |db.entries|, J.OpenPeriod(db.periods, date).value, date)
  }

  /** Everything a reversal of `e` needs, whatever its lines come to. */
  predicate ReadyToReverse(store: Store, job: Job)
    requires job.ReverseEntry?
  {
    && EntryRow(job.e) in store && store[EntryRow(job.e)].EntryCell? && store[EntryRow(job.e)].state == Some(EntryPosted)
    && EntryRow(job.r) in store && store[EntryRow(job.r)].EntryCell? && store[EntryRow(job.r)].state == None
    && EntryLines(job.e) in store && store[EntryLines(job.e)].LinesCell? && EntryLines(job.r) in store
    && PeriodKey(job.period) in store && store[PeriodKey(job.period)].PeriodCell? && store[PeriodKey(job.period)].open
  }

  lemma ReversalWrites(view: View, job: Job)
    requires job.ReverseEntry? && job.e < job.r && ReadyToReverse(view, job)
    ensures Body(job, view).Some? && U.Mirrors(view, Body(job, view).value, job.e, job.r)
  {
    assert MoveEntry(view, job.e, Some(EntryPosted), EntryReversed).Some?;
    assert MovedEntry(view, job.r, None, EntryPosted, job.period, job.date).Some?;
    U.BodyMirrors(view, job);
  }

  lemma ReversalFootprintOf(text: Id -> string, job: Job)
    requires job.ReverseEntry? && job.e < job.r
    ensures var t := TxnOf(text, job); DistinctLocks(t.plan) && Footprint(t) == W.Keys(job) && Written(job) <= Footprint(t)
  {
    W.KeysAreFootprint(text, job);
  }

  lemma ReadyIsRead(now: Store, job: Job)
    requires job.ReverseEntry? && ReadyToReverse(now, job)
    ensures W.Keys(job) <= now.Keys && ReadyToReverse(Filled(map[], now, W.Keys(job)), job)
    ensures Filled(map[], now, W.Keys(job))[EntryLines(job.e)] == now[EntryLines(job.e)]
  {
  }

  /** What the reversal writes: the new row posted, with the lines of the old one. */
  lemma ReversalResult(text: Id -> string, now: Store, job: Job) returns (result: View)
    requires job.ReverseEntry? && job.e < job.r && ReadyToReverse(now, job)
    ensures var t := TxnOf(text, job);
            && DistinctLocks(t.plan) && Footprint(t) == W.Keys(job) <= now.Keys && result.Keys <= Footprint(t)
            && t.body(Filled(map[], now, Footprint(t))) == Some(result)
    ensures EntryRow(job.r) in result && result[EntryRow(job.r)].EntryCell? && result[EntryRow(job.r)].state == Some(EntryPosted)
    ensures EntryLines(job.r) in result && result[EntryLines(job.r)] == now[EntryLines(job.e)] && now[EntryLines(job.e)].LinesCell?
  {
    var t := TxnOf(text, job);
    ReversalFootprintOf(text, job);
    ReadyIsRead(now, job);
    var view := Filled(map[], now, W.Keys(job));
    ReversalWrites(view, job);
    BodyWritten(job, view);
    result := Body(job, view).value;
    assert t.body(view) == Body(job, view);
  }

  /** After any run that leaves an entry ready to be reversed, reversing it leaves a new posted entry
      with lines like its own, unbalanced ones included. */
  lemma ThenReverses(text: Id -> string, store: Store, moves: Moves, job: Job) returns (all: Moves)
    requires job.ReverseEntry? && job.e < job.r && ReadyToReverse(From(store, moves).store, job)
    ensures moves <= all && forall k :: |moves| <= k < |all| && all[k].Begin? ==> all[k].txn == TxnOf(text, job)
    ensures var before, final := From(store, moves), From(store, all);
            && final.history == before.history + [TxnOf(text, job)]
            && U.HasEntry(final.store, job.r) && final.store[EntryRow(job.r)].state == Some(EntryPosted)
            && final.store[EntryLines(job.r)] == before.store[EntryLines(job.e)]
  {
    var result := ReversalResult(text, From(store, moves).store, job);
    all := ThenRuns(store, moves, TxnOf(text, job), result);
  }

  lemma SpoiledCanBeReversed(db: Db, e: Id, date: Date, keys: set<Lock>)
    requires e < |db.entries| && J.OpenPeriod(db.periods, db.entries[e].date).Success?
    requires P.PeriodsOk(db.periods) && J.OpenPeriod(db.periods, date).Success?
    requires W.Keys(PostingOf(db, e)) <= keys && W.Keys(ReversalOfEntry(db, e, date)) <= keys
    ensures ReadyToReverse(SpoiledCells(db, e, keys), ReversalOfEntry(db, e, date))
  {
    W.OpenPeriodCovers(db, date);
    W.OpenPeriodCovers(db, db.entries[e].date);
  }

  /** And then it can be reversed: the reversing entry is posted with unbalanced lines, though nobody
      ever updated it. */
  lemma {:induction false} SpoiledIsReversed(text: Id -> string, db: Db, e: Id, date: Date) returns (all: Moves)
    requires P.PeriodsOk(db.periods) && J.PostEntry(db, e).Success? && J.OpenPeriod(db.periods, date).Success?
    ensures var post, update := TxnOf(text, PostingOf(db, e)), TxnOf(text, UpdateEntry(e, false));
            var reverse, r := TxnOf(text, ReversalOfEntry(db, e, date)), |db.entries|;
            var final := From(M.Cells(db, W.Keys(post.job) + W.Keys(reverse.job)), all);
            && (forall k :: 0 <= k < |all| && all[k].Begin? ==>
                  all[k].txn == post || all[k].txn == update || all[k].txn == reverse)
            && final.history == [post, update, reverse] && U.HasEntry(final.store, r)
            && final.store[EntryRow(r)].state == Some(EntryPosted) && final.store[EntryLines(r)] == LinesCell(false)
  {
    var reverse := ReversalOfEntry(db, e, date);
    var keys := W.Keys(PostingOf(db, e)) + W.Keys(reverse);
    var moves := PostsWhileUpdated(text, db, e, keys);
    SpoiledCanBeReversed(db, e, date, keys);
    all := ThenReverses(text, M.Cells(db, keys), moves, reverse);
    forall k | 0 <= k < |all| && all[k].Begin?
      ensures all[k].txn == TxnOf(text, PostingOf(db, e)) || all[k].txn == TxnOf(text, UpdateEntry(e, false))
              || all[k].txn == TxnOf(text, reverse)
    {
      if k < |moves| { assert all[k] == moves[k]; }
    }
  }

  // --- a document updated while it is posted --------------------------------------------------------

  lemma OldDocumentIsUpdated(text: Id -> string, looks: View, now: Store, job: Job, number: Option<nat>)
    requires job.UpdateDocument? && looks == map[DocumentRow(job.d) := DocumentCell(DocDraft, number)]
    requires DocumentLines(job.d) in now
    ensures var t := TxnOf(text, job);
            && DistinctLocks(t.plan) && Footprint(t) == {DocumentRow(job.d), DocumentLines(job.d)}
            && t.body(Filled(looks, now, Footprint(t))) == Some(map[DocumentLines(job.d) := ContentsCell(job.total, job.bookable)])
  {
    W.KeysAreFootprint(text, job);
    var view := Filled(looks, now, Footprint(TxnOf(text, job)));
    assert TxnOf(text, job).body(view) == Body(job, view);
  }

  lemma PostedThenRewritten(text: Id -> string, store: Store, post: Txn<Lock, Cell, Job>, update: Job, number: Option<nat>,
                            cells: View)
    returns (moves: Moves)
    requires DistinctLocks(post.plan) && Footprint(post) <= store.Keys && cells.Keys <= Footprint(post)
    requires post.body(Filled(map[], store, Footprint(post))) == Some(cells) && update.UpdateDocument?
    requires DocumentRow(update.d) in store && store[DocumentRow(update.d)] == DocumentCell(DocDraft, number)
    requires DocumentLines(update.d) in store
    ensures var t, final := TxnOf(text, update), From(store, moves);
            && OnlyBegins(moves, post, t) && final.history == [post, t]
            && final.store == store + cells + map[DocumentLines(update.d) := ContentsCell(update.total, update.bookable)]
  {
    var looks := [DocumentRow(update.d)];
    assert LookedAt(store, looks) == map[DocumentRow(update.d) := store[DocumentRow(update.d)]];
    assert LookedAt(store, []) == map[];
    OldDocumentIsUpdated(text, LookedAt(store, looks), store + cells, update, number);
    moves := LookThenCommit(store, post, TxnOf(text, update), [], looks, cells,
                            map[DocumentLines(update.d) := ContentsCell(update.total, update.bookable)]);
  }

  lemma PostFootprint(text: Id -> string, job: Job)
    requires job.PostInvoice? || job.PostBill?
    ensures var t := TxnOf(text, job);
            && DistinctLocks(t.plan) && Footprint(t) == W.Keys(job)
            && DocumentRow(job.d) in Footprint(t) && DocumentLines(job.d) in Footprint(t)
  {
    W.KeysAreFootprint(text, job);
  }

  lemma PostedDocument(db: Db, kind: DocumentKind, d: Id) returns (post: Job)
    requires Inv(db) && D.PostDocument(db, kind, d).Success?
    ensures (post.PostInvoice? || post.PostBill?) && post.d == d && d < |db.documents| && post.total == db.documents[d].total
    ensures W.Performs(db, D.PostDocument(db, kind, d).value, post) && db.documents[d].status == DocDraft
    ensures var after := D.PostDocument(db, kind, d).value;
            d < |after.documents| && after.documents[d].status == DocPosted && after.documents[d].outstanding == post.total
  {
    var p, row, x := W.PostIssues(db, kind, d);
    var date := db.documents[d].date;
    if kind == Invoice {
      p := W.PostInvoicePerforms(db, d);
      post := PostInvoice(d, |db.entries|, db.documents[d].total, p, date);
    } else {
      p := W.PostBillPerforms(db, d);
      post := PostBill(d, |db.entries|, db.documents[d].total, p, date);
    }
  }

  /** The document's row, balance and lines once both have committed. */
  lemma LeftRewritten(store: Store, db: Db, after: Db, d: Id, cells: View, contents: Cell)
    requires DocumentRow(d) in store && store[DocumentRow(d)] == W.CellOf(db, DocumentRow(d)) && W.Becomes(db, after, cells)
    requires DocumentKey(d) in store && store[DocumentKey(d)] == W.CellOf(db, DocumentKey(d))
    requires d < |after.documents| && after.documents[d].status == DocPosted && contents.ContentsCell?
    ensures var final := store + cells + map[DocumentLines(d) := contents];
            && N.HasDocument(final, d) && N.IssuedAt(final, d) && final[DocumentLines(d)] == contents
            && DocumentKey(d) in final && final[DocumentKey(d)] == OwedCell(after.documents[d].outstanding)
  {
    assert W.BecomesAt(db, after, cells, DocumentRow(d)) && W.BecomesAt(db, after, cells, DocumentKey(d));
  }

  lemma PostLeavesDraft(text: Id -> string, store: Store, post: Job)
    requires (post.PostInvoice? || post.PostBill?) && Execute(store, TxnOf(text, post)).Some?
    ensures var after := Execute(store, TxnOf(text, post)).value;
            && DocumentRow(post.d) in after && after[DocumentRow(post.d)].DocumentCell?
            && after[DocumentRow(post.d)].status != DocDraft
  {
    PostFootprint(text, post);
    var t := TxnOf(text, post);
    var view := Restrict(store, Footprint(t));
    assert t.body(view) == Body(post, view);
    N.BodyTurns(view, post, post.d);
  }

  lemma UpdateNeedsDraft(text: Id -> string, store: Store, update: Job)
    requires update.UpdateDocument? && DocumentRow(update.d) in store && store[DocumentRow(update.d)].DocumentCell?
    requires store[DocumentRow(update.d)].status != DocDraft
    ensures Execute(store, TxnOf(text, update)).None?
  {
    W.KeysAreFootprint(text, update);
    var t := TxnOf(text, update);
    var view := Restrict(store, Footprint(t));
    assert t.body(view) == Body(update, view);
  }

  lemma PostRefusesUpdate(text: Id -> string, store: Store, post: Job, update: Job)
    requires (post.PostInvoice? || post.PostBill?) && update.UpdateDocument? && update.d == post.d
    ensures Replay(store, [TxnOf(text, post), TxnOf(text, update)]).None?
  {
    var a, b := TxnOf(text, post), TxnOf(text, update);
    ReplayTwo(store, a, b);
    if Execute(store, a).Some? {
      PostLeavesDraft(text, store, post);
      UpdateNeedsDraft(text, Execute(store, a).value, update);
    }
  }

  /** The document is posted, owes the amount, and shows another total. */
  predicate Rewritten(store: Store, d: Id, owed: int, total: int)
  {
    && N.HasDocument(store, d) && N.IssuedAt(store, d) && store[DocumentLines(d)].total == total
    && DocumentKey(d) in store && store[DocumentKey(d)] == OwedCell(owed)
  }

  lemma RewrittenOn(text: Id -> string, db: Db, after: Db, store: Store, post: Job, update: Job, number: Option<nat>, cells: View)
    returns (moves: Moves)
    requires (post.PostInvoice? || post.PostBill?) && update.UpdateDocument? && update.d == post.d && store.Keys == W.Keys(post)
    requires store[DocumentRow(post.d)] == W.CellOf(db, DocumentRow(post.d)) == DocumentCell(DocDraft, number)
    requires store[DocumentKey(post.d)] == W.CellOf(db, DocumentKey(post.d)) && W.Becomes(db, after, cells)
    requires post.d < |after.documents| && after.documents[post.d].status == DocPosted
    requires var t := TxnOf(text, post); t.body(Filled(map[], store, Footprint(t))) == Some(cells) && cells.Keys <= Footprint(t)
    ensures var a, b, final := TxnOf(text, post), TxnOf(text, update), From(store, moves);
            && OnlyBegins(moves, a, b) && final.history == [a, b]
            && Rewritten(final.store, post.d, after.documents[post.d].outstanding, update.total)
  {
    PostFootprint(text, post);
    moves := PostedThenRewritten(text, store, TxnOf(text, post), update, number, cells);
    LeftRewritten(store, db, after, post.d, cells, ContentsCell(update.total, update.bookable));
  }

  lemma PostShows(db: Db, post: Job)
    requires (post.PostInvoice? || post.PostBill?) && post.d < |db.documents| && db.documents[post.d].status == DocDraft
    ensures var store := M.Cells(db, W.Keys(post));
            && store.Keys == W.Keys(post) && DocumentRow(post.d) in store && DocumentKey(post.d) in store
            && store[DocumentRow(post.d)] == W.CellOf(db, DocumentRow(post.d))
               == DocumentCell(DocDraft, db.documents[post.d].number)
            && store[DocumentKey(post.d)] == W.CellOf(db, DocumentKey(post.d))
  {
  }

  lemma RewrittenOnTables(text: Id -> string, db: Db, after: Db, post: Job, update: Job) returns (moves: Moves)
    requires Inv(db) && W.Performs(db, after, post) && (post.PostInvoice? || post.PostBill?)
    requires update.UpdateDocument? && update.d == post.d
    requires post.d < |db.documents| && db.documents[post.d].status == DocDraft
    requires post.d < |after.documents| && after.documents[post.d].status == DocPosted
    ensures var a, b, final := TxnOf(text, post), TxnOf(text, update), From(M.Cells(db, W.Keys(post)), moves);
            && OnlyBegins(moves, a, b) && final.history == [a, b]
            && Rewritten(final.store, post.d, after.documents[post.d].outstanding, update.total)
  {
    var cells := PerformedWrites(text, db, after, post, W.Keys(post));
    PostShows(db, post);
    moves := RewrittenOn(text, db, after, M.Cells(db, W.Keys(post)), post, update, db.documents[post.d].number, cells);
  }

  /** Any draft document that can be posted can be updated to any other lines while it is posted, both
      committing: it is posted, owes what was booked, and shows another total. After the post alone the
      update is refused. */
  lemma {:induction false} UpdatingWhilePostingMovesTotal(text: Id -> string, db: Db, kind: DocumentKind, d: Id, total: int,
                                                          bookable: bool) returns (post: Job, moves: Moves)
    requires Inv(db) && D.PostDocument(db, kind, d).Success?
    ensures (post.PostInvoice? || post.PostBill?) && post.d == d && d < |db.documents| && post.total == db.documents[d].total
    ensures var a, b := TxnOf(text, post), TxnOf(text, UpdateDocument(d, total, bookable));
            var store := M.Cells(db, W.Keys(post));
            var final := From(store, moves);
            && OnlyBegins(moves, a, b) && final.history == [a, b]
            && Rewritten(final.store, d, db.documents[d].total, total)
            && Replay(store, [a, b]).None?
  {
    post := PostedDocument(db, kind, d);
    var update := UpdateDocument(d, total, bookable);
    moves := RewrittenOnTables(text, db, D.PostDocument(db, kind, d).value, post, update);
    PostRefusesUpdate(text, M.Cells(db, W.Keys(post)), post, update);
  }

  // --- an allocation overtaken by a cancellation ---------------------------------------------------

  lemma ShownIsFilled(view: View, db: Db, job: Job, keys: set<Lock>)
    requires W.Shows(view, db, job) && W.Keys(job) <= keys
    ensures Filled(map[], M.Cells(db, keys), W.Keys(job)) == view
  {
    forall k | k in W.Keys(job) ensures k in view && view[k] == W.CellOf(db, k) { assert W.Sees(view, db, k); }
  }

  /** What a service that succeeds on the tables writes from behind its locks. */
  lemma PerformedWrites(text: Id -> string, db: Db, after: Db, job: Job, keys: set<Lock>) returns (cells: View)
    requires Inv(db) && W.Performs(db, after, job) && W.Keys(job) <= keys
    ensures var t := TxnOf(text, job);
            t.body(Filled(map[], M.Cells(db, keys), Footprint(t))) == Some(cells) && cells.Keys <= Footprint(t)
    ensures W.Becomes(db, after, cells)
  {
    var view, c :| W.Shows(view, db, job) && W.Writes(job, view, c) && W.Becomes(db, after, c);
    cells := c;
    W.KeysAreFootprint(text, job);
    ShownIsFilled(view, db, job, keys);
    M.WritesWithinKeys(view, db, job, cells);
    assert TxnOf(text, job).body(view) == Body(job, view);
  }

  lemma AllocationDecides(db: Db, p: Id, kind: DocumentKind, d: Id, amount: int)
    requires Y.AllocationsOk(db.documents, db.payments, db.allocations) && Y.CreateAllocation(db, p, kind, d, amount).Success?
    ensures amount > 0 && d < |db.documents| && db.documents[d].status == DocPosted
    ensures W.Moves(db, Y.CreateAllocation(db, p, kind, d, amount).value, p, d, amount, Allocation(p, d, amount, None))
  {
    W.FundsStayWithin(db, p);
  }

  /** What the allocation writes: the payment's balance and the document's, less the amount. */
  lemma AllocationCells(text: Id -> string, db: Db, p: Id, kind: DocumentKind, d: Id, amount: int, keys: set<Lock>)
    returns (balances: View)
    requires Y.AllocationsOk(db.documents, db.payments, db.allocations) && Y.CreateAllocation(db, p, kind, d, amount).Success?
    requires W.Keys(Allocate(p, d, amount)) <= keys
    ensures d < |db.documents| && balances.Keys == {PaymentKey(p), DocumentKey(d)}
    ensures balances[DocumentKey(d)] == OwedCell(db.documents[d].outstanding - amount)
    ensures var t := TxnOf(text, Allocate(p, d, amount));
            t.body(Filled(map[], M.Cells(db, keys), Footprint(t))) == Some(balances)
  {
    var job := Allocate(p, d, amount);
    W.KeysAreFootprint(text, job);
    AllocationDecides(db, p, kind, d, amount);
    var view := Filled(map[], M.Cells(db, keys), W.Keys(job));
    FilledSees(db, keys, map[], W.Keys(job), PaymentKey(p));
    FilledSees(db, keys, map[], W.Keys(job), DocumentKey(d));
    FilledSees(db, keys, map[], W.Keys(job), DocumentRow(d));
    W.AllocationWrites(view, db, Y.CreateAllocation(db, p, kind, d, amount).value, p, d, amount, Allocation(p, d, amount, None));
    balances := W.BalanceCells(db, p, d, amount);
    assert map[] + balances == balances;
    assert TxnOf(text, job).body(view) == Body(job, view);
  }

  lemma CancelFootprint(text: Id -> string, d: Id, e: Id, r: Id, q: Id, date: Date)
    requires e < r
    ensures var t := TxnOf(text, CancelDocument(d, e, r, q, date));
            && t.plan == [DocumentRow(d), EntryRow(e), EntryRow(r), EntryLines(e), EntryLines(r), PeriodKey(q)]
            && DistinctLocks(t.plan)
            && Footprint(t) == W.Keys(t.job)
  {
    W.KeysAreFootprint(text, CancelDocument(d, e, r, q, date));
  }

  /** The document's row and balance once both have committed. */
  lemma LeftCancelled(store: Store, db: Db, after: Db, d: Id, cells: View, balances: View)
    requires DocumentRow(d) in store && store[DocumentRow(d)] == W.CellOf(db, DocumentRow(d)) && W.Becomes(db, after, cells)
    requires d < |after.documents| && after.documents[d].status == DocCancelled
    requires DocumentRow(d) !in balances && DocumentKey(d) in balances
    ensures var final := store + cells + balances;
            && DocumentRow(d) in final && final[DocumentRow(d)].DocumentCell? && final[DocumentRow(d)].status == DocCancelled
            && DocumentKey(d) in final && final[DocumentKey(d)] == balances[DocumentKey(d)]
  {
    assert W.BecomesAt(db, after, cells, DocumentRow(d));
  }

  lemma NothingShared(text: Id -> string, allocate: Job, cancel: Job)
    requires allocate.Allocate? && cancel.CancelDocument? && cancel.e < cancel.r
    ensures var a, b := TxnOf(text, allocate), TxnOf(text, cancel);
            && DistinctLocks(a.plan) && DistinctLocks(b.plan)
            && Footprint(a) == W.Keys(allocate) && Footprint(b) == W.Keys(cancel)
            && forall r :: r in b.plan ==> r !in a.plan
  {
    CancelFootprint(text, cancel.d, cancel.e, cancel.r, cancel.period, cancel.date);
    W.KeysAreFootprint(text, allocate);
    DocumentKeyFirst(text, allocate.p, allocate.d);
    assert TxnOf(text, allocate).plan == [DocumentKey(allocate.d), PaymentKey(allocate.p)];
  }

  lemma CancelsMeanwhile(text: Id -> string, store: Store, allocate: Job, cancel: Job, balances: View, cells: View)
    returns (moves: Moves)
    requires allocate.Allocate? && cancel.CancelDocument? && cancel.e < cancel.r
    requires W.Keys(allocate) <= store.Keys && W.Keys(cancel) <= store.Keys
    requires var t := TxnOf(text, allocate); t.body(Filled(map[], store, Footprint(t))) == Some(balances)
    requires var t := TxnOf(text, cancel); t.body(Filled(map[], store, Footprint(t))) == Some(cells)
    requires balances.Keys <= W.Keys(allocate) && cells.Keys <= W.Keys(cancel)
    ensures var a, b, final := TxnOf(text, allocate), TxnOf(text, cancel), From(store, moves);
            OnlyBegins(moves, a, b) && final.history == [b, a] && final.store == store + cells + balances
  {
    NothingShared(text, allocate, cancel);
    moves := ReadThenOvertaken(store, TxnOf(text, allocate), TxnOf(text, cancel), balances, cells);
  }

  lemma OvertakenOn(text: Id -> string, db: Db, after: Db, store: Store, allocate: Job, cancel: Job, balances: View, cells: View)
    returns (moves: Moves)
    requires allocate.Allocate? && cancel.CancelDocument? && cancel.e < cancel.r && cancel.d == allocate.d
    requires W.Keys(allocate) <= store.Keys && W.Keys(cancel) <= store.Keys
    requires var t := TxnOf(text, allocate); t.body(Filled(map[], store, Footprint(t))) == Some(balances)
    requires var t := TxnOf(text, cancel); t.body(Filled(map[], store, Footprint(t))) == Some(cells)
    requires balances.Keys == {PaymentKey(allocate.p), DocumentKey(allocate.d)} && cells.Keys <= W.Keys(cancel)
    requires store[DocumentRow(cancel.d)] == W.CellOf(db, DocumentRow(cancel.d)) && W.Becomes(db, after, cells)
    requires cancel.d < |after.documents| && after.documents[cancel.d].status == DocCancelled
    ensures var a, b, final := TxnOf(text, allocate), TxnOf(text, cancel), From(store, moves);
            && OnlyBegins(moves, a, b) && final.history == [b, a]
            && DocumentRow(cancel.d) in final.store && final.store[DocumentRow(cancel.d)].DocumentCell?
            && final.store[DocumentRow(cancel.d)].status == DocCancelled
            && DocumentKey(cancel.d) in final.store && final.store[DocumentKey(cancel.d)] == balances[DocumentKey(cancel.d)]
  {
    moves := CancelsMeanwhile(text, store, allocate, cancel, balances, cells);
    LeftCancelled(store, db, after, cancel.d, cells, balances);
  }

  lemma OvertakenOnTables(text: Id -> string, db: Db, after: Db, allocate: Job, cancel: Job, balances: View)
    returns (moves: Moves)
    requires Inv(db) && W.Performs(db, after, cancel)
    requires allocate.Allocate? && cancel.CancelDocument? && cancel.e < cancel.r && cancel.d == allocate.d
    requires balances.Keys == {PaymentKey(allocate.p), DocumentKey(allocate.d)}
    requires cancel.d < |after.documents| && after.documents[cancel.d].status == DocCancelled
    requires var t := TxnOf(text, allocate);
             t.body(Filled(map[], M.Cells(db, W.Keys(allocate) + W.Keys(cancel)), Footprint(t))) == Some(balances)
    ensures var a, b := TxnOf(text, allocate), TxnOf(text, cancel);
            var final := From(M.Cells(db, W.Keys(allocate) + W.Keys(cancel)), moves);
            && OnlyBegins(moves, a, b) && final.history == [b, a]
            && DocumentRow(cancel.d) in final.store && final.store[DocumentRow(cancel.d)].DocumentCell?
            && final.store[DocumentRow(cancel.d)].status == DocCancelled
            && DocumentKey(cancel.d) in final.store && final.store[DocumentKey(cancel.d)] == balances[DocumentKey(cancel.d)]
  {
    var keys := W.Keys(allocate) + W.Keys(cancel);
    var cells := PerformedWrites(text, db, after, cancel, keys);
    W.KeysAreFootprint(text, cancel);
    moves := OvertakenOn(text, db, after, M.Cells(db, keys), allocate, cancel, balances, cells);
  }

  lemma CancelledDocument(db: Db, kind: DocumentKind, d: Id, date: Date) returns (cancel: Job)
    requires Inv(db) && D.CancelDocument(db, kind, d, date).Success?
    ensures cancel.CancelDocument? && cancel.d == d && cancel.e < cancel.r
    ensures W.Performs(db, D.CancelDocument(db, kind, d, date).value, cancel)
    ensures var after := D.CancelDocument(db, kind, d, date).value;
            d < |after.documents| && after.documents[d].status == DocCancelled
  {
    var e, q := W.CancelDocumentPerforms(db, kind, d, date);
    cancel := CancelDocument(d, e, |db.entries|, q, date);
  }

  lemma CancelledAlone(text: Id -> string, store: Store, cancel: Job)
    requires cancel.CancelDocument? && cancel.e < cancel.r && Execute(store, TxnOf(text, cancel)).Some?
    ensures var after := Execute(store, TxnOf(text, cancel)).value;
            !IsPosted(after, cancel.d) && DocumentKey(cancel.d) in after && after[DocumentKey(cancel.d)] == OwedCell(0)
  {
    var t := TxnOf(text, cancel);
    CancelFootprint(text, cancel.d, cancel.e, cancel.r, cancel.period, cancel.date);
    var view := Restrict(store, Footprint(t));
    assert t.body(view) == Body(cancel, view);
    CancelWritesBoth(view, cancel);
  }

  lemma CancelWritesBoth(view: View, cancel: Job)
    requires cancel.CancelDocument? && Body(cancel, view).Some?
    ensures var cells := Body(cancel, view).value;
            && DocumentRow(cancel.d) in cells && cells[DocumentRow(cancel.d)].DocumentCell?
            && cells[DocumentRow(cancel.d)].status == DocCancelled
            && DocumentKey(cancel.d) in cells && cells[DocumentKey(cancel.d)] == OwedCell(0)
  {
  }

  lemma AllocationNeedsPosted(text: Id -> string, store: Store, allocate: Job)
    requires allocate.Allocate? && !IsPosted(store, allocate.d)
    ensures Execute(store, TxnOf(text, allocate)).None?
  {
    var t := TxnOf(text, allocate);
    var view := Restrict(store, Footprint(t));
    assert t.body(view) == Body(allocate, view);
  }

  /** In either order: after the cancellation the allocation is refused, and a cancellation after the
      allocation leaves nothing owed. */
  lemma NeitherOrderOwes(text: Id -> string, store: Store, allocate: Job, cancel: Job)
    requires allocate.Allocate? && cancel.CancelDocument? && cancel.e < cancel.r && cancel.d == allocate.d
    ensures Replay(store, [TxnOf(text, cancel), TxnOf(text, allocate)]).None?
    ensures var last := Replay(store, [TxnOf(text, allocate), TxnOf(text, cancel)]);
            last.Some? ==> DocumentKey(cancel.d) in last.value && last.value[DocumentKey(cancel.d)] == OwedCell(0)
  {
    var a, b := TxnOf(text, allocate), TxnOf(text, cancel);
    ReplayTwo(store, a, b);
    ReplayTwo(store, b, a);
    if Execute(store, a).Some? && Execute(Execute(store, a).value, b).Some? {
      CancelledAlone(text, Execute(store, a).value, cancel);
    }
    if Execute(store, b).Some? {
      CancelledAlone(text, store, cancel);
      AllocationNeedsPosted(text, Execute(store, b).value, allocate);
    }
  }

  /** A document that can be cancelled on a date, and allocated an amount of a payment, can be both at
      the same time: it ends cancelled, and owes what it owed less the amount. One after the other,
      it ends owing nothing. */
  lemma {:induction false} AllocationOvertaken(text: Id -> string, db: Db, p: Id, kind: DocumentKind, d: Id, amount: int,
                                                date: Date)
    returns (cancel: Job, moves: Moves)
    requires Inv(db) && Y.CreateAllocation(db, p, kind, d, amount).Success? && D.CancelDocument(db, kind, d, date).Success?
    ensures cancel.CancelDocument? && cancel.d == d && d < |db.documents|
    ensures var allocate := Allocate(p, d, amount);
            var final := From(M.Cells(db, W.Keys(allocate) + W.Keys(cancel)), moves);
            && OnlyBegins(moves, TxnOf(text, allocate), TxnOf(text, cancel))
            && final.history == [TxnOf(text, cancel), TxnOf(text, allocate)]
            && DocumentRow(d) in final.store && final.store[DocumentRow(d)].DocumentCell?
            && final.store[DocumentRow(d)].status == DocCancelled
            && DocumentKey(d) in final.store && final.store[DocumentKey(d)] == OwedCell(db.documents[d].outstanding - amount)
    ensures var a, b := TxnOf(text, Allocate(p, d, amount)), TxnOf(text, cancel);
            var store := M.Cells(db, W.Keys(a.job) + W.Keys(cancel));
            && Replay(store, [b, a]).None?
            && (Replay(store, [a, b]).Some? ==>
                  DocumentKey(d) in Replay(store, [a, b]).value && Replay(store, [a, b]).value[DocumentKey(d)] == OwedCell(0))
  {
    cancel := CancelledDocument(db, kind, d, date);
    var keys := W.Keys(Allocate(p, d, amount)) + W.Keys(cancel);
    var balances := AllocationCells(text, db, p, kind, d, amount, keys);
    NeitherOrderOwes(text, M.Cells(db, keys), Allocate(p, d, amount), cancel);
    moves := OvertakenOnTables(text, db, D.CancelDocument(db, kind, d, date).value, Allocate(p, d, amount), cancel, balances);
  }

  /** What the allocation read of the document, and what must be there of the payment now. */
  predicate AllocationStands(looks: View, now: Store, job: Job)
    requires job.Allocate?
  {
    && job.amount > 0 && IsPosted(looks, job.d)
    && DocumentKey(job.d) in looks && looks[DocumentKey(job.d)].OwedCell? && job.amount <= looks[DocumentKey(job.d)].amount
    && PaymentKey(job.p) in now && now[PaymentKey(job.p)].FundsCell? && job.amount <= now[PaymentKey(job.p)].amount
  }

  lemma AllocatesExactlyOn(view: View, now: Store, job: Job)
    requires job.Allocate? && AllOk(view) && W.Keys(job) <= view.Keys
    requires forall k :: k in view && Locked(k) && k !in Early(job) ==> k in now && view[k] == now[k]
    ensures Body(job, view).Some? <==> AllocationStands(view, now, job)
  {
    assert view[PaymentKey(job.p)] == now[PaymentKey(job.p)];
    assert KindOk(PaymentKey(job.p), view[PaymentKey(job.p)]) && KindOk(DocumentKey(job.d), view[DocumentKey(job.d)]);
    assert CellOk(view[PaymentKey(job.p)]);
  }

  /** In any state of any interleaving of all services, an allocation that is ready commits exactly
      when it has read a posted document owing at least the amount, whatever has happened to that
      since, and the payment has the amount left now. */
  lemma {:induction false} AllocationCommitsExactlyWhen(text: Id -> string, store: Store, moves: Moves, w: nat)
    requires AllOk(store) && ServiceRun(text, store, moves) && CanCommit(From(store, moves), w)
    requires From(store, moves).workers[w].txn.job.Allocate?
    ensures var sys := From(store, moves);
            Do(sys, Commit(w)).history == sys.history + [sys.workers[w].txn]
            <==> AllocationStands(sys.workers[w].view, sys.store, sys.workers[w].txn.job)
  {
    var sys := From(store, moves);
    var job, view := sys.workers[w].txn.job, sys.workers[w].view;
    ReadyReads(text, store, moves, w);
    W.KeysAreFootprint(text, job);
    AllocatesExactlyOn(view, sys.store, job);
    assert sys.workers[w].txn.body(view) == Body(job, view);
    CommitsOrNot(sys, w);
  }

  // --- a confirmation overtaken by an allocation -------------------------------------------------------

  lemma StaysSettleable(store: Store, balances: View, p: Id, job: Job)
    requires job.ConfirmMatch? && Settleable(store, job) && p != job.p
    requires balances.Keys == {PaymentKey(p), DocumentKey(job.d)}
    ensures Settleable(Filled(LookedAt(store, DocumentLooks(job.d)), store + balances, W.Keys(job)), job)
  {
  }

  /** Line booked and document paid off, on top of the allocation. */
  lemma BothPaid(store: Store, balances: View, cells: View, p: Id, job: Job)
    requires job.ConfirmMatch? && Settled(cells, job) && p != job.p && balances.Keys == {PaymentKey(p), DocumentKey(job.d)}
    ensures var final := store + balances + cells;
            && LineRow(job.l) in final && final[LineRow(job.l)] == LineCell(1)
            && DocumentKey(job.d) in final && final[DocumentKey(job.d)] == OwedCell(0)
            && PaymentKey(job.p) in final && final[PaymentKey(job.p)] == FundsCell(0, job.amount)
            && PaymentKey(p) in final && final[PaymentKey(p)] == balances[PaymentKey(p)]
  {
  }

  lemma AllocateFootprint(text: Id -> string, job: Job)
    requires job.Allocate?
    ensures var t := TxnOf(text, job); DistinctLocks(t.plan) && Footprint(t) == W.Keys(job)
  {
    W.KeysAreFootprint(text, job);
    DocumentKeyFirst(text, job.p, job.d);
    assert TxnOf(text, job).plan == [DocumentKey(job.d), PaymentKey(job.p)];
  }

  /** The match, looking before the allocation and reading after it, commits. */
  lemma MatchAfterAllocation(text: Id -> string, store: Store, p: Id, job: Job, balances: View) returns (cells: View)
    requires job.ConfirmMatch? && job.p != p && Settleable(store, job)
    requires balances.Keys == {PaymentKey(p), DocumentKey(job.d)}
    ensures var t := TxnOf(text, job);
            && DistinctLocks(t.plan) && Footprint(t) <= store.Keys && (forall r :: r in DocumentLooks(job.d) ==> r in t.early)
            && t.body(Filled(LookedAt(store, DocumentLooks(job.d)), store + balances, Footprint(t))) == Some(cells)
            && cells.Keys <= Footprint(t)
    ensures Settled(cells, job)
  {
    SettleableIsThere(store, job);
    StaysSettleable(store, balances, p, job);
    cells := MatchIsSettled(text, LookedAt(store, DocumentLooks(job.d)), store + balances, job);
    MatchFootprint(text, job);
  }

  lemma AllocationThenMatch(text: Id -> string, store: Store, allocate: Job, job: Job, balances: View)
    returns (moves: Moves, cells: View)
    requires allocate.Allocate? && job.ConfirmMatch? && job.d == allocate.d && job.p != allocate.p
    requires W.Keys(allocate) <= store.Keys && Settleable(store, job)
    requires balances.Keys == {PaymentKey(allocate.p), DocumentKey(job.d)}
    requires var t := TxnOf(text, allocate); t.body(Filled(map[], store, Footprint(t))) == Some(balances)
    ensures var a, b, final := TxnOf(text, allocate), TxnOf(text, job), From(store, moves);
            OnlyBegins(moves, a, b) && final.history == [a, b] && final.store == store + balances + cells
    ensures Settled(cells, job)
  {
    cells := MatchAfterAllocation(text, store, allocate.p, job, balances);
    AllocateFootprint(text, allocate);
    assert LookedAt(store, []) == map[];
    moves := LookThenCommit(store, TxnOf(text, allocate), TxnOf(text, job), [], DocumentLooks(job.d), balances, cells);
  }

  lemma AllocatesThenConfirms(text: Id -> string, store: Store, allocate: Job, job: Job, balances: View) returns (moves: Moves)
    requires allocate.Allocate? && job.ConfirmMatch? && job.d == allocate.d && job.p != allocate.p
    requires W.Keys(allocate) <= store.Keys && Settleable(store, job)
    requires balances.Keys == {PaymentKey(allocate.p), DocumentKey(job.d)}
    requires var t := TxnOf(text, allocate); t.body(Filled(map[], store, Footprint(t))) == Some(balances)
    ensures var a, b, final := TxnOf(text, allocate), TxnOf(text, job), From(store, moves);
            && OnlyBegins(moves, a, b) && final.history == [a, b]
            && LineRow(job.l) in final.store && final.store[LineRow(job.l)] == LineCell(1)
            && DocumentKey(job.d) in final.store && final.store[DocumentKey(job.d)] == OwedCell(0)
            && PaymentKey(job.p) in final.store && final.store[PaymentKey(job.p)] == FundsCell(0, job.amount)
            && PaymentKey(allocate.p) in final.store && final.store[PaymentKey(allocate.p)] == balances[PaymentKey(allocate.p)]
  {
    var cells;
    moves, cells := AllocationThenMatch(text, store, allocate, job, balances);
    BothPaid(store, balances, cells, allocate.p, job);
  }

  lemma TwoGains(a: Txn<Lock, Cell, Job>, b: Txn<Lock, Cell, Job>, lock: Lock)
    ensures Sum([a, b], Gain(lock)) == Adds(a.job, lock) + Adds(b.job, lock)
  {
    SumOfOne(a, Gain(lock));
    SumAppend([a], b, Gain(lock));
    assert [a] + [b] == [a, b];
  }

  /** A document that can be allocated an amount of a payment, and be confirmed against a bank line, can
      be both at the same time: it owes nothing, though the two took more than it owed by the amount. */
  lemma {:induction false} ConfirmationOvertaken(text: Id -> string, db: Db, p: Id, kind: DocumentKind, d: Id, amount: int, l: Id)
    returns (match_: Job, moves: Moves)
    requires Inv(db) && Y.CreateAllocation(db, p, kind, d, amount).Success? && B.ConfirmMatch(db, l, kind, d).Success?
    ensures match_.ConfirmMatch? && match_.l == l && match_.d == d && d < |db.documents| && amount > 0
    ensures var a, b := TxnOf(text, Allocate(p, d, amount)), TxnOf(text, match_);
            var final := From(M.Cells(db, W.Keys(a.job) + W.Keys(match_)), moves);
            && OnlyBegins(moves, a, b) && final.history == [a, b]
            && DocumentKey(d) in final.store && final.store[DocumentKey(d)] == OwedCell(0)
            && Sum(final.history, Gain(DocumentKey(d))) == -(db.documents[d].outstanding + amount)
            && LineRow(l) in final.store && final.store[LineRow(l)] == LineCell(1)
  {
    ConfirmableLine(db, l, kind, d);
    AllocationDecides(db, p, kind, d, amount);
    match_ := MatchOf(db, l, d, |db.payments|, |db.entries|);
    var keys := W.Keys(Allocate(p, d, amount)) + W.Keys(match_);
    TablesSettle(db, l, kind, d, |db.payments|, |db.entries|, keys);
    var balances := AllocationCells(text, db, p, kind, d, amount, keys);
    moves := AllocatesThenConfirms(text, M.Cells(db, keys), Allocate(p, d, amount), match_, balances);
    TwoGains(TxnOf(text, Allocate(p, d, amount)), TxnOf(text, match_), DocumentKey(d));
  }
}
