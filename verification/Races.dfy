/** Interleavings that no order of the same transactions explains: where a service looks before it
    locks. Each comes with the condition under which it can happen. */
module Races {
  import opened Wrappers
  import opened Sums
  import opened Records
  import opened TwoPhase
  import opened Continuations
  import opened Traffic

  /** Only these two transactions begin. */
  ghost predicate OnlyBegins(moves: Moves, a: Txn<Lock, Cell, Job>, b: Txn<Lock, Cell, Job>)
  {
    forall k :: 0 <= k < |moves| && moves[k].Begin? ==> moves[k].txn == a || moves[k].txn == b
  }

  lemma TwoAreServices(text: Id -> string, store: Store, moves: Moves, a: Txn<Lock, Cell, Job>, b: Txn<Lock, Cell, Job>)
    requires OnlyBegins(moves, a, b) && FromService(text, store, a) && FromService(text, store, b)
    ensures ServiceRun(text, store, moves)
  {
  }

  lemma Joined(store: Store, begins: Moves, rest: Moves, a: Txn<Lock, Cell, Job>, b: Txn<Lock, Cell, Job>)
    requires OnlyBegins(begins, a, b) && NoBegin(rest)
    ensures OnlyBegins(begins + rest, a, b) && From(store, begins + rest) == Run(From(store, begins), rest)
  {
    RunConcat(Start<Lock, Cell, Job>(store), begins, rest);
    forall k | 0 <= k < |begins + rest| && (begins + rest)[k].Begin?
      ensures (begins + rest)[k].txn == a || (begins + rest)[k].txn == b
    {
      assert k < |begins|;
    }
  }

  /** Two transactions look at what they read early, then one after the other locks, reads the rest and
      commits. */
  lemma LookThenCommit(store: Store, a: Txn<Lock, Cell, Job>, b: Txn<Lock, Cell, Job>, la: seq<Lock>, lb: seq<Lock>,
                       ra: View, rb: View) returns (moves: Moves)
    requires DistinctLocks(a.plan) && DistinctLocks(b.plan) && Footprint(a) <= store.Keys && Footprint(b) <= store.Keys
    requires (forall r :: r in la ==> r in a.early) && (forall r :: r in lb ==> r in b.early)
    requires a.body(Filled(LookedAt(store, la), store, Footprint(a))) == Some(ra) && ra.Keys <= Footprint(a)
    requires b.body(Filled(LookedAt(store, lb), store + ra, Footprint(b))) == Some(rb) && rb.Keys <= Footprint(b)
    ensures OnlyBegins(moves, a, b) && From(store, moves).store == store + ra + rb && From(store, moves).history == [a, b]
  {
    var looks := TwoLook(store, a, b, la, lb);
    assert forall r :: r in la ==> r in Footprint(a);
    assert forall r :: r in lb ==> r in Footprint(b);
    var rest := BothCommit(store, a, b, LookedAt(store, la), LookedAt(store, lb), ra, rb);
    Joined(store, looks, rest, a, b);
    moves := looks + rest;
  }

  /** The first reads everything under its locks, the second runs from beginning to end, the first commits. */
  lemma ReadThenOvertaken(store: Store, a: Txn<Lock, Cell, Job>, b: Txn<Lock, Cell, Job>, ra: View, rb: View)
    returns (moves: Moves)
    requires DistinctLocks(a.plan) && DistinctLocks(b.plan) && Footprint(a) <= store.Keys && Footprint(b) <= store.Keys
    requires forall r :: r in b.plan ==> r !in a.plan
    requires a.body(Filled(map[], store, Footprint(a))) == Some(ra) && ra.Keys <= Footprint(a)
    requires b.body(Filled(map[], store, Footprint(b))) == Some(rb) && rb.Keys <= Footprint(b)
    ensures OnlyBegins(moves, a, b) && From(store, moves).store == store + rb + ra && From(store, moves).history == [b, a]
  {
    var begins := BeginTwo(store, a, b);
    var rest := Overtaken(store, a, b, ra, rb);
    Joined(store, begins, rest, a, b);
    moves := begins + rest;
  }

  /** After a run, everyone still in it gives up and one more transaction runs from beginning to end. */
  lemma ThenRuns(store: Store, moves: Moves, t: Txn<Lock, Cell, Job>, result: View) returns (all: Moves)
    requires DistinctLocks(t.plan) && Footprint(t) <= From(store, moves).store.Keys
    requires t.body(Filled(map[], From(store, moves).store, Footprint(t))) == Some(result) && result.Keys <= Footprint(t)
    ensures From(store, all).store == From(store, moves).store + result
    ensures From(store, all).history == From(store, moves).history + [t]
    ensures moves <= all && forall k :: |moves| <= k < |all| && all[k].Begin? ==> all[k].txn == t
  {
    var sys, m := From(store, moves), Begin(t);
    var begun := Do(sys, m);
    var i := |sys.workers|;
    RunOne(sys, m);
    RunConcat(Start<Lock, Cell, Job>(store), moves, [m]);
    RunKeepsTidy(store, moves + [m]);
    var more := GoesOnAlone(begun, i);
    AloneStaysTidy(begun, i);
    CommitsAs(Alone(begun, i, |begun.workers|), i, result);
    RunConcat(Start<Lock, Cell, Job>(store), moves + [m], more);
    all := moves + [m] + more;
  }

  // --- one allocation reversed twice -----------------------------------------------------

  function Reversal(text: Id -> string, i: Id, p: Id, d: Id, amount: int): Txn<Lock, Cell, Job>
  {
    TxnOf(text, ReverseAllocation(i, p, d, amount))
  }

  /** An allocation of `amount`, not reversed, of a payment of `limit` with `free` unallocated. */
  predicate LiveAllocation(store: Store, i: Id, p: Id, d: Id, amount: int, free: int, limit: int, owed: int)
  {
    && AllocationRow(i) in store && store[AllocationRow(i)] == AllocationCell(0)
    && PaymentKey(p) in store && store[PaymentKey(p)] == FundsCell(free, limit)
    && DocumentKey(d) in store && store[DocumentKey(d)] == OwedCell(owed)
    && amount > 0 && 0 <= free && free + amount <= limit && owed >= 0
  }

  lemma ReversalFootprint(text: Id -> string, i: Id, p: Id, d: Id, amount: int)
    ensures var t := Reversal(text, i, p, d, amount);
            && t.plan == [DocumentKey(d), PaymentKey(p)] && DistinctLocks(t.plan) && t.early == {AllocationRow(i)}
            && Footprint(t) == {DocumentKey(d), PaymentKey(p), AllocationRow(i)}
  {
    DocumentKeyFirst(text, p, d);
  }

  function Reversed(i: Id, p: Id, d: Id, free: int, limit: int, owed: int): View
  {
    map[AllocationRow(i) := AllocationCell(1), PaymentKey(p) := FundsCell(free, limit), DocumentKey(d) := OwedCell(owed)]
  }

  lemma ReversalBody(text: Id -> string, view: View, i: Id, p: Id, d: Id, amount: int, free: int, limit: int, owed: int)
    requires AllocationRow(i) in view && view[AllocationRow(i)] == AllocationCell(0)
    requires PaymentKey(p) in view && view[PaymentKey(p)] == FundsCell(free, limit)
    requires DocumentKey(d) in view && view[DocumentKey(d)] == OwedCell(owed)
    requires amount > 0 && 0 <= free && free + amount <= limit && owed >= 0
    ensures Reversal(text, i, p, d, amount).body(view) == Some(Reversed(i, p, d, free + amount, limit, owed + amount))
  {
    assert Reversal(text, i, p, d, amount).body(view) == Body(ReverseAllocation(i, p, d, amount), view);
    assert map[AllocationRow(i) := AllocationCell(1)]
           + (map[PaymentKey(p) := FundsCell(free + amount, limit)] + map[DocumentKey(d) := OwedCell(owed + amount)])
        == Reversed(i, p, d, free + amount, limit, owed + amount);
  }

  /** What the reversal writes when its look is old and the balances are read now. */
  lemma OldLook(text: Id -> string, seen: View, now: Store, i: Id, p: Id, d: Id, amount: int, free: int, limit: int, owed: int)
    requires seen == map[AllocationRow(i) := AllocationCell(0)]
    requires PaymentKey(p) in now && now[PaymentKey(p)] == FundsCell(free, limit)
    requires DocumentKey(d) in now && now[DocumentKey(d)] == OwedCell(owed)
    requires amount > 0 && 0 <= free && free + amount <= limit && owed >= 0
    ensures var t := Reversal(text, i, p, d, amount);
            t.body(Filled(seen, now, Footprint(t))) == Some(Reversed(i, p, d, free + amount, limit, owed + amount))
  {
    ReversalFootprint(text, i, p, d, amount);
    ReversalBody(text, Filled(seen, now, Footprint(Reversal(text, i, p, d, amount))), i, p, d, amount, free, limit, owed);
  }

  lemma OldLookAgain(text: Id -> string, seen: View, now: Store, once: View, i: Id, p: Id, d: Id, amount: int, free: int,
                     limit: int, owed: int)
    requires seen == map[AllocationRow(i) := AllocationCell(0)]
    requires once == Reversed(i, p, d, free + amount, limit, owed + amount)
    requires amount > 0 && 0 <= free && free + 2 * amount <= limit && owed >= 0
    ensures var t := Reversal(text, i, p, d, amount);
            t.body(Filled(seen, now + once, Footprint(t))) == Some(Reversed(i, p, d, free + 2 * amount, limit, owed + 2 * amount))
  {
    var f, o := free + amount, owed + amount;
    assert f + amount == free + 2 * amount && o + amount == owed + 2 * amount;
    assert PaymentKey(p) in now + once && (now + once)[PaymentKey(p)] == FundsCell(f, limit);
    assert DocumentKey(d) in now + once && (now + once)[DocumentKey(d)] == OwedCell(o);
    OldLook(text, seen, now + once, i, p, d, amount, f, limit, o);
  }

  lemma Overwritten(store: Store, first: View, second: View)
    requires first.Keys <= second.Keys
    ensures store + first + second == store + second
  {
  }

  /** Both look, then one after the other locks, reads the balances and commits. */
  lemma ReversesTwice(text: Id -> string, store: Store, i: Id, p: Id, d: Id, amount: int, free: int, limit: int, owed: int)
    returns (moves: Moves)
    requires LiveAllocation(store, i, p, d, amount, free, limit, owed) && free + 2 * amount <= limit
    ensures var t, final := Reversal(text, i, p, d, amount), From(store, moves);
            && OnlyBegins(moves, t, t) && final.history == [t, t]
            && final.store == store + Reversed(i, p, d, free + 2 * amount, limit, owed + 2 * amount)
  {
    var t, looks := Reversal(text, i, p, d, amount), [AllocationRow(i)];
    var once := Reversed(i, p, d, free + amount, limit, owed + amount);
    var twice := Reversed(i, p, d, free + 2 * amount, limit, owed + 2 * amount);
    ReversalFootprint(text, i, p, d, amount);
    assert LookedAt(store, looks) == map[AllocationRow(i) := AllocationCell(0)];
    assert once.Keys == Footprint(t) && twice.Keys == Footprint(t) && Footprint(t) <= store.Keys;
    OldLook(text, LookedAt(store, looks), store, i, p, d, amount, free, limit, owed);
    OldLookAgain(text, LookedAt(store, looks), store, once, i, p, d, amount, free, limit, owed);
    moves := LookThenCommit(store, t, t, looks, looks, once, twice);
    Overwritten(store, once, twice);
  }

  lemma {:induction false} OnlyCommits(store: Store, moves: Moves, t: Txn<Lock, Cell, Job>)
    requires OnlyBegins(moves, t, t)
    ensures forall w :: w in From(store, moves).workers ==> w.txn == t
    ensures forall h :: h in From(store, moves).history ==> h == t
  {
    if moves != [] {
      var n := |moves| - 1;
      assert OnlyBegins(moves[..n], t, t);
      OnlyCommits(store, moves[..n], t);
      OneMoreCommits(From(store, moves[..n]), moves[n], t);
    }
  }

  lemma OneMoreCommits(sys: System<Lock, Cell, Job>, m: Move<Lock, Cell, Job>, t: Txn<Lock, Cell, Job>)
    requires (forall w :: w in sys.workers ==> w.txn == t) && (forall h :: h in sys.history ==> h == t)
    requires m.Begin? ==> m.txn == t
    ensures forall w :: w in Do(sys, m).workers ==> w.txn == t
    ensures forall h :: h in Do(sys, m).history ==> h == t
  {
    var after := Do(sys, m);
    forall k | 0 <= k < |after.workers| ensures after.workers[k].txn == t {
      if k < |sys.workers| { assert sys.workers[k] in sys.workers; }
    }
  }

  lemma {:induction false} GainsAgree(history: seq<Txn<Lock, Cell, Job>>, i: Id, p: Id, d: Id, amount: int)
    requires forall h :: h in history ==> h.job == ReverseAllocation(i, p, d, amount)
    ensures Sum(history, Gain(AllocationRow(i))) == |history|
    ensures Sum(history, Gain(PaymentKey(p))) == amount * |history|
  {
    if history != [] {
      var init, last := history[..|history| - 1], history[|history| - 1];
      assert forall h :: h in init ==> h in history;
      assert last in history;
      GainsAgree(init, i, p, d, amount);
    }
  }

  /** However many reversals of one allocation run at the same time: each that commits takes its room
      in the payment. */
  lemma ReversalsFit(text: Id -> string, store: Store, moves: Moves, i: Id, p: Id, d: Id, amount: int, free: int,
                     limit: int, owed: int)
    requires AllOk(store) && LiveAllocation(store, i, p, d, amount, free, limit, owed)
    requires OnlyBegins(moves, Reversal(text, i, p, d, amount), Reversal(text, i, p, d, amount))
    ensures free + amount * |From(store, moves).history| <= limit
  {
    var t, final := Reversal(text, i, p, d, amount), From(store, moves);
    TwoAreServices(text, store, moves, t, t);
    LockedTalliesAddUp(text, store, moves, PaymentKey(p));
    AnyTrafficIsSound(text, store, moves, PaymentKey(p));
    assert CellGrows(store[PaymentKey(p)], final.store[PaymentKey(p)]) && CellOk(final.store[PaymentKey(p)]);
    OnlyCommits(store, moves, t);
    GainsAgree(final.history, i, p, d, amount);
  }

  ghost predicate CommitsTwice(text: Id -> string, store: Store, moves: Moves, i: Id, p: Id, d: Id, amount: int)
  {
    OnlyBegins(moves, Reversal(text, i, p, d, amount), Reversal(text, i, p, d, amount)) && |From(store, moves).history| >= 2
  }

  lemma TwiceNeedsRoom(text: Id -> string, store: Store, moves: Moves, i: Id, p: Id, d: Id, amount: int, free: int,
                       limit: int, owed: int)
    requires AllOk(store) && LiveAllocation(store, i, p, d, amount, free, limit, owed)
    requires CommitsTwice(text, store, moves, i, p, d, amount)
    ensures free + 2 * amount <= limit
  {
    ReversalsFit(text, store, moves, i, p, d, amount, free, limit, owed);
    MoreIsMore(amount, 2, |From(store, moves).history|);
  }

  lemma MoreIsMore(amount: int, few: nat, many: nat)
    requires few <= many && amount >= 0
    ensures amount * few <= amount * many
  {
  }

  /** Reversals of one allocation can commit twice exactly when the payment has room for the amount
      twice. */
  lemma {:induction false} TwiceExactlyWhen(text: Id -> string, store: Store, i: Id, p: Id, d: Id, amount: int, free: int,
                                            limit: int, owed: int)
    requires AllOk(store) && LiveAllocation(store, i, p, d, amount, free, limit, owed)
    ensures (exists moves :: CommitsTwice(text, store, moves, i, p, d, amount)) <==> free + 2 * amount <= limit
  {
    if free + 2 * amount <= limit {
      var moves := ReversesTwice(text, store, i, p, d, amount, free, limit, owed);
      assert CommitsTwice(text, store, moves, i, p, d, amount);
    } else if moves :| CommitsTwice(text, store, moves, i, p, d, amount) {
      TwiceNeedsRoom(text, store, moves, i, p, d, amount, free, limit, owed);
    }
  }

  /** A worker about to commit has read its whole footprint, sound values, and what it read under a lock
      that is never bypassed is what the store says now. */
  lemma ReadyReads(text: Id -> string, store: Store, moves: Moves, w: nat)
    requires AllOk(store) && ServiceRun(text, store, moves) && CanCommit(From(store, moves), w)
    ensures var sys := From(store, moves);
            var t, view := sys.workers[w].txn, sys.workers[w].view;
            && t == TxnOf(text, t.job) && AllOk(view) && view.Keys == Footprint(t)
            && forall k :: k in view && Locked(k) && k !in t.early ==> k in sys.store && view[k] == sys.store[k]
  {
    var sys := From(store, moves);
    RunKeepsTraffic(text, store, moves);
    RunKeepsTidy(store, moves);
    assert Guarded(sys, w, Locked) && WorkerOk(text, store, sys.workers[w]) && TidyWorker(sys.store, sys.workers[w]);
  }

  /** In any state of any interleaving of all services, a reversal that is ready commits exactly when
      its look said the allocation was not reversed, whatever has happened since, and the payment has
      room for the amount now. */
  lemma {:induction false} ReversalCommitsExactlyWhen(text: Id -> string, store: Store, moves: Moves, w: nat, i: Id, p: Id,
                                                      d: Id, amount: int)
    requires AllOk(store) && ServiceRun(text, store, moves) && amount > 0
    requires CanCommit(From(store, moves), w) && From(store, moves).workers[w].txn == Reversal(text, i, p, d, amount)
    ensures var sys := From(store, moves);
            && AllocationRow(i) in sys.workers[w].view && PaymentKey(p) in sys.store && sys.store[PaymentKey(p)].FundsCell?
            && (Do(sys, Commit(w)).history == sys.history + [sys.workers[w].txn]
                <==> sys.workers[w].view[AllocationRow(i)] == AllocationCell(0)
                     && sys.store[PaymentKey(p)].amount + amount <= sys.store[PaymentKey(p)].limit)
            && (Do(sys, Commit(w)).history == sys.history + [sys.workers[w].txn] || Do(sys, Commit(w)).store == sys.store)
  {
    var sys := From(store, moves);
    ReadyReads(text, store, moves, w);
    ReversalFootprint(text, i, p, d, amount);
    ReversalReads(text, sys.workers[w].view, i, p, d, amount);
    CommitsOrNot(sys, w);
  }

  lemma ReversalReads(text: Id -> string, view: View, i: Id, p: Id, d: Id, amount: int)
    requires AllOk(view) && AllocationRow(i) in view && PaymentKey(p) in view && DocumentKey(d) in view && amount > 0
    ensures view[PaymentKey(p)].FundsCell?
    ensures Reversal(text, i, p, d, amount).body(view).Some?
       <==> view[AllocationRow(i)] == AllocationCell(0) && view[PaymentKey(p)].amount + amount <= view[PaymentKey(p)].limit
  {
    assert KindOk(PaymentKey(p), view[PaymentKey(p)]) && KindOk(DocumentKey(d), view[DocumentKey(d)]);
    assert CellOk(view[PaymentKey(p)]) && CellOk(view[DocumentKey(d)]);
    assert Reversal(text, i, p, d, amount).body(view) == Body(ReverseAllocation(i, p, d, amount), view);
  }

  /** So where a second reversal commits, its look was taken before the first one committed: the two
      overlap. */
  lemma {:induction false} SecondLookedBefore(text: Id -> string, store: Store, moves: Moves, w: nat, i: Id, p: Id, d: Id,
                                              amount: int)
    returns (k: nat)
    requires AllOk(store) && ServiceRun(text, store, moves) && amount > 0
    requires CanCommit(From(store, moves), w) && From(store, moves).workers[w].txn == Reversal(text, i, p, d, amount)
    requires Do(From(store, moves), Commit(w)).history == From(store, moves).history + [Reversal(text, i, p, d, amount)]
    ensures k < |moves| && moves[k] == Read(w, AllocationRow(i))
    ensures AllocationRow(i) in From(store, moves[..k]).store
    ensures From(store, moves[..k]).store[AllocationRow(i)] == AllocationCell(0)
  {
    ReversalCommitsExactlyWhen(text, store, moves, w, i, p, d, amount);
    k := LookWasTaken(store, moves, w, AllocationRow(i));
  }

  /** Run alone, one after the other, the second reversal of an allocation is refused. */
  lemma {:induction false} SerialReversalHappensOnce(text: Id -> string, store: Store, i: Id, p: Id, d: Id, amount: int)
    requires AllocationRow(i) in store
    ensures var t := Reversal(text, i, p, d, amount); Replay(store, [t, t]).None?
  {
    var t := Reversal(text, i, p, d, amount);
    ReplayTwo(store, t, t);
    ReversalMarks(text, store, i, p, d, amount);
    if Execute(store, t).Some? { ReversalMarks(text, Execute(store, t).value, i, p, d, amount); }
  }

  lemma ReversalMarks(text: Id -> string, store: Store, i: Id, p: Id, d: Id, amount: int)
    requires AllocationRow(i) in store
    ensures var after := Execute(store, Reversal(text, i, p, d, amount));
            after.Some? ==> && store[AllocationRow(i)] == AllocationCell(0) && AllocationRow(i) in after.value
                            && after.value[AllocationRow(i)] == AllocationCell(1)
  {
    var t := Reversal(text, i, p, d, amount);
    ReversalFootprint(text, i, p, d, amount);
    var view := Restrict(store, Footprint(t));
    assert t.body(view) == Body(ReverseAllocation(i, p, d, amount), view);
    MarkedOnce(view, i, p, d, amount);
  }

  lemma MarkedOnce(view: View, i: Id, p: Id, d: Id, amount: int)
    ensures var r := GiveBack(view, i, p, d, amount);
            r.Some? ==> && AllocationRow(i) in view && view[AllocationRow(i)] == AllocationCell(0)
                        && AllocationRow(i) in r.value && r.value[AllocationRow(i)] == AllocationCell(1)
  {
  }

  lemma ReplayTwo(store: Store, a: Txn<Lock, Cell, Job>, b: Txn<Lock, Cell, Job>)
    ensures Replay(store, [a, b]) == if Execute(store, a).None? then None else Execute(Execute(store, a).value, b)
  {
    assert [a, b][..1] == [a] && [a][..0] == [];
    assert Replay(store, [a]) == Execute(store, a);
  }
}
