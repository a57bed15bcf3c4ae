/** How an interleaved run can go on: a transaction whose locks nobody else holds can take them all,
    read everything it still has to read, and be ready to commit. */
module Continuations {
  import opened Wrappers
  import opened TwoPhase

  lemma {:induction false} RunConcat<R, V, J>(sys: System<R, V, J>, moves: seq<Move<R, V, J>>, more: seq<Move<R, V, J>>)
    ensures Run(sys, moves + more) == Run(Run(sys, moves), more)
  {
    if more == [] {
      assert moves + more == moves;
    } else {
      var n := |more| - 1;
      RunConcat(sys, moves, more[..n]);
      assert (moves + more)[..|moves + more| - 1] == moves + more[..n];
    }
  }

  lemma RunLonger<R, V, J>(sys: System<R, V, J>, moves: seq<Move<R, V, J>>, more: seq<Move<R, V, J>>)
    requires more != []
    ensures Run(sys, moves + more) == Do(Run(sys, moves + more[..|more| - 1]), more[|more| - 1])
    ensures (moves + more)[..|moves + more| - 1] == moves + more[..|more| - 1]
  {
    assert (moves + more)[..|moves + more| - 1] == moves + more[..|more| - 1];
  }

  lemma RunOne<R, V, J>(sys: System<R, V, J>, m: Move<R, V, J>)
    ensures Run(sys, [m]) == Do(sys, m)
  {
    assert [m][..0] == [];
  }

  ghost predicate NoBegin<R, V, J>(moves: seq<Move<R, V, J>>)
  {
    forall k :: 0 <= k < |moves| ==> !moves[k].Begin?
  }

  /** Nobody else holds a lock this worker will ask for. */
  ghost predicate Unhindered<R(!new), V, J>(sys: System<R, V, J>, i: nat)
    requires i < |sys.workers|
  {
    forall j, r :: 0 <= j < |sys.workers| && j != i && r in sys.workers[i].txn.plan ==> !Holds(sys.workers[j], r)
  }

  /** The worker can still run to its end. */
  ghost predicate Able<R(!new), V, J>(sys: System<R, V, J>, i: nat)
  {
    && i < |sys.workers| && sys.workers[i].running && Unhindered(sys, i)
    && sys.workers[i].held <= |sys.workers[i].txn.plan| && DistinctLocks(sys.workers[i].txn.plan)
    && Footprint(sys.workers[i].txn) <= sys.store.Keys && sys.workers[i].view.Keys <= Footprint(sys.workers[i].txn)
  }

  function Filled<R, V>(view: map<R, V>, store: map<R, V>, keys: set<R>): map<R, V>
  {
    map r | r in keys && (r in view || r in store) :: if r in view then view[r] else store[r]
  }

  /** The worker with all its locks and everything read. */
  function Ready<R, V, J>(sys: System<R, V, J>, i: nat): System<R, V, J>
    requires i < |sys.workers|
  {
    var w := sys.workers[i];
    sys.(workers := sys.workers[i := w.(held := |w.txn.plan|, view := Filled(w.view, sys.store, Footprint(w.txn)))])
  }

  lemma {:induction false} AcquireAll<R(!new), V, J>(sys: System<R, V, J>, i: nat) returns (moves: seq<Move<R, V, J>>)
    requires Able(sys, i)
    ensures Run(sys, moves) == sys.(workers := sys.workers[i := sys.workers[i].(held := |sys.workers[i].txn.plan|)])
    ensures NoBegin(moves)
    decreases |sys.workers[i].txn.plan| - sys.workers[i].held
  {
    var w := sys.workers[i];
    if w.held == |w.txn.plan| {
      moves := [];
      assert sys.workers[i := w] == sys.workers;
    } else {
      var m: Move<R, V, J> := Acquire(i);
      var wanted := w.txn.plan[w.held];
      assert wanted in w.txn.plan;
      forall j | 0 <= j < |sys.workers| ensures !Holds(sys.workers[j], wanted) {
        if j == i {
          assert forall k :: 0 <= k < w.held ==> w.txn.plan[k] != w.txn.plan[w.held];
        }
      }
      var next := Do(sys, m);
      assert next.workers == sys.workers[i := w.(held := w.held + 1)];
      var rest := AcquireAll(next, i);
      moves := [m] + rest;
      RunOne(sys, m);
      RunConcat(sys, [m], rest);
      assert next.workers[i := next.workers[i].(held := |w.txn.plan|)] == sys.workers[i := w.(held := |w.txn.plan|)];
    }
  }

  lemma ReadOne<R(!new), V, J>(sys: System<R, V, J>, i: nat, r: R)
    requires Able(sys, i) && sys.workers[i].held == |sys.workers[i].txn.plan|
    requires r in Footprint(sys.workers[i].txn) && r !in sys.workers[i].view
    ensures var w := sys.workers[i];
            Do(sys, Read(i, r)) == sys.(workers := sys.workers[i := w.(view := w.view[r := sys.store[r]])])
    ensures Able(Do(sys, Read(i, r)), i)
  {
    var w := sys.workers[i];
    assert w.txn.plan[..w.held] == w.txn.plan;
    var next := Do(sys, Read(i, r));
    assert next.workers == sys.workers[i := w.(view := w.view[r := sys.store[r]])];
    SameHolders(sys, next, i);
  }

  lemma NothingLeft<R, V, J>(sys: System<R, V, J>, i: nat)
    requires i < |sys.workers| && sys.workers[i].held == |sys.workers[i].txn.plan|
    requires sys.workers[i].view.Keys == Footprint(sys.workers[i].txn)
    ensures Ready(sys, i) == sys
  {
    var w := sys.workers[i];
    assert Filled(w.view, sys.store, Footprint(w.txn)) == w.view;
    assert sys.workers[i := w] == sys.workers;
  }

  /** Reading one of the missing values brings the worker no nearer and no further from being ready. */
  lemma ReadyAlready<R, V, J>(sys: System<R, V, J>, next: System<R, V, J>, i: nat, r: R)
    requires i < |sys.workers| && r in Footprint(sys.workers[i].txn) && r !in sys.workers[i].view && r in sys.store
    requires var w := sys.workers[i]; next == sys.(workers := sys.workers[i := w.(view := w.view[r := sys.store[r]])])
    ensures Ready(next, i) == Ready(sys, i)
  {
    var w, w' := sys.workers[i], next.workers[i];
    assert Filled(w'.view, sys.store, Footprint(w.txn)) == Filled(w.view, sys.store, Footprint(w.txn));
    assert Ready(next, i).workers == Ready(sys, i).workers;
  }

  lemma ReadOneMore<R(!new), V, J>(sys: System<R, V, J>, i: nat, r: R)
    requires Able(sys, i) && sys.workers[i].held == |sys.workers[i].txn.plan|
    requires r in Footprint(sys.workers[i].txn) && r !in sys.workers[i].view
    ensures var next := Do(sys, Read(i, r));
            && Able(next, i) && next.workers[i].held == |next.workers[i].txn.plan| && next.workers[i].txn == sys.workers[i].txn
            && Ready(next, i) == Ready(sys, i)
            && |Footprint(next.workers[i].txn) - next.workers[i].view.Keys|
               < |Footprint(sys.workers[i].txn) - sys.workers[i].view.Keys|
  {
    var keys, seen := Footprint(sys.workers[i].txn), sys.workers[i].view.Keys;
    ReadOne(sys, i, r);
    ReadyAlready(sys, Do(sys, Read(i, r)), i, r);
    assert Do(sys, Read(i, r)).workers[i].view.Keys == seen + {r};
    assert keys - (seen + {r}) == keys - seen - {r};
  }

  lemma {:induction false} ReadAll<R(!new), V, J>(sys: System<R, V, J>, i: nat) returns (moves: seq<Move<R, V, J>>)
    requires Able(sys, i) && sys.workers[i].held == |sys.workers[i].txn.plan|
    ensures Run(sys, moves) == Ready(sys, i)
    ensures NoBegin(moves)
    decreases |Footprint(sys.workers[i].txn) - sys.workers[i].view.Keys|
  {
    var keys, seen := Footprint(sys.workers[i].txn), sys.workers[i].view.Keys;
    if keys <= seen {
      moves := [];
      NothingLeft(sys, i);
    } else {
      var r :| r in keys && r !in seen;
      var m: Move<R, V, J> := Read(i, r);
      var next := Do(sys, m);
      ReadOneMore(sys, i, r);
      var rest := ReadAll(next, i);
      moves := [m] + rest;
      RunOne(sys, m);
      RunConcat(sys, [m], rest);
    }
  }

  lemma SameHolders<R(!new), V, J>(sys: System<R, V, J>, next: System<R, V, J>, i: nat)
    requires Able(sys, i) && |next.workers| == |sys.workers| && next.workers[i].txn == sys.workers[i].txn
    requires forall j :: 0 <= j < |sys.workers| && j != i ==> next.workers[j] == sys.workers[j]
    ensures Unhindered(next, i)
  {
  }

  /** ... and then it can commit. */
  lemma Complete<R(!new), V, J>(sys: System<R, V, J>, i: nat) returns (moves: seq<Move<R, V, J>>)
    requires Able(sys, i)
    ensures Run(sys, moves) == Do(Ready(sys, i), Commit(i))
    ensures CanCommit(Ready(sys, i), i) && NoBegin(moves)
  {
    var locks := AcquireAll(sys, i);
    var held := Run(sys, locks);
    SameHolders(sys, held, i);
    var looks := ReadAll(held, i);
    RunConcat(sys, locks, looks);
    assert Ready(held, i).workers == Ready(sys, i).workers;
    var m: Move<R, V, J> := Commit(i);
    RunOne(Ready(sys, i), m);
    RunConcat(sys, locks + looks, [m]);
    moves := locks + looks + [m];
  }

  // --- everybody else gives up -------------------------------------------------------------------

  /** All workers before `n`, other than `i`, aborted. */
  function Alone<R, V, J>(sys: System<R, V, J>, i: nat, n: nat): System<R, V, J>
    requires n <= |sys.workers|
  {
    sys.(workers := seq(|sys.workers|, j requires 0 <= j < |sys.workers| =>
                          if j < n && j != i then sys.workers[j].(running := false) else sys.workers[j]))
  }

  lemma {:induction false} AbortOthers<R, V, J>(sys: System<R, V, J>, i: nat, n: nat) returns (moves: seq<Move<R, V, J>>)
    requires n <= |sys.workers|
    ensures Run(sys, moves) == Alone(sys, i, n)
    ensures NoBegin(moves)
  {
    if n == 0 {
      moves := [];
      assert Alone(sys, i, 0).workers == sys.workers;
    } else {
      var first := AbortOthers(sys, i, n - 1);
      if n - 1 == i {
        moves := first;
        assert Alone(sys, i, n).workers == Alone(sys, i, n - 1).workers;
      } else {
        var m: Move<R, V, J> := Abort(n - 1);
        RunOne(Alone(sys, i, n - 1), m);
        RunConcat(sys, first, [m]);
        moves := first + [m];
        assert Do(Alone(sys, i, n - 1), m).workers == Alone(sys, i, n).workers;
      }
    }
  }

  // --- what every state of a run satisfies --------------------------------------------------------

  predicate TidyWorker<R(==), V, J>(store: map<R, V>, w: Worker<R, V, J>)
  {
    && w.held <= |w.txn.plan| && DistinctLocks(w.txn.plan)
    && Footprint(w.txn) <= store.Keys && w.view.Keys <= Footprint(w.txn)
  }

  /** Every worker reads and locks only what its transaction is about. */
  ghost predicate Tidy<R, V, J>(sys: System<R, V, J>)
  {
    forall i :: 0 <= i < |sys.workers| ==> TidyWorker(sys.store, sys.workers[i])
  }

  lemma DoKeepsTidy<R, V, J>(sys: System<R, V, J>, m: Move<R, V, J>)
    requires Tidy(sys)
    ensures Tidy(Do(sys, m)) && Do(sys, m).store.Keys == sys.store.Keys
  {
    var after := Do(sys, m);
    forall i | 0 <= i < |after.workers| ensures TidyWorker(after.store, after.workers[i]) {
      if i < |sys.workers| {
        assert TidyWorker(sys.store, sys.workers[i]);
        if m.Read? && m.i == i && CanRead(sys, i, m.r) {
          assert m.r in Footprint(sys.workers[i].txn);
        }
      }
    }
  }

  lemma {:induction false} RunKeepsTidy<R, V, J>(store: map<R, V>, moves: seq<Move<R, V, J>>)
    ensures Tidy(Run(Start<R, V, J>(store), moves))
  {
    if moves != [] {
      RunKeepsTidy(store, moves[..|moves| - 1]);
      DoKeepsTidy(Run(Start<R, V, J>(store), moves[..|moves| - 1]), moves[|moves| - 1]);
    }
  }

  lemma AloneStaysTidy<R, V, J>(sys: System<R, V, J>, i: nat)
    requires Tidy(sys)
    ensures Tidy(Alone(sys, i, |sys.workers|))
  {
    var alone := Alone(sys, i, |sys.workers|);
    forall j | 0 <= j < |alone.workers| ensures TidyWorker(alone.store, alone.workers[j]) {
      assert TidyWorker(sys.store, sys.workers[j]);
    }
  }

  /** A running worker can go on to its end, whatever it waits for, if everyone else gives up. */
  lemma GoesOnAlone<R(!new), V, J>(sys: System<R, V, J>, i: nat) returns (more: seq<Move<R, V, J>>)
    requires i < |sys.workers| && Tidy(sys) && sys.workers[i].running
    ensures NoBegin(more) && Run(sys, more) == Do(Ready(Alone(sys, i, |sys.workers|), i), Commit(i))
    ensures CanCommit(Ready(Alone(sys, i, |sys.workers|), i), i)
  {
    var alone := Alone(sys, i, |sys.workers|);
    AloneStaysTidy(sys, i);
    var quit := AbortOthers(sys, i, |sys.workers|);
    assert TidyWorker(alone.store, alone.workers[i]);
    var rest := Complete(alone, i);
    RunConcat(sys, quit, rest);
    more := quit + rest;
  }

  // --- two transactions that look before they lock ------------------------------------------------

  function LookedAt<R, V>(store: map<R, V>, rs: seq<R>): map<R, V> { map r | r in rs && r in store :: store[r] }

  /** Two transactions have begun, and looked at what they read early; neither holds a lock. */
  function Two<R, V, J>(store: map<R, V>, a: Txn<R, V, J>, b: Txn<R, V, J>, va: map<R, V>, vb: map<R, V>): System<R, V, J>
  {
    System(store, [Worker(a, 0, va, true), Worker(b, 0, vb, true)], [])
  }

  /** The worker has looked at these values, and read nothing else. */
  function Looked<R, V, J>(sys: System<R, V, J>, i: nat, rs: seq<R>): System<R, V, J>
    requires i < |sys.workers|
  {
    sys.(workers := sys.workers[i := sys.workers[i].(view := LookedAt(sys.store, rs))])
  }

  lemma LookOnce<R, V, J>(sys: System<R, V, J>, i: nat, rs: seq<R>, r: R)
    requires i < |sys.workers| && sys.workers[i].running && r in sys.workers[i].txn.early && r in sys.store && r !in rs
    ensures Do(Looked(sys, i, rs), Read(i, r)) == Looked(sys, i, rs + [r])
  {
    var w, before := sys.workers[i], Looked(sys, i, rs);
    assert LookedAt(sys.store, rs + [r]) == LookedAt(sys.store, rs)[r := sys.store[r]];
    assert Do(before, Read(i, r)).workers == Looked(sys, i, rs + [r]).workers;
  }

  lemma {:induction false} LookAll<R, V, J>(sys: System<R, V, J>, i: nat, rs: seq<R>) returns (moves: seq<Move<R, V, J>>)
    requires i < |sys.workers| && sys.workers[i].running && sys.workers[i].view == map[]
    requires forall r :: r in rs ==> r in sys.store && r in sys.workers[i].txn.early
    ensures Run(sys, moves) == Looked(sys, i, rs)
    ensures NoBegin(moves)
  {
    if rs == [] {
      moves := [];
      assert LookedAt(sys.store, rs) == map[];
      assert Looked(sys, i, rs).workers == sys.workers;
    } else {
      var init, r := rs[..|rs| - 1], rs[|rs| - 1];
      assert forall x :: x in init ==> x in rs;
      assert rs == init + [r];
      moves := LookAll(sys, i, init);
      if r in init {
        assert LookedAt(sys.store, rs) == LookedAt(sys.store, init);
      } else {
        var m: Move<R, V, J> := Read(i, r);
        LookOnce(sys, i, init, r);
        RunOne(Looked(sys, i, init), m);
        RunConcat(sys, moves, [m]);
        moves := moves + [m];
      }
    }
  }

  lemma BeginTwo<R, V, J>(store: map<R, V>, a: Txn<R, V, J>, b: Txn<R, V, J>) returns (moves: seq<Move<R, V, J>>)
    requires DistinctLocks(a.plan) && DistinctLocks(b.plan) && Footprint(a) <= store.Keys && Footprint(b) <= store.Keys
    ensures Run(Start<R, V, J>(store), moves) == Two(store, a, b, map[], map[])
    ensures forall k :: 0 <= k < |moves| && moves[k].Begin? ==> moves[k].txn == a || moves[k].txn == b
  {
    var m: Move<R, V, J>, n: Move<R, V, J> := Begin(a), Begin(b);
    RunOne(Start<R, V, J>(store), m);
    RunOne(Do(Start<R, V, J>(store), m), n);
    RunConcat(Start<R, V, J>(store), [m], [n]);
    moves := [m] + [n];
  }

  lemma TwoLook<R, V, J>(store: map<R, V>, a: Txn<R, V, J>, b: Txn<R, V, J>, ra: seq<R>, rb: seq<R>)
    returns (moves: seq<Move<R, V, J>>)
    requires DistinctLocks(a.plan) && DistinctLocks(b.plan) && Footprint(a) <= store.Keys && Footprint(b) <= store.Keys
    requires (forall r :: r in ra ==> r in a.early) && (forall r :: r in rb ==> r in b.early)
    ensures Run(Start<R, V, J>(store), moves) == Two(store, a, b, LookedAt(store, ra), LookedAt(store, rb))
    ensures forall k :: 0 <= k < |moves| && moves[k].Begin? ==> moves[k].txn == a || moves[k].txn == b
  {
    assert forall r :: r in ra ==> r in Footprint(a);
    assert forall r :: r in rb ==> r in Footprint(b);
    var begins := BeginTwo(store, a, b);
    var sys := Two(store, a, b, map[], map[]);
    var one := LookAll(sys, 0, ra);
    var mid := Looked(sys, 0, ra);
    var two := LookAll(mid, 1, rb);
    assert Looked(mid, 1, rb) == Two(store, a, b, LookedAt(store, ra), LookedAt(store, rb));
    RunConcat(Start<R, V, J>(store), begins, one);
    RunConcat(Start<R, V, J>(store), begins + one, two);
    moves := begins + one + two;
    forall k | 0 <= k < |moves| && moves[k].Begin? ensures moves[k].txn == a || moves[k].txn == b {
      assert k < |begins|;
    }
  }

  /** What a worker that is able to writes when it commits. */
  lemma CommitsAs<R(!new), V, J>(sys: System<R, V, J>, i: nat, result: map<R, V>)
    requires Able(sys, i)
    requires var w := sys.workers[i];
             && w.txn.body(Filled(w.view, sys.store, Footprint(w.txn))) == Some(result)
             && result.Keys <= Footprint(w.txn)
    ensures var w, after := sys.workers[i], Do(Ready(sys, i), Commit(i));
            && after.store == sys.store + result && after.history == sys.history + [w.txn]
            && after.workers == sys.workers[i := Worker(w.txn, |w.txn.plan|, Filled(w.view, sys.store, Footprint(w.txn)), false)]
  {
    var w := sys.workers[i];
    assert Filled(w.view, sys.store, Footprint(w.txn)).Keys == Footprint(w.txn);
    assert (map r | r in result && r in Footprint(w.txn) :: result[r]) == result;
  }

  /** One after the other, each on what it looked at early and what it reads now, both commit. */
  lemma BothCommit<R(!new), V, J>(store: map<R, V>, a: Txn<R, V, J>, b: Txn<R, V, J>, va: map<R, V>, vb: map<R, V>,
                                  ra: map<R, V>, rb: map<R, V>) returns (moves: seq<Move<R, V, J>>)
    requires DistinctLocks(a.plan) && DistinctLocks(b.plan) && Footprint(a) <= store.Keys && Footprint(b) <= store.Keys
    requires va.Keys <= Footprint(a) && vb.Keys <= Footprint(b)
    requires a.body(Filled(va, store, Footprint(a))) == Some(ra) && ra.Keys <= Footprint(a)
    requires b.body(Filled(vb, store + ra, Footprint(b))) == Some(rb) && rb.Keys <= Footprint(b)
    ensures NoBegin(moves)
    ensures var final := Run(Two(store, a, b, va, vb), moves);
            final.store == store + ra + rb && final.history == [a, b]
  {
    var sys := Two(store, a, b, va, vb);
    var one := Complete(sys, 0);
    CommitsAs(sys, 0, ra);
    var mid := Do(Ready(sys, 0), Commit(0));
    var two := Complete(mid, 1);
    CommitsAs(mid, 1, rb);
    RunConcat(sys, one, two);
    moves := one + two;
  }

  /** The first reads everything under its locks, the second runs to its end, the first commits. */
  lemma Overtaken<R(!new), V, J>(store: map<R, V>, a: Txn<R, V, J>, b: Txn<R, V, J>, ra: map<R, V>, rb: map<R, V>)
    returns (moves: seq<Move<R, V, J>>)
    requires DistinctLocks(a.plan) && DistinctLocks(b.plan) && Footprint(a) <= store.Keys && Footprint(b) <= store.Keys
    requires forall r :: r in b.plan ==> r !in a.plan
    requires a.body(Filled(map[], store, Footprint(a))) == Some(ra) && ra.Keys <= Footprint(a)
    requires b.body(Filled(map[], store, Footprint(b))) == Some(rb) && rb.Keys <= Footprint(b)
    ensures NoBegin(moves)
    ensures var final := Run(Two(store, a, b, map[], map[]), moves);
            final.store == store + rb + ra && final.history == [b, a]
  {
    var sys := Two(store, a, b, map[], map[]);
    var locks := AcquireAll(sys, 0);
    var held := Run(sys, locks);
    var looks := ReadAll(held, 0);
    RunConcat(sys, locks, looks);
    var ready := Ready(held, 0);
    var other := Complete(ready, 1);
    CommitsAs(ready, 1, rb);
    RunConcat(sys, locks + looks, other);
    var last := Do(Ready(ready, 1), Commit(1));
    var m: Move<R, V, J> := Commit(0);
    LateCommit(last, 0, ra);
    RunOne(last, m);
    RunConcat(sys, locks + looks + other, [m]);
    moves := locks + looks + other + [m];
  }

  lemma LateCommit<R, V, J>(sys: System<R, V, J>, i: nat, result: map<R, V>)
    requires CanCommit(sys, i) && sys.workers[i].txn.body(sys.workers[i].view) == Some(result)
    requires result.Keys <= Footprint(sys.workers[i].txn)
    ensures Do(sys, Commit(i)).store == sys.store + result
    ensures Do(sys, Commit(i)).history == sys.history + [sys.workers[i].txn]
  {
    assert (map r | r in result && r in Footprint(sys.workers[i].txn) :: result[r]) == result;
  }

  /** A commit goes into the history, or changes nothing that is stored. */
  lemma CommitsOrNot<R, V, J>(sys: System<R, V, J>, i: nat)
    requires CanCommit(sys, i)
    ensures var w, after := sys.workers[i], Do(sys, Commit(i));
            && (after.history == sys.history + [w.txn] <==> w.txn.body(w.view).Some?)
            && (after.history == sys.history + [w.txn] || (after.history == sys.history && after.store == sys.store))
  {
    assert |sys.history + [sys.workers[i].txn]| != |sys.history|;
  }

  // --- where a look comes from ---------------------------------------------------------------------

  /** A value in a worker's view is what the store said at some move of the run that read it. */
  lemma {:induction false} LookWasTaken<R, V, J>(store: map<R, V>, moves: seq<Move<R, V, J>>, i: nat, r: R) returns (k: nat)
    requires var sys := Run(Start<R, V, J>(store), moves); i < |sys.workers| && r in sys.workers[i].view
    ensures k < |moves| && moves[k] == Read(i, r)
    ensures var then_ := Run(Start<R, V, J>(store), moves[..k]);
            r in then_.store && then_.store[r] == Run(Start<R, V, J>(store), moves).workers[i].view[r]
  {
    var n := |moves| - 1;
    var before := Run(Start<R, V, J>(store), moves[..n]);
    if i < |before.workers| && r in before.workers[i].view {
      k := LookWasTaken(store, moves[..n], i, r);
      assert moves[..n][..k] == moves[..k];
    } else {
      k := n;
    }
  }
}
