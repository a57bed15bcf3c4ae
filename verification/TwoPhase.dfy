/** Interleaved transactions that take exclusive locks one by one and hold them to the end, as the
    advisory and row locks of the database do. A lock and the value it guards share one name.

    The first read of a value sticks for the rest of the transaction (a session returns the row it
    already loaded). Values named in `early` are read, and may be written, without their lock. */
module TwoPhase {
  import opened Wrappers

  datatype Txn<!R(==), !V, !J> = Txn(job: J, plan: seq<R>, early: set<R>, body: map<R, V> -> Option<map<R, V>>)

  /** `held` counts the locks of the plan taken so far, in order. */
  datatype Worker<!R(==), !V, !J> = Worker(txn: Txn<R, V, J>, held: nat, view: map<R, V>, running: bool)

  datatype System<!R(==), !V, !J> = System(store: map<R, V>, workers: seq<Worker<R, V, J>>, history: seq<Txn<R, V, J>>)

  datatype Move<!R(==), !V, !J> = Begin(txn: Txn<R, V, J>) | Acquire(i: nat) | Read(i: nat, r: R) | Commit(i: nat) | Abort(i: nat)

  function Footprint<R, V, J>(t: Txn<R, V, J>): set<R>
  {
    (set r | r in t.plan) + t.early
  }

  predicate DistinctLocks<R(==)>(plan: seq<R>)
  {
    forall i, j :: 0 <= i < j < |plan| ==> plan[i] != plan[j]
  }

  predicate Holds<R(==), V, J>(w: Worker<R, V, J>, r: R)
  {
    w.running && w.held <= |w.txn.plan| && r in w.txn.plan[..w.held]
  }

  predicate Free<R(==), V, J>(sys: System<R, V, J>, r: R)
  {
    forall i :: 0 <= i < |sys.workers| ==> !Holds(sys.workers[i], r)
  }

  predicate CanAcquire<R(==), V, J>(sys: System<R, V, J>, i: nat)
  {
    && i < |sys.workers| && sys.workers[i].running
    && sys.workers[i].held < |sys.workers[i].txn.plan|
    && Free(sys, sys.workers[i].txn.plan[sys.workers[i].held])
  }

  predicate CanRead<R(==), V, J>(sys: System<R, V, J>, i: nat, r: R)
  {
    && i < |sys.workers| && sys.workers[i].running && r in sys.store && r !in sys.workers[i].view
    && (Holds(sys.workers[i], r) || r in sys.workers[i].txn.early)
  }

  predicate CanCommit<R(==), V, J>(sys: System<R, V, J>, i: nat)
  {
    && i < |sys.workers| && sys.workers[i].running
    && sys.workers[i].held == |sys.workers[i].txn.plan|
    && sys.workers[i].view.Keys == Footprint(sys.workers[i].txn)
  }

  /** What a transaction makes of a store, given the values it has read; None if it raises. */
  function Write<R, V, J>(store: map<R, V>, t: Txn<R, V, J>, view: map<R, V>): Option<map<R, V>>
  {
    var result := t.body(view);
    if result.None? then None
    else Some(store + (map r | r in result.value && r in Footprint(t) :: result.value[r]))
  }

  /** A move that is not possible changes nothing. */
  function Do<R, V, J>(sys: System<R, V, J>, m: Move<R, V, J>): System<R, V, J>
  {
    match m
    case Begin(txn) =>
      if DistinctLocks(txn.plan) && Footprint(txn) <= sys.store.Keys
      then sys.(workers := sys.workers + [Worker(txn, 0, map[], true)]) else sys
    case Acquire(i) =>
      if CanAcquire(sys, i) then sys.(workers := sys.workers[i := sys.workers[i].(held := sys.workers[i].held + 1)])
      else sys
    case Read(i, r) =>
      if CanRead(sys, i, r) then
        sys.(workers := sys.workers[i := sys.workers[i].(view := sys.workers[i].view[r := sys.store[r]])])
      else sys
    case Commit(i) =>
      if CanCommit(sys, i) then
        var w := sys.workers[i];
        var written := Write(sys.store, w.txn, w.view);
        var ended := sys.workers[i := w.(running := false)];
        if written.None? then sys.(workers := ended)
        else System(written.value, ended, sys.history + [w.txn])
      else sys
    case Abort(i) =>
      if i < |sys.workers| then sys.(workers := sys.workers[i := sys.workers[i].(running := false)]) else sys
  }

  function Run<R, V, J>(sys: System<R, V, J>, moves: seq<Move<R, V, J>>): System<R, V, J>
  {
    if moves == [] then sys else Do(Run(sys, moves[..|moves| - 1]), moves[|moves| - 1])
  }

  function Start<R, V, J>(store: map<R, V>): System<R, V, J> { System(store, [], []) }

  // --- serial execution --------------------------------------------------------------

  function Restrict<R, V>(store: map<R, V>, keys: set<R>): map<R, V>
  {
    map r | r in keys && r in store :: store[r]
  }

  /** The transaction run alone. */
  function Execute<R, V, J>(store: map<R, V>, t: Txn<R, V, J>): Option<map<R, V>>
  {
    Write(store, t, Restrict(store, Footprint(t)))
  }

  /** The transactions run alone, one after the other; None if one of them raises. */
  function Replay<R, V, J>(store: map<R, V>, history: seq<Txn<R, V, J>>): Option<map<R, V>>
  {
    if history == [] then Some(store)
    else
      var before := Replay(store, history[..|history| - 1]);
      if before.None? then None else Execute(before.value, history[|history| - 1])
  }

  lemma ExecuteWrites<R, V, J>(store: map<R, V>, t: Txn<R, V, J>, result: map<R, V>)
    requires t.body(Restrict(store, Footprint(t))) == Some(result) && result.Keys <= Footprint(t)
    ensures Execute(store, t) == Some(store + result)
  {
    assert (map r | r in result && r in Footprint(t) :: result[r]) == result;
  }

  // --- serializability -------------------------------------------------------------------

  /** What the worker read is what the store still says. */
  predicate Fresh<R, V(==), J>(sys: System<R, V, J>, i: nat)
    requires i < |sys.workers|
  {
    forall r :: r in sys.workers[i].view ==> r in sys.store && sys.workers[i].view[r] == sys.store[r]
  }

  ghost predicate Sound<R, V, J>(store: map<R, V>, sys: System<R, V, J>)
  {
    && sys.store.Keys == store.Keys
    && Replay(store, sys.history) == Some(sys.store)
    && (forall i :: 0 <= i < |sys.workers| ==>
          && sys.workers[i].held <= |sys.workers[i].txn.plan|
          && DistinctLocks(sys.workers[i].txn.plan)
          && Footprint(sys.workers[i].txn) <= store.Keys)
  }

  /** No lock has two holders. */
  ghost predicate Exclusive<R(!new), V, J>(sys: System<R, V, J>)
  {
    forall i, j, r :: 0 <= i < |sys.workers| && 0 <= j < |sys.workers| ==>
      Holds(sys.workers[i], r) && Holds(sys.workers[j], r) ==> i == j
  }

  lemma DoKeepsExclusive<R(!new), V, J>(sys: System<R, V, J>, m: Move<R, V, J>)
    requires Exclusive(sys)
    ensures Exclusive(Do(sys, m))
  {
    var after := Do(sys, m);
    if m.Acquire? && CanAcquire(sys, m.i) {
      var w := sys.workers[m.i];
      assert w.txn.plan[..w.held + 1] == w.txn.plan[..w.held] + [w.txn.plan[w.held]];
      forall i, j, r | 0 <= i < |after.workers| && 0 <= j < |after.workers|
        && Holds(after.workers[i], r) && Holds(after.workers[j], r)
        ensures i == j
      {
        assert i == m.i || Holds(sys.workers[i], r);
        assert j == m.i || Holds(sys.workers[j], r);
      }
    } else {
      forall i, j, r | 0 <= i < |after.workers| && 0 <= j < |after.workers|
        && Holds(after.workers[i], r) && Holds(after.workers[j], r)
        ensures i == j
      {
        assert i < |sys.workers| && Holds(sys.workers[i], r);
        assert j < |sys.workers| && Holds(sys.workers[j], r);
      }
    }
  }

  lemma FreshCommitIsSerial<R, V, J>(sys: System<R, V, J>, i: nat)
    requires CanCommit(sys, i) && Fresh(sys, i)
    ensures Write(sys.store, sys.workers[i].txn, sys.workers[i].view) == Execute(sys.store, sys.workers[i].txn)
  {
    assert sys.workers[i].view == Restrict(sys.store, Footprint(sys.workers[i].txn));
  }

  lemma DoKeepsSound<R, V, J>(store: map<R, V>, sys: System<R, V, J>, m: Move<R, V, J>)
    requires Sound(store, sys)
    requires m.Commit? && CanCommit(sys, m.i) ==> Fresh(sys, m.i)
    ensures Sound(store, Do(sys, m))
  {
    if m.Commit? && CanCommit(sys, m.i) {
      FreshCommitIsSerial(sys, m.i);
      var after := Do(sys, m);
      if |after.history| > |sys.history| {
        assert after.history[..|after.history| - 1] == sys.history;
      }
    }
  }

  /** Every commit of the run happens on values that are still current. */
  ghost predicate CommitsFresh<R, V, J>(sys: System<R, V, J>, moves: seq<Move<R, V, J>>)
  {
    forall k :: 0 <= k < |moves| && moves[k].Commit? ==>
      var before := Run(sys, moves[..k]);
      CanCommit(before, moves[k].i) ==> Fresh(before, moves[k].i)
  }

  lemma FreshUpToNow<R, V, J>(store: map<R, V>, moves: seq<Move<R, V, J>>)
    requires moves != [] && CommitsFresh(Start<R, V, J>(store), moves)
    ensures var n := |moves| - 1;
            var before := Run(Start<R, V, J>(store), moves[..n]);
            && CommitsFresh(Start<R, V, J>(store), moves[..n])
            && (moves[n].Commit? && CanCommit(before, moves[n].i) ==> Fresh(before, moves[n].i))
  {
    var n := |moves| - 1;
    forall k | 0 <= k < n && moves[..n][k].Commit?
      ensures var before := Run(Start<R, V, J>(store), moves[..n][..k]);
              CanCommit(before, moves[..n][k].i) ==> Fresh(before, moves[..n][k].i)
    {
      assert moves[..n][..k] == moves[..k];
    }
  }

  /** If every commit is fresh, the interleaved run leaves exactly the store of the committed
      transactions run one after the other, in commit order. */
  lemma {:induction false} FreshRunsAreSerial<R, V, J>(store: map<R, V>, moves: seq<Move<R, V, J>>)
    requires CommitsFresh(Start<R, V, J>(store), moves)
    ensures Sound(store, Run(Start<R, V, J>(store), moves))
  {
    if moves != [] {
      var n := |moves| - 1;
      FreshUpToNow(store, moves);
      FreshRunsAreSerial(store, moves[..n]);
      DoKeepsSound(store, Run(Start<R, V, J>(store), moves[..n]), moves[n]);
    }
  }

  // --- locked reads are fresh ------------------------------------------------------------------

  /** Of the values `locked` picks out, the transaction writes none that it reads early. */
  ghost predicate Respects<R(!new), V(!new), J>(t: Txn<R, V, J>, locked: R -> bool)
  {
    forall view, r :: t.body(view).Some? && r in t.body(view).value && r in t.early ==> !locked(r)
  }

  /** What a running worker has read of those values, other than early, it holds, and it is still
      current. */
  ghost predicate Guarded<R(!new), V(!new), J>(sys: System<R, V, J>, i: nat, locked: R -> bool)
    requires i < |sys.workers|
  {
    var w := sys.workers[i];
    w.running ==>
      && Respects(w.txn, locked)
      && forall r :: r in w.view && r !in w.txn.early && locked(r) ==>
           Holds(w, r) && r in sys.store && w.view[r] == sys.store[r]
  }

  ghost predicate AllGuarded<R(!new), V(!new), J>(sys: System<R, V, J>, locked: R -> bool)
  {
    forall i :: 0 <= i < |sys.workers| ==> Guarded(sys, i, locked)
  }

  lemma DoKeepsGuarded<R(!new), V(!new), J>(sys: System<R, V, J>, m: Move<R, V, J>, locked: R -> bool)
    requires AllGuarded(sys, locked) && Exclusive(sys)
    requires m.Begin? ==> Respects(m.txn, locked)
    requires forall i :: 0 <= i < |sys.workers| ==> sys.workers[i].held <= |sys.workers[i].txn.plan|
    ensures AllGuarded(Do(sys, m), locked)
  {
    var after := Do(sys, m);
    forall i | 0 <= i < |after.workers| ensures Guarded(after, i, locked) {
      if i < |sys.workers| {
        assert Guarded(sys, i, locked);
        var w, w' := sys.workers[i], after.workers[i];
        if w'.running && m.Acquire? && m.i == i && CanAcquire(sys, i) {
          assert w.txn.plan[..w.held + 1] == w.txn.plan[..w.held] + [w.txn.plan[w.held]];
        }
        if w'.running && m.Commit? && m.i != i && CanCommit(sys, m.i) {
          assert Guarded(sys, m.i, locked);
          KeepsOthersFresh(sys, m.i, i, locked);
        }
      }
    }
  }

  /** A commit writes such values only under its own locks, so it cannot make another worker's
      reads of them stale. */
  lemma KeepsOthersFresh<R(!new), V(!new), J>(sys: System<R, V, J>, c: nat, i: nat, locked: R -> bool)
    requires Exclusive(sys) && CanCommit(sys, c) && Respects(sys.workers[c].txn, locked)
    requires i < |sys.workers| && i != c && sys.workers[i].running && Guarded(sys, i, locked)
    ensures Guarded(Do(sys, Commit(c)), i, locked)
  {
    var after := Do(sys, Commit(c));
    var plan := sys.workers[c].txn.plan;
    assert plan[..|plan|] == plan;
    forall r | r in sys.workers[i].view && r !in sys.workers[i].txn.early && locked(r)
      ensures r in after.store && after.store[r] == sys.store[r]
    {
      assert Holds(sys.workers[i], r);
      assert Holds(sys.workers[c], r) <==> r in plan;
    }
  }

  ghost predicate BeginsRespect<R(!new), V(!new), J>(moves: seq<Move<R, V, J>>, locked: R -> bool)
  {
    forall k :: 0 <= k < |moves| && moves[k].Begin? ==> Respects(moves[k].txn, locked)
  }

  ghost predicate WithinPlans<R, V, J>(sys: System<R, V, J>)
  {
    forall i :: 0 <= i < |sys.workers| ==> sys.workers[i].held <= |sys.workers[i].txn.plan|
  }

  /** Strict two-phase locking: in any interleaving, no lock has two holders, and what was read
      under a lock is still current when the reader commits. */
  lemma {:induction false} LockedReadsStayCurrent<R(!new), V(!new), J>(store: map<R, V>, moves: seq<Move<R, V, J>>,
                                        locked: R -> bool)
    requires BeginsRespect(moves, locked)
    ensures var final := Run(Start<R, V, J>(store), moves);
            WithinPlans(final) && Exclusive(final) && AllGuarded(final, locked)
  {
    if moves != [] {
      var n := |moves| - 1;
      LockedReadsStayCurrent(store, moves[..n], locked);
      var before := Run(Start<R, V, J>(store), moves[..n]);
      DoKeepsExclusive(before, moves[n]);
      DoKeepsGuarded(before, moves[n], locked);
    }
  }

  function Everything<R>(): R -> bool { (r: R) => true }

  ghost predicate NothingEarly<R, V, J>(moves: seq<Move<R, V, J>>)
  {
    forall k :: 0 <= k < |moves| && moves[k].Begin? ==> moves[k].txn.early == {}
  }

  ghost predicate WorkersReadLocked<R, V, J>(sys: System<R, V, J>)
  {
    forall i :: 0 <= i < |sys.workers| ==> sys.workers[i].txn.early == {}
  }

  lemma {:induction false} RunReadsLocked<R, V, J>(store: map<R, V>, moves: seq<Move<R, V, J>>)
    requires NothingEarly(moves)
    ensures WorkersReadLocked(Run(Start<R, V, J>(store), moves))
  {
    if moves != [] { RunReadsLocked(store, moves[..|moves| - 1]); }
  }

  lemma GuardedIsFresh<R(!new), V(!new), J>(sys: System<R, V, J>, i: nat)
    requires CanCommit(sys, i) && AllGuarded(sys, Everything()) && WorkersReadLocked(sys)
    ensures Fresh(sys, i)
  {
    assert Guarded(sys, i, Everything());
    forall r | r in sys.workers[i].view ensures r in sys.store && sys.workers[i].view[r] == sys.store[r] {
      assert Everything<R>()(r);
    }
  }

  /** When everything is read under its lock, any interleaving of any number of transactions, with
      any of them aborting, leaves the store of the committed ones run one after the other in
      commit order. */
  lemma {:induction false} LockedRunsAreSerial<R(!new), V(!new), J>(store: map<R, V>, moves: seq<Move<R, V, J>>)
    requires NothingEarly(moves)
    ensures Sound(store, Run(Start<R, V, J>(store), moves))
  {
    if moves != [] {
      var n := |moves| - 1;
      var before := Run(Start<R, V, J>(store), moves[..n]);
      LockedRunsAreSerial(store, moves[..n]);
      RunReadsLocked(store, moves[..n]);
      LockedReadsStayCurrent(store, moves[..n], Everything());
      if moves[n].Commit? && CanCommit(before, moves[n].i) { GuardedIsFresh(before, moves[n].i); }
      DoKeepsSound(store, before, moves[n]);
    }
  }

  // --- deadlock freedom -----------------------------------------------------------------------------

  ghost predicate Ranked<R, V, J>(t: Txn<R, V, J>, rank: R -> nat)
  {
    forall i, j :: 0 <= i < j < |t.plan| ==> rank(t.plan[i]) < rank(t.plan[j])
  }

  ghost predicate AllRanked<R, V, J>(sys: System<R, V, J>, rank: R -> nat)
  {
    forall i :: 0 <= i < |sys.workers| ==>
      sys.workers[i].held <= |sys.workers[i].txn.plan| && Ranked(sys.workers[i].txn, rank)
  }

  predicate Waits<R, V, J>(w: Worker<R, V, J>) { w.running && w.held < |w.txn.plan| }

  /** `i` wants a lock that `j` holds. */
  predicate WaitsFor<R(==), V, J>(sys: System<R, V, J>, i: nat, j: nat)
  {
    && i < |sys.workers| && j < |sys.workers|
    && Waits(sys.workers[i])
    && Holds(sys.workers[j], sys.workers[i].txn.plan[sys.workers[i].held])
  }

  /** Following a wait from one waiting worker to another raises the rank of the wanted lock. */
  lemma WaitRaisesRank<R, V, J>(sys: System<R, V, J>, rank: R -> nat, i: nat, j: nat)
    requires AllRanked(sys, rank) && WaitsFor(sys, i, j) && Waits(sys.workers[j])
    ensures rank(sys.workers[i].txn.plan[sys.workers[i].held]) < rank(sys.workers[j].txn.plan[sys.workers[j].held])
  {
    var wanted, w := sys.workers[i].txn.plan[sys.workers[i].held], sys.workers[j];
    var k :| 0 <= k < w.held && w.txn.plan[k] == wanted;
  }

  ghost predicate WaitPath<R, V, J>(sys: System<R, V, J>, path: seq<nat>)
  {
    |path| >= 2 && forall k :: 0 <= k < |path| - 1 ==> WaitsFor(sys, path[k], path[k + 1])
  }

  lemma {:induction false} PathRaisesRank<R, V, J>(sys: System<R, V, J>, rank: R -> nat, path: seq<nat>)
    requires AllRanked(sys, rank) && WaitPath(sys, path)
    requires path[|path| - 1] < |sys.workers| && Waits(sys.workers[path[|path| - 1]])
    ensures WaitsFor(sys, path[0], path[1])
    ensures var first, last := sys.workers[path[0]], sys.workers[path[|path| - 1]];
            rank(first.txn.plan[first.held]) < rank(last.txn.plan[last.held])
  {
    assert WaitsFor(sys, path[0], path[0 + 1]);
    if |path| == 2 {
      WaitRaisesRank(sys, rank, path[0], path[1]);
    } else {
      var rest := path[1..];
      forall k | 0 <= k < |rest| - 1 ensures WaitsFor(sys, rest[k], rest[k + 1]) {
        assert WaitsFor(sys, path[k + 1], path[k + 1 + 1]);
      }
      assert WaitsFor(sys, path[1], path[1 + 1]);
      PathRaisesRank(sys, rank, rest);
      WaitRaisesRank(sys, rank, path[0], path[1]);
    }
  }

  /** With one global order of locks, no set of workers waits in a circle. */
  lemma NoDeadlock<R, V, J>(sys: System<R, V, J>, rank: R -> nat, path: seq<nat>)
    requires AllRanked(sys, rank) && WaitPath(sys, path)
    ensures path[0] != path[|path| - 1]
  {
    if path[0] == path[|path| - 1] {
      assert WaitsFor(sys, path[0], path[0 + 1]);
      PathRaisesRank(sys, rank, path);
    }
  }

  /** ... and from any running worker, some running worker can go on: take its next lock or finish. */
  lemma SomeoneCanGoOn<R, V, J>(sys: System<R, V, J>, rank: R -> nat, top: nat, i: nat) returns (j: nat)
    requires AllRanked(sys, rank) && i < |sys.workers| && sys.workers[i].running
    requires forall k, n :: 0 <= k < |sys.workers| && 0 <= n < |sys.workers[k].txn.plan| ==>
               rank(sys.workers[k].txn.plan[n]) <= top
    ensures j < |sys.workers| && sys.workers[j].running
    ensures CanAcquire(sys, j) || sys.workers[j].held == |sys.workers[j].txn.plan|
    decreases if Waits(sys.workers[i]) then top - rank(sys.workers[i].txn.plan[sys.workers[i].held]) + 1 else 0
  {
    j := i;
    if Waits(sys.workers[i]) && !CanAcquire(sys, i) {
      var holder :| 0 <= holder < |sys.workers|
        && Holds(sys.workers[holder], sys.workers[i].txn.plan[sys.workers[i].held]);
      if Waits(sys.workers[holder]) {
        WaitRaisesRank(sys, rank, i, holder);
      }
      j := SomeoneCanGoOn(sys, rank, top, holder);
    }
  }

  lemma {:induction false} RunKeepsRanked<R, V, J>(store: map<R, V>, moves: seq<Move<R, V, J>>, rank: R -> nat)
    requires forall k :: 0 <= k < |moves| && moves[k].Begin? ==> Ranked(moves[k].txn, rank)
    ensures AllRanked(Run(Start<R, V, J>(store), moves), rank)
  {
    if moves != [] {
      RunKeepsRanked(store, moves[..|moves| - 1], rank);
    }
  }
}
