/** Updating a draft entry looks at its status without a lock, and a reversal mirrors the lines it
    finds: when the lines of a posted entry are balanced, and when they are not. */
module LateUpdates {
  import opened Wrappers
  import opened Records
  import opened TwoPhase
  import opened Continuations
  import opened Traffic

  // --- the row and its lines -----------------------------------------------------------

  /** The row is posted or reversed, or still to come: documents and bank lines insert and post
      theirs in one transaction. */
  predicate Final(state: Option<EntryStatus>) { state != Some(EntryDraft) && state != Some(EntryVoided) }

  predicate HasEntry(store: map<Lock, Cell>, e: Id)
  {
    && EntryRow(e) in store && store[EntryRow(e)].EntryCell? && EntryLines(e) in store && store[EntryLines(e)].LinesCell?
  }

  predicate FinalAt(store: map<Lock, Cell>, e: Id)
    requires HasEntry(store, e)
  {
    Final(store[EntryRow(e)].state)
  }

  /** A posted or reversed entry has balanced lines. */
  predicate BalancedAt(store: map<Lock, Cell>, e: Id)
    requires HasEntry(store, e)
  {
    FinalAt(store, e) ==> store[EntryLines(e)].balanced
  }

  predicate SawDraft(view: View, e: Id)
  {
    EntryRow(e) in view && view[EntryRow(e)].EntryCell? && view[EntryRow(e)].state == Some(EntryDraft)
  }

  // --- what one commit does to them --------------------------------------------------------

  /** The row written goes from posted or reversed to the same, or from draft with balanced lines to
      posted, or from draft to voided. */
  predicate RowTurns(view: View, r: Option<View>, e: Id)
  {
    var row := EntryRow(e);
    r.Some? && row in r.value ==>
      && row in view && view[row].EntryCell? && r.value[row].EntryCell? && r.value[row].state.Some?
      && (if Final(view[row].state) then Final(r.value[row].state)
          else Final(r.value[row].state) ==> EntryLines(e) in view && view[EntryLines(e)] == LinesCell(true))
  }

  lemma MoveTurns(view: View, x: Id, from: Option<EntryStatus>, to: EntryStatus, e: Id)
    requires Final(from) ==> Final(Some(to))
    requires Final(from) || to == EntryVoided || (EntryLines(x) in view && view[EntryLines(x)] == LinesCell(true))
    ensures RowTurns(view, MoveEntry(view, x, from, to), e)
  {
  }

  lemma MergeTurns(view: View, a: Option<View>, b: Option<View>, e: Id)
    requires RowTurns(view, a, e) && RowTurns(view, b, e)
    ensures RowTurns(view, Merge(a, b), e)
  {
  }

  lemma MovedTurns(view: View, x: Id, from: Option<EntryStatus>, to: EntryStatus, period: Id, date: Date, e: Id)
    requires Final(from) ==> Final(Some(to))
    requires Final(from) || to == EntryVoided || (EntryLines(x) in view && view[EntryLines(x)] == LinesCell(true))
    ensures RowTurns(view, MovedEntry(view, x, from, to, period, date), e)
  {
    MoveTurns(view, x, from, to, e);
    MergeTurns(view, MoveEntry(view, x, from, to), LogPost(view, period, date), e);
  }

  lemma ReversedTurns(view: View, x: Id, r: Id, period: Id, date: Date, e: Id)
    ensures RowTurns(view, ReversedEntry(view, x, r, period, date), e)
  {
    MoveTurns(view, x, Some(EntryPosted), EntryReversed, e);
    MovedTurns(view, r, None, EntryPosted, period, date, e);
    MergeTurns(view, MoveEntry(view, x, Some(EntryPosted), EntryReversed),
               MovedEntry(view, r, None, EntryPosted, period, date), e);
    MergeTurns(view, ReversedRows(view, x, r, period, date), MirrorLines(view, x, r), e);
  }

  lemma PostingTurns(view: View, job: Job, e: Id)
    requires job.PostInvoice? || job.PostBill? || job.PostNote?
    ensures RowTurns(view, Body(job, view), e)
  {
    MovedTurns(view, job.e, None, EntryPosted, job.period, job.date, e);
    var entry := MovedEntry(view, job.e, None, EntryPosted, job.period, job.date);
    match job
    case PostInvoice(d, _, total, _, _) =>
      MergeTurns(view, Merge(Numbered(view, DocumentRow(d), InvoiceNumberKey), Owe(view, d, total)), entry, e);
    case PostBill(d, _, total, _, _) =>
      MergeTurns(view, Merge(MoveDocument(view, DocumentRow(d), DocDraft, DocPosted, None), Owe(view, d, total)), entry, e);
    case PostNote(n, _, _, _, _) =>
      MergeTurns(view, Numbered(view, NoteRow(n), NoteNumberKey), entry, e);
  }

  lemma BookingTurns(view: View, job: Job, e: Id)
    requires BooksLine(job)
    ensures RowTurns(view, Body(job, view), e)
  {
    MovedTurns(view, job.e, None, EntryPosted, job.period, job.date, e);
    var entry := MovedEntry(view, job.e, None, EntryPosted, job.period, job.date);
    match job
    case AssignLine(l, _, _, _) => MergeTurns(view, BookLine(view, l), entry, e);
    case ConfirmMatch(l, d, p, _, amount, _, _) =>
      MergeTurns(view, Merge(BookLine(view, l), PayOff(view, d, p, amount)), entry, e);
  }

  lemma CancelTurns(view: View, job: Job, e: Id)
    requires job.CancelDocument?
    ensures RowTurns(view, Body(job, view), e)
  {
    ReversedTurns(view, job.e, job.r, job.period, job.date, e);
    MergeTurns(view, Merge(MoveDocument(view, DocumentRow(job.d), DocPosted, DocCancelled, None), Owe(view, job.d, 0)),
               ReversedEntry(view, job.e, job.r, job.period, job.date), e);
  }

  lemma JournalTurns(view: View, job: Job, e: Id)
    requires job.PostEntry? || job.ReverseEntry? || job.VoidEntry?
    ensures RowTurns(view, Body(job, view), e)
  {
    match job
    case PostEntry(x, period, date) =>
      if EntryLines(x) in view && view[EntryLines(x)] == LinesCell(true) {
        MovedTurns(view, x, Some(EntryDraft), EntryPosted, period, date, e);
      }
    case ReverseEntry(x, r, period, date) => ReversedTurns(view, x, r, period, date, e);
    case VoidEntry(x) => MoveTurns(view, x, Some(EntryDraft), EntryVoided, e);
  }

  lemma BodyTurns(view: View, job: Job, e: Id)
    ensures RowTurns(view, Body(job, view), e)
  {
    if job.PostInvoice? || job.PostBill? || job.PostNote? {
      PostingTurns(view, job, e);
    } else if BooksLine(job) {
      BookingTurns(view, job, e);
    } else if job.CancelDocument? {
      CancelTurns(view, job, e);
    } else if job.PostEntry? || job.ReverseEntry? || job.VoidEntry? {
      JournalTurns(view, job, e);
    }
  }

  predicate Reverses(job: Job) { job.ReverseEntry? || job.CancelDocument? }

  /** Only an update of the entry, or the reversal that creates it, writes its lines. */
  lemma LinesWritten(view: View, job: Job, e: Id)
    requires Body(job, view).Some? && EntryLines(e) in Body(job, view).value
    ensures (job.UpdateEntry? && job.e == e) || (Reverses(job) && job.r == e)
    ensures job.UpdateEntry? ==> SawDraft(view, e) && Body(job, view) == Some(map[EntryLines(e) := LinesCell(job.balanced)])
  {
    if !job.UpdateEntry? && !(Reverses(job) && job.r == e) { OthersKeepLines(view, job, e); }
  }

  lemma OthersKeepLines(view: View, job: Job, e: Id)
    requires Body(job, view).Some? && !job.UpdateEntry? && !(Reverses(job) && job.r == e)
    ensures EntryLines(e) !in Body(job, view).value
  {
    BodyWritten(job, view);
    assert EntryLines(e) !in Written(job);
  }

  /** A reversal takes the new row from nothing to posted, with the lines of an entry that was posted. */
  predicate Mirrors(view: View, result: View, e: Id, r: Id)
  {
    && EntryRow(e) in view && view[EntryRow(e)].EntryCell? && view[EntryRow(e)].state == Some(EntryPosted)
    && EntryRow(r) in view && view[EntryRow(r)].EntryCell? && view[EntryRow(r)].state == None
    && EntryRow(r) in result && result[EntryRow(r)].EntryCell? && result[EntryRow(r)].state == Some(EntryPosted)
    && EntryLines(e) in view && view[EntryLines(e)].LinesCell?
    && EntryLines(r) in result && result[EntryLines(r)] == view[EntryLines(e)]
  }

  lemma ReversedMirrors(view: View, e: Id, r: Id, period: Id, date: Date)
    requires ReversedEntry(view, e, r, period, date).Some? && e != r
    ensures Mirrors(view, ReversedEntry(view, e, r, period, date).value, e, r)
  {
  }

  lemma BodyMirrors(view: View, job: Job)
    requires Reverses(job) && WellFormed(job) && Body(job, view).Some?
    ensures Mirrors(view, Body(job, view).value, job.e, job.r)
  {
    ReversedMirrors(view, job.e, job.r, job.period, job.date);
  }

  /** The move commits an update of entry `e` with lines that balance, or do not. */
  predicate CommitsUpdate(sys: System<Lock, Cell, Job>, m: Move<Lock, Cell, Job>, e: Id, balanced: bool)
  {
    && m.Commit? && CanCommit(sys, m.i) && sys.workers[m.i].txn.job == UpdateEntry(e, balanced)
    && SawDraft(sys.workers[m.i].view, e)
  }

  /** The move commits a reversal, by hand or by cancellation, whose new row is `e`. */
  predicate CommitsReversalAs(sys: System<Lock, Cell, Job>, m: Move<Lock, Cell, Job>, e: Id)
  {
    && m.Commit? && CanCommit(sys, m.i) && Reverses(sys.workers[m.i].txn.job) && sys.workers[m.i].txn.job.r == e
    && Body(sys.workers[m.i].txn.job, sys.workers[m.i].view).Some?
  }

  /** What a move does to the lines of an entry: nothing, an update, or a copy of another entry's. */
  datatype Change = Kept | Updated(balanced: bool) | Copied(source: Id)

  function ChangeOf(sys: System<Lock, Cell, Job>, m: Move<Lock, Cell, Job>, e: Id): Change
  {
    if CommitsUpdate(sys, m, e, true) then Updated(true)
    else if CommitsUpdate(sys, m, e, false) then Updated(false)
    else if CommitsReversalAs(sys, m, e) then Copied(sys.workers[m.i].txn.job.e)
    else Kept
  }

  /** An update replaces the lines and leaves the row; a reversal makes the row appear, posted, with the
      lines its posted original has now; any other move leaves the lines, keeps a final row final, and
      makes one final only on balanced lines. */
  predicate EntryStep(before: map<Lock, Cell>, after: map<Lock, Cell>, e: Id, change: Change)
    requires HasEntry(before, e)
  {
    && HasEntry(after, e)
    && match change
       case Updated(balanced) => after[EntryRow(e)] == before[EntryRow(e)] && after[EntryLines(e)] == LinesCell(balanced)
       case Copied(x) =>
         && HasEntry(before, x) && before[EntryRow(x)].state == Some(EntryPosted) && before[EntryRow(e)].state == None
         && after[EntryRow(e)].state == Some(EntryPosted) && after[EntryLines(e)] == before[EntryLines(x)]
       case Kept => after[EntryLines(e)] == before[EntryLines(e)]
                    && (before[EntryRow(e)].state.Some? ==> after[EntryRow(e)].state.Some?)
                    && (if FinalAt(before, e) then FinalAt(after, e)
                        else FinalAt(after, e) ==> before[EntryLines(e)].balanced)
  }

  lemma UpdateCommits(sys: System<Lock, Cell, Job>, i: nat, e: Id, balanced: bool)
    requires CanCommit(sys, i) && sys.workers[i].txn.job == UpdateEntry(e, balanced) && SawDraft(sys.workers[i].view, e)
    requires sys.workers[i].txn.body(sys.workers[i].view) == Body(sys.workers[i].txn.job, sys.workers[i].view)
    requires EntryLines(e) in sys.workers[i].view && EntryLines(e) in Footprint(sys.workers[i].txn) && HasEntry(sys.store, e)
    ensures EntryStep(sys.store, Do(sys, Commit(i)).store, e, Updated(balanced))
  {
  }

  lemma OtherCommits(text: Id -> string, store: map<Lock, Cell>, sys: System<Lock, Cell, Job>, i: nat, e: Id)
    requires CanCommit(sys, i) && Guarded(sys, i, Locked) && AllOk(store) && TrafficOk(text, store, sys)
    requires HasEntry(sys.store, e)
    requires var w := sys.workers[i];
             Body(w.txn.job, w.view).Some? ==> EntryLines(e) !in Body(w.txn.job, w.view).value
    ensures EntryStep(sys.store, Do(sys, Commit(i)).store, e, Kept)
  {
    var w := sys.workers[i];
    CommitWrites(text, store, sys, i);
    BodyTurns(w.view, w.txn.job, e);
    GuardedIsCurrent(sys, i, EntryRow(e));
    CommitChanges(sys, i, EntryRow(e));
    GuardedIsCurrent(sys, i, EntryLines(e));
    CommitChanges(sys, i, EntryLines(e));
    LinesReadUnderLock(text, store, sys, i, e);
  }

  /** Whoever reads an entry's lines reads them under their lock. */
  lemma LinesReadUnderLock(text: Id -> string, store: map<Lock, Cell>, sys: System<Lock, Cell, Job>, i: nat, e: Id)
    requires CanCommit(sys, i) && Guarded(sys, i, Locked) && TrafficOk(text, store, sys)
    ensures EntryLines(e) in sys.workers[i].view ==>
              EntryLines(e) in sys.store && sys.workers[i].view[EntryLines(e)] == sys.store[EntryLines(e)]
  {
    assert WorkerOk(text, store, sys.workers[i]);
    LinesAreNotEarly(sys.workers[i].txn.job, e);
  }

  lemma LinesAreNotEarly(job: Job, e: Id)
    ensures EntryLines(e) !in Early(job)
  {
  }

  /** A reversal reads the row it reverses under its lock. */
  lemma ReversedReadUnderLock(text: Id -> string, store: map<Lock, Cell>, sys: System<Lock, Cell, Job>, i: nat, e: Id)
    requires CanCommit(sys, i) && Guarded(sys, i, Locked) && TrafficOk(text, store, sys)
    requires Reverses(sys.workers[i].txn.job) && EntryRow(e) in sys.workers[i].view
    ensures EntryRow(e) in sys.store && sys.workers[i].view[EntryRow(e)] == sys.store[EntryRow(e)]
  {
    assert WorkerOk(text, store, sys.workers[i]);
    ReversedRowIsNotEarly(sys.workers[i].txn.job, e);
  }

  lemma ReversedRowIsNotEarly(job: Job, e: Id)
    requires Reverses(job)
    ensures EntryRow(e) !in Early(job)
  {
  }

  lemma MirroredStep(view: View, result: View, before: map<Lock, Cell>, after: map<Lock, Cell>, e: Id, r: Id)
    requires Mirrors(view, result, e, r) && HasEntry(before, r)
    requires EntryRow(e) in before && view[EntryRow(e)] == before[EntryRow(e)]
    requires EntryLines(e) in before && view[EntryLines(e)] == before[EntryLines(e)]
    requires Follows(view, result, before, after, EntryRow(r)) && Follows(view, result, before, after, EntryLines(r))
    ensures EntryStep(before, after, r, Copied(e))
  {
  }

  lemma ReversalCommits(text: Id -> string, store: map<Lock, Cell>, sys: System<Lock, Cell, Job>, i: nat, r: Id)
    requires CanCommit(sys, i) && Guarded(sys, i, Locked) && AllOk(store) && TrafficOk(text, store, sys)
    requires HasEntry(sys.store, r) && CommitsReversalAs(sys, Commit(i), r)
    ensures EntryStep(sys.store, Do(sys, Commit(i)).store, r, Copied(sys.workers[i].txn.job.e))
  {
    var w := sys.workers[i];
    assert WorkerOk(text, store, w);
    BodyMirrors(w.view, w.txn.job);
    ReversedReadUnderLock(text, store, sys, i, w.txn.job.e);
    LinesReadUnderLock(text, store, sys, i, w.txn.job.e);
    CommitFollows(text, store, sys, i, EntryRow(r));
    CommitFollows(text, store, sys, i, EntryLines(r));
    MirroredStep(w.view, Body(w.txn.job, w.view).value, sys.store, Do(sys, Commit(i)).store, w.txn.job.e, r);
  }

  lemma UpdateFootprint(text: Id -> string, e: Id, balanced: bool)
    ensures EntryLines(e) in Footprint(TxnOf(text, UpdateEntry(e, balanced)))
  {
    assert Plan(text, UpdateEntry(e, balanced))[0] == EntryLines(e);
  }

  lemma UpdateSteps(text: Id -> string, store: map<Lock, Cell>, sys: System<Lock, Cell, Job>, i: nat, e: Id, balanced: bool)
    requires TrafficOk(text, store, sys) && HasEntry(sys.store, e) && CommitsUpdate(sys, Commit(i), e, balanced)
    ensures EntryStep(sys.store, Do(sys, Commit(i)).store, e, Updated(balanced))
  {
    var w := sys.workers[i];
    assert WorkerOk(text, store, w);
    assert w.txn.body(w.view) == Body(w.txn.job, w.view);
    UpdateFootprint(text, e, balanced);
    UpdateCommits(sys, i, e, balanced);
  }

  lemma KeptAreNotWritten(sys: System<Lock, Cell, Job>, i: nat, e: Id)
    requires CanCommit(sys, i) && ChangeOf(sys, Commit(i), e).Kept?
    ensures var w := sys.workers[i];
            Body(w.txn.job, w.view).Some? ==> EntryLines(e) !in Body(w.txn.job, w.view).value
  {
    var w := sys.workers[i];
    if Body(w.txn.job, w.view).Some? && EntryLines(e) in Body(w.txn.job, w.view).value {
      LinesWritten(w.view, w.txn.job, e);
      assert false;
    }
  }

  lemma CommitSteps(text: Id -> string, store: map<Lock, Cell>, sys: System<Lock, Cell, Job>, i: nat, e: Id)
    requires AllOk(store) && TrafficOk(text, store, sys) && AllGuarded(sys, Locked) && HasEntry(sys.store, e)
    requires CanCommit(sys, i)
    ensures EntryStep(sys.store, Do(sys, Commit(i)).store, e, ChangeOf(sys, Commit(i), e))
  {
    assert Guarded(sys, i, Locked);
    match ChangeOf(sys, Commit(i), e)
    case Updated(balanced) => UpdateSteps(text, store, sys, i, e, balanced);
    case Copied(_) => ReversalCommits(text, store, sys, i, e);
    case Kept =>
      KeptAreNotWritten(sys, i, e);
      OtherCommits(text, store, sys, i, e);
  }

  lemma MoveSteps(text: Id -> string, store: map<Lock, Cell>, sys: System<Lock, Cell, Job>, m: Move<Lock, Cell, Job>, e: Id)
    requires AllOk(store) && TrafficOk(text, store, sys) && AllGuarded(sys, Locked) && HasEntry(sys.store, e)
    ensures EntryStep(sys.store, Do(sys, m).store, e, ChangeOf(sys, m, e))
  {
    if m.Commit? && CanCommit(sys, m.i) { CommitSteps(text, store, sys, m.i, e); }
  }

  // --- whole runs --------------------------------------------------------------------------------

  /** The last change to the entry's lines after it was posted left them unbalanced: an update to
      unbalanced lines, or the reversal it came from, of an entry spoiled by then. An entry that starts
      posted and unbalanced is spoiled. */
  ghost predicate Spoiled(store: map<Lock, Cell>, moves: seq<Move<Lock, Cell, Job>>, e: Id)
  {
    if moves == [] then HasEntry(store, e) && !BalancedAt(store, e)
    else
      var init, m := moves[..|moves| - 1], moves[|moves| - 1];
      var before := Run(Start<Lock, Cell, Job>(store), init);
      match ChangeOf(before, m, e)
      case Updated(balanced) => !balanced && HasEntry(before.store, e) && FinalAt(before.store, e)
      case Copied(x) => Spoiled(store, init, x)
      case Kept => Spoiled(store, init, e)
  }

  lemma EntriesStay(text: Id -> string, store: map<Lock, Cell>, moves: seq<Move<Lock, Cell, Job>>, e: Id)
    requires AllOk(store) && ServiceRun(text, store, moves)
    ensures HasEntry(Run(Start<Lock, Cell, Job>(store), moves).store, e) <==> HasEntry(store, e)
  {
    var final := Run(Start<Lock, Cell, Job>(store), moves).store;
    RunKeepsTraffic(text, store, moves);
    assert EntryRow(e) in store ==> KindOk(EntryRow(e), store[EntryRow(e)]) && KindOk(EntryRow(e), final[EntryRow(e)]);
    assert EntryLines(e) in store ==> KindOk(EntryLines(e), store[EntryLines(e)]) && KindOk(EntryLines(e), final[EntryLines(e)]);
  }

  lemma {:induction false} SpoiledIsUnbalanced(text: Id -> string, store: map<Lock, Cell>, moves: seq<Move<Lock, Cell, Job>>,
                                               e: Id)
    requires AllOk(store) && ServiceRun(text, store, moves) && HasEntry(store, e)
    ensures var final := Run(Start<Lock, Cell, Job>(store), moves).store;
            && HasEntry(final, e)
            && (FinalAt(final, e) ==> (final[EntryLines(e)].balanced <==> !Spoiled(store, moves, e)))
            && (Spoiled(store, moves, e) ==> FinalAt(final, e))
    decreases |moves|
  {
    if moves != [] {
      var init, m := moves[..|moves| - 1], moves[|moves| - 1];
      var before := Run(Start<Lock, Cell, Job>(store), init);
      SpoiledIsUnbalanced(text, store, init, e);
      RunKeepsTraffic(text, store, init);
      MoveSteps(text, store, before, m, e);
      var change := ChangeOf(before, m, e);
      if change.Copied? {
        EntriesStay(text, store, init, change.source);
        SpoiledIsUnbalanced(text, store, init, change.source);
      }
    }
  }

  /** At the end of any interleaving of all services, however stale anything else is, a posted or
      reversed entry has balanced lines exactly when it is not spoiled. */
  lemma {:induction false} PostedIsBalancedExactlyWhen(text: Id -> string, store: map<Lock, Cell>,
                                                       moves: seq<Move<Lock, Cell, Job>>, e: Id)
    requires AllOk(store) && ServiceRun(text, store, moves) && HasEntry(store, e)
    ensures var final := Run(Start<Lock, Cell, Job>(store), moves).store;
            HasEntry(final, e) && (BalancedAt(final, e) <==> !Spoiled(store, moves, e))
  {
    SpoiledIsUnbalanced(text, store, moves, e);
  }

  /** In any state, a reversal that commits leaves a new posted row that balances exactly when the
      reversed entry's lines balance at that moment. */
  lemma {:induction false} ReversalBalancesExactlyWhen(text: Id -> string, store: map<Lock, Cell>,
                                                       moves: seq<Move<Lock, Cell, Job>>, m: Move<Lock, Cell, Job>, e: Id)
    requires AllOk(store) && ServiceRun(text, store, moves) && HasEntry(store, e)
    requires CommitsReversalAs(Run(Start<Lock, Cell, Job>(store), moves), m, e)
    ensures var sys := Run(Start<Lock, Cell, Job>(store), moves);
            var x, after := sys.workers[m.i].txn.job.e, Do(sys, m).store;
            && HasEntry(sys.store, x) && HasEntry(after, e) && after[EntryRow(e)].state == Some(EntryPosted)
            && (BalancedAt(after, e) <==> BalancedAt(sys.store, x))
  {
    EntriesStay(text, store, moves, e);
    RunKeepsTraffic(text, store, moves);
    MoveSteps(text, store, Run(Start<Lock, Cell, Job>(store), moves), m, e);
  }

  // --- what is in flight --------------------------------------------------------------------------

  predicate SpoilsLater(w: Worker<Lock, Cell, Job>, e: Id)
  {
    w.running && w.txn.job == UpdateEntry(e, false) && SawDraft(w.view, e)
  }

  /** A running update to unbalanced lines has seen the entry as a draft. */
  predicate InFlight(sys: System<Lock, Cell, Job>, e: Id)
  {
    exists i :: 0 <= i < |sys.workers| && SpoilsLater(sys.workers[i], e)
  }

  /** The entry is there, posted or reversed, and its lines balance. */
  predicate Good(sys: System<Lock, Cell, Job>, e: Id)
  {
    && HasEntry(sys.store, e) && FinalAt(sys.store, e) && sys.store[EntryRow(e)].state != None
    && sys.store[EntryLines(e)].balanced
  }

  lemma ViewSteps(sys: System<Lock, Cell, Job>, m: Move<Lock, Cell, Job>, e: Id)
    requires Good(sys, e) && !InFlight(sys, e)
    ensures !InFlight(Do(sys, m), e)
  {
    var after := Do(sys, m);
    forall i | 0 <= i < |after.workers| ensures !SpoilsLater(after.workers[i], e) {
      if i < |sys.workers| { assert !SpoilsLater(sys.workers[i], e); }
    }
  }

  lemma GoodStep(sys: System<Lock, Cell, Job>, m: Move<Lock, Cell, Job>, e: Id, change: Change)
    requires Good(sys, e) && EntryStep(sys.store, Do(sys, m).store, e, change) && change != Updated(false)
    ensures Good(Do(sys, m), e)
  {
  }

  lemma UpdateIsInFlight(sys: System<Lock, Cell, Job>, m: Move<Lock, Cell, Job>, e: Id)
    ensures CommitsUpdate(sys, m, e, false) ==> InFlight(sys, e)
  {
    if CommitsUpdate(sys, m, e, false) { assert SpoilsLater(sys.workers[m.i], e); }
  }

  lemma GoodSteps(text: Id -> string, store: map<Lock, Cell>, sys: System<Lock, Cell, Job>, m: Move<Lock, Cell, Job>, e: Id)
    requires AllOk(store) && TrafficOk(text, store, sys) && AllGuarded(sys, Locked)
    requires Good(sys, e) && !InFlight(sys, e)
    ensures Good(Do(sys, m), e) && !InFlight(Do(sys, m), e)
  {
    ViewSteps(sys, m, e);
    MoveSteps(text, store, sys, m, e);
    UpdateIsInFlight(sys, m, e);
    GoodStep(sys, m, e, ChangeOf(sys, m, e));
  }

  lemma PrefixIsServiceRun(text: Id -> string, store: map<Lock, Cell>, moves: seq<Move<Lock, Cell, Job>>,
                           more: seq<Move<Lock, Cell, Job>>)
    requires ServiceRun(text, store, moves + more) && more != []
    ensures ServiceRun(text, store, moves + more[..|more| - 1])
  {
    var init := more[..|more| - 1];
    forall k | 0 <= k < |moves + init| && (moves + init)[k].Begin? ensures FromService(text, store, (moves + init)[k].txn) {
      assert (moves + init)[k] == (moves + more)[k];
    }
  }

  lemma {:induction false} GoodStays(text: Id -> string, store: map<Lock, Cell>, moves: seq<Move<Lock, Cell, Job>>,
                                     more: seq<Move<Lock, Cell, Job>>, e: Id)
    requires AllOk(store) && ServiceRun(text, store, moves + more)
    requires Good(From(store, moves), e) && !InFlight(From(store, moves), e)
    ensures Good(From(store, moves + more), e) && !InFlight(From(store, moves + more), e)
  {
    if more == [] {
      assert moves + more == moves;
    } else {
      var init, m := more[..|more| - 1], more[|more| - 1];
      PrefixIsServiceRun(text, store, moves, more);
      GoodStays(text, store, moves, init, e);
      RunKeepsTraffic(text, store, moves + init);
      GoodSteps(text, store, From(store, moves + init), m, e);
      RunLonger(Start<Lock, Cell, Job>(store), moves, more);
    }
  }

  lemma LoneUpdateSpoils(text: Id -> string, alone: System<Lock, Cell, Job>, i: nat, e: Id)
    requires i < |alone.workers| && Tidy(alone) && Good(alone, e) && SpoilsLater(alone.workers[i], e)
    requires alone.workers[i].txn == TxnOf(text, UpdateEntry(e, false))
    requires forall j :: 0 <= j < |alone.workers| && j != i ==> !alone.workers[j].running
    ensures Able(alone, i)
    ensures var final := Do(Ready(alone, i), Commit(i)).store; HasEntry(final, e) && !BalancedAt(final, e)
  {
    var w := alone.workers[i];
    UpdateFootprint(text, e, false);
    var done := Ready(alone, i);
    assert done.workers[i].view[EntryRow(e)] == w.view[EntryRow(e)];
    assert done.workers[i].txn.body(done.workers[i].view) == Body(w.txn.job, done.workers[i].view);
    UpdateCommits(done, i, e, false);
  }

  /** Everyone else gives up, and the update in flight commits. */
  lemma InFlightGoesOn(text: Id -> string, sys: System<Lock, Cell, Job>, i: nat, e: Id) returns (more: seq<Move<Lock, Cell, Job>>)
    requires i < |sys.workers| && Tidy(sys) && Good(sys, e) && SpoilsLater(sys.workers[i], e)
    requires sys.workers[i].txn == TxnOf(text, UpdateEntry(e, false))
    ensures NoBegin(more)
    ensures var final := Run(sys, more).store; HasEntry(final, e) && !BalancedAt(final, e)
  {
    var alone := Alone(sys, i, |sys.workers|);
    AloneStaysTidy(sys, i);
    LoneUpdateSpoils(text, alone, i, e);
    more := GoesOnAlone(sys, i);
  }

  lemma NoBeginKeepsServiceRun(text: Id -> string, store: map<Lock, Cell>, moves: seq<Move<Lock, Cell, Job>>,
                               more: seq<Move<Lock, Cell, Job>>)
    requires ServiceRun(text, store, moves) && NoBegin(more)
    ensures ServiceRun(text, store, moves + more)
  {
    assert forall j :: 0 <= j < |more| ==> (moves + more)[|moves| + j] == more[j];
  }

  lemma InFlightSpoils(text: Id -> string, store: map<Lock, Cell>, moves: seq<Move<Lock, Cell, Job>>, e: Id)
    returns (more: seq<Move<Lock, Cell, Job>>)
    requires AllOk(store) && ServiceRun(text, store, moves)
    requires var sys := Run(Start<Lock, Cell, Job>(store), moves); Good(sys, e) && InFlight(sys, e)
    ensures ServiceRun(text, store, moves + more)
    ensures var final := Run(Start<Lock, Cell, Job>(store), moves + more).store; HasEntry(final, e) && !BalancedAt(final, e)
  {
    var sys := Run(Start<Lock, Cell, Job>(store), moves);
    var i: nat :| i < |sys.workers| && SpoilsLater(sys.workers[i], e);
    RunKeepsTraffic(text, store, moves);
    RunKeepsTidy(store, moves);
    assert WorkerOk(text, store, sys.workers[i]);
    more := InFlightGoesOn(text, sys, i, e);
    RunConcat(Start<Lock, Cell, Job>(store), moves, more);
    NoBeginKeepsServiceRun(text, store, moves, more);
  }

  ghost predicate BalancedAfter(store: map<Lock, Cell>, moves: seq<Move<Lock, Cell, Job>>, e: Id)
  {
    var final := Run(Start<Lock, Cell, Job>(store), moves).store;
    HasEntry(final, e) && BalancedAt(final, e)
  }

  /** From a state in which the entry is posted with balanced lines, they stay balanced however the
      run goes on exactly when no update to unbalanced lines that saw the draft is in flight. */
  lemma {:induction false} SafeExactlyWhen(text: Id -> string, store: map<Lock, Cell>, moves: seq<Move<Lock, Cell, Job>>, e: Id)
    requires AllOk(store) && ServiceRun(text, store, moves) && Good(Run(Start<Lock, Cell, Job>(store), moves), e)
    ensures (forall more :: ServiceRun(text, store, moves + more) ==> BalancedAfter(store, moves + more, e))
       <==> !InFlight(Run(Start<Lock, Cell, Job>(store), moves), e)
  {
    if InFlight(Run(Start<Lock, Cell, Job>(store), moves), e) {
      var more := InFlightSpoils(text, store, moves, e);
      assert !BalancedAfter(store, moves + more, e);
    } else {
      forall more | ServiceRun(text, store, moves + more) ensures BalancedAfter(store, moves + more, e) {
        GoodStays(text, store, moves, more, e);
      }
    }
  }
}
