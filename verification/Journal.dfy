/** Accounting periods (periods.py). */
module Periods {
  import opened Wrappers
  import opened Records

  predicate Covers(p: Period, date: Date) { p.start <= date <= p.end }

  /** Inclusive date ranges sharing a day: what the EXCLUDE constraint refuses. */
  predicate Overlap(p: Period, q: Period) { p.start <= q.end && q.start <= p.end }

  ghost predicate PeriodsOk(periods: seq<Period>)
  {
    && (forall i :: 0 <= i < |periods| ==> periods[i].start <= periods[i].end)
    && (forall i, j :: 0 <= i < j < |periods| ==> !Overlap(periods[i], periods[j]))
  }

  /** Periods are only added; their dates never move. Only `open` may change. */
  ghost predicate PeriodsGrow(old_: seq<Period>, new_: seq<Period>)
  {
    && |old_| <= |new_|
    && forall i :: 0 <= i < |old_| ==> new_[i].start == old_[i].start && new_[i].end == old_[i].end
  }

  function FindPeriod(periods: seq<Period>, date: Date): (r: Option<Id>)
    ensures r.Some? ==> r.value < |periods| && Covers(periods[r.value], date)
    ensures r.None? ==> forall i :: 0 <= i < |periods| ==> !Covers(periods[i], date)
  {
    if periods == [] then None
    else
      var n := |periods| - 1;
      var earlier := FindPeriod(periods[..n], date);
      if earlier.Some? then earlier else if Covers(periods[n], date) then Some(n) else None
  }

  function CreatePeriod(db: Db, start: Date, end: Date): Result<Db, Error>
  {
    var p := Period(start, end, true);
    if end < start then Failure(Invalid)
    else if exists i :: 0 <= i < |db.periods| && Overlap(db.periods[i], p) then Failure(Conflict)
    else Success(db.(periods := db.periods + [p]))
  }

  function SetPeriod(db: Db, p: Id, open: bool): Result<Db, Error>
  {
    if p >= |db.periods| then Failure(NotFound)
    else if db.periods[p].open == open then Failure(Invalid)
    else Success(db.(periods := db.periods[p := db.periods[p].(open := open)]))
  }

  /** The lookup is safe to do before the lock: whatever happens to the table afterwards, the
      period found stays the one covering the date, and it is the only one. */
  lemma {:induction false} LookupIsStable(before: seq<Period>, after: seq<Period>, date: Date)
    requires PeriodsOk(after) && PeriodsGrow(before, after)
    requires FindPeriod(before, date).Some?
    ensures FindPeriod(after, date) == FindPeriod(before, date)
  {
    var p, q := FindPeriod(before, date).value, FindPeriod(after, date);
    assert Covers(after[p], date);
    if q.Some? && q.value != p {
      assert Overlap(after[p], after[q.value]) && Overlap(after[q.value], after[p]);
    }
  }
}

/** Journal entries (journal.py): balance, posting and reversal. */
module Journal {
  import opened Wrappers
  import opened Sums
  import opened Records
  import opened Periods

  // --- lines --------------------------------------------------------------

  predicate OneSided(line: JournalLine)
  {
    (line.debit > 0 && line.credit == 0) || (line.credit > 0 && line.debit == 0)
  }

  predicate AllOneSided(lines: seq<JournalLine>)
  {
    forall i :: 0 <= i < |lines| ==> OneSided(lines[i])
  }

  function DebitOf(): JournalLine -> int { (l: JournalLine) => l.debit }
  function CreditOf(): JournalLine -> int { (l: JournalLine) => l.credit }
  function EffectOn(a: Id): JournalLine -> int
  {
    (l: JournalLine) => if l.account == a then l.debit - l.credit else 0
  }

  function Debits(lines: seq<JournalLine>): int { Sum(lines, DebitOf()) }
  function Credits(lines: seq<JournalLine>): int { Sum(lines, CreditOf()) }

  /** Net debit of the lines on one account. */
  function Effect(lines: seq<JournalLine>, a: Id): int { Sum(lines, EffectOn(a)) }

  predicate Touches(lines: seq<JournalLine>, a: Id)
  {
    exists i :: 0 <= i < |lines| && lines[i].account == a
  }

  lemma UntouchedHasNoEffect(lines: seq<JournalLine>, a: Id)
    requires !Touches(lines, a)
    ensures Effect(lines, a) == 0
  {
    if lines != [] {
      var init := lines[..|lines| - 1];
      assert forall i :: 0 <= i < |init| ==> init[i].account == lines[i].account;
      UntouchedHasNoEffect(init, a);
    }
  }

  function Flip(line: JournalLine): JournalLine { JournalLine(line.account, line.credit, line.debit) }

  function Mirror(lines: seq<JournalLine>): (r: seq<JournalLine>)
    ensures |r| == |lines| && forall i :: 0 <= i < |lines| ==> r[i] == Flip(lines[i])
  {
    seq(|lines|, i requires 0 <= i < |lines| => Flip(lines[i]))
  }

  lemma {:induction false} MirrorTotals(lines: seq<JournalLine>, a: Id)
    ensures Debits(Mirror(lines)) == Credits(lines) && Credits(Mirror(lines)) == Debits(lines)
    ensures Effect(Mirror(lines), a) == -Effect(lines, a)
  {
    if lines != [] {
      var n := |lines| - 1;
      MirrorTotals(lines[..n], a);
      assert Mirror(lines)[..n] == Mirror(lines[..n]);
    }
  }

  // --- the journal service --------------------------------------------------

  predicate Live(e: Entry) { e.status == EntryPosted || e.status == EntryReversed }

  function LineError(chart: Chart, line: JournalLine): Option<Error>
  {
    if !OneSided(line) then Some(Invalid)
    else if line.account >= |chart.accounts| then Some(NotFound)
    else if !chart.accounts[line.account].active then Some(Invalid)
    else None
  }

  /** The error of the first bad line. */
  function LinesError(chart: Chart, lines: seq<JournalLine>): (r: Option<Error>)
    ensures r.None? ==> forall i :: 0 <= i < |lines| ==> LineError(chart, lines[i]).None?
  {
    if lines == [] then None
    else
      var earlier := LinesError(chart, lines[..|lines| - 1]);
      if earlier.Some? then earlier else LineError(chart, lines[|lines| - 1])
  }

  function ValidateLines(chart: Chart, lines: seq<JournalLine>): (r: Option<Error>)
    ensures r.None? ==> |lines| >= 2 && AllOneSided(lines)
  {
    if |lines| < 2 then Some(Invalid) else LinesError(chart, lines)
  }

  function DraftEntry(date: Date, currency: Currency, lines: seq<JournalLine>, manual: bool): Entry
  {
    Entry(date, currency, EntryDraft, None, None, lines, manual)
  }

  function CreateEntry(db: Db, date: Date, currency: Currency, lines: seq<JournalLine>): Result<Db, Error>
  {
    var error := ValidateLines(db.chart, lines);
    if error.Some? then Failure(error.value)
    else Success(db.(entries := db.entries + [DraftEntry(date, currency, lines, true)]))
  }

  function UpdateEntry(db: Db, e: Id, lines: seq<JournalLine>): Result<Db, Error>
  {
    if e >= |db.entries| then Failure(NotFound)
    else if db.entries[e].status != EntryDraft then Failure(Invalid)
    else
      var error := ValidateLines(db.chart, lines);
      if error.Some? then Failure(error.value)
      else Success(db.(entries := db.entries[e := db.entries[e].(lines := lines)]))
  }

  function VoidEntry(db: Db, e: Id): Result<Db, Error>
  {
    if e >= |db.entries| then Failure(NotFound)
    else if db.entries[e].status != EntryDraft then Failure(Invalid)
    else Success(db.(entries := db.entries[e := db.entries[e].(status := EntryVoided)]))
  }

  /** The open period covering a date, or the reason there is none. */
  function OpenPeriod(periods: seq<Period>, date: Date): Result<Id, Error>
  {
    var found := FindPeriod(periods, date);
    if found.None? then Failure(PeriodMissing)
    else if !periods[found.value].open then Failure(PeriodClosed)
    else Success(found.value)
  }

  function PostEntry(db: Db, e: Id): Result<Db, Error>
  {
    if e >= |db.entries| then Failure(NotFound)
    else
      var entry := db.entries[e];
      if entry.status != EntryDraft then Failure(Invalid)
      else if |entry.lines| < 2 then Failure(Invalid)
      else if Debits(entry.lines) != Credits(entry.lines) then Failure(Invalid)
      else
        var p :- OpenPeriod(db.periods, entry.date);
        Success(db.(entries := db.entries[e := entry.(status := EntryPosted, period := Some(p))]))
  }

  function ReverseEntry(db: Db, e: Id, date: Date, manual: bool): Result<Db, Error>
  {
    if e >= |db.entries| then Failure(NotFound)
    else
      var original := db.entries[e];
      if original.status != EntryPosted then Failure(Invalid)
      else
        var p :- OpenPeriod(db.periods, date);
        Success(db.(entries := Reverse(db.entries, e, date, p, manual)))
  }

  function Reverse(entries: seq<Entry>, e: Id, date: Date, p: Id, manual: bool): seq<Entry>
    requires e < |entries|
  {
    entries[e := entries[e].(status := EntryReversed)]
    + [Entry(date, entries[e].currency, EntryPosted, Some(p), Some(e), Mirror(entries[e].lines), manual)]
  }

  /** A draft written and posted inside one transaction; its lines pass the one-sided CHECK first. */
  function WriteAndPost(db: Db, date: Date, currency: Currency, lines: seq<JournalLine>): Result<Db, Error>
  {
    if !AllOneSided(lines) then Failure(Conflict)
    else PostEntry(db.(entries := db.entries + [DraftEntry(date, currency, lines, false)]), |db.entries|)
  }

  // --- what holds of the entries table ----------------------------------------

  ghost predicate HasReverser(entries: seq<Entry>, e: Id)
  {
    exists j :: e < j < |entries| && entries[j].reverses == Some(e)
  }

  ghost predicate EntryOk(entries: seq<Entry>, periods: seq<Period>, i: Id)
    requires i < |entries|
  {
    var e := entries[i];
    && |e.lines| >= 2
    && AllOneSided(e.lines)
    && (if Live(e) then
          && Debits(e.lines) == Credits(e.lines)
          && e.period.Some? && e.period.value < |periods| && Covers(periods[e.period.value], e.date)
        else e.period.None? && e.reverses.None? && e.manual)
    && (e.reverses.Some? ==>
          var o := e.reverses.value;
          o < i && entries[o].status == EntryReversed
          && e.lines == Mirror(entries[o].lines) && e.currency == entries[o].currency)
    && (e.status == EntryReversed ==> HasReverser(entries, i))
  }

  ghost predicate OneReverserEach(entries: seq<Entry>)
  {
    forall i, j :: 0 <= i < |entries| && 0 <= j < |entries| ==>
      entries[i].reverses.Some? && entries[i].reverses == entries[j].reverses ==> i == j
  }

  ghost predicate EntriesOk(entries: seq<Entry>, periods: seq<Period>)
  {
    && (forall i :: 0 <= i < |entries| ==> EntryOk(entries, periods, i))
    && OneReverserEach(entries)
  }

  /** No row disappears, and a posted or reversed entry keeps everything but its status,
      which can only go from posted to reversed. */
  ghost predicate EntriesGrow(old_: seq<Entry>, new_: seq<Entry>)
  {
    && |old_| <= |new_|
    && forall i :: 0 <= i < |old_| && Live(old_[i]) ==>
         || new_[i] == old_[i]
         || (old_[i].status == EntryPosted && new_[i] == old_[i].(status := EntryReversed))
  }

  // --- each way the table changes keeps it sound --------------------------------

  lemma AppendKeepsEntriesOk(entries: seq<Entry>, periods: seq<Period>, e: Entry)
    requires EntriesOk(entries, periods)
    requires |e.lines| >= 2 && AllOneSided(e.lines) && e.reverses.None? && e.status != EntryReversed
    requires if Live(e) then
               && Debits(e.lines) == Credits(e.lines)
               && e.period.Some? && e.period.value < |periods| && Covers(periods[e.period.value], e.date)
             else e.period.None? && e.manual
    ensures EntriesOk(entries + [e], periods)
    ensures EntriesGrow(entries, entries + [e])
  {
    var after := entries + [e];
    forall i | 0 <= i < |after| ensures EntryOk(after, periods, i) {
      if i < |entries| {
        assert EntryOk(entries, periods, i);
        if HasReverser(entries, i) { KeepsReverser(entries, after, i); }
      }
    }
  }

  lemma KeepsReverser(entries: seq<Entry>, after: seq<Entry>, i: Id)
    requires HasReverser(entries, i) && |entries| <= |after|
    requires forall j :: 0 <= j < |entries| ==> after[j].reverses == entries[j].reverses
    ensures HasReverser(after, i)
  {
    var j :| i < j < |entries| && entries[j].reverses == Some(i);
    assert after[j].reverses == Some(i);
  }

  /** Editing, voiding or posting a draft row. */
  lemma DraftChangeKeepsEntriesOk(entries: seq<Entry>, periods: seq<Period>, i: Id, e: Entry)
    requires EntriesOk(entries, periods)
    requires i < |entries| && entries[i].status == EntryDraft
    requires |e.lines| >= 2 && AllOneSided(e.lines) && e.reverses.None? && e.status != EntryReversed
    requires if Live(e) then
               && Debits(e.lines) == Credits(e.lines)
               && e.period.Some? && e.period.value < |periods| && Covers(periods[e.period.value], e.date)
             else e.period.None? && e.manual
    ensures EntriesOk(entries[i := e], periods)
    ensures EntriesGrow(entries, entries[i := e])
  {
    var after := entries[i := e];
    assert EntryOk(entries, periods, i);
    forall k | 0 <= k < |after| ensures EntryOk(after, periods, k) {
      assert EntryOk(entries, periods, k);
      if HasReverser(entries, k) { KeepsReverser(entries, after, k); }
    }
  }

  lemma ReverseKeepsEntriesOk(entries: seq<Entry>, periods: seq<Period>, e: Id, date: Date, p: Id, manual: bool)
    requires EntriesOk(entries, periods)
    requires e < |entries| && entries[e].status == EntryPosted
    requires p < |periods| && Covers(periods[p], date)
    ensures EntriesOk(Reverse(entries, e, date, p, manual), periods)
    ensures EntriesGrow(entries, Reverse(entries, e, date, p, manual))
  {
    var after := Reverse(entries, e, date, p, manual);
    var n := |entries|;
    assert EntryOk(entries, periods, e);
    MirrorTotals(entries[e].lines, 0);
    forall i | 0 <= i < |after| ensures EntryOk(after, periods, i) {
      if i == e {
        assert after[n].reverses == Some(e);
        assert HasReverser(after, e);
      } else if i < n {
        assert EntryOk(entries, periods, i);
        if HasReverser(entries, i) { KeepsReverser(entries, after, i); }
      }
    }
    forall i, j | 0 <= i < |after| && 0 <= j < |after| && after[i].reverses.Some?
      && after[i].reverses == after[j].reverses
      ensures i == j
    {
      // Had an older row reversed `e`, `e` would already be reversed, not posted.
      if i < n { assert EntryOk(entries, periods, i); }
      if j < n { assert EntryOk(entries, periods, j); }
    }
  }

  lemma PeriodsGrowKeepsEntriesOk(entries: seq<Entry>, periods: seq<Period>, after: seq<Period>)
    requires EntriesOk(entries, periods) && PeriodsGrow(periods, after)
    ensures EntriesOk(entries, after)
  {
    forall i | 0 <= i < |entries| ensures EntryOk(entries, after, i) {
      assert EntryOk(entries, periods, i);
    }
  }

  // --- reversal chains -----------------------------------------------------------

  ghost function Reverser(entries: seq<Entry>, e: Id): (j: Id)
    requires HasReverser(entries, e)
    ensures e < j < |entries| && entries[j].reverses == Some(e)
  {
    var j :| e < j < |entries| && entries[j].reverses == Some(e);
    j
  }

  /** The entry, its reverser, the reverser's reverser, and so on. */
  ghost function Chain(entries: seq<Entry>, e: Id): (chain: seq<Id>)
    requires e < |entries|
    ensures |chain| >= 1 && chain[0] == e && forall k :: 0 <= k < |chain| ==> chain[k] < |entries|
    decreases |entries| - e
  {
    if HasReverser(entries, e) then [e] + Chain(entries, Reverser(entries, e)) else [e]
  }

  /** `j` is a later row that reverses `e`, and `e` is marked reversed. */
  predicate Links(entries: seq<Entry>, e: Id, j: Id)
  {
    e < j < |entries| && entries[j].reverses == Some(e) && entries[e].status == EntryReversed
  }

  function EffectAt(entries: seq<Entry>, a: Id): Id -> int
  {
    (e: Id) => if e < |entries| then Effect(entries[e].lines, a) else 0
  }

  /** A chain visits rows in strictly increasing order, so it never loops; each entry is reversed
      by the next one, and exactly the last one is still posted. */
  lemma {:induction false} ChainShape(entries: seq<Entry>, periods: seq<Period>, e: Id)
    requires EntriesOk(entries, periods) && e < |entries| && Live(entries[e])
    ensures forall k :: 0 <= k < |Chain(entries, e)| - 1 ==>
              Links(entries, Chain(entries, e)[k], Chain(entries, e)[k + 1])
    ensures entries[Chain(entries, e)[|Chain(entries, e)| - 1]].status == EntryPosted
    decreases |entries| - e
  {
    assert EntryOk(entries, periods, e);
    if HasReverser(entries, e) {
      var j := Reverser(entries, e);
      assert EntryOk(entries, periods, j);
      ChainShape(entries, periods, j);
      var rest := Chain(entries, j);
      forall k | 0 <= k < |Chain(entries, e)| - 1
        ensures Links(entries, Chain(entries, e)[k], Chain(entries, e)[k + 1])
      {
        if k > 0 { assert Links(entries, rest[k - 1], rest[k]); }
      }
    }
  }

  /** A chain alternates: its net effect on every account is the first entry's effect when its
      length is odd, and zero when it is even. */
  lemma {:induction false} ChainNet(entries: seq<Entry>, periods: seq<Period>, e: Id, a: Id)
    requires EntriesOk(entries, periods) && e < |entries| && Live(entries[e])
    ensures Sum(Chain(entries, e), EffectAt(entries, a))
         == if |Chain(entries, e)| % 2 == 1 then Effect(entries[e].lines, a) else 0
    decreases |entries| - e
  {
    var f := EffectAt(entries, a);
    SumOfOne(e, f);
    if HasReverser(entries, e) {
      var j := Reverser(entries, e);
      assert EntryOk(entries, periods, j);
      ChainNet(entries, periods, j, a);
      MirrorTotals(entries[e].lines, a);
      SumConcat([e], Chain(entries, j), f);
    }
  }
}
