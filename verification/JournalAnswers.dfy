/** What the period and journal calls answer, told from their arguments and the rows they name and
    not by the functions the transactions are made of: what is refused, with which error, and what
    every row is afterwards. */
module JournalAnswers {
  import opened Wrappers
  import opened Sums
  import opened Records
  import opened Periods
  import opened Journal
  import opened Invariants
  import O = Operations

  // --- periods ---------------------------------------------------------------------------

  /** The first period with the date; in a reachable state there is no other. */
  predicate PeriodOf(periods: seq<Period>, date: Date, p: Id)
  {
    && p < |periods| && periods[p].start <= date <= periods[p].end
    && forall q :: 0 <= q < p ==> !(periods[q].start <= date <= periods[q].end)
  }

  /** Why nothing can be posted on a date, if nothing can. */
  ghost function DateRefused(periods: seq<Period>, date: Date): Option<Error>
  {
    if forall p :: 0 <= p < |periods| ==> !(periods[p].start <= date <= periods[p].end) then Some(PeriodMissing)
    else if exists p: Id :: PeriodOf(periods, date, p) && !periods[p].open then Some(PeriodClosed)
    else None
  }

  lemma {:induction false} FoundIsFirst(periods: seq<Period>, date: Date, p: Id)
    ensures FindPeriod(periods, date) == Some(p) <==> PeriodOf(periods, date, p)
  {
    if periods != [] {
      var n := |periods| - 1;
      FoundIsFirst(periods[..n], date, p);
      if FindPeriod(periods[..n], date).Some? {
        FoundIsFirst(periods[..n], date, FindPeriod(periods[..n], date).value);
      }
    }
  }

  /** The period an entry is posted into is the first one with its date, and it is open. */
  lemma {:induction false} LookupAnswer(periods: seq<Period>, date: Date)
    ensures ErrorOf(OpenPeriod(periods, date)) == DateRefused(periods, date)
    ensures OpenPeriod(periods, date).Success? ==>
              && PeriodOf(periods, date, OpenPeriod(periods, date).value)
              && periods[OpenPeriod(periods, date).value].open
  {
    var found := FindPeriod(periods, date);
    if found.Some? {
      forall p: Id ensures PeriodOf(periods, date, p) <==> p == found.value {
        FoundIsFirst(periods, date, p);
      }
    }
  }

  /** A period is created exactly when it does not end before it starts and shares no day with
      another. From then on its dates, and no others, are looked up to it. */
  lemma {:induction false} CreatePeriodAnswer(db: Db, start: Date, end: Date, date: Date)
    ensures var r := O.Apply(db, O.CreatePeriod(start, end));
            && ErrorOf(r) == (if end < start then Some(Invalid)
                              else if exists i :: 0 <= i < |db.periods| && db.periods[i].start <= end
                                                  && start <= db.periods[i].end then Some(Conflict) else None)
            && (r.Success? ==>
                  && r.value == db.(periods := r.value.periods) && |r.value.periods| == |db.periods| + 1
                  && r.value.periods[..|db.periods|] == db.periods && r.value.periods[|db.periods|].open
                  && FindPeriod(r.value.periods, date)
                     == if start <= date <= end then Some(|db.periods|) else FindPeriod(db.periods, date))
  {
    var r := O.Apply(db, O.CreatePeriod(start, end));
    if r.Success? {
      assert r.value.periods[..|db.periods|] == db.periods;
      var found := FindPeriod(db.periods, date);
      if found.Some? { assert !Overlap(db.periods[found.value], Period(start, end, true)); }
    }
  }

  /** Closing needs an open period, reopening a closed one; nothing but the one flag changes. */
  lemma SetPeriodAnswer(db: Db, p: Id, open: bool)
    ensures var r := O.Apply(db, if open then O.ReopenPeriod(p) else O.ClosePeriod(p));
            && ErrorOf(r) == (if p >= |db.periods| then Some(NotFound)
                              else if db.periods[p].open == open then Some(Invalid) else None)
            && (r.Success? ==>
                  && r.value == db.(periods := r.value.periods) && |r.value.periods| == |db.periods|
                  && r.value.periods[p] == Period(db.periods[p].start, db.periods[p].end, open)
                  && forall q :: 0 <= q < |db.periods| && q != p ==> r.value.periods[q] == db.periods[q])
  {
  }

  // --- drafts ------------------------------------------------------------------------------

  predicate OnOneSide(line: JournalLine)
  {
    (line.debit > 0 && line.credit == 0) || (line.debit == 0 && line.credit > 0)
  }

  /** A line on one side of an account that is there and active. */
  predicate Bookable(chart: Chart, line: JournalLine)
  {
    OnOneSide(line) && line.account < |chart.accounts| && chart.accounts[line.account].active
  }

  /** Line `i` is the first one that cannot be booked. */
  predicate FirstBad(chart: Chart, lines: seq<JournalLine>, i: nat)
  {
    i < |lines| && !Bookable(chart, lines[i]) && forall j :: 0 <= j < i ==> Bookable(chart, lines[j])
  }

  ghost predicate LinesRefused(chart: Chart, lines: seq<JournalLine>, error: Option<Error>)
  {
    if |lines| < 2 then error == Some(Invalid)
    else if forall i :: 0 <= i < |lines| ==> Bookable(chart, lines[i]) then error == None
    else exists i: nat :: FirstBad(chart, lines, i)
           && error == Some(if OnOneSide(lines[i]) && lines[i].account >= |chart.accounts| then NotFound else Invalid)
  }

  lemma {:induction false} NoErrorWhenBookable(chart: Chart, lines: seq<JournalLine>)
    ensures LinesError(chart, lines).None? <==> forall i :: 0 <= i < |lines| ==> Bookable(chart, lines[i])
  {
    if lines != [] { NoErrorWhenBookable(chart, lines[..|lines| - 1]); }
  }

  lemma {:induction false} FirstBadDecides(chart: Chart, lines: seq<JournalLine>) returns (i: nat)
    requires LinesError(chart, lines).Some?
    ensures FirstBad(chart, lines, i)
    ensures LinesError(chart, lines)
         == Some(if OnOneSide(lines[i]) && lines[i].account >= |chart.accounts| then NotFound else Invalid)
  {
    var n := |lines| - 1;
    NoErrorWhenBookable(chart, lines[..n]);
    if LinesError(chart, lines[..n]).Some? {
      i := FirstBadDecides(chart, lines[..n]);
    } else {
      i := n;
    }
  }

  lemma ValidateLinesAnswer(chart: Chart, lines: seq<JournalLine>)
    ensures LinesRefused(chart, lines, ValidateLines(chart, lines))
  {
    NoErrorWhenBookable(chart, lines);
    if LinesError(chart, lines).Some? { var i := FirstBadDecides(chart, lines); }
  }

  /** A draft is created exactly when it has at least two lines, each on one side of an account that
      is there and active; otherwise the first bad line says why not. */
  lemma CreateEntryAnswer(db: Db, date: Date, currency: Currency, lines: seq<JournalLine>)
    ensures var r := O.Apply(db, O.CreateEntry(date, currency, lines));
            && LinesRefused(db.chart, lines, ErrorOf(r))
            && (r.Success? ==>
                  r.value == db.(entries := db.entries + [Entry(date, currency, EntryDraft, None, None, lines, true)]))
  {
    ValidateLinesAnswer(db.chart, lines);
  }

  lemma UpdateEntryAnswer(db: Db, e: Id, lines: seq<JournalLine>)
    ensures var r := O.Apply(db, O.UpdateEntry(e, lines));
            && (if e >= |db.entries| then ErrorOf(r) == Some(NotFound)
                else if db.entries[e].status != EntryDraft then ErrorOf(r) == Some(Invalid)
                else LinesRefused(db.chart, lines, ErrorOf(r)))
            && (r.Success? ==> r.value == db.(entries := db.entries[e := db.entries[e].(lines := lines)]))
  {
    ValidateLinesAnswer(db.chart, lines);
  }

  lemma VoidEntryAnswer(db: Db, e: Id)
    ensures var r := O.Apply(db, O.VoidEntry(e));
            && ErrorOf(r) == (if e >= |db.entries| then Some(NotFound)
                              else if db.entries[e].status != EntryDraft then Some(Invalid) else None)
            && (r.Success? ==> r.value == db.(entries := db.entries[e := db.entries[e].(status := EntryVoided)]))
  {
  }

  // --- posting and reversing ---------------------------------------------------------------------

  /** A draft of at least two balanced lines is posted into the open period of its date; nothing but
      its status and its period changes. */
  lemma PostEntryAnswer(db: Db, e: Id)
    ensures var r := O.Apply(db, O.PostEntry(e));
            && ErrorOf(r) == (if e >= |db.entries| then Some(NotFound)
                              else if db.entries[e].status != EntryDraft || |db.entries[e].lines| < 2
                                      || Debits(db.entries[e].lines) != Credits(db.entries[e].lines) then Some(Invalid)
                              else DateRefused(db.periods, db.entries[e].date))
            && (r.Success? ==>
                  exists p: Id ::
                    && PeriodOf(db.periods, db.entries[e].date, p) && db.periods[p].open
                    && r.value == db.(entries := db.entries[e := db.entries[e].(status := EntryPosted, period := Some(p))]))
  {
    if e < |db.entries| { LookupAnswer(db.periods, db.entries[e].date); }
  }

  /** Entry `e` was reversed: it changed only its status, and there is one more entry, on the date
      asked for and in the open period of that date, with the lines of `e` the other way round. */
  ghost predicate ReversedOn(db: Db, after: Db, e: Id, date: Date, manual: bool)
  {
    var n := |db.entries|;
    && e < n && |after.entries| == n + 1
    && after.entries[e] == db.entries[e].(status := EntryReversed)
    && (forall i :: 0 <= i < n && i != e ==> after.entries[i] == db.entries[i])
    && var original, mirror := db.entries[e], after.entries[n];
       && mirror.date == date && mirror.currency == original.currency
       && mirror.status == EntryPosted && mirror.reverses == Some(e) && mirror.manual == manual
       && mirror.period.Some? && PeriodOf(db.periods, date, mirror.period.value) && db.periods[mirror.period.value].open
       && |mirror.lines| == |original.lines|
       && forall k :: 0 <= k < |mirror.lines| ==>
            && mirror.lines[k].account == original.lines[k].account
            && mirror.lines[k].debit == original.lines[k].credit && mirror.lines[k].credit == original.lines[k].debit
  }

  lemma ReverseInSessionAnswer(db: Db, e: Id, date: Date, manual: bool)
    ensures var r := ReverseEntry(db, e, date, manual);
            && ErrorOf(r) == (if e >= |db.entries| then Some(NotFound)
                              else if db.entries[e].status != EntryPosted then Some(Invalid)
                              else DateRefused(db.periods, date))
            && (r.Success? ==> r.value == db.(entries := r.value.entries) && ReversedOn(db, r.value, e, date, manual))
  {
    LookupAnswer(db.periods, date);
  }

  /** A posted entry is reversed on a date exactly when something can be posted on that date. */
  lemma ReverseEntryAnswer(db: Db, e: Id, date: Date)
    ensures var r := O.Apply(db, O.ReverseEntry(e, date));
            && ErrorOf(r) == (if e >= |db.entries| then Some(NotFound)
                              else if db.entries[e].status != EntryPosted then Some(Invalid)
                              else DateRefused(db.periods, date))
            && (r.Success? ==> r.value == db.(entries := r.value.entries) && ReversedOn(db, r.value, e, date, true))
  {
    ReverseInSessionAnswer(db, e, date, true);
  }

  /** One more entry, posted on the date into its open period, and not a manual one. */
  ghost predicate BookedOn(db: Db, after: Db, date: Date, currency: Currency)
  {
    var n := |db.entries|;
    && |after.entries| == n + 1 && after.entries[..n] == db.entries
    && var e := after.entries[n];
       && e.date == date && e.currency == currency && e.status == EntryPosted && e.reverses == None && !e.manual
       && e.period.Some? && PeriodOf(db.periods, date, e.period.value) && db.periods[e.period.value].open
  }

  /** A balanced, one-sided entry written by a service is posted or refused by its date alone. */
  lemma BookingAnswer(db: Db, date: Date, currency: Currency, lines: seq<JournalLine>)
    requires |lines| >= 2 && Debits(lines) == Credits(lines)
    ensures var r := WriteAndPost(db, date, currency, lines);
            && ErrorOf(r) == (if !AllOneSided(lines) then Some(Conflict) else DateRefused(db.periods, date))
            && (r.Success? ==>
                  && r.value == db.(entries := r.value.entries) && BookedOn(db, r.value, date, currency)
                  && r.value.entries[|db.entries|].lines == lines)
  {
    LookupAnswer(db.periods, date);
    WriteAndPostAppends(db, date, currency, lines);
    assert (db.entries + [DraftEntry(date, currency, lines, false)])[|db.entries|].lines == lines;
  }
}
