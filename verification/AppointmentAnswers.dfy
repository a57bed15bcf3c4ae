/** Which slots the query offers, told from the rules, the dates, the zone and the appointments alone. */
module Offers {
  import opened Wrappers
  import opened Sums
  import opened Queries
  import opened Schedules
  import opened Availability
  import B = Booking

  /** Step `k` of a rule on a date: the date falls on the rule's weekday (day 1 is a Monday), the step
      ends within the rule's hours, and both ends are converted to UTC on their own. */
  predicate Puts(calendar: Calendar, rule: Rule, date: int, k: nat, duration: int, slot: Slot)
  {
    var first := date * 86_400_000_000 + (rule.start + k * duration) * 60_000_000;
    var last := first + duration * 60_000_000;
    && rule.day == (date - 1) % 7
    && rule.start + k * duration + duration <= rule.end
    && slot.start == first - calendar.offset(first) && slot.end == last - calendar.offset(last)
  }

  ghost predicate OnSomeGrid(s: Schedule, c: Id, dateFrom: int, dateTo: int, duration: int, slot: Slot)
    requires c < |s.calendars|
  {
    exists rule, date, k: nat ::
      && rule in s.rules && rule.calendar == c && dateFrom <= date <= dateTo
      && Puts(s.calendars[c], rule, date, k, duration, slot)
  }

  /** A confirmed appointment of the calendar that meets the slot. */
  predicate Meets(a: Appointment, c: Id, slot: Slot)
  {
    a.calendar == c && a.status == Confirmed && slot.start < a.end && a.start < slot.end
  }

  /** It also meets the fetched window: from a day before the first local midnight to a day after the
      last local microsecond. */
  predicate Fetched(calendar: Calendar, dateFrom: int, dateTo: int, a: Appointment)
  {
    var first, last := dateFrom * 86_400_000_000, (dateTo + 1) * 86_400_000_000 - 1;
    && a.end > first - calendar.offset(first) - 86_400_000_000
    && a.start < last - calendar.offset(last) + 86_400_000_000
  }

  lemma PutsIsByRule(calendar: Calendar, rule: Rule, date: int, k: nat, duration: int, slot: Slot)
    ensures Puts(calendar, rule, date, k, duration, slot) <==> ByRule(calendar, rule, date, duration * MINUTE, k, slot)
  {
    assert k * (duration * MINUTE) == (k * duration) * MINUTE;
  }

  lemma GridAnswer(s: Schedule, c: Id, dateFrom: int, dateTo: int, duration: int, slot: Slot)
    requires c < |s.calendars|
    ensures OnSomeGrid(s, c, dateFrom, dateTo, duration, slot) <==> Candidate(s, c, dateFrom, dateTo, duration, slot)
  {
    forall rule, date, k: nat
      ensures Puts(s.calendars[c], rule, date, k, duration, slot)
         <==> ByRule(s.calendars[c], rule, date, duration * MINUTE, k, slot)
    {
      PutsIsByRule(s.calendars[c], rule, date, k, duration, slot);
    }
  }

  lemma FreeOfSelected(table: seq<Appointment>, wanted: Appointment -> bool, c: Id, slot: Slot)
    requires forall a :: wanted(a) ==> a.calendar == c && a.status == Confirmed
    ensures Free(slot, Select(table, wanted))
       <==> forall i :: 0 <= i < |table| && wanted(table[i]) ==> !Meets(table[i], c, slot)
  {
    var rows := Select(table, wanted);
    forall a ensures a in rows <==> a in table && wanted(a) {
      SelectMembers(table, wanted, a);
    }
    if Free(slot, rows) {
      forall i | 0 <= i < |table| && wanted(table[i]) ensures !Meets(table[i], c, slot) {
        assert table[i] in rows;
      }
    }
    if forall i :: 0 <= i < |table| && wanted(table[i]) ==> !Meets(table[i], c, slot) {
      forall i | 0 <= i < |rows| ensures !(slot.start < rows[i].end && slot.end > rows[i].start) {
        assert rows[i] in rows;
      }
    }
  }

  /** A fetched appointment meets the slot. */
  predicate Taken(s: Schedule, c: Id, dateFrom: int, dateTo: int, slot: Slot)
    requires c < |s.calendars|
  {
    exists i :: 0 <= i < |s.appointments| && Fetched(s.calendars[c], dateFrom, dateTo, s.appointments[i])
                && Meets(s.appointments[i], c, slot)
  }

  lemma TakenAnswer(s: Schedule, c: Id, dateFrom: int, dateTo: int, slot: Slot)
    requires c < |s.calendars|
    ensures Free(slot, Prefetched(s, c, dateFrom, dateTo)) <==> !Taken(s, c, dateFrom, dateTo, slot)
  {
    var calendar := s.calendars[c];
    var wanted := Prefetch(c, WindowStart(calendar, dateFrom), WindowEnd(calendar, dateTo));
    FreeOfSelected(s.appointments, wanted, c, slot);
    forall a: Appointment
      ensures wanted(a) && Meets(a, c, slot) <==> Fetched(calendar, dateFrom, dateTo, a) && Meets(a, c, slot)
    {
    }
  }

  /** A query is answered exactly when its range has at most 91 days, its duration is five minutes to
      a day, and the calendar is there. It offers, in order of start, exactly the slots some rule of
      the calendar puts on some date of the range that no fetched appointment meets. */
  lemma {:induction false} SlotsAnswer(s: Schedule, c: Id, dateFrom: int, dateTo: int, duration: int, slot: Slot)
    ensures var r := AvailableSlots(s, c, dateFrom, dateTo, duration);
            && ErrorOf(r) == (if dateTo < dateFrom || dateTo > dateFrom + 90 || duration < 5 || duration > 1440
                              then Some(Invalid) else if c >= |s.calendars| then Some(NotFound) else None)
            && (r.Success? ==>
                  && (forall i, j :: 0 <= i < j < |r.value| ==> r.value[i].start <= r.value[j].start)
                  && (slot in r.value
                      <==> OnSomeGrid(s, c, dateFrom, dateTo, duration, slot) && !Taken(s, c, dateFrom, dateTo, slot)))
  {
    if QueryOk(dateFrom, dateTo, duration) && c < |s.calendars| {
      SlotsAgainstMembers(s, c, dateFrom, dateTo, duration, Prefetched(s, c, dateFrom, dateTo), slot);
      GridAnswer(s, c, dateFrom, dateTo, duration, slot);
      TakenAnswer(s, c, dateFrom, dateTo, slot);
    }
  }

  /** With offsets less than 24 hours apart: exactly the slots of the rules that no confirmed
      appointment of the calendar meets. */
  lemma {:induction false} OfferedExactlyWhenFree(s: Schedule, c: Id, dateFrom: int, dateTo: int, duration: int, slot: Slot)
    requires c < |s.calendars| && QueryOk(dateFrom, dateTo, duration)
    requires RulesOk(s.rules) && SpreadUnderADay(s.calendars[c], dateFrom, dateTo)
    ensures AvailableSlots(s, c, dateFrom, dateTo, duration).Success?
    ensures slot in AvailableSlots(s, c, dateFrom, dateTo, duration).value
       <==> && OnSomeGrid(s, c, dateFrom, dateTo, duration, slot)
            && forall i :: 0 <= i < |s.appointments| ==> !Meets(s.appointments[i], c, slot)
  {
    PrefetchSuffices(s, c, dateFrom, dateTo, duration);
    SlotsAgainstMembers(s, c, dateFrom, dateTo, duration, Select(s.appointments, ConfirmedOn(c)), slot);
    GridAnswer(s, c, dateFrom, dateTo, duration, slot);
    FreeOfSelected(s.appointments, ConfirmedOn(c), c, slot);
  }

  // --- how often a slot is offered ---------------------------------------------------------------------

  function PutAt(calendar: Calendar, rule: Rule, date: int, duration: int, slot: Slot): nat -> int
  {
    (k: nat) => Indicator(Puts(calendar, rule, date, k, duration, slot))
  }

  function Steps(n: nat): (r: seq<nat>)
    ensures |r| == n && forall i :: 0 <= i < n ==> r[i] == i
  {
    seq(n, i => i)
  }

  function Dates(dateFrom: int, dateTo: int): (r: seq<int>)
    ensures |r| == (if dateFrom <= dateTo then dateTo - dateFrom + 1 else 0)
    ensures forall i :: 0 <= i < |r| ==> r[i] == dateFrom + i
  {
    seq(if dateFrom <= dateTo then dateTo - dateFrom + 1 else 0, i => dateFrom + i)
  }

  /** How many steps of the rule put the slot on the date; a day has at most 1440. */
  function StepsPutting(calendar: Calendar, date: int, duration: int, slot: Slot): Rule -> int
  {
    (rule: Rule) => Sum(Steps(1440), PutAt(calendar, rule, date, duration, slot))
  }

  function StepsOfCalendar(s: Schedule, c: Id, date: int, duration: int, slot: Slot): Rule -> int
    requires c < |s.calendars|
  {
    (rule: Rule) => if rule.calendar == c then StepsPutting(s.calendars[c], date, duration, slot)(rule) else 0
  }

  function PuttingOn(s: Schedule, c: Id, duration: int, slot: Slot): int -> int
    requires c < |s.calendars|
  {
    (date: int) => Sum(s.rules, StepsOfCalendar(s, c, date, duration, slot))
  }

  lemma {:induction false} SumOfSelected<T>(rows: seq<T>, wanted: T -> bool, f: T -> int)
    requires forall row :: row in rows && !wanted(row) ==> f(row) == 0
    ensures Sum(Select(rows, wanted), f) == Sum(rows, f)
  {
    if rows != [] {
      var n := |rows| - 1;
      assert forall row :: row in rows[..n] ==> row in rows;
      SumOfSelected(rows[..n], wanted, f);
      if wanted(rows[n]) { SumAppend(Select(rows[..n], wanted), rows[n], f); }
    }
  }

  lemma {:induction false} NoLaterStep(f: nat -> int, k: nat, n: nat)
    requires k <= n && forall j: nat :: k <= j < n ==> f(j) == 0
    ensures Sum(Steps(n), f) == Sum(Steps(k), f)
  {
    if k < n {
      NoLaterStep(f, k, n - 1);
      assert Steps(n)[..n - 1] == Steps(n - 1);
    } else {
      assert Steps(n) == Steps(k);
    }
  }

  lemma OneMoreStep(calendar: Calendar, rule: Rule, date: int, duration: int, slot: Slot, k: nat)
    requires rule.day == (date - 1) % 7
    requires At(date, rule.start) + k * (duration * MINUTE) + duration * MINUTE <= At(date, rule.end)
    ensures var f := PutAt(calendar, rule, date, duration, slot);
            && Sum(Steps(k + 1), f) == Sum(Steps(k), f) + f(k)
            && f(k) == Indicator(slot == SlotAt(calendar, At(date, rule.start) + k * (duration * MINUTE), duration * MINUTE))
  {
    assert Steps(k + 1) == Steps(k) + [k];
    SumAppend<nat>(Steps(k), k, PutAt(calendar, rule, date, duration, slot));
    PutsIsByRule(calendar, rule, date, k, duration, slot);
  }

  lemma NoStepLeft(calendar: Calendar, rule: Rule, date: int, duration: int, slot: Slot, k: nat)
    requires k <= 1440 && duration > 0
    requires At(date, rule.start) + k * (duration * MINUTE) + duration * MINUTE > At(date, rule.end)
    ensures Sum(Steps(1440), PutAt(calendar, rule, date, duration, slot))
         == Sum(Steps(k), PutAt(calendar, rule, date, duration, slot))
  {
    assert k * (duration * MINUTE) == (k * duration) * MINUTE;
    forall j: nat | k <= j < 1440 ensures PutAt(calendar, rule, date, duration, slot)(j) == 0 {
      assert j * duration >= k * duration;
    }
    NoLaterStep(PutAt(calendar, rule, date, duration, slot), k, 1440);
  }

  /** From step `k` on, a free slot is returned once for every step that puts it. */
  lemma {:induction false} StepsCount(calendar: Calendar, rule: Rule, date: int, duration: int, booked: seq<Appointment>,
                                      slot: Slot, k: nat)
    requires RuleOk(rule) && duration > 0 && rule.day == (date - 1) % 7 && k <= 1440
    ensures var f := PutAt(calendar, rule, date, duration, slot);
            var delta := duration * MINUTE;
            multiset(FreeSlots(calendar, At(date, rule.start) + k * delta, At(date, rule.end), delta, booked))[slot]
            == if Free(slot, booked) then Sum(Steps(1440), f) - Sum(Steps(k), f) else 0
    decreases 1440 - k
  {
    var delta := duration * MINUTE;
    var cursor, end := At(date, rule.start) + k * delta, At(date, rule.end);
    if cursor + delta <= end {
      assert k < 1440 by { StepsFitADay(rule, date, duration, k); }
      assert cursor + delta == At(date, rule.start) + (k + 1) * delta;
      StepsCount(calendar, rule, date, duration, booked, slot, k + 1);
      OneMoreStep(calendar, rule, date, duration, slot, k);
    } else {
      NoStepLeft(calendar, rule, date, duration, slot, k);
    }
  }

  lemma StepsFitADay(rule: Rule, date: int, duration: int, k: nat)
    requires RuleOk(rule) && duration > 0
    requires At(date, rule.start) + k * (duration * MINUTE) + duration * MINUTE <= At(date, rule.end)
    ensures k < 1440
  {
    var taken := k * duration;
    assert k * (duration * MINUTE) == taken * MINUTE;
    assert taken + duration <= 1440;
    AtLeastOneEach(k, duration);
  }

  lemma AtLeastOneEach(k: nat, each: int)
    requires each > 0
    ensures k * each >= k
  {
  }

  lemma RuleCount(calendar: Calendar, rule: Rule, date: int, duration: int, booked: seq<Appointment>, slot: Slot)
    requires duration > 0 && RuleOk(rule) && rule.day == (date - 1) % 7
    ensures multiset(FreeSlots(calendar, At(date, rule.start), At(date, rule.end), duration * MINUTE, booked))[slot]
         == if Free(slot, booked) then StepsPutting(calendar, date, duration, slot)(rule) else 0
  {
    StepsCount(calendar, rule, date, duration, booked, slot, 0);
    assert Steps(0) == [];
  }

  lemma {:induction false} RulesCount(calendar: Calendar, rules: seq<Rule>, date: int, duration: int,
                                      booked: seq<Appointment>, slot: Slot)
    requires duration > 0 && forall rule :: rule in rules ==> RuleOk(rule) && rule.day == (date - 1) % 7
    ensures multiset(SlotsOfRules(calendar, rules, date, duration * MINUTE, booked))[slot]
         == if Free(slot, booked) then Sum(rules, StepsPutting(calendar, date, duration, slot)) else 0
  {
    if rules != [] {
      var first, rest, f := rules[0], rules[1..], StepsPutting(calendar, date, duration, slot);
      assert rules == [first] + rest;
      assert first in rules && forall rule :: rule in rest ==> rule in rules;
      RulesCount(calendar, rest, date, duration, booked, slot);
      RuleCount(calendar, first, date, duration, booked, slot);
      SumConcat([first], rest, f);
      SumOfOne(first, f);
    }
  }

  function PuttingAny(calendar: Calendar, rules: seq<Rule>, duration: int, slot: Slot): int -> int
  {
    (date: int) => Sum(rules, StepsPutting(calendar, date, duration, slot))
  }

  lemma DayCount(calendar: Calendar, rules: seq<Rule>, date: int, duration: int, booked: seq<Appointment>, slot: Slot)
    requires duration > 0 && forall rule :: rule in rules ==> RuleOk(rule)
    ensures multiset(SlotsOfRules(calendar, Select(rules, OnDay(Weekday(date))), date, duration * MINUTE, booked))[slot]
         == if Free(slot, booked) then PuttingAny(calendar, rules, duration, slot)(date) else 0
  {
    var today, f := Select(rules, OnDay(Weekday(date))), StepsPutting(calendar, date, duration, slot);
    forall rule ensures rule in today <==> rule in rules && rule.day == Weekday(date) {
      SelectMembers(rules, OnDay(Weekday(date)), rule);
    }
    RulesCount(calendar, today, date, duration, booked, slot);
    forall rule: Rule | rule.day != Weekday(date) ensures f(rule) == 0 {
      NoLaterStep(PutAt(calendar, rule, date, duration, slot), 0, 1440);
      assert Steps(0) == [];
    }
    SumOfSelected(rules, OnDay(Weekday(date)), f);
  }

  lemma FirstDate(dateFrom: int, dateTo: int, f: int -> int)
    requires dateFrom <= dateTo
    ensures Sum(Dates(dateFrom, dateTo), f) == f(dateFrom) + Sum(Dates(dateFrom + 1, dateTo), f)
  {
    assert Dates(dateFrom, dateTo) == [dateFrom] + Dates(dateFrom + 1, dateTo);
    SumConcat([dateFrom], Dates(dateFrom + 1, dateTo), f);
    SumOfOne(dateFrom, f);
  }

  lemma {:induction false} DaysCount(calendar: Calendar, rules: seq<Rule>, dateFrom: int, dateTo: int, duration: int,
                                     booked: seq<Appointment>, slot: Slot)
    requires duration > 0 && forall rule :: rule in rules ==> RuleOk(rule)
    ensures multiset(SlotsOfDays(calendar, rules, dateFrom, dateTo, duration * MINUTE, booked))[slot]
         == if Free(slot, booked) then Sum(Dates(dateFrom, dateTo), PuttingAny(calendar, rules, duration, slot)) else 0
    decreases dateTo - dateFrom
  {
    var f := PuttingAny(calendar, rules, duration, slot);
    if dateFrom <= dateTo {
      DayCount(calendar, rules, dateFrom, duration, booked, slot);
      DaysCount(calendar, rules, dateFrom + 1, dateTo, duration, booked, slot);
      FirstDate(dateFrom, dateTo, f);
    } else {
      assert Dates(dateFrom, dateTo) == [];
    }
  }

  lemma OfRulesOfCalendar(s: Schedule, c: Id, dates: seq<int>, duration: int, slot: Slot)
    requires c < |s.calendars|
    ensures Sum(dates, PuttingOn(s, c, duration, slot))
         == Sum(dates, PuttingAny(s.calendars[c], Select(s.rules, OfCalendar(c)), duration, slot))
  {
    var calendar, mine := s.calendars[c], Select(s.rules, OfCalendar(c));
    forall i | 0 <= i < |dates|
      ensures PuttingOn(s, c, duration, slot)(dates[i]) == PuttingAny(calendar, mine, duration, slot)(dates[i])
    {
      var f, g := StepsOfCalendar(s, c, dates[i], duration, slot), StepsPutting(calendar, dates[i], duration, slot);
      SumOfSelected(s.rules, OfCalendar(c), f);
      forall k | 0 <= k < |mine| ensures f(mine[k]) == g(mine[k]) {
        SelectMembers(s.rules, OfCalendar(c), mine[k]);
      }
      SumEqual(mine, mine, f, g);
    }
    SumEqual(dates, dates, PuttingOn(s, c, duration, slot), PuttingAny(calendar, mine, duration, slot));
  }

  /** A slot that no fetched appointment meets is offered once for every date, rule and step that put
      it there: nothing is dropped, and nothing is said twice unless two rules say it. */
  lemma {:induction false} OfferedAsOftenAsPut(s: Schedule, c: Id, dateFrom: int, dateTo: int, duration: int, slot: Slot)
    requires c < |s.calendars| && QueryOk(dateFrom, dateTo, duration) && RulesOk(s.rules)
    ensures AvailableSlots(s, c, dateFrom, dateTo, duration).Success?
    ensures multiset(AvailableSlots(s, c, dateFrom, dateTo, duration).value)[slot]
         == if Taken(s, c, dateFrom, dateTo, slot) then 0
            else Sum(Dates(dateFrom, dateTo), PuttingOn(s, c, duration, slot))
  {
    var calendar, mine, booked := s.calendars[c], Select(s.rules, OfCalendar(c)), Prefetched(s, c, dateFrom, dateTo);
    forall rule | rule in mine ensures RuleOk(rule) {
      SelectMembers(s.rules, OfCalendar(c), rule);
    }
    SortPermutes(SlotsOfDays(calendar, mine, dateFrom, dateTo, duration * MINUTE, booked));
    DaysCount(calendar, mine, dateFrom, dateTo, duration, booked, slot);
    OfRulesOfCalendar(s, c, Dates(dateFrom, dateTo), duration, slot);
    TakenAnswer(s, c, dateFrom, dateTo, slot);
  }
}

/** What the calls on rules and appointments answer, told the same way. */
module BookingAnswers {
  import opened Wrappers
  import opened Schedules
  import opened Availability
  import opened Offers
  import B = Booking

  lemma AddRuleAnswer(s: Schedule, rule: Rule)
    ensures var r := B.Apply(s, B.AddRule(rule));
            && ErrorOf(r) == (if rule.day < 0 || rule.day > 6 || rule.start < 0 || rule.end > 1440 || rule.end <= rule.start
                              then Some(Invalid) else if rule.calendar >= |s.calendars| then Some(NotFound) else None)
            && (r.Success? ==> r.value == s.(rules := s.rules + [rule]))
  {
  }

  predicate InTheWay(s: Schedule, c: Id, start: int, end: int)
  {
    exists i :: 0 <= i < |s.appointments| && Meets(s.appointments[i], c, Slot(start, end))
  }

  /** A range is booked unless a confirmed appointment of the calendar meets it; the new row is
      confirmed and has the range asked for. */
  lemma BookAnswer(s: Schedule, c: Id, start: int, end: int)
    requires B.Sound(s)
    ensures var r := B.Apply(s, B.BookSlot(c, start, end));
            && ErrorOf(r) == (if end <= start then Some(Invalid) else if c >= |s.calendars| then Some(NotFound)
                              else if InTheWay(s, c, start, end) then Some(SlotUnavailable) else None)
            && (r.Success? ==>
                  r.value == s.(appointments := s.appointments + [Appointment(c, start, end, Confirmed)]))
  {
    var row := Appointment(c, start, end, Confirmed);
    B.AppendedClashes(s.appointments, row);
    assert forall i :: 0 <= i < |s.appointments| ==>
             (B.Clash(s.appointments[i], row) <==> Meets(s.appointments[i], c, Slot(start, end)));
  }

  /** Another confirmed appointment of the same calendar meets the range. */
  predicate OtherInTheWay(s: Schedule, i: Id, start: int, end: int)
    requires i < |s.appointments|
  {
    exists j :: 0 <= j < |s.appointments| && j != i && Meets(s.appointments[j], s.appointments[i].calendar, Slot(start, end))
  }

  /** A confirmed appointment is moved unless another one meets the new range; nothing but its range
      changes. */
  lemma MoveAnswer(s: Schedule, i: Id, start: int, end: int)
    requires B.Sound(s)
    ensures var r := B.Apply(s, B.Move(i, start, end));
            && ErrorOf(r) == (if end <= start then Some(Invalid) else if i >= |s.appointments| then Some(NotFound)
                              else if s.appointments[i].status != Confirmed then Some(Invalid)
                              else if OtherInTheWay(s, i, start, end) then Some(SlotUnavailable) else None)
            && (r.Success? ==>
                  r.value == s.(appointments := s.appointments[i :=
                               Appointment(s.appointments[i].calendar, start, end, Confirmed)]))
  {
    if i < |s.appointments| && s.appointments[i].status == Confirmed {
      B.MovesExactlyWhen(s, i, start, end);
      if OtherInTheWay(s, i, start, end) {
        var j :| 0 <= j < |s.appointments| && j != i
          && Meets(s.appointments[j], s.appointments[i].calendar, Slot(start, end));
        assert !B.LeavesRoom(s.appointments, i, j, start, end);
      } else {
        forall j | 0 <= j < |s.appointments| ensures B.LeavesRoom(s.appointments, i, j, start, end) {
          assert !Meets(s.appointments[j], s.appointments[i].calendar, Slot(start, end)) || j == i;
        }
      }
    }
  }

  /** Cancelling, completing and marking as a no-show need a confirmed appointment and change only
      its status, never refused for another appointment. */
  lemma CloseAnswer(s: Schedule, i: Id, status: Status)
    requires B.Sound(s) && status != Confirmed
    ensures var call := match status case Completed => B.Complete(i) case NoShow => B.MarkNoShow(i) case _ => B.Cancel(i);
            var r := B.Apply(s, call);
            && ErrorOf(r) == (if i >= |s.appointments| then Some(NotFound)
                              else if s.appointments[i].status != Confirmed then Some(Invalid) else None)
            && (r.Success? ==>
                  r.value == s.(appointments := s.appointments[i := s.appointments[i].(status := status)]))
  {
  }
}
