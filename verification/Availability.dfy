/** Calendars, availability rules and appointments of one tenant (product/appointments/models.py).
    An instant and a wall-clock time are both counted in microseconds, a date in days. */
module Schedules {
  type Id = nat

  const MINUTE := 60_000_000
  const MINUTES_PER_DAY := 1440
  const DAY := MINUTES_PER_DAY * MINUTE

  /** `offset` gives the UTC offset the calendar's time zone resolves a wall-clock time to. */
  datatype Calendar = Calendar(offset: int -> int)

  /** `day` counts from Monday, `start` and `end` are minutes since local midnight. */
  datatype Rule = Rule(calendar: Id, day: int, start: int, end: int)

  datatype Status = Confirmed | Cancelled | Completed | NoShow
  datatype Appointment = Appointment(calendar: Id, start: int, end: int, status: Status)

  datatype Schedule = Schedule(calendars: seq<Calendar>, rules: seq<Rule>, appointments: seq<Appointment>)

  datatype Error = NotFound | Invalid | SlotUnavailable

  /** The CHECK constraints on a rule. */
  predicate RuleOk(rule: Rule)
  {
    0 <= rule.day <= 6 && 0 <= rule.start < rule.end <= MINUTES_PER_DAY
  }

  predicate RulesOk(rules: seq<Rule>)
  {
    forall r :: 0 <= r < |rules| ==> RuleOk(rules[r])
  }

  /** Local midnight plus some minutes. */
  function At(date: int, minutes: int): int { date * DAY + minutes * MINUTE }

  /** Monday is 0; day 1 is a Monday. */
  function Weekday(date: int): int { (date + 6) % 7 }

  function Utc(calendar: Calendar, local: int): int { local - calendar.offset(local) }
}

/** The bookable slots of a calendar (product/appointments/availability.py). */
module Availability {
  import opened Wrappers
  import opened Queries
  import opened Schedules

  const MAX_QUERY_DAYS := 90
  const MIN_DURATION := 5

  datatype Slot = Slot(start: int, end: int)

  /** Both ends are converted on their own: the slot is as long as its duration only when the two
      wall-clock times have the same offset. */
  function SlotAt(calendar: Calendar, local: int, delta: int): Slot
  {
    Slot(Utc(calendar, local), Utc(calendar, local + delta))
  }

  predicate Free(slot: Slot, booked: seq<Appointment>)
  {
    forall i :: 0 <= i < |booked| ==> !(slot.start < booked[i].end && slot.end > booked[i].start)
  }

  // --- what the loops compute -------------------------------------------------------

  /** The free slots from a cursor on, step by step while a whole slot fits. */
  function FreeSlots(calendar: Calendar, cursor: int, end: int, delta: int, booked: seq<Appointment>): seq<Slot>
    requires delta > 0
    decreases end - cursor
  {
    if cursor + delta > end then []
    else
      var slot := SlotAt(calendar, cursor, delta);
      (if Free(slot, booked) then [slot] else []) + FreeSlots(calendar, cursor + delta, end, delta, booked)
  }

  function SlotsOfRules(calendar: Calendar, rules: seq<Rule>, date: int, delta: int, booked: seq<Appointment>): seq<Slot>
    requires delta > 0
  {
    if rules == [] then []
    else FreeSlots(calendar, At(date, rules[0].start), At(date, rules[0].end), delta, booked)
         + SlotsOfRules(calendar, rules[1..], date, delta, booked)
  }

  function OnDay(day: int): Rule -> bool { (rule: Rule) => rule.day == day }
  function OfCalendar(c: Id): Rule -> bool { (rule: Rule) => rule.calendar == c }

  function SlotsOfDays(calendar: Calendar, rules: seq<Rule>, dateFrom: int, dateTo: int, delta: int,
                       booked: seq<Appointment>): seq<Slot>
    requires delta > 0
    decreases dateTo - dateFrom
  {
    if dateFrom > dateTo then []
    else SlotsOfRules(calendar, Select(rules, OnDay(Weekday(dateFrom))), dateFrom, delta, booked)
         + SlotsOfDays(calendar, rules, dateFrom + 1, dateTo, delta, booked)
  }

  predicate SortedByStart(slots: seq<Slot>)
  {
    forall i, j :: 0 <= i < j < |slots| ==> slots[i].start <= slots[j].start
  }

  /** Behind every slot that does not start later. */
  function Insert(slots: seq<Slot>, slot: Slot): seq<Slot>
  {
    if slots == [] || slots[|slots| - 1].start <= slot.start then slots + [slot]
    else Insert(slots[..|slots| - 1], slot) + [slots[|slots| - 1]]
  }

  /** A stable sort by start. */
  function SortByStart(slots: seq<Slot>): seq<Slot>
  {
    if slots == [] then [] else Insert(SortByStart(slots[..|slots| - 1]), slots[|slots| - 1])
  }

  lemma {:induction false} InsertAdds(slots: seq<Slot>, slot: Slot)
    ensures multiset(Insert(slots, slot)) == multiset(slots) + multiset{slot}
  {
    if slots != [] && slots[|slots| - 1].start > slot.start {
      var n := |slots| - 1;
      InsertAdds(slots[..n], slot);
      assert slots == slots[..n] + [slots[n]];
    }
  }

  lemma {:induction false} InsertStaysBelow(slots: seq<Slot>, slot: Slot, bound: int)
    requires slot.start <= bound && forall i :: 0 <= i < |slots| ==> slots[i].start <= bound
    ensures forall i :: 0 <= i < |Insert(slots, slot)| ==> Insert(slots, slot)[i].start <= bound
  {
    if slots != [] && slots[|slots| - 1].start > slot.start {
      InsertStaysBelow(slots[..|slots| - 1], slot, bound);
    }
  }

  lemma {:induction false} InsertSorts(slots: seq<Slot>, slot: Slot)
    requires SortedByStart(slots)
    ensures SortedByStart(Insert(slots, slot))
  {
    if slots != [] && slots[|slots| - 1].start > slot.start {
      var n := |slots| - 1;
      InsertSorts(slots[..n], slot);
      InsertStaysBelow(slots[..n], slot, slots[n].start);
    }
  }

  lemma {:induction false} SortSorts(slots: seq<Slot>)
    ensures SortedByStart(SortByStart(slots))
  {
    if slots != [] {
      SortSorts(slots[..|slots| - 1]);
      InsertSorts(SortByStart(slots[..|slots| - 1]), slots[|slots| - 1]);
    }
  }

  lemma {:induction false} SortPermutes(slots: seq<Slot>)
    ensures multiset(SortByStart(slots)) == multiset(slots)
  {
    if slots != [] {
      SortPermutes(slots[..|slots| - 1]);
      InsertAdds(SortByStart(slots[..|slots| - 1]), slots[|slots| - 1]);
      assert slots == slots[..|slots| - 1] + [slots[|slots| - 1]];
    }
  }

  /** Confirmed on the calendar, and inside the UTC window the query reads. */
  function Prefetch(c: Id, windowStart: int, windowEnd: int): Appointment -> bool
  {
    (a: Appointment) => a.calendar == c && a.status == Confirmed && a.start < windowEnd && a.end > windowStart
  }

  function ConfirmedOn(c: Id): Appointment -> bool
  {
    (a: Appointment) => a.calendar == c && a.status == Confirmed
  }

  /** A day before the first local midnight, and a day after the last local microsecond. */
  function WindowStart(calendar: Calendar, dateFrom: int): int { Utc(calendar, At(dateFrom, 0)) - DAY }
  function WindowEnd(calendar: Calendar, dateTo: int): int { Utc(calendar, At(dateTo + 1, 0) - 1) + DAY }

  predicate QueryOk(dateFrom: int, dateTo: int, duration: int)
  {
    dateFrom <= dateTo && dateTo - dateFrom <= MAX_QUERY_DAYS && MIN_DURATION <= duration <= MINUTES_PER_DAY
  }

  /** The slots left over by some bookings, in order. */
  function SlotsAgainst(s: Schedule, c: Id, dateFrom: int, dateTo: int, duration: int, booked: seq<Appointment>): seq<Slot>
    requires c < |s.calendars| && QueryOk(dateFrom, dateTo, duration)
  {
    SortByStart(SlotsOfDays(s.calendars[c], Select(s.rules, OfCalendar(c)), dateFrom, dateTo, duration * MINUTE, booked))
  }

  function Prefetched(s: Schedule, c: Id, dateFrom: int, dateTo: int): seq<Appointment>
    requires c < |s.calendars|
  {
    var calendar := s.calendars[c];
    Select(s.appointments, Prefetch(c, WindowStart(calendar, dateFrom), WindowEnd(calendar, dateTo)))
  }

  function AvailableSlots(s: Schedule, c: Id, dateFrom: int, dateTo: int, duration: int): Result<seq<Slot>, Error>
  {
    if !QueryOk(dateFrom, dateTo, duration) then Failure(Invalid)
    else if c >= |s.calendars| then Failure(NotFound)
    else Success(SlotsAgainst(s, c, dateFrom, dateTo, duration, Prefetched(s, c, dateFrom, dateTo)))
  }

  // --- which slots those are -------------------------------------------------------------

  /** Slot `k` of a window's grid. */
  predicate OnGrid(calendar: Calendar, start: int, end: int, delta: int, k: nat, slot: Slot)
  {
    start + k * delta + delta <= end && slot == SlotAt(calendar, start + k * delta, delta)
  }

  lemma {:induction false} FreeSlotsMembers(calendar: Calendar, cursor: int, end: int, delta: int,
                                            booked: seq<Appointment>, slot: Slot)
    requires delta > 0
    ensures slot in FreeSlots(calendar, cursor, end, delta, booked)
       <==> Free(slot, booked) && exists k: nat :: OnGrid(calendar, cursor, end, delta, k, slot)
    decreases end - cursor
  {
    if cursor + delta <= end {
      FreeSlotsMembers(calendar, cursor + delta, end, delta, booked, slot);
      var next := cursor + delta;
      if k: nat :| OnGrid(calendar, next, end, delta, k, slot) {
        assert cursor + (k + 1) * delta == cursor + delta + k * delta;
        assert OnGrid(calendar, cursor, end, delta, k + 1, slot);
      }
      if slot == SlotAt(calendar, cursor, delta) { assert OnGrid(calendar, cursor, end, delta, 0, slot); }
      forall k: nat | OnGrid(calendar, cursor, end, delta, k, slot)
        ensures k == 0 || OnGrid(calendar, next, end, delta, k - 1, slot)
      {
        assert k > 0 ==> next + (k - 1) * delta == cursor + k * delta;
      }
    } else {
      forall k: nat ensures !OnGrid(calendar, cursor, end, delta, k, slot) {
        assert k * delta >= 0;
      }
    }
  }

  /** The slot is on the grid of rule `r` on some date. */
  predicate ByRule(calendar: Calendar, rule: Rule, date: int, delta: int, k: nat, slot: Slot)
  {
    rule.day == Weekday(date) && OnGrid(calendar, At(date, rule.start), At(date, rule.end), delta, k, slot)
  }

  lemma {:induction false} SlotsOfRulesMembers(calendar: Calendar, rules: seq<Rule>, date: int, delta: int,
                                               booked: seq<Appointment>, slot: Slot)
    requires delta > 0 && forall rule :: rule in rules ==> rule.day == Weekday(date)
    ensures slot in SlotsOfRules(calendar, rules, date, delta, booked)
       <==> Free(slot, booked) && exists rule, k: nat :: rule in rules && ByRule(calendar, rule, date, delta, k, slot)
  {
    if rules != [] {
      var first, rest := rules[0], rules[1..];
      assert rules == [first] + rest;
      SlotsOfRulesMembers(calendar, rest, date, delta, booked, slot);
      FreeSlotsMembers(calendar, At(date, first.start), At(date, first.end), delta, booked, slot);
      if k: nat :| OnGrid(calendar, At(date, first.start), At(date, first.end), delta, k, slot) {
        assert ByRule(calendar, first, date, delta, k, slot);
      }
      if rule, k: nat :| rule in rest && ByRule(calendar, rule, date, delta, k, slot) {
        assert rule in rules;
      }
      if rule, k: nat :| rule in rules && ByRule(calendar, rule, date, delta, k, slot) {
        assert rule in rest || rule == first;
      }
    }
  }

  /** The slot is on the grid of one of the rules, on some date in a range. */
  ghost predicate ByRules(calendar: Calendar, rules: seq<Rule>, dateFrom: int, dateTo: int, delta: int, slot: Slot)
  {
    exists i, date, k: nat ::
      0 <= i < |rules| && dateFrom <= date <= dateTo && ByRule(calendar, rules[i], date, delta, k, slot)
  }

  lemma SlotsOfDayMembers(calendar: Calendar, rules: seq<Rule>, date: int, delta: int, booked: seq<Appointment>, slot: Slot)
    requires delta > 0
    ensures slot in SlotsOfRules(calendar, Select(rules, OnDay(Weekday(date))), date, delta, booked)
       <==> Free(slot, booked) && ByRules(calendar, rules, date, date, delta, slot)
  {
    var today := Select(rules, OnDay(Weekday(date)));
    forall rule ensures rule in today <==> rule in rules && rule.day == Weekday(date) {
      SelectMembers(rules, OnDay(Weekday(date)), rule);
    }
    SlotsOfRulesMembers(calendar, today, date, delta, booked, slot);
    if rule, k: nat :| rule in today && ByRule(calendar, rule, date, delta, k, slot) {
      var i :| 0 <= i < |rules| && rules[i] == rule;
      assert ByRule(calendar, rules[i], date, delta, k, slot);
    }
    if i, k: nat :| 0 <= i < |rules| && ByRule(calendar, rules[i], date, delta, k, slot) {
      assert rules[i] in today;
    }
  }

  lemma {:induction false} SlotsOfDaysMembers(calendar: Calendar, rules: seq<Rule>, dateFrom: int, dateTo: int, delta: int,
                                              booked: seq<Appointment>, slot: Slot)
    requires delta > 0
    ensures slot in SlotsOfDays(calendar, rules, dateFrom, dateTo, delta, booked)
       <==> Free(slot, booked) && ByRules(calendar, rules, dateFrom, dateTo, delta, slot)
    decreases dateTo - dateFrom
  {
    if dateFrom <= dateTo {
      SlotsOfDayMembers(calendar, rules, dateFrom, delta, booked, slot);
      SlotsOfDaysMembers(calendar, rules, dateFrom + 1, dateTo, delta, booked, slot);
    }
  }

  /** A grid slot of the query: some rule of the calendar, some date in range on the rule's weekday,
      the k-th step from the rule's start, ending no later than the rule does. */
  ghost predicate Candidate(s: Schedule, c: Id, dateFrom: int, dateTo: int, duration: int, slot: Slot)
    requires c < |s.calendars|
  {
    exists rule, date, k: nat ::
      && rule in s.rules && rule.calendar == c && dateFrom <= date <= dateTo
      && ByRule(s.calendars[c], rule, date, duration * MINUTE, k, slot)
  }

  /** The loops return, in order of start and as often as they produce them, exactly the grid slots
      that overlap no booking given. */
  lemma SlotsAgainstMembers(s: Schedule, c: Id, dateFrom: int, dateTo: int, duration: int, booked: seq<Appointment>,
                            slot: Slot)
    requires c < |s.calendars| && QueryOk(dateFrom, dateTo, duration)
    ensures SortedByStart(SlotsAgainst(s, c, dateFrom, dateTo, duration, booked))
    ensures multiset(SlotsAgainst(s, c, dateFrom, dateTo, duration, booked))
         == multiset(SlotsOfDays(s.calendars[c], Select(s.rules, OfCalendar(c)), dateFrom, dateTo, duration * MINUTE, booked))
    ensures slot in SlotsAgainst(s, c, dateFrom, dateTo, duration, booked)
       <==> Candidate(s, c, dateFrom, dateTo, duration, slot) && Free(slot, booked)
  {
    var calendar, rules, delta := s.calendars[c], Select(s.rules, OfCalendar(c)), duration * MINUTE;
    var slots := SlotsOfDays(calendar, rules, dateFrom, dateTo, delta, booked);
    SlotsOfDaysMembers(calendar, rules, dateFrom, dateTo, delta, booked, slot);
    SortSorts(slots);
    SortPermutes(slots);
    assert slot in SortByStart(slots) <==> slot in multiset(SortByStart(slots));
    CandidateByRules(s, c, dateFrom, dateTo, duration, slot);
  }

  lemma CandidateByRules(s: Schedule, c: Id, dateFrom: int, dateTo: int, duration: int, slot: Slot)
    requires c < |s.calendars|
    ensures Candidate(s, c, dateFrom, dateTo, duration, slot)
       <==> ByRules(s.calendars[c], Select(s.rules, OfCalendar(c)), dateFrom, dateTo, duration * MINUTE, slot)
  {
    var calendar, rules, delta := s.calendars[c], Select(s.rules, OfCalendar(c)), duration * MINUTE;
    forall rule ensures rule in rules <==> rule in s.rules && rule.calendar == c {
      SelectMembers(s.rules, OfCalendar(c), rule);
    }
    if rule, date, k: nat :| rule in s.rules && rule.calendar == c && dateFrom <= date <= dateTo
                             && ByRule(calendar, rule, date, delta, k, slot) {
      assert rule in rules;
      var i :| 0 <= i < |rules| && rules[i] == rule;
      assert ByRule(calendar, rules[i], date, delta, k, slot);
    }
    if i, date, k: nat :| 0 <= i < |rules| && dateFrom <= date <= dateTo && ByRule(calendar, rules[i], date, delta, k, slot) {
      assert rules[i] in rules;
    }
  }

  // --- the prefetched bookings are enough ------------------------------------------------------

  /** The offsets met between two wall-clock times differ by less than a day. */
  ghost predicate SpreadUnderADay(calendar: Calendar, dateFrom: int, dateTo: int)
  {
    forall x, y :: At(dateFrom, 0) <= x <= At(dateTo + 1, 0) && At(dateFrom, 0) <= y <= At(dateTo + 1, 0) ==>
      calendar.offset(x) - calendar.offset(y) < DAY
  }

  predicate InWindow(slot: Slot, windowStart: int, windowEnd: int)
  {
    windowStart <= slot.start && slot.end <= windowEnd
  }

  /** Wherever a rule's grid puts a slot, it lies between the first local midnight and the last. */
  lemma CandidateLocalTimes(calendar: Calendar, rule: Rule, dateFrom: int, date: int, dateTo: int, delta: int,
                            k: nat, slot: Slot)
    returns (local: int)
    requires RuleOk(rule) && delta > 0 && dateFrom <= date <= dateTo && ByRule(calendar, rule, date, delta, k, slot)
    ensures slot == SlotAt(calendar, local, delta)
    ensures At(dateFrom, 0) <= local && local + delta <= At(dateTo + 1, 0)
  {
    local := At(date, rule.start) + k * delta;
    assert k * delta >= 0;
    assert At(date, rule.end) <= At(date + 1, 0) <= At(dateTo + 1, 0);
  }

  lemma LocalTimesInWindow(calendar: Calendar, dateFrom: int, dateTo: int, local: int, delta: int)
    requires SpreadUnderADay(calendar, dateFrom, dateTo) && delta > 0
    requires At(dateFrom, 0) <= local && local + delta <= At(dateTo + 1, 0)
    ensures InWindow(SlotAt(calendar, local, delta), WindowStart(calendar, dateFrom), WindowEnd(calendar, dateTo))
  {
    var first, last := At(dateFrom, 0), At(dateTo + 1, 0) - 1;
    assert calendar.offset(local) - calendar.offset(first) < DAY;
    assert calendar.offset(last) - calendar.offset(local + delta) < DAY;
  }

  lemma CandidateInWindow(s: Schedule, c: Id, dateFrom: int, dateTo: int, duration: int, slot: Slot)
    requires c < |s.calendars| && RulesOk(s.rules) && SpreadUnderADay(s.calendars[c], dateFrom, dateTo)
    requires duration > 0 && Candidate(s, c, dateFrom, dateTo, duration, slot)
    ensures InWindow(slot, WindowStart(s.calendars[c], dateFrom), WindowEnd(s.calendars[c], dateTo))
  {
    var calendar, delta := s.calendars[c], duration * MINUTE;
    var rule, date, k: nat :| rule in s.rules && rule.calendar == c && dateFrom <= date <= dateTo
                              && ByRule(calendar, rule, date, delta, k, slot);
    var local := CandidateLocalTimes(calendar, rule, dateFrom, date, dateTo, delta, k, slot);
    LocalTimesInWindow(calendar, dateFrom, dateTo, local, delta);
  }

  /** A slot in the window overlaps a confirmed booking exactly when it overlaps a fetched one. */
  lemma WindowSuffices(table: seq<Appointment>, c: Id, slot: Slot, windowStart: int, windowEnd: int)
    requires InWindow(slot, windowStart, windowEnd)
    ensures Free(slot, Select(table, Prefetch(c, windowStart, windowEnd))) <==> Free(slot, Select(table, ConfirmedOn(c)))
  {
    var fetched, all := Select(table, Prefetch(c, windowStart, windowEnd)), Select(table, ConfirmedOn(c));
    forall a | a in all ensures a in fetched || !(slot.start < a.end && slot.end > a.start) {
      SelectMembers(table, ConfirmedOn(c), a);
      SelectMembers(table, Prefetch(c, windowStart, windowEnd), a);
    }
    forall a | a in fetched ensures a in all {
      SelectMembers(table, ConfirmedOn(c), a);
      SelectMembers(table, Prefetch(c, windowStart, windowEnd), a);
    }
    if Free(slot, fetched) {
      forall i | 0 <= i < |all| ensures !(slot.start < all[i].end && slot.end > all[i].start) {
        assert all[i] in all;
      }
    }
    if Free(slot, all) {
      forall i | 0 <= i < |fetched| ensures !(slot.start < fetched[i].end && slot.end > fetched[i].start) {
        assert fetched[i] in all;
      }
    }
  }

  /** For a slot that sticks out of the window there is a booking it collides with unnoticed. */
  lemma OutsideWindowMissesABooking(c: Id, slot: Slot, windowStart: int, windowEnd: int) returns (a: Appointment)
    requires !InWindow(slot, windowStart, windowEnd)
    ensures a.start < a.end && a.status == Confirmed
    ensures Free(slot, Select([a], Prefetch(c, windowStart, windowEnd))) && !Free(slot, Select([a], ConfirmedOn(c)))
  {
    a := if slot.end > windowEnd
         then Appointment(c, windowEnd, (if slot.start > windowEnd then slot.start else windowEnd) + 1, Confirmed)
         else Appointment(c, (if slot.end < windowStart then slot.end else windowStart) - 1, windowStart, Confirmed);
    SelectAppend([], a, Prefetch(c, windowStart, windowEnd));
    SelectAppend([], a, ConfirmedOn(c));
    assert [] + [a] == [a];
    assert Select([a], ConfirmedOn(c))[0] == a;
  }

  /** The generator asks of its bookings only which grid slots they leave free. */
  lemma {:induction false} SameFreeSameSlots(calendar: Calendar, cursor: int, end: int, delta: int,
                                             booked: seq<Appointment>, others: seq<Appointment>)
    requires delta > 0
    requires forall slot, k: nat :: OnGrid(calendar, cursor, end, delta, k, slot) ==>
               (Free(slot, booked) <==> Free(slot, others))
    ensures FreeSlots(calendar, cursor, end, delta, booked) == FreeSlots(calendar, cursor, end, delta, others)
    decreases end - cursor
  {
    if cursor + delta <= end {
      assert OnGrid(calendar, cursor, end, delta, 0, SlotAt(calendar, cursor, delta));
      var next := cursor + delta;
      forall slot, k: nat | OnGrid(calendar, next, end, delta, k, slot)
        ensures Free(slot, booked) <==> Free(slot, others)
      {
        assert cursor + (k + 1) * delta == cursor + delta + k * delta;
        assert OnGrid(calendar, cursor, end, delta, k + 1, slot);
      }
      SameFreeSameSlots(calendar, cursor + delta, end, delta, booked, others);
    }
  }

  ghost predicate SameFree(calendar: Calendar, rules: seq<Rule>, dateFrom: int, dateTo: int, delta: int,
                           booked: seq<Appointment>, others: seq<Appointment>)
  {
    forall slot, rule, date, k: nat ::
      rule in rules && dateFrom <= date <= dateTo && ByRule(calendar, rule, date, delta, k, slot) ==>
        (Free(slot, booked) <==> Free(slot, others))
  }

  lemma {:induction false} SameFreeSameDay(calendar: Calendar, rules: seq<Rule>, date: int, delta: int,
                                           booked: seq<Appointment>, others: seq<Appointment>)
    requires delta > 0 && SameFree(calendar, rules, date, date, delta, booked, others)
    requires forall rule :: rule in rules ==> rule.day == Weekday(date)
    ensures SlotsOfRules(calendar, rules, date, delta, booked) == SlotsOfRules(calendar, rules, date, delta, others)
  {
    if rules != [] {
      var first, rest := rules[0], rules[1..];
      forall slot, k: nat | OnGrid(calendar, At(date, first.start), At(date, first.end), delta, k, slot)
        ensures Free(slot, booked) <==> Free(slot, others)
      {
        assert ByRule(calendar, first, date, delta, k, slot);
      }
      SameFreeSameSlots(calendar, At(date, first.start), At(date, first.end), delta, booked, others);
      assert forall rule :: rule in rest ==> rule in rules;
      SameFreeSameDay(calendar, rest, date, delta, booked, others);
    }
  }

  lemma {:induction false} SameFreeSameDays(calendar: Calendar, rules: seq<Rule>, dateFrom: int, dateTo: int, delta: int,
                                            booked: seq<Appointment>, others: seq<Appointment>)
    requires delta > 0 && SameFree(calendar, rules, dateFrom, dateTo, delta, booked, others)
    ensures SlotsOfDays(calendar, rules, dateFrom, dateTo, delta, booked)
         == SlotsOfDays(calendar, rules, dateFrom, dateTo, delta, others)
    decreases dateTo - dateFrom
  {
    if dateFrom <= dateTo {
      var today := Select(rules, OnDay(Weekday(dateFrom)));
      forall rule | rule in today ensures rule in rules && rule.day == Weekday(dateFrom) {
        SelectMembers(rules, OnDay(Weekday(dateFrom)), rule);
      }
      SameFreeSameDay(calendar, today, dateFrom, delta, booked, others);
      SameFreeSameDays(calendar, rules, dateFrom + 1, dateTo, delta, booked, others);
    }
  }

  /** When the zone's offsets over the queried dates differ by less than 24 hours, filtering against
      the fetched bookings gives the same slots as filtering against every confirmed booking. */
  lemma PrefetchSuffices(s: Schedule, c: Id, dateFrom: int, dateTo: int, duration: int)
    requires c < |s.calendars| && QueryOk(dateFrom, dateTo, duration)
    requires RulesOk(s.rules) && SpreadUnderADay(s.calendars[c], dateFrom, dateTo)
    ensures AvailableSlots(s, c, dateFrom, dateTo, duration)
         == Success(SlotsAgainst(s, c, dateFrom, dateTo, duration, Select(s.appointments, ConfirmedOn(c))))
  {
    forall slot | Candidate(s, c, dateFrom, dateTo, duration, slot)
      ensures InWindow(slot, WindowStart(s.calendars[c], dateFrom), WindowEnd(s.calendars[c], dateTo))
    {
      CandidateInWindow(s, c, dateFrom, dateTo, duration, slot);
    }
    InWindowAgrees(s, c, dateFrom, dateTo, duration);
    assert s.(appointments := s.appointments) == s;
  }

  // --- exactly when the window is enough ---------------------------------------------------------

  /** Rows an appointment table may hold: on a calendar, and ending after they start. */
  predicate TableOk(table: seq<Appointment>, calendars: nat)
  {
    forall i :: 0 <= i < |table| ==> table[i].calendar < calendars && table[i].start < table[i].end
  }

  /** With these appointments the fetched bookings and all bookings give the same slots. */
  predicate Agrees(s: Schedule, c: Id, dateFrom: int, dateTo: int, duration: int, table: seq<Appointment>)
    requires c < |s.calendars| && QueryOk(dateFrom, dateTo, duration)
  {
    var with := s.(appointments := table);
    AvailableSlots(with, c, dateFrom, dateTo, duration)
    == Success(SlotsAgainst(with, c, dateFrom, dateTo, duration, Select(table, ConfirmedOn(c))))
  }

  lemma InWindowAgrees(s: Schedule, c: Id, dateFrom: int, dateTo: int, duration: int)
    requires c < |s.calendars| && QueryOk(dateFrom, dateTo, duration)
    requires forall slot :: Candidate(s, c, dateFrom, dateTo, duration, slot) ==>
               InWindow(slot, WindowStart(s.calendars[c], dateFrom), WindowEnd(s.calendars[c], dateTo))
    ensures Agrees(s, c, dateFrom, dateTo, duration, s.appointments)
  {
    var calendar, rules, delta := s.calendars[c], Select(s.rules, OfCalendar(c)), duration * MINUTE;
    var fetched, all := Prefetched(s, c, dateFrom, dateTo), Select(s.appointments, ConfirmedOn(c));
    forall slot, rule, date, k: nat | rule in rules && dateFrom <= date <= dateTo
      && ByRule(calendar, rule, date, delta, k, slot)
      ensures Free(slot, fetched) <==> Free(slot, all)
    {
      SelectMembers(s.rules, OfCalendar(c), rule);
      assert Candidate(s, c, dateFrom, dateTo, duration, slot);
      WindowSuffices(s.appointments, c, slot, WindowStart(calendar, dateFrom), WindowEnd(calendar, dateTo));
    }
    SameFreeSameDays(calendar, rules, dateFrom, dateTo, delta, fetched, all);
  }

  lemma OutsideWindowDisagrees(s: Schedule, c: Id, dateFrom: int, dateTo: int, duration: int, slot: Slot)
    returns (table: seq<Appointment>)
    requires c < |s.calendars| && QueryOk(dateFrom, dateTo, duration)
    requires Candidate(s, c, dateFrom, dateTo, duration, slot)
    requires !InWindow(slot, WindowStart(s.calendars[c], dateFrom), WindowEnd(s.calendars[c], dateTo))
    ensures TableOk(table, |s.calendars|) && !Agrees(s, c, dateFrom, dateTo, duration, table)
  {
    var a := OutsideWindowMissesABooking(c, slot, WindowStart(s.calendars[c], dateFrom), WindowEnd(s.calendars[c], dateTo));
    table := [a];
    var with := s.(appointments := table);
    assert Candidate(with, c, dateFrom, dateTo, duration, slot);
    SlotsAgainstMembers(with, c, dateFrom, dateTo, duration, Prefetched(with, c, dateFrom, dateTo), slot);
    SlotsAgainstMembers(with, c, dateFrom, dateTo, duration, Select(table, ConfirmedOn(c)), slot);
  }

  /** Whatever is booked, the fetched bookings give the same slots as all bookings, exactly when every
      grid slot of the query lies in the window. */
  lemma {:induction false} PrefetchSufficesExactlyWhen(s: Schedule, c: Id, dateFrom: int, dateTo: int, duration: int)
    requires c < |s.calendars| && QueryOk(dateFrom, dateTo, duration)
    ensures (forall table :: TableOk(table, |s.calendars|) ==> Agrees(s, c, dateFrom, dateTo, duration, table))
       <==> (forall slot :: Candidate(s, c, dateFrom, dateTo, duration, slot) ==>
               InWindow(slot, WindowStart(s.calendars[c], dateFrom), WindowEnd(s.calendars[c], dateTo)))
  {
    if forall slot :: Candidate(s, c, dateFrom, dateTo, duration, slot) ==>
         InWindow(slot, WindowStart(s.calendars[c], dateFrom), WindowEnd(s.calendars[c], dateTo)) {
      forall table | TableOk(table, |s.calendars|) ensures Agrees(s, c, dateFrom, dateTo, duration, table) {
        var with := s.(appointments := table);
        forall slot | Candidate(with, c, dateFrom, dateTo, duration, slot)
          ensures InWindow(slot, WindowStart(s.calendars[c], dateFrom), WindowEnd(s.calendars[c], dateTo))
        {
          assert Candidate(s, c, dateFrom, dateTo, duration, slot);
        }
        InWindowAgrees(with, c, dateFrom, dateTo, duration);
        assert with.(appointments := table) == with;
      }
    } else {
      var slot :| Candidate(s, c, dateFrom, dateTo, duration, slot)
        && !InWindow(slot, WindowStart(s.calendars[c], dateFrom), WindowEnd(s.calendars[c], dateTo));
      var table := OutsideWindowDisagrees(s, c, dateFrom, dateTo, duration, slot);
    }
  }
}
