/** Booking, rescheduling and closing appointments (product/appointments/booking.py). */
module Booking {
  import opened Wrappers
  import opened Queries
  import opened Schedules
  import opened Availability

  // --- the transactions -----------------------------------------------------------

  /** Two confirmed appointments of one calendar whose half-open ranges overlap. */
  predicate Clash(a: Appointment, b: Appointment)
  {
    && a.calendar == b.calendar && a.status == Confirmed && b.status == Confirmed
    && a.start < b.end && b.start < a.end
  }

  /** The EXCLUDE constraint of the table. */
  predicate NoDoubleBooking(table: seq<Appointment>)
  {
    forall i, j :: 0 <= i < j < |table| ==> !Clash(table[i], table[j])
  }

  function Flush(s: Schedule, table: seq<Appointment>): Result<Schedule, Error>
  {
    if NoDoubleBooking(table) then Success(s.(appointments := table)) else Failure(SlotUnavailable)
  }

  function CreateRule(s: Schedule, rule: Rule): Result<Schedule, Error>
  {
    if !RuleOk(rule) then Failure(Invalid)
    else if rule.calendar >= |s.calendars| then Failure(NotFound)
    else Success(s.(rules := s.rules + [rule]))
  }

  function Book(s: Schedule, c: Id, start: int, end: int): Result<Schedule, Error>
  {
    if end <= start then Failure(Invalid)
    else if c >= |s.calendars| then Failure(NotFound)
    else Flush(s, s.appointments + [Appointment(c, start, end, Confirmed)])
  }

  function Reschedule(s: Schedule, i: Id, start: int, end: int): Result<Schedule, Error>
  {
    if end <= start then Failure(Invalid)
    else if i >= |s.appointments| then Failure(NotFound)
    else if s.appointments[i].status != Confirmed then Failure(Invalid)
    else Flush(s, s.appointments[i := s.appointments[i].(start := start, end := end)])
  }

  /** Cancelling, completing, or marking as a no-show. */
  function Close(s: Schedule, i: Id, status: Status): Result<Schedule, Error>
  {
    if i >= |s.appointments| then Failure(NotFound)
    else if s.appointments[i].status != Confirmed then Failure(Invalid)
    else Flush(s, s.appointments[i := s.appointments[i].(status := status)])
  }

  datatype Call =
    | AddRule(rule: Rule)
    | BookSlot(calendar: Id, start: int, end: int)
    | Move(i: Id, start: int, end: int)
    | Cancel(i: Id)
    | Complete(i: Id)
    | MarkNoShow(i: Id)

  function Apply(s: Schedule, call: Call): Result<Schedule, Error>
  {
    match call
    case AddRule(rule) => CreateRule(s, rule)
    case BookSlot(c, start, end) => Book(s, c, start, end)
    case Move(i, start, end) => Reschedule(s, i, start, end)
    case Cancel(i) => Close(s, i, Cancelled)
    case Complete(i) => Close(s, i, Completed)
    case MarkNoShow(i) => Close(s, i, NoShow)
  }

  function Step(s: Schedule, call: Call): Schedule
  {
    match Apply(s, call)
    case Success(after) => after
    case Failure(_) => s
  }

  function Run(s: Schedule, calls: seq<Call>): Schedule
  {
    if calls == [] then s else Step(Run(s, calls[..|calls| - 1]), calls[|calls| - 1])
  }

  // --- what every run keeps -----------------------------------------------------------

  predicate AppointmentOk(s: Schedule, a: Appointment)
  {
    a.calendar < |s.calendars| && a.start < a.end
  }

  ghost predicate Sound(s: Schedule)
  {
    && RulesOk(s.rules)
    && (forall i :: 0 <= i < |s.appointments| ==> AppointmentOk(s, s.appointments[i]))
    && NoDoubleBooking(s.appointments)
  }

  /** Rows stay on their calendar, and one that is no longer confirmed never changes again. */
  ghost predicate Later(old_: Schedule, new_: Schedule)
  {
    && new_.calendars == old_.calendars && old_.rules <= new_.rules
    && |old_.appointments| <= |new_.appointments|
    && forall i :: 0 <= i < |old_.appointments| ==>
         && new_.appointments[i].calendar == old_.appointments[i].calendar
         && (old_.appointments[i].status != Confirmed ==> new_.appointments[i] == old_.appointments[i])
  }

  lemma StepKeepsSound(s: Schedule, call: Call)
    requires Sound(s)
    ensures Sound(Step(s, call)) && Later(s, Step(s, call))
  {
  }

  /** Over any run of bookings, moves, cancellations, completions and no-shows, confirmed
      appointments of a calendar are pairwise disjoint, and closed ones are final. */
  lemma {:induction false} RunKeepsSound(s: Schedule, calls: seq<Call>)
    requires Sound(s)
    ensures Sound(Run(s, calls)) && Later(s, Run(s, calls))
  {
    if calls != [] {
      var before := Run(s, calls[..|calls| - 1]);
      RunKeepsSound(s, calls[..|calls| - 1]);
      StepKeepsSound(before, calls[|calls| - 1]);
    }
  }

  // --- what is offered can be booked -----------------------------------------------------

  lemma FreeMeansNoClash(s: Schedule, c: Id, start: int, end: int)
    requires Sound(s)
    ensures Free(Slot(start, end), Select(s.appointments, ConfirmedOn(c)))
       <==> forall i :: 0 <= i < |s.appointments| ==> !Clash(s.appointments[i], Appointment(c, start, end, Confirmed))
  {
    var slot, row, booked := Slot(start, end), Appointment(c, start, end, Confirmed), Select(s.appointments, ConfirmedOn(c));
    if Free(slot, booked) {
      forall i | 0 <= i < |s.appointments| ensures !Clash(s.appointments[i], row) {
        var a := s.appointments[i];
        SelectMembers(s.appointments, ConfirmedOn(c), a);
        assert a in booked ==> !(slot.start < a.end && slot.end > a.start);
      }
    } else {
      var k :| 0 <= k < |booked| && slot.start < booked[k].end && slot.end > booked[k].start;
      SelectMembers(s.appointments, ConfirmedOn(c), booked[k]);
      var i :| 0 <= i < |s.appointments| && s.appointments[i] == booked[k];
      assert Clash(s.appointments[i], row);
    }
  }

  lemma AppendedClashes(table: seq<Appointment>, row: Appointment)
    requires NoDoubleBooking(table)
    ensures NoDoubleBooking(table + [row]) <==> forall i :: 0 <= i < |table| ==> !Clash(table[i], row)
  {
    var after := table + [row];
    if NoDoubleBooking(after) {
      forall i | 0 <= i < |table| ensures !Clash(table[i], row) {
        assert !Clash(after[i], after[|table|]);
      }
    }
  }

  /** A range can be booked exactly when it is not empty, the calendar exists, and no confirmed
      appointment of the calendar overlaps it. */
  lemma BooksExactlyWhen(s: Schedule, c: Id, start: int, end: int)
    requires Sound(s)
    ensures Book(s, c, start, end).Success?
       <==> start < end && c < |s.calendars| && Free(Slot(start, end), Select(s.appointments, ConfirmedOn(c)))
  {
    FreeMeansNoClash(s, c, start, end);
    AppendedClashes(s.appointments, Appointment(c, start, end, Confirmed));
  }

  /** Appointment `j` is not in the way of moving `i` to a range. */
  predicate LeavesRoom(table: seq<Appointment>, i: Id, j: Id, start: int, end: int)
    requires i < |table| && j < |table|
  {
    j != i && table[j].calendar == table[i].calendar && table[j].status == Confirmed ==>
      end <= table[j].start || table[j].end <= start
  }

  /** A confirmed appointment can be moved exactly where no other confirmed appointment of its
      calendar is; its own old range is not in the way. */
  lemma MovesExactlyWhen(s: Schedule, i: Id, start: int, end: int)
    requires Sound(s) && i < |s.appointments| && s.appointments[i].status == Confirmed
    ensures Reschedule(s, i, start, end).Success?
       <==> start < end && forall j :: 0 <= j < |s.appointments| ==> LeavesRoom(s.appointments, i, j, start, end)
  {
    var table := s.appointments;
    var after := table[i := table[i].(start := start, end := end)];
    if NoDoubleBooking(after) {
      forall j | 0 <= j < |table| ensures LeavesRoom(table, i, j, start, end) {
        assert j < i ==> !Clash(after[j], after[i]);
        assert i < j ==> !Clash(after[i], after[j]);
      }
    }
    if forall j :: 0 <= j < |table| ==> LeavesRoom(table, i, j, start, end) {
      forall j, k | 0 <= j < k < |after| ensures !Clash(after[j], after[k]) {
        assert !Clash(table[j], table[k]);
        assert LeavesRoom(table, i, j, start, end) && LeavesRoom(table, i, k, start, end);
      }
    }
  }

  /** Moving an appointment takes the new range and gives the old one back. */
  lemma MovingSwapsRanges(s: Schedule, i: Id, start: int, end: int)
    requires Sound(s) && Reschedule(s, i, start, end).Success?
    ensures var old_, after := s.appointments[i], Reschedule(s, i, start, end).value;
            && Book(after, old_.calendar, start, end) == Failure(SlotUnavailable)
            && (end <= old_.start || old_.end <= start ==> Book(after, old_.calendar, old_.start, old_.end).Success?)
  {
    var old_, after := s.appointments[i], Reschedule(s, i, start, end).value;
    var again, back := Appointment(old_.calendar, start, end, Confirmed), old_;
    StepKeepsSound(s, Move(i, start, end));
    AppendedClashes(after.appointments, again);
    assert Clash(after.appointments[i], again);
    AppendedClashes(after.appointments, back);
    if end <= old_.start || old_.end <= start {
      forall j | 0 <= j < |after.appointments| ensures !Clash(after.appointments[j], back) {
        assert j < i ==> !Clash(s.appointments[j], s.appointments[i]);
        assert i < j ==> !Clash(s.appointments[i], s.appointments[j]);
      }
    }
  }

  /** Slots and bookings agree: a grid slot of positive length is offered exactly when booking it,
      in the same state, succeeds. Every offered slot is a grid slot. */
  lemma OfferedExactlyWhenBookable(s: Schedule, c: Id, dateFrom: int, dateTo: int, duration: int, slot: Slot)
    requires Sound(s) && c < |s.calendars| && QueryOk(dateFrom, dateTo, duration)
    requires SpreadUnderADay(s.calendars[c], dateFrom, dateTo)
    requires slot.start < slot.end
    ensures AvailableSlots(s, c, dateFrom, dateTo, duration).Success?
    ensures slot in AvailableSlots(s, c, dateFrom, dateTo, duration).value
       <==> Candidate(s, c, dateFrom, dateTo, duration, slot) && Book(s, c, slot.start, slot.end).Success?
  {
    PrefetchSuffices(s, c, dateFrom, dateTo, duration);
    SlotsAgainstMembers(s, c, dateFrom, dateTo, duration, Select(s.appointments, ConfirmedOn(c)), slot);
    BooksExactlyWhen(s, c, slot.start, slot.end);
  }

  /** A booked slot is offered no more. */
  lemma BookedSlotIsGone(s: Schedule, c: Id, dateFrom: int, dateTo: int, duration: int, slot: Slot)
    requires Sound(s) && c < |s.calendars| && QueryOk(dateFrom, dateTo, duration)
    requires SpreadUnderADay(s.calendars[c], dateFrom, dateTo)
    requires Book(s, c, slot.start, slot.end).Success?
    ensures var after := Book(s, c, slot.start, slot.end).value;
            && AvailableSlots(after, c, dateFrom, dateTo, duration).Success?
            && slot !in AvailableSlots(after, c, dateFrom, dateTo, duration).value
  {
    var after := Book(s, c, slot.start, slot.end).value;
    StepKeepsSound(s, BookSlot(c, slot.start, slot.end));
    OfferedExactlyWhenBookable(after, c, dateFrom, dateTo, duration, slot);
    var n, row := |s.appointments|, Appointment(c, slot.start, slot.end, Confirmed);
    assert after.appointments[n] == row && (after.appointments + [row])[n + 1] == row;
    assert Clash((after.appointments + [row])[n], (after.appointments + [row])[n + 1]);
  }

  /** Booking and then closing the appointment, in whichever way, leaves every query's answer as it was. */
  lemma {:induction false} ClosingUndoesBooking(s: Schedule, c: Id, start: int, end: int, status: Status,
                             other: Id, dateFrom: int, dateTo: int, duration: int)
    requires Sound(s) && Book(s, c, start, end).Success? && status != Confirmed
    ensures var n, booked := |s.appointments|, Book(s, c, start, end).value;
            && Close(booked, n, status).Success?
            && AvailableSlots(Close(booked, n, status).value, other, dateFrom, dateTo, duration)
               == AvailableSlots(s, other, dateFrom, dateTo, duration)
  {
    var n, booked := |s.appointments|, Book(s, c, start, end).value;
    var row := Appointment(c, start, end, status);
    assert booked.appointments[n := row] == s.appointments + [row];
    AppendedClashes(s.appointments, row);
    if other < |s.calendars| {
      var calendar := s.calendars[other];
      SelectAppend(s.appointments, row, Prefetch(other, WindowStart(calendar, dateFrom), WindowEnd(calendar, dateTo)));
    }
  }

  // --- a day of spread is too much -------------------------------------------------------------

  /** A zone twelve hours ahead of UTC that goes twelve hours behind at the end of day 0, a Sunday. */
  function FallsBackADay(): Calendar { Calendar((local: int) => if local < DAY then DAY / 2 else -(DAY / 2)) }

  const LAST_HOUR := Rule(0, 6, 1380, 1440)

  /** With offsets 24 hours apart the window can miss a booking: the last hour of the day is offered
      though booking it is refused. */
  lemma ADayOfSpreadIsTooMuch()
    ensures var late := DAY + DAY / 2;
            var s := Schedule([FallsBackADay()], [LAST_HOUR], [Appointment(0, late - 1, late, Confirmed)]);
            var slot := Slot(DAY / 2 - 60 * MINUTE, late);
            && Sound(s)
            && AvailableSlots(s, 0, 0, 0, 60).Success? && slot in AvailableSlots(s, 0, 0, 0, 60).value
            && Book(s, 0, slot.start, slot.end) == Failure(SlotUnavailable)
  {
    var calendar, late := FallsBackADay(), DAY + DAY / 2;
    var a, slot := Appointment(0, late - 1, late, Confirmed), Slot(DAY / 2 - 60 * MINUTE, late);
    var s := Schedule([calendar], [LAST_HOUR], [a]);
    assert Sound(s);
    var fetched := Prefetched(s, 0, 0, 0);
    assert WindowEnd(calendar, 0) == late - 1;
    SelectAppend([], a, Prefetch(0, WindowStart(calendar, 0), WindowEnd(calendar, 0)));
    assert [] + [a] == [a];
    assert fetched == [];
    assert OnGrid(calendar, At(0, 1380), At(0, 1440), 60 * MINUTE, 0, slot);
    assert ByRule(calendar, LAST_HOUR, 0, 60 * MINUTE, 0, slot);
    assert LAST_HOUR in s.rules;
    assert Candidate(s, 0, 0, 0, 60, slot);
    SlotsAgainstMembers(s, 0, 0, 0, 60, fetched, slot);
    var row := Appointment(0, slot.start, slot.end, Confirmed);
    AppendedClashes([a], row);
    assert Clash([a][0], row);
  }
}

/** The appointment services as they run, on the tables in place. */
module Diaries {
  import opened Wrappers
  import opened Queries
  import opened Schedules
  import opened Availability
  import B = Booking

  function RulesAt(byDay: map<int, seq<Rule>>, day: int): seq<Rule>
  {
    if day in byDay then byDay[day] else []
  }

  lemma OneMoreDay(calendar: Calendar, mine: seq<Rule>, date: int, dateTo: int, delta: int, booked: seq<Appointment>,
                   before: seq<Slot>, after: seq<Slot>)
    requires delta > 0 && date <= dateTo
    requires after == before + SlotsOfRules(calendar, Select(mine, OnDay(Weekday(date))), date, delta, booked)
    ensures after + SlotsOfDays(calendar, mine, date + 1, dateTo, delta, booked)
         == before + SlotsOfDays(calendar, mine, date, dateTo, delta, booked)
  {
  }

  class Diary {
    const calendars: seq<Calendar>
    var rules: seq<Rule>
    var appointments: seq<Appointment>

    constructor (calendars: seq<Calendar>)
      ensures State() == Schedule(calendars, [], [])
    {
      this.calendars := calendars;
      rules, appointments := [], [];
    }

    function State(): Schedule
      reads this
    {
      Schedule(calendars, rules, appointments)
    }

    ghost predicate Outcome(before: Schedule, call: B.Call, error: Option<Error>)
      reads this
    {
      State() == B.Step(before, call) && error == ErrorOf(B.Apply(before, call))
    }

    method CreateRule(c: Id, day: int, start: int, end: int) returns (error: Option<Error>)
      modifies this`rules
      ensures Outcome(old(State()), B.AddRule(Rule(c, day, start, end)), error)
    {
      if !(0 <= day <= 6) { return Some(Invalid); }
      if !(0 <= start < MINUTES_PER_DAY) { return Some(Invalid); }
      if !(0 < end <= MINUTES_PER_DAY) { return Some(Invalid); }
      if end <= start { return Some(Invalid); }
      if c >= |calendars| { return Some(NotFound); }
      rules := rules + [Rule(c, day, start, end)];
      error := None;
    }

    /** The write, then the constraint; a violation takes the write back. */
    method WriteAndFlush(table: seq<Appointment>) returns (error: Option<Error>)
      modifies this`appointments
      ensures error == (if B.NoDoubleBooking(table) then None else Some(SlotUnavailable))
      ensures appointments == if error.None? then table else old(appointments)
    {
      var saved := appointments;
      appointments := table;
      if !B.NoDoubleBooking(appointments) {
        appointments := saved;
        return Some(SlotUnavailable);
      }
      error := None;
    }

    method Book(c: Id, start: int, end: int) returns (error: Option<Error>)
      modifies this`appointments
      ensures Outcome(old(State()), B.BookSlot(c, start, end), error)
    {
      if end <= start { return Some(Invalid); }
      if c >= |calendars| { return Some(NotFound); }
      error := WriteAndFlush(appointments + [Appointment(c, start, end, Confirmed)]);
    }

    method Reschedule(i: Id, start: int, end: int) returns (error: Option<Error>)
      modifies this`appointments
      ensures Outcome(old(State()), B.Move(i, start, end), error)
    {
      if end <= start { return Some(Invalid); }
      if i >= |appointments| { return Some(NotFound); }
      if appointments[i].status != Confirmed { return Some(Invalid); }
      error := WriteAndFlush(appointments[i := appointments[i].(start := start, end := end)]);
    }

    method Cancel(i: Id) returns (error: Option<Error>)
      modifies this`appointments
      ensures Outcome(old(State()), B.Cancel(i), error)
    {
      if i >= |appointments| { return Some(NotFound); }
      if appointments[i].status != Confirmed { return Some(Invalid); }
      error := WriteAndFlush(appointments[i := appointments[i].(status := Cancelled)]);
    }

    method Complete(i: Id) returns (error: Option<Error>)
      modifies this`appointments
      ensures Outcome(old(State()), B.Complete(i), error)
    {
      if i >= |appointments| { return Some(NotFound); }
      if appointments[i].status != Confirmed { return Some(Invalid); }
      error := WriteAndFlush(appointments[i := appointments[i].(status := Completed)]);
    }

    method MarkNoShow(i: Id) returns (error: Option<Error>)
      modifies this`appointments
      ensures Outcome(old(State()), B.MarkNoShow(i), error)
    {
      if i >= |appointments| { return Some(NotFound); }
      if appointments[i].status != Confirmed { return Some(Invalid); }
      error := WriteAndFlush(appointments[i := appointments[i].(status := NoShow)]);
    }

    // --- slots --------------------------------------------------------------------------

    method GroupByDay(mine: seq<Rule>) returns (byDay: map<int, seq<Rule>>)
      ensures forall day: int :: RulesAt(byDay, day) == Select(mine, OnDay(day))
    {
      byDay := map[];
      for i := 0 to |mine|
        invariant forall day: int :: RulesAt(byDay, day) == Select(mine[..i], OnDay(day))
      {
        var rule := mine[i];
        forall day: int
          ensures Select(mine[..i + 1], OnDay(day)) == Select(mine[..i], OnDay(day)) + (if rule.day == day then [rule] else [])
        {
          assert mine[..i + 1] == mine[..i] + [rule];
          SelectAppend(mine[..i], rule, OnDay(day));
        }
        byDay := byDay[rule.day := RulesAt(byDay, rule.day) + [rule]];
      }
      assert mine[..|mine|] == mine;
    }

    /** The inner loop: the cursor walks the rule's window on one date. */
    method AddSlots(calendar: Calendar, date: int, rule: Rule, delta: int, booked: seq<Appointment>, slots: seq<Slot>)
      returns (more: seq<Slot>)
      requires delta > 0
      ensures more == slots + FreeSlots(calendar, At(date, rule.start), At(date, rule.end), delta, booked)
    {
      var localStart := At(date, rule.start);
      var localEnd;
      if rule.end == MINUTES_PER_DAY {
        localEnd := At(date + 1, 0) - 1 + 1;
      } else {
        localEnd := At(date, rule.end);
      }
      more := slots;
      var cursor := localStart;
      while cursor + delta <= localEnd
        invariant more + FreeSlots(calendar, cursor, localEnd, delta, booked)
               == slots + FreeSlots(calendar, localStart, localEnd, delta, booked)
        decreases localEnd - cursor
      {
        var slot := SlotAt(calendar, cursor, delta);
        ghost var rest := FreeSlots(calendar, cursor + delta, localEnd, delta, booked);
        if Free(slot, booked) {
          assert more + ([slot] + rest) == more + [slot] + rest;
          more := more + [slot];
        } else {
          assert more + ([] + rest) == more + rest;
        }
        cursor := cursor + delta;
      }
      assert more + [] == more;
    }

    /** The rules of one date. */
    method AddDaySlots(calendar: Calendar, date: int, today: seq<Rule>, delta: int, booked: seq<Appointment>, slots: seq<Slot>)
      returns (more: seq<Slot>)
      requires delta > 0
      ensures more == slots + SlotsOfRules(calendar, today, date, delta, booked)
    {
      more := slots;
      for i := 0 to |today|
        invariant more + SlotsOfRules(calendar, today[i..], date, delta, booked)
               == slots + SlotsOfRules(calendar, today, date, delta, booked)
      {
        assert today[i..][1..] == today[i + 1..];
        more := AddSlots(calendar, date, today[i], delta, booked, more);
      }
      assert more + [] == more;
    }

    method WalkDates(calendar: Calendar, mine: seq<Rule>, dateFrom: int, dateTo: int, delta: int, booked: seq<Appointment>)
      returns (slots: seq<Slot>)
      requires delta > 0
      ensures slots == SlotsOfDays(calendar, mine, dateFrom, dateTo, delta, booked)
    {
      var byDay := GroupByDay(mine);
      slots := [];
      var date := dateFrom;
      while date <= dateTo
        invariant slots + SlotsOfDays(calendar, mine, date, dateTo, delta, booked)
               == SlotsOfDays(calendar, mine, dateFrom, dateTo, delta, booked)
      {
        var today := RulesAt(byDay, Weekday(date));
        ghost var before := slots;
        slots := AddDaySlots(calendar, date, today, delta, booked, slots);
        OneMoreDay(calendar, mine, date, dateTo, delta, booked, before, slots);
        date := date + 1;
      }
      assert slots + [] == slots;
    }

    method ComputeAvailableSlots(c: Id, dateFrom: int, dateTo: int, duration: int) returns (r: Result<seq<Slot>, Error>)
      ensures r == AvailableSlots(State(), c, dateFrom, dateTo, duration)
    {
      if dateTo < dateFrom { return Failure(Invalid); }
      if dateTo - dateFrom > MAX_QUERY_DAYS { return Failure(Invalid); }
      if !(MIN_DURATION <= duration <= MINUTES_PER_DAY) { return Failure(Invalid); }
      if c >= |calendars| { return Failure(NotFound); }
      var calendar := calendars[c];
      var mine := Select(rules, OfCalendar(c));
      var booked := Select(appointments, Prefetch(c, WindowStart(calendar, dateFrom), WindowEnd(calendar, dateTo)));
      var slots := WalkDates(calendar, mine, dateFrom, dateTo, duration * MINUTE, booked);
      r := Success(SortByStart(slots));
    }
  }
}
