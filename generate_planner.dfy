/** `generateWeeklyPlanner` (dist/controllers/Planner/Generate/generatePlanner.js): lays out
    seven days from the chosen start date, records a study event for every topic the
    selector picks, and after the planner is stored retags the loaded topics. The seven
    per-day builds, issued together in the source, run here one after the other. */
module GeneratePlanner {
  import opened Wrappers
  import opened Calendar
  import opened UserModel
  import opened PlannerModel

  /** The planner's first day: the activation day when it is on or after the current ISO
      week's Monday, otherwise that Monday. A missing activation date compares as
      false, so it also gives the Monday. */
  function PlannerStart(activation: Option<int>, today: int): (start: int)
    ensures IsoWeekStart(today) <= start
    ensures start == IsoWeekStart(today) || (activation.Some? && start == DayOf(activation.value))
    ensures activation.Some? && DayOf(activation.value) >= IsoWeekStart(today) ==> start == DayOf(activation.value)
  {
    if activation.Some? && DayOf(activation.value) >= IsoWeekStart(today) then DayOf(activation.value)
    else IsoWeekStart(today)
  }

  /** Every topic some call of the build selects. */
  ghost function Chosen(sels: seq<Selection>): set<StudyData> {
    set i, t | 0 <= i < |sels| && t in DailyTopics(sels[i]) :: t
  }

  /** The seven day records: entry `i` is labelled with the i-th weekday name, dated
      `start + i`, holds the selector's i-th answer and the questions assembled for it. */
  function Layout(start: int, sels: seq<Selection>, assemble: Assembler): (days: seq<Day>)
    requires |sels| == 7
    ensures |days| == 7
    ensures forall i :: 0 <= i < 7 ==> days[i].day == WeekdayNames[i] && days[i].date == start + i
    ensures forall i :: 0 <= i < 7 ==>
      days[i].continuousRevisionTopics == sels[i].continuous && days[i].backRevisionTopics == sels[i].back
  {
    seq(7, i requires 0 <= i < 7 => DayEntry(start, sels, assemble, i))
  }

  /** Entry `i` of the layout. */
  function DayEntry(start: int, sels: seq<Selection>, assemble: Assembler, i: nat): Day
    requires i < |sels| && i < 7
  {
    Day(WeekdayNames[i], start + i, sels[i].continuous, sels[i].back,
        assemble(WeekdayNames[i], start + i, DailyTopics(sels[i])))
  }

  /** Study events the first `n` days of a build append to topic `t`: per day, one
      `(date, 0)` per occurrence of `t` among that day's topics. */
  function EventsThrough(t: StudyData, sels: seq<Selection>, start: int, n: nat): seq<StudyEvent>
    requires n <= |sels|
  {
    if n == 0 then []
    else EventsThrough(t, sels, start, n - 1)
         + Repeat(StudyEvent(start + n - 1, 0), Count(t, DailyTopics(sels[n - 1])))
  }

  /** One more day of events appended to a topic's history. */
  lemma EventsAppended(t: StudyData, sels: seq<Selection>, start: int, i: nat,
                       origin: seq<StudyEvent>, before: seq<StudyEvent>, after: seq<StudyEvent>)
    requires i < |sels|
    requires before == origin + EventsThrough(t, sels, start, i)
    requires after == before + Repeat(StudyEvent(start + i, 0), Count(t, DailyTopics(sels[i])))
    ensures after == origin + EventsThrough(t, sels, start, i + 1)
  {
  }

  /** Days among the first `n` whose topics include `t`. */
  function DaysSelected(t: StudyData, sels: seq<Selection>, n: nat): nat
    requires n <= |sels|
  {
    if n == 0 then 0
    else DaysSelected(t, sels, n - 1) + (if t in DailyTopics(sels[n - 1]) then 1 else 0)
  }

  /** One day of the build, seen from the topics the whole week may touch: each gains
      one `(date, 0)` per occurrence among the day's topics, the others nothing. */
  method RecordDay(ghost scope: set<StudyData>, topics: seq<StudyData>, date: int)
    requires forall t :: t in topics ==> t in scope
    modifies scope`studiedAt
    ensures forall t :: t in scope ==>
      t.studiedAt == old(t.studiedAt) + Repeat(StudyEvent(date, 0), Count(t, topics))
  {
    AppendStudyEvent(topics, date);
    forall t | t in scope && t !in topics
      ensures Count(t, topics) == 0
    {
      CountAbsent(t, topics);
    }
  }

  /** Day dates rise by exactly one day from entry to entry, starting at `start`. */
  lemma LayoutConsecutive(start: int, sels: seq<Selection>, assemble: Assembler)
    requires |sels| == 7
    ensures Layout(start, sels, assemble)[0].date == start
    ensures forall i :: 0 < i < 7 ==>
      Layout(start, sels, assemble)[i].date == Layout(start, sels, assemble)[i - 1].date + 1
  {
  }

  /** The labels are positional: every entry is labelled with the weekday its date falls
      on exactly when the planner starts on a Monday. */
  lemma LabelsMatchWeekdays(start: int, sels: seq<Selection>, assemble: Assembler)
    requires |sels| == 7
    ensures (forall i :: 0 <= i < 7 ==>
               Layout(start, sels, assemble)[i].day == WeekdayName(Layout(start, sels, assemble)[i].date))
        <==> Weekday(start) == 0
  {
    var days := Layout(start, sels, assemble);
    if Weekday(start) == 0 {
      forall i | 0 <= i < 7
        ensures days[i].day == WeekdayName(days[i].date)
      {
        assert (start + 3) % 7 == 0;
        assert Weekday(start + i) == i;
      }
    } else {
      assert days[0].day == "Monday";
      assert WeekdayName(days[0].date) == WeekdayNames[Weekday(start)];
      assert WeekdayNames[Weekday(start)] != "Monday";
    }
  }

  /** The planner ends on the Sunday of the start date's week, so its last entries fall
      after `endDate` unless it starts on a Monday; a later start leaves fewer days. */
  lemma DaysWithinPlannerWeek(start: int, sels: seq<Selection>, assemble: Assembler)
    requires |sels| == 7
    ensures IsoWeekEnd(start) - start == 6 - Weekday(start)
    ensures (forall i :: 0 <= i < 7 ==> Layout(start, sels, assemble)[i].date <= IsoWeekEnd(start))
        <==> Weekday(start) == 0
  {
    assert Layout(start, sels, assemble)[6].date == start + 6;
  }

  /** A topic selected on `k` of the days, at most once per day, gains exactly `k` study
      events, each dated within the build's days and of efficiency 0. */
  lemma {:induction false} EventsPerSelectedDay(t: StudyData, sels: seq<Selection>, start: int, n: nat)
    requires n <= |sels|
    requires forall i :: 0 <= i < n ==> Count(t, DailyTopics(sels[i])) <= 1
    ensures |EventsThrough(t, sels, start, n)| == DaysSelected(t, sels, n)
    ensures forall e :: e in EventsThrough(t, sels, start, n) ==>
      e.efficiency == 0 && start <= e.date < start + n
  {
    if n > 0 {
      EventsPerSelectedDay(t, sels, start, n - 1);
      var day := DailyTopics(sels[n - 1]);
      if t in day {
        CountPresent(t, day);
      } else {
        CountAbsent(t, day);
      }
    }
  }

  /** Day `i`'s study events, for topics whose histories have grown from `origin` by the
      events of the days before it. */
  method RecordBuildDay(ghost scope: set<StudyData>, ghost origin: map<StudyData, seq<StudyEvent>>,
                        start: int, selections: seq<Selection>, i: nat)
    requires i < |selections|
    requires forall t :: t in DailyTopics(selections[i]) ==> t in scope
    requires forall t :: t in scope ==>
      t in origin && t.studiedAt == origin[t] + EventsThrough(t, selections, start, i)
    modifies scope`studiedAt
    ensures forall t :: t in scope ==>
      t in origin && t.studiedAt == origin[t] + EventsThrough(t, selections, start, i + 1)
  {
    RecordDay(scope, DailyTopics(selections[i]), start + i);
    forall t | t in scope
      ensures t.studiedAt == origin[t] + EventsThrough(t, selections, start, i + 1)
    {
      EventsAppended(t, selections, start, i, origin[t], old(t.studiedAt), t.studiedAt);
    }
  }

  /** The seven per-day builds: each labels its day, records the day's study events and
      draws its questions. `scope` holds every topic the selections name. */
  method BuildDays(ghost scope: set<StudyData>, start: int, selections: seq<Selection>, assemble: Assembler)
    returns (days: seq<Day>)
    requires |selections| == 7
    requires forall i, t :: 0 <= i < 7 && t in DailyTopics(selections[i]) ==> t in scope
    modifies scope`studiedAt
    ensures days == Layout(start, selections, assemble)
    ensures forall t :: t in scope ==>
      t.studiedAt == old(t.studiedAt) + EventsThrough(t, selections, start, 7)
  {
    ghost var origin := map t | t in scope :: t.studiedAt;
    days := [];
    for i := 0 to 7
      invariant |days| == i
      invariant forall j :: 0 <= j < i ==> days[j] == DayEntry(start, selections, assemble, j)
      invariant forall t :: t in scope ==>
        t in origin && t.studiedAt == origin[t] + EventsThrough(t, selections, start, i)
    {
      var selection := selections[i];
      var dailyTopics := DailyTopics(selection);
      var date := start + i;
      RecordBuildDay(scope, origin, start, selections, i);
      var questions := assemble(WeekdayNames[i], date, dailyTopics);
      days := days + [Day(WeekdayNames[i], date, selection.continuous, selection.back, questions)];
    }
    assert days == Layout(start, selections, assemble);
  }

  /** The weekly build. The selector is not part of this model: `selections` are its
      seven answers, in call order (Monday first). `createError` is the store's failure,
      if `Planner.create` fails. */
  method GenerateWeeklyPlanner(
    user: User, today: int, records: seq<StudyData>, selections: seq<Selection>,
    assemble: Assembler, createError: Option<string>)
    returns (r: Result<Planner>)
    requires |selections| == 7
    modifies Chosen(selections)`studiedAt, Objects(records)`tag
    ensures var start := PlannerStart(user.subscription.dateOfActivation, today);
      && (r.Ok? <==> createError.None?)
      && (r.Err? ==> r.message == createError.value)
      && (r.Ok? ==> && fresh(r.value) && r.value.student == user.id
                    && r.value.startDate == start && r.value.endDate == IsoWeekEnd(start)
                    && r.value.days == Layout(start, selections, assemble))
      && (forall t :: t in Chosen(selections) ==>
            t.studiedAt == old(t.studiedAt) + EventsThrough(t, selections, start, 7))
      && (forall t :: t in records ==>
            t.tag == if r.Ok? && t in old(Loaded(records, today - 1)) then ActiveContinuousRevision else old(t.tag))
  {
    var start := PlannerStart(user.subscription.dateOfActivation, today);
    var end := IsoWeekEnd(start);
    var pool := Loaded(records, today - 1);
    assert forall t :: t in pool ==> t in records;
    var days := BuildDays(Chosen(selections), start, selections, assemble);
    if createError.Some? {
      return Err(createError.value, None);
    }
    var planner := new Planner(user.id, start, end, days);
    MarkActive(pool);
    r := Ok(planner);
  }
}
