/** The planner handlers of src/controllers/Planner/index.ts: `createPlanner`, which
    guards and runs the weekly build, and `updateDailyPlanner`, which merges freshly
    selected topics and questions into tomorrow's entry of the current week's planner. */
module PlannerController {
  import opened Wrappers
  import opened Calendar
  import opened Text
  import opened UserModel
  import opened PlannerModel
  import opened GeneratePlanner

  // ---------------------------------------------------------------------------
  // createPlanner

  /** `createPlanner`. Without an activation date (free trial first, then subscription)
      it fails before anything is generated. Otherwise it runs the weekly build and,
      once that returns, raises the user's planner flag and saves the user, which runs
      the e-mail check. The back-topic loader and the selector are not part of this
      model: `selections` are the selector's seven answers. The response's `message` and
      `planner` fields read properties the returned planner does not have; the result
      here is the planner itself. */
  method CreatePlanner(
    user: User, today: int, records: seq<StudyData>, selections: seq<Selection>,
    assemble: Assembler, createError: Option<string>)
    returns (r: Result<Planner>)
    requires |selections| == 7
    modifies user`planner, Chosen(selections)`studiedAt, Objects(records)`tag
    ensures old(ActivationDate(user)).None? ==>
      && r == Err("Not subscribed", Some(400))
      && user.planner == old(user.planner)
      && (forall t :: t in Chosen(selections) ==> t.studiedAt == old(t.studiedAt))
      && (forall t :: t in records ==> t.tag == old(t.tag))
    ensures old(ActivationDate(user)).Some? ==>
      var start := PlannerStart(old(user.subscription.dateOfActivation), today);
      && (createError.Some? ==> r == Err(createError.value, None) && user.planner == old(user.planner))
      && (createError.None? ==>
            && user.planner
            && (r.Ok? <==> MatchesEmailPattern(user.email))
            && (r.Err? ==> r == Err("Please enter a valid email address", None))
            && (r.Ok? ==> fresh(r.value) && r.value.student == user.id && r.value.startDate == start
                          && r.value.days == Layout(start, selections, assemble)))
      && (forall t :: t in Chosen(selections) ==>
            t.studiedAt == old(t.studiedAt) + EventsThrough(t, selections, start, 7))
      && (forall t :: t in records ==>
            t.tag == if createError.None? && t in old(Loaded(records, today - 1))
                     then ActiveContinuousRevision else old(t.tag))
  {
    var activation := ActivationDate(user);
    if activation.None? {
      return Err("Not subscribed", Some(400));
    }
    var result := GenerateWeeklyPlanner(user, today, records, selections, assemble, createError);
    if result.Err? {
      return Err(result.message, None);
    }
    user.planner := true;
    var saved := PreSave(user.email);
    if saved.Err? {
      return Err(saved.message, None);
    }
    r := result;
  }

  // ---------------------------------------------------------------------------
  // updateDailyPlanner: the pure parts

  /** `Planner.findOne`: the first planner of `student` lying inside the ISO week of
      `today` (starting on or after its Monday, ending on or before its Sunday). */
  predicate InWeekOf(p: Planner, student: string, today: int) {
    p.student == student && p.startDate >= IsoWeekStart(today) && p.endDate <= IsoWeekEnd(today)
  }

  function FindWeekPlanner(planners: seq<Planner>, student: string, today: int): (k: Option<nat>)
    ensures k.Some? ==> k.value < |planners| && InWeekOf(planners[k.value], student, today)
    ensures k.Some? ==> forall j :: 0 <= j < k.value ==> !InWeekOf(planners[j], student, today)
    ensures k.None? ==> forall j :: 0 <= j < |planners| ==> !InWeekOf(planners[j], student, today)
  {
    if planners == [] then None
    else if InWeekOf(planners[0], student, today) then Some(0)
    else match FindWeekPlanner(planners[1..], student, today) {
      case None => None
      case Some(k) => Some(k + 1)
    }
  }

  /** `planner.days.find(...)`: the index of the first day dated `date`. */
  function ExistingDay(days: seq<Day>, date: int): (k: Option<nat>)
    ensures k.Some? ==> k.value < |days| && days[k.value].date == date
    ensures k.Some? ==> forall j :: 0 <= j < k.value ==> days[j].date != date
    ensures k.None? ==> forall j :: 0 <= j < |days| ==> days[j].date != date
  {
    if days == [] then None
    else if days[0].date == date then Some(0)
    else match ExistingDay(days[1..], date) {
      case None => None
      case Some(k) => Some(k + 1)
    }
  }

  /** The lower-cased names of the continuous topics already planned on `date`; empty
      when no day carries that date. */
  function ExistingNames(days: seq<Day>, date: int): (names: set<string>)
    ensures ExistingDay(days, date).None? ==> names == {}
    ensures ExistingDay(days, date).Some? ==>
      forall n :: n in names <==>
        exists t :: t in days[ExistingDay(days, date).value].continuousRevisionTopics && n == Lower(t.name)
  {
    match ExistingDay(days, date) {
      case None => {}
      case Some(k) => set t | t in days[k].continuousRevisionTopics :: Lower(t.name)
    }
  }

  /** The `filter` keeping candidates whose lower-cased name is not among `names`, in
      order; candidates are not compared with each other. */
  function NewTopics(candidates: seq<StudyData>, names: set<string>): (r: seq<StudyData>)
    ensures forall t :: t in r ==> t in candidates && Lower(t.name) !in names
    ensures forall t :: t in candidates && Lower(t.name) !in names ==> t in r
    ensures |r| <= |candidates|
  {
    if candidates == [] then []
    else
      var last := candidates[|candidates| - 1];
      NewTopics(candidates[..|candidates| - 1], names)
      + (if Lower(last.name) !in names then [last] else [])
  }

  /** `{ ...existingQuestions, ...dailyQuestions }`. */
  function MergeQuestions(existing: QuestionMap, added: QuestionMap): (m: QuestionMap)
    ensures m.Keys == existing.Keys + added.Keys
    ensures forall k :: k in added ==> m[k] == added[k]
    ensures forall k :: k in existing && k !in added ==> m[k] == existing[k]
  {
    existing + added
  }

  /** The questions already planned on `date`; none when no day carries that date. */
  function ExistingQuestions(days: seq<Day>, date: int): QuestionMap {
    match ExistingDay(days, date) {
      case None => map[]
      case Some(k) => days[k].questions
    }
  }

  /** The `updateOne`: `$push` the topics onto, and `$set` the questions of, the first day
      dated `date`; no day, no change. */
  function UpdatedDays(days: seq<Day>, date: int, topics: seq<StudyData>, questions: QuestionMap): (r: seq<Day>)
    ensures |r| == |days|
    ensures ExistingDay(days, date).None? ==> r == days
    ensures ExistingDay(days, date).Some? ==>
      var k := ExistingDay(days, date).value;
      && (forall j :: 0 <= j < |days| && j != k ==> r[j] == days[j])
      && r[k].day == days[k].day && r[k].date == date
      && r[k].backRevisionTopics == days[k].backRevisionTopics
      && r[k].continuousRevisionTopics == days[k].continuousRevisionTopics + topics
      && r[k].questions == questions
  {
    match ExistingDay(days, date) {
      case None => days
      case Some(k) =>
        days[k := days[k].(continuousRevisionTopics := days[k].continuousRevisionTopics + topics,
                           questions := questions)]
  }
  }

  /** The topics an update schedules for `date`: the selected continuous topics whose
      names are not yet planned on that day. */
  function Fresh(days: seq<Day>, date: int, selection: Selection): seq<StudyData> {
    NewTopics(selection.continuous, ExistingNames(days, date))
  }

  /** The questions an update for `date` sets: those already planned in the week's
      planner `days` on that date, overridden by the ones drawn for the new and the back
      topics. */
  function MergedQuestions(days: seq<Day>, date: int, selection: Selection, assemble: Assembler): QuestionMap {
    var questions := assemble(WeekdayName(date), date, Fresh(days, date, selection) + selection.back);
    MergeQuestions(ExistingQuestions(days, date), questions)
  }

  /** The week planner's days after a non-empty update for `date`, when the push lands
      in that planner. */
  function Merged(days: seq<Day>, date: int, selection: Selection, assemble: Assembler): seq<Day> {
    UpdatedDays(days, date, Fresh(days, date, selection), MergedQuestions(days, date, selection, assemble))
  }

  /** Whether the `updateOne` filter `{student, "days.date": date}` matches planner `p`. */
  predicate HoldsDay(p: Planner, student: string, date: int)
    reads p
  {
    p.student == student && ExistingDay(p.days, date).Some?
  }

  /** The planner the `updateOne` changes: the first stored planner of `student` with a
      day dated `date`, which need not be the week's planner. */
  function PushTarget(planners: seq<Planner>, student: string, date: int): (k: Option<nat>)
    reads set p | p in planners
    ensures k.Some? ==> k.value < |planners| && HoldsDay(planners[k.value], student, date)
    ensures k.Some? ==> forall j :: 0 <= j < k.value ==> !HoldsDay(planners[j], student, date)
    ensures k.None? ==> forall j :: 0 <= j < |planners| ==> !HoldsDay(planners[j], student, date)
  {
    if planners == [] then None
    else if HoldsDay(planners[0], student, date) then Some(0)
    else match PushTarget(planners[1..], student, date) {
      case None => None
      case Some(k) => Some(k + 1)
    }
  }

  /** `plannerFrequency` after `n` bumps: a missing value counts as 0. */
  function Bumped(f: Option<int>, n: nat): (g: Option<int>)
    ensures n == 0 ==> g == f
    ensures n > 0 ==> g.Some? && g.value == f.GetOr(0) + n
  {
    if n == 0 then f else Some(f.GetOr(0) + n)
  }

  // ---------------------------------------------------------------------------
  // updateDailyPlanner: the steps that change topics and planners

  /** One step of the `forEach`: a study event `(date, 0)`, and the frequency set to 0
      when missing or 0, then raised by one. */
  method ScheduleTopic(topic: StudyData, date: int)
    modifies topic`studiedAt, topic`plannerFrequency
    ensures topic.studiedAt == old(topic.studiedAt) + [StudyEvent(date, 0)]
    ensures topic.plannerFrequency == Bumped(old(topic.plannerFrequency), 1)
  {
    topic.studiedAt := topic.studiedAt + [StudyEvent(date, 0)];
    if topic.plannerFrequency.None? || topic.plannerFrequency.value == 0 {
      topic.plannerFrequency := Some(0);
    }
    topic.plannerFrequency := Some(topic.plannerFrequency.value + 1);
  }

  /** Bumping once more after `n` bumps is `n + 1` bumps. */
  lemma BumpedOnceMore(f: Option<int>, n: nat)
    ensures Bumped(Bumped(f, n), 1) == Bumped(f, n + 1)
  {
  }

  /** The `forEach` over the new topics: one study event `(date, 0)` and one frequency
      bump per occurrence. */
  method ScheduleTopics(topics: seq<StudyData>, date: int)
    modifies Objects(topics)`studiedAt, Objects(topics)`plannerFrequency
    ensures forall t :: t in topics ==>
      && t.studiedAt == old(t.studiedAt) + Repeat(StudyEvent(date, 0), Count(t, topics))
      && t.plannerFrequency == Bumped(old(t.plannerFrequency), Count(t, topics))
  {
    for i := 0 to |topics|
      invariant forall t :: t in topics ==>
        && t.studiedAt == old(t.studiedAt) + Repeat(StudyEvent(date, 0), Count(t, topics[..i]))
        && t.plannerFrequency == Bumped(old(t.plannerFrequency), Count(t, topics[..i]))
    {
      var topic := topics[i];
      assert topics[..i + 1] == topics[..i] + [topic];
      ghost var n := Count(topic, topics[..i]);
      CountSnoc(topic, topics[..i], topic);
      BumpedOnceMore(old(topic.plannerFrequency), n);
      assert Repeat(StudyEvent(date, 0), n + 1) == Repeat(StudyEvent(date, 0), n) + [StudyEvent(date, 0)];
      ScheduleTopic(topic, date);
      forall t | t in topics && t != topic
        ensures Count(t, topics[..i + 1]) == Count(t, topics[..i])
      {
        CountSnoc(t, topics[..i], topic);
      }
    }
    assert topics[..|topics|] == topics;
  }

  /** The outcome of a successful call: the 400 "Topics are already added for the next
      day." answer, or the update for the given day. */
  datatype UpdateOutcome = AlreadyAdded | Updated(date: int)

  function PlannerNotFound(student: string, dateText: string): string {
    "Planner not found for user " + student + " for the date " + dateText
  }

  /** The part of `updateDailyPlanner` that changes topics, once the week's planner is
      found and `added`, the topics not yet planned on `nextDay`, is not empty: schedule
      them, then draw their questions and merge them over the ones the week's planner,
      `weekDays`, already holds for that day. */
  method ScheduleAndDraw(
    weekDays: seq<Day>, nextDay: int, selection: Selection, added: seq<StudyData>, assemble: Assembler)
    returns (merged: QuestionMap)
    requires added == Fresh(weekDays, nextDay, selection)
    modifies Objects(selection.continuous)`studiedAt, Objects(selection.continuous)`plannerFrequency
    ensures forall t :: t in selection.continuous ==>
      && t.studiedAt == old(t.studiedAt) + Repeat(StudyEvent(nextDay, 0), Count(t, added))
      && t.plannerFrequency == Bumped(old(t.plannerFrequency), Count(t, added))
    ensures merged == MergedQuestions(weekDays, nextDay, selection, assemble)
  {
    ScheduleTopics(added, nextDay);
    forall t | t in selection.continuous && t !in added
      ensures Count(t, added) == 0
    {
      CountAbsent(t, added);
    }
    var questions := assemble(WeekdayName(nextDay), nextDay, added + selection.back);
    merged := MergeQuestions(ExistingQuestions(weekDays, nextDay), questions);
  }

  /** The `updateOne`: `$push` onto and `$set` in the planner at `target`, if any. */
  method PushDay(planners: seq<Planner>, target: Option<nat>, date: int, topics: seq<StudyData>, questions: QuestionMap)
    requires target.Some? ==> target.value < |planners|
    modifies (set p | p in planners)`days
    ensures forall q :: q in planners ==>
      q.days == if target.Some? && q == planners[target.value]
                then UpdatedDays(old(q.days), date, topics, questions) else old(q.days)
  {
    if target.Some? {
      var pushed := planners[target.value];
      pushed.days := UpdatedDays(pushed.days, date, topics, questions);
    }
  }

  /** The final loop over the loaded topics `pool`, drawn from `records`. */
  method RetagLoaded(records: seq<StudyData>, pool: seq<StudyData>)
    requires forall t :: t in pool ==> t in records
    modifies Objects(records)`tag
    ensures forall t :: t in records ==> t.tag == if t in pool then ActiveContinuousRevision else old(t.tag)
  {
    MarkActive(pool);
  }

  /** `updateDailyPlanner`. The loaded topics, `records`, are this user's; `planners` are
      the stored planners; `selection` is the selector's answer for the loaded topics;
      `dateText` is how the next day is rendered in the error message. */
  method UpdateDailyPlanner(
    user: User, today: int, records: seq<StudyData>, planners: seq<Planner>,
    selection: Selection, assemble: Assembler, dateText: string)
    returns (r: Result<UpdateOutcome>)
    modifies Objects(selection.continuous)`studiedAt, Objects(selection.continuous)`plannerFrequency
    modifies Objects(records)`tag, (set p | p in planners)`days
    ensures var found := FindWeekPlanner(planners, user.id, today);
      && (r.Err? <==> found.None?)
      && (r.Err? ==> r == Err(PlannerNotFound(user.id, dateText), None))
      && (r.Ok? ==> var p := planners[found.value];
            && (r.value == AlreadyAdded <==> Fresh(old(p.days), today + 1, selection) == [])
            && (r.value.Updated? ==> r.value.date == today + 1))
    ensures !(r.Ok? && r.value.Updated?) ==>
      && (forall t :: t in selection.continuous ==>
            t.studiedAt == old(t.studiedAt) && t.plannerFrequency == old(t.plannerFrequency))
      && (forall q :: q in planners ==> q.days == old(q.days))
      && (forall t :: t in records ==> t.tag == old(t.tag))
    ensures r.Ok? && r.value.Updated? ==>
      var p := planners[FindWeekPlanner(planners, user.id, today).value];
      var added := Fresh(old(p.days), today + 1, selection);
      var target := old(PushTarget(planners, user.id, today + 1));
      var merged := MergedQuestions(old(p.days), today + 1, selection, assemble);
      && (forall t :: t in selection.continuous ==>
            && t.studiedAt == old(t.studiedAt) + Repeat(StudyEvent(today + 1, 0), Count(t, added))
            && t.plannerFrequency == Bumped(old(t.plannerFrequency), Count(t, added)))
      && (forall q :: q in planners ==>
            q.days == if target.Some? && q == planners[target.value]
                      then UpdatedDays(old(q.days), today + 1, added, merged) else old(q.days))
      && (forall t :: t in records ==>
            t.tag == if t in old(Loaded(records, today)) then ActiveContinuousRevision else old(t.tag))
  {
    var nextDay := today + 1;
    var pool := Loaded(records, today);
    assert forall t :: t in pool ==> t in records;
    var found := FindWeekPlanner(planners, user.id, today);
    if found.None? {
      return Err(PlannerNotFound(user.id, dateText), None);
    }
    var planner := planners[found.value];
    var added := NewTopics(selection.continuous, ExistingNames(planner.days, nextDay));
    if added == [] {
      return Ok(AlreadyAdded);
    }
    var target := PushTarget(planners, user.id, nextDay);
    var merged := ScheduleAndDraw(planner.days, nextDay, selection, added, assemble);
    PushDay(planners, target, nextDay, added, merged);
    RetagLoaded(records, pool);
    r := Ok(Updated(nextDay));
  }

  // ---------------------------------------------------------------------------
  // Properties of the merge

  /** A candidate is scheduled as often as it was selected, unless its name (ignoring
      case) is already planned for the day, in which case it is not scheduled at all. */
  lemma {:induction false} NewTopicsCount(t: StudyData, candidates: seq<StudyData>, names: set<string>)
    ensures Count(t, NewTopics(candidates, names)) == if Lower(t.name) in names then 0 else Count(t, candidates)
  {
    if candidates != [] {
      var init := candidates[..|candidates| - 1];
      var last := candidates[|candidates| - 1];
      NewTopicsCount(t, init, names);
      assert candidates == init + [last];
      CountSnoc(t, init, last);
      var ri := NewTopics(init, names);
      if Lower(last.name) !in names {
        assert NewTopics(candidates, names) == ri + [last];
        CountSnoc(t, ri, last);
      } else {
        assert NewTopics(candidates, names) == ri;
      }
    }
  }

  /** Names that differ only in case count as the same topic: a candidate is dropped as
      soon as the day holds a topic whose name lower-cases to the same string. */
  lemma DuplicateUpToCaseDropped(days: seq<Day>, date: int, candidate: StudyData, planned: StudyData)
    requires ExistingDay(days, date).Some?
    requires planned in days[ExistingDay(days, date).value].continuousRevisionTopics
    requires Lower(candidate.name) == Lower(planned.name)
    ensures candidate !in NewTopics([candidate], ExistingNames(days, date))
  {
    assert Lower(candidate.name) in ExistingNames(days, date);
  }

  /** Without an entry for the day in the week's planner (on a Sunday, when the next day
      opens the following week) nothing counts as already planned: every candidate is
      scheduled, the week's planner itself is left as it was, and the questions pushed
      are only the freshly drawn ones, so whichever planner receives the push loses the
      questions it held for that day. */
  lemma MissingDaySchedulesAll(days: seq<Day>, date: int, selection: Selection, assemble: Assembler)
    requires ExistingDay(days, date).None?
    ensures Fresh(days, date, selection) == selection.continuous
    ensures Merged(days, date, selection, assemble) == days
    ensures MergedQuestions(days, date, selection, assemble)
         == assemble(WeekdayName(date), date, selection.continuous + selection.back)
  {
    NewTopicsAll(selection.continuous, {});
  }

  lemma {:induction false} NewTopicsAll(candidates: seq<StudyData>, names: set<string>)
    requires names == {}
    ensures NewTopics(candidates, names) == candidates
  {
    if candidates != [] {
      NewTopicsAll(candidates[..|candidates| - 1], names);
      assert candidates == candidates[..|candidates| - 1] + [candidates[|candidates| - 1]];
    }
  }

  /** When the day exists, a second update with the same selection finds nothing new. */
  lemma SecondUpdateFindsNothing(days: seq<Day>, date: int, selection: Selection, assemble: Assembler)
    requires ExistingDay(days, date).Some?
    ensures Fresh(Merged(days, date, selection, assemble), date, selection) == []
  {
    var k := ExistingDay(days, date).value;
    var after := Merged(days, date, selection, assemble);
    var added := Fresh(days, date, selection);
    assert ExistingDay(after, date) == Some(k) by {
      assert forall j :: 0 <= j < k ==> after[j] == days[j];
    }
    var old_ := days[k].continuousRevisionTopics;
    var new_ := after[k].continuousRevisionTopics;
    assert new_ == old_ + added;
    forall t | t in selection.continuous
      ensures Lower(t.name) in ExistingNames(after, date)
    {
      if Lower(t.name) in ExistingNames(days, date) {
        var u :| u in old_ && Lower(t.name) == Lower(u.name);
        assert u in new_;
      } else {
        assert t in added;
        assert t in new_;
      }
    }
    NewTopicsNone(selection.continuous, ExistingNames(after, date));
  }

  lemma {:induction false} NewTopicsNone(candidates: seq<StudyData>, names: set<string>)
    requires forall t :: t in candidates ==> Lower(t.name) in names
    ensures NewTopics(candidates, names) == []
  {
    if candidates != [] {
      NewTopicsNone(candidates[..|candidates| - 1], names);
      assert candidates[|candidates| - 1] in candidates;
    }
  }

  /** Topic names of a list are distinct, ignoring case. */
  predicate DistinctNames(ts: seq<StudyData>) {
    forall i, j :: 0 <= i < j < |ts| ==> Lower(ts[i].name) != Lower(ts[j].name)
  }

  lemma {:induction false} NewTopicsDistinct(candidates: seq<StudyData>, names: set<string>)
    requires DistinctNames(candidates)
    ensures DistinctNames(NewTopics(candidates, names))
  {
    if candidates != [] {
      var init := candidates[..|candidates| - 1];
      var last := candidates[|candidates| - 1];
      NewTopicsDistinct(init, names);
      var r := NewTopics(candidates, names);
      var ri := NewTopics(init, names);
      if Lower(last.name) !in names {
        forall i | 0 <= i < |ri| ensures Lower(ri[i].name) != Lower(last.name) {
          assert ri[i] in init;
          var j :| 0 <= j < |init| && init[j] == ri[i];
        }
        assert r == ri + [last];
      }
    }
  }

  /** If the day's topic names are distinct and so are the selected ones, they still are
      after the update; the update never plans a name twice unless the selector
      repeats it. */
  lemma UpdateKeepsNamesDistinct(days: seq<Day>, date: int, selection: Selection, assemble: Assembler)
    requires ExistingDay(days, date).Some?
    requires DistinctNames(days[ExistingDay(days, date).value].continuousRevisionTopics)
    requires DistinctNames(selection.continuous)
    ensures DistinctNames(Merged(days, date, selection, assemble)[ExistingDay(days, date).value].continuousRevisionTopics)
  {
    var k := ExistingDay(days, date).value;
    var old_ := days[k].continuousRevisionTopics;
    var added := Fresh(days, date, selection);
    var new_ := Merged(days, date, selection, assemble)[k].continuousRevisionTopics;
    NewTopicsDistinct(selection.continuous, ExistingNames(days, date));
    assert new_ == old_ + added;
    forall i, j | 0 <= i < j < |new_| ensures Lower(new_[i].name) != Lower(new_[j].name) {
      if j >= |old_| && i < |old_| {
        assert new_[i] == old_[i];
        assert new_[j] == added[j - |old_|];
        assert added[j - |old_|] in added;
        assert Lower(old_[i].name) in ExistingNames(days, date);
      } else if i >= |old_| {
        assert new_[i] == added[i - |old_|] && new_[j] == added[j - |old_|];
      }
    }
  }
}
