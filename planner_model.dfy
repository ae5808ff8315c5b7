/** Records of the planner core: study-data topics (src/models/studentData.ts), questions,
    and the planner with its seven days (src/models/plannerModel.ts, src/types/IPlanner.d.ts).
    Planner dates are day numbers (see module Calendar). */
module PlannerModel {
  import opened Wrappers

  /** One entry of `topic.studiedAt`. */
  datatype StudyEvent = StudyEvent(date: int, efficiency: int)

  datatype Tag =
    | ContinuousRevision        // "continuous_revision"
    | ActiveContinuousRevision  // "active_continuous_revision"
    | BackRevision              // "back_revision"
    | OtherTag(value: string)

  /** A `StudyData` document: one topic of one student. The core only ever changes its
      tag, its study history and its planner frequency. */
  class StudyData {
    const user: string
    /** `topic.name` */
    const name: string
    /** `createdAt`, as a day number */
    const createdAt: int
    var tag: Tag
    /** `topic.studiedAt`; a missing array is the empty one */
    var studiedAt: seq<StudyEvent>
    /** `topic.plannerFrequency`, absent when never set */
    var plannerFrequency: Option<int>
  }

  /** A question-bank entry; `topics` are the topic names it is filed under. */
  datatype Question = Question(question: string, topics: seq<string>, level: string)

  /** `day.questions`: topic name to the questions drawn for it. */
  type QuestionMap = map<string, seq<Question>>

  /** One entry of `planner.days`. */
  datatype Day = Day(
    day: string,
    date: int,
    continuousRevisionTopics: seq<StudyData>,
    backRevisionTopics: seq<StudyData>,
    questions: QuestionMap)

  /** A planner document: one student, one week. Only `days` is ever rewritten. */
  class Planner {
    const student: string
    const startDate: int
    const endDate: int
    var days: seq<Day>

    constructor (student: string, startDate: int, endDate: int, days: seq<Day>)
      ensures this.student == student && this.startDate == startDate
      ensures this.endDate == endDate && this.days == days
    {
      this.student := student;
      this.startDate := startDate;
      this.endDate := endDate;
      this.days := days;
    }
  }

  /** What the topic selector (`getDailyTopics`) returns for one call. */
  datatype Selection = Selection(continuous: seq<StudyData>, back: seq<StudyData>)

  /** `[...dailyContinuousTopics, ...dailyBackTopics]` */
  function DailyTopics(s: Selection): seq<StudyData> {
    s.continuous + s.back
  }

  /** The question assembler (`getDailyQuestions`): weekday name, date and topics of a
      day to the questions drawn for them. Its code is not part of this model. */
  type Assembler = (string, int, seq<StudyData>) -> QuestionMap

  /** `StudyData.find({tag: "continuous_revision", createdAt: {$gte: since}})` over one
      student's records, in stored order. */
  function Loaded(records: seq<StudyData>, since: int): (r: seq<StudyData>)
    reads records
    ensures forall t :: t in r ==> t in records && t.tag == ContinuousRevision && t.createdAt >= since
    ensures forall t :: t in records && t.tag == ContinuousRevision && t.createdAt >= since ==> t in r
  {
    if records == [] then []
    else
      var t := records[0];
      (if t.tag == ContinuousRevision && t.createdAt >= since then [t] else [])
      + Loaded(records[1..], since)
  }

  /** The objects a sequence of topics refers to. */
  function Objects(ts: seq<StudyData>): set<StudyData> {
    set t | t in ts
  }

  /** Number of occurrences of `x` in `s`. */
  function Count<T(==)>(x: T, s: seq<T>): nat {
    if s == [] then 0
    else Count(x, s[..|s| - 1]) + (if s[|s| - 1] == x then 1 else 0)
  }

  /** `n` copies of `x`. */
  function Repeat<T>(x: T, n: nat): (r: seq<T>)
    ensures |r| == n && forall i :: 0 <= i < n ==> r[i] == x
  {
    if n == 0 then [] else Repeat(x, n - 1) + [x]
  }

  lemma CountSnoc<T>(x: T, s: seq<T>, y: T)
    ensures Count(x, s + [y]) == Count(x, s) + (if y == x then 1 else 0)
  {
    assert (s + [y])[..|s|] == s;
  }

  lemma {:induction false} CountAbsent<T>(x: T, s: seq<T>)
    requires x !in s
    ensures Count(x, s) == 0
  {
    if s != [] {
      assert x !in s[..|s| - 1];
      CountAbsent(x, s[..|s| - 1]);
    }
  }

  lemma {:induction false} CountPresent<T>(x: T, s: seq<T>)
    requires x in s
    ensures Count(x, s) >= 1
  {
    if s[|s| - 1] != x {
      assert x in s[..|s| - 1];
      CountPresent(x, s[..|s| - 1]);
    }
  }

  /** The `forEach` of the weekly build: every topic in `topics` gets one study event
      `(date, 0)` appended per occurrence. */
  method AppendStudyEvent(topics: seq<StudyData>, date: int)
    modifies Objects(topics)`studiedAt
    ensures forall t :: t in topics ==>
      t.studiedAt == old(t.studiedAt) + Repeat(StudyEvent(date, 0), Count(t, topics))
  {
    for i := 0 to |topics|
      invariant forall t :: t in topics ==>
        t.studiedAt == old(t.studiedAt) + Repeat(StudyEvent(date, 0), Count(t, topics[..i]))
    {
      CountSnoc(topics[i], topics[..i], topics[i]);
      assert topics[..i + 1] == topics[..i] + [topics[i]];
      topics[i].studiedAt := topics[i].studiedAt + [StudyEvent(date, 0)];
      forall t | t in topics && t != topics[i]
        ensures Count(t, topics[..i + 1]) == Count(t, topics[..i])
      {
        CountSnoc(t, topics[..i], topics[i]);
      }
    }
    assert topics[..|topics|] == topics;
  }

  /** The finalising loop `data.tag = "active_continuous_revision"` over the loaded topics. */
  method MarkActive(topics: seq<StudyData>)
    modifies Objects(topics)`tag
    ensures forall t :: t in topics ==> t.tag == ActiveContinuousRevision
  {
    for i := 0 to |topics|
      invariant forall k :: 0 <= k < i ==> topics[k].tag == ActiveContinuousRevision
    {
      topics[i].tag := ActiveContinuousRevision;
    }
  }
}
