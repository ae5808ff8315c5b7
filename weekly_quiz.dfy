/** `createWeeklyQuiz` (src/controllers/Quiz/WeeklyQuiz/index.ts): draws up to two
    unsolved questions for every topic of the current week's planner, trying the
    difficulty categories in a fixed order. The per-question lookups that the source
    fires without awaiting them are taken one after the other here. */
module WeeklyQuiz {
  import opened Wrappers
  import opened Calendar
  import opened UserModel
  import opened PlannerModel

  /** The difficulty categories, in the order they are tried. */
  const Categories: seq<string> := ["jeemains_easy", "neet", "boards", "jeemains", "jeeadvance"]

  /** How many questions a topic asks for before any is drawn. */
  const PerTopic: int := 2

  /** The `$sample` stage over the question bank: draw number, topic, category and size
      to the questions drawn. The draw number makes every draw independent. */
  type Sampler = (nat, string, string, nat) -> seq<Question>

  /** What the question bank guarantees: a draw holds at most `size` questions, each
      filed under the topic and of the category asked for. */
  ghost predicate SamplerSound(sample: Sampler) {
    forall d, topic, level, size ::
      && |sample(d, topic, level, size)| <= size
      && forall q :: q in sample(d, topic, level, size) ==> topic in q.topics && q.level == level
  }

  datatype Quiz = Quiz(
    user: string,
    questions: map<string, seq<Question>>,
    quizType: string,
    startDate: int,
    endDate: int)

  /** `NoPlanner`: the handler returns without answering and without a quiz. */
  datatype QuizOutcome = NoPlanner | Created(quiz: Quiz)

  /** `Planner.findOne({student, startDate, endDate})`: an exact match on the current
      ISO week. */
  predicate CoversWeekOf(p: Planner, student: string, today: int) {
    p.student == student && p.startDate == IsoWeekStart(today) && p.endDate == IsoWeekEnd(today)
  }

  function FindCurrentPlanner(planners: seq<Planner>, student: string, today: int): (k: Option<nat>)
    ensures k.Some? ==> k.value < |planners| && CoversWeekOf(planners[k.value], student, today)
    ensures k.Some? ==> forall j :: 0 <= j < k.value ==> !CoversWeekOf(planners[j], student, today)
    ensures k.None? ==> forall j :: 0 <= j < |planners| ==> !CoversWeekOf(planners[j], student, today)
  {
    if planners == [] then None
    else if CoversWeekOf(planners[0], student, today) then Some(0)
    else match FindCurrentPlanner(planners[1..], student, today) {
      case None => None
      case Some(k) => Some(k + 1)
    }
  }

  function ContinuousOf(days: seq<Day>): (ts: seq<StudyData>)
    ensures forall t :: t in ts ==> exists i :: 0 <= i < |days| && t in days[i].continuousRevisionTopics
    ensures forall i, t :: 0 <= i < |days| && t in days[i].continuousRevisionTopics ==> t in ts
  {
    if days == [] then [] else ContinuousOf(days[..|days| - 1]) + days[|days| - 1].continuousRevisionTopics
  }

  function BackOf(days: seq<Day>): (ts: seq<StudyData>)
    ensures forall t :: t in ts ==> exists i :: 0 <= i < |days| && t in days[i].backRevisionTopics
    ensures forall i, t :: 0 <= i < |days| && t in days[i].backRevisionTopics ==> t in ts
  {
    if days == [] then [] else BackOf(days[..|days| - 1]) + days[|days| - 1].backRevisionTopics
  }

  /** The week's topics: every day's continuous topics in day order, then every day's
      back topics in day order. */
  function WeeklyTopics(days: seq<Day>): seq<StudyData> {
    ContinuousOf(days) + BackOf(days)
  }

  /** The questions of a draw the student has not solved, in draw order. */
  function Unsolved(batch: seq<Question>, solved: set<string>): (r: seq<Question>)
    ensures |r| <= |batch|
  {
    if batch == [] then []
    else
      var last := batch[|batch| - 1];
      Unsolved(batch[..|batch| - 1], solved) + (if last.question !in solved then [last] else [])
  }

  lemma {:induction false} UnsolvedMembers(batch: seq<Question>, solved: set<string>)
    ensures forall q :: q in Unsolved(batch, solved) ==> q in batch && q.question !in solved
  {
    if batch != [] {
      UnsolvedMembers(batch[..|batch| - 1], solved);
    }
  }

  /** `a * b`, by repeated addition: the budget is lowered by `b` once per accepted
      question. */
  function Times(a: nat, b: nat): nat {
    if a == 0 then 0 else Times(a - 1, b) + b
  }

  /** A topic's picks from category `c` on, with `remaining` still wanted and `draw` the
      next draw number: each accepted question lowers `remaining` by the size of its draw.
      Also gives the draw number after the last draw. */
  function Pick(sample: Sampler, solved: set<string>, cats: seq<string>, topic: string, draw: nat, c: nat, remaining: int)
    : (seq<Question>, nat)
    decreases |cats| - c
  {
    if c >= |cats| || remaining <= 0 then ([], draw)
    else
      var batch := sample(draw, topic, cats[c], remaining);
      var accepted := Unsolved(batch, solved);
      var rest := Pick(sample, solved, cats, topic, draw + 1, c + 1, remaining - Times(|accepted|, |batch|));
      (accepted + rest.0, rest.1)
  }

  /** The `results` dictionary after the topics `ts`, starting from `results` and draw
      number `draw`: each topic's entry is reset and refilled, so the last occurrence of a
      name decides its entry. */
  function Collect(sample: Sampler, solved: set<string>, ts: seq<StudyData>, draw: nat,
                   results: map<string, seq<Question>>): map<string, seq<Question>>
  {
    if ts == [] then results
    else
      var picked := Pick(sample, solved, Categories, ts[0].name, draw, 0, PerTopic);
      Collect(sample, solved, ts[1..], picked.1, results[ts[0].name := picked.0])
  }

  /** `createWeeklyQuiz`. `planners` are the stored planners, `solved` the question
      texts of the student's solved questions, `sample` the question bank's draws. */
  method CreateWeeklyQuiz(user: User, today: int, planners: seq<Planner>, solved: set<string>, sample: Sampler)
    returns (r: Result<QuizOutcome>)
    ensures ActivationDate(user).None? ==> r == Err("Not subscribed", Some(400))
    ensures ActivationDate(user).Some? && FindCurrentPlanner(planners, user.id, today).None? ==> r == Ok(NoPlanner)
    ensures ActivationDate(user).Some? && FindCurrentPlanner(planners, user.id, today).Some? ==>
      var p := planners[FindCurrentPlanner(planners, user.id, today).value];
      r == Ok(Created(Quiz(user.id, Collect(sample, solved, WeeklyTopics(p.days), 0, map[]),
                           "weekly", IsoWeekStart(today), IsoWeekEnd(today))))
  {
    if ActivationDate(user).None? {
      return Err("Not subscribed", Some(400));
    }
    var startDate := IsoWeekStart(today);
    var endDate := IsoWeekEnd(today);
    var found := FindCurrentPlanner(planners, user.id, today);
    if found.None? {
      return Ok(NoPlanner);
    }
    var weeklyTopics := WeeklyTopics(planners[found.value].days);
    var results := DrawForTopics(weeklyTopics, solved, sample);
    r := Ok(Created(Quiz(user.id, results, "weekly", startDate, endDate)));
  }

  /** The loop over the week's topics: each topic's entry is rebuilt from scratch. */
  method DrawForTopics(weeklyTopics: seq<StudyData>, solved: set<string>, sample: Sampler)
    returns (results: map<string, seq<Question>>)
    ensures results == Collect(sample, solved, weeklyTopics, 0, map[])
  {
    results := map[];
    var draw: nat := 0;
    for i := 0 to |weeklyTopics|
      invariant Collect(sample, solved, weeklyTopics[i..], draw, results)
             == Collect(sample, solved, weeklyTopics, 0, map[])
    {
      var topic := weeklyTopics[i].name;
      CollectStep(sample, solved, weeklyTopics[i..], draw, results);
      assert weeklyTopics[i..][1..] == weeklyTopics[i + 1..];
      var entry;
      entry, draw := DrawForTopic(topic, draw, solved, sample, Categories);
      results := results[topic := entry];
    }
    assert weeklyTopics[|weeklyTopics|..] == [];
  }

  lemma CollectStep(sample: Sampler, solved: set<string>, ts: seq<StudyData>, draw: nat,
                    results: map<string, seq<Question>>)
    requires ts != []
    ensures var picked := Pick(sample, solved, Categories, ts[0].name, draw, 0, PerTopic);
      Collect(sample, solved, ts, draw, results)
        == Collect(sample, solved, ts[1..], picked.1, results[ts[0].name := picked.0])
  {
  }

  /** One topic: its entry starts empty (`results[topic] = []`), and the categories
      `cats` are tried in order while the topic still wants questions, each draw's unsolved
      questions being pushed onto the entry. */
  method DrawForTopic(topic: string, draw: nat, solved: set<string>, sample: Sampler, cats: seq<string>)
    returns (entry: seq<Question>, draw': nat)
    ensures entry == Pick(sample, solved, cats, topic, draw, 0, PerTopic).0
    ensures draw' == Pick(sample, solved, cats, topic, draw, 0, PerTopic).1
  {
    ghost var target := Pick(sample, solved, cats, topic, draw, 0, PerTopic);
    entry := [];
    draw' := draw;
    var remaining := PerTopic;
    var c := 0;
    assert [] + target.0 == target.0;
    while c < |cats|
      invariant c <= |cats|
      invariant Then(entry, Pick(sample, solved, cats, topic, draw', c, remaining)) == target
    {
      if remaining > 0 {
        PickAdvance(sample, solved, cats, topic, draw', c, remaining, entry, target);
        var batch := sample(draw', topic, cats[c], remaining);
        draw' := draw' + 1;
        entry, remaining := TakeUnsolved(entry, batch, solved, remaining);
      } else {
        break;
      }
      c := c + 1;
    }
    PickStops(sample, solved, cats, topic, draw', c, remaining);
    assert entry + [] == entry;
  }

  lemma UnsolvedSnoc(batch: seq<Question>, solved: set<string>, j: nat)
    requires j < |batch|
    ensures var prefix := Unsolved(batch[..j], solved);
      if batch[j].question !in solved
      then Unsolved(batch[..j + 1], solved) == prefix + [batch[j]]
           && Times(|prefix| + 1, |batch|) == Times(|prefix|, |batch|) + |batch|
      else Unsolved(batch[..j + 1], solved) == prefix
  {
    assert batch[..j + 1][..j] == batch[..j];
  }

  /** One draw of `DrawForTopic` keeps its loop invariant. */
  lemma PickAdvance(sample: Sampler, solved: set<string>, cats: seq<string>, topic: string, draw: nat, c: nat,
                    remaining: int, entry: seq<Question>, target: (seq<Question>, nat))
    requires c < |cats| && remaining > 0
    requires Then(entry, Pick(sample, solved, cats, topic, draw, c, remaining)) == target
    ensures var batch := sample(draw, topic, cats[c], remaining);
      var accepted := Unsolved(batch, solved);
      Then(entry + accepted, Pick(sample, solved, cats, topic, draw + 1, c + 1, remaining - Times(|accepted|, |batch|)))
        == target
  {
    var batch := sample(draw, topic, cats[c], remaining);
    var accepted := Unsolved(batch, solved);
    var rest := Pick(sample, solved, cats, topic, draw + 1, c + 1, remaining - Times(|accepted|, |batch|));
    assert (entry + accepted) + rest.0 == entry + (accepted + rest.0);
  }

  /** Picks `p` made after `entry` was already collected. */
  function Then(entry: seq<Question>, p: (seq<Question>, nat)): (seq<Question>, nat) {
    (entry + p.0, p.1)
  }

  /** Once the categories are used up or the topic wants nothing more, no more draws. */
  lemma PickStops(sample: Sampler, solved: set<string>, cats: seq<string>, topic: string, draw: nat, c: nat, remaining: int)
    requires c >= |cats| || remaining <= 0
    ensures Pick(sample, solved, cats, topic, draw, c, remaining) == ([], draw)
  {
  }

  /** The `map` over one draw: every question the student has not solved is pushed onto
      the entry and lowers the budget by the draw's size. */
  method TakeUnsolved(entry: seq<Question>, batch: seq<Question>, solved: set<string>, remaining: int)
    returns (entry': seq<Question>, remaining': int)
    ensures entry' == entry + Unsolved(batch, solved)
    ensures remaining' == remaining - Times(|Unsolved(batch, solved)|, |batch|)
  {
    entry' := entry;
    remaining' := remaining;
    ghost var taken: seq<Question> := [];
    for j := 0 to |batch|
      invariant taken == Unsolved(batch[..j], solved)
      invariant entry' == entry + taken
      invariant remaining' == remaining - Times(|taken|, |batch|)
    {
      UnsolvedSnoc(batch, solved, j);
      if batch[j].question !in solved {
        entry' := entry' + [batch[j]];
        taken := taken + [batch[j]];
        remaining' := remaining' - |batch|;
      }
    }
    assert batch[..|batch|] == batch;
  }

  // ---------------------------------------------------------------------------
  // Properties of the picking

  /** A topic never gets more questions than it still wants: starting from 2, at most 2.
      Each accepted question lowers the budget by its whole draw's size, which is at
      least 1, and no draw is larger than the budget. */
  lemma {:induction false} PickWithinBudget(
    sample: Sampler, solved: set<string>, cats: seq<string>, topic: string, draw: nat, c: nat, remaining: int)
    requires SamplerSound(sample)
    ensures |Pick(sample, solved, cats, topic, draw, c, remaining).0| <= if remaining > 0 then remaining else 0
    decreases |cats| - c
  {
    if c < |cats| && remaining > 0 {
      var batch := sample(draw, topic, cats[c], remaining);
      var accepted := Unsolved(batch, solved);
      var a, b := |accepted|, |batch|;
      var next := remaining - Times(a, b);
      PickWithinBudget(sample, solved, cats, topic, draw + 1, c + 1, next);
      assert a <= b <= remaining;
      if a > 0 {
        TimesAtLeast(a, b);
      }
    }
  }

  lemma {:induction false} TimesAtLeast(a: nat, b: nat)
    requires b >= 1
    ensures Times(a, b) >= a
  {
    if a > 0 {
      TimesAtLeast(a - 1, b);
    }
  }

  /** Every picked question is filed under the topic, belongs to one of the categories,
      and is not among the solved ones. */
  lemma {:induction false} PickMatches(
    sample: Sampler, solved: set<string>, cats: seq<string>, topic: string, draw: nat, c: nat, remaining: int)
    requires SamplerSound(sample)
    ensures forall q :: q in Pick(sample, solved, cats, topic, draw, c, remaining).0 ==>
      topic in q.topics && q.level in cats[c..] && q.question !in solved
    decreases |cats| - c
  {
    if c < |cats| && remaining > 0 {
      var batch := sample(draw, topic, cats[c], remaining);
      UnsolvedMembers(batch, solved);
      PickMatches(sample, solved, cats, topic, draw + 1, c + 1, remaining - Times(|Unsolved(batch, solved)|, |batch|));
      assert cats[c..] == [cats[c]] + cats[c + 1..];
    }
  }

  /** The category each of `Pick`'s questions was drawn from, by position in the order
      they are tried. */
  function PickRanks(sample: Sampler, solved: set<string>, cats: seq<string>, topic: string, draw: nat, c: nat, remaining: int)
    : seq<nat>
    decreases |cats| - c
  {
    if c >= |cats| || remaining <= 0 then []
    else
      var batch := sample(draw, topic, cats[c], remaining);
      var accepted := Unsolved(batch, solved);
      Repeat(c, |accepted|)
      + PickRanks(sample, solved, cats, topic, draw + 1, c + 1, remaining - Times(|accepted|, |batch|))
  }

  predicate Ascending(xs: seq<nat>) {
    forall i, j :: 0 <= i < j < |xs| ==> xs[i] <= xs[j]
  }

  lemma SortedAfterRepeat(c: nat, n: nat, rest: seq<nat>)
    requires forall i :: 0 <= i < |rest| ==> c <= rest[i]
    requires Ascending(rest)
    ensures Ascending(Repeat(c, n) + rest)
  {
    var xs := Repeat(c, n) + rest;
    forall i, j | 0 <= i < j < |xs| ensures xs[i] <= xs[j] {
      if i >= n {
        assert xs[i] == rest[i - n] && xs[j] == rest[j - n];
      } else if j >= n {
        assert xs[j] == rest[j - n];
      }
    }
  }

  /** Questions come in category order: the i-th pick was drawn from category
      `ranks[i]`, and those positions never decrease, so an easier category's picks
      always precede a harder one's. */
  lemma {:induction false} PickInCategoryOrder(
    sample: Sampler, solved: set<string>, cats: seq<string>, topic: string, draw: nat, c: nat, remaining: int)
    requires SamplerSound(sample)
    ensures var qs := Pick(sample, solved, cats, topic, draw, c, remaining).0;
      var ranks := PickRanks(sample, solved, cats, topic, draw, c, remaining);
      && |ranks| == |qs|
      && (forall i :: 0 <= i < |qs| ==> c <= ranks[i] < |cats| && qs[i].level == cats[ranks[i]])
      && Ascending(ranks)
    decreases |cats| - c
  {
    if c < |cats| && remaining > 0 {
      var batch := sample(draw, topic, cats[c], remaining);
      var accepted := Unsolved(batch, solved);
      var next := remaining - Times(|accepted|, |batch|);
      UnsolvedMembers(batch, solved);
      PickInCategoryOrder(sample, solved, cats, topic, draw + 1, c + 1, next);
      var rest := Pick(sample, solved, cats, topic, draw + 1, c + 1, next).0;
      var restRanks := PickRanks(sample, solved, cats, topic, draw + 1, c + 1, next);
      var qs := accepted + rest;
      var ranks := Repeat(c, |accepted|) + restRanks;
      assert Pick(sample, solved, cats, topic, draw, c, remaining).0 == qs;
      assert PickRanks(sample, solved, cats, topic, draw, c, remaining) == ranks;
      forall i | 0 <= i < |qs|
        ensures c <= ranks[i] < |cats| && qs[i].level == cats[ranks[i]]
      {
        if i < |accepted| {
          assert qs[i] in accepted;
        } else {
          assert qs[i] == rest[i - |accepted|] && ranks[i] == restRanks[i - |accepted|];
        }
      }
      SortedAfterRepeat(c, |accepted|, restRanks);
    }
  }

  /** A quiz entry for topic name `n`: at most two questions, each filed under `n` and
      not yet solved. */
  predicate GoodEntry(n: string, qs: seq<Question>, solved: set<string>) {
    |qs| <= PerTopic && forall q :: q in qs ==> n in q.topics && q.question !in solved
  }

  /** A topic's picks make a good entry for its name. */
  lemma PickGood(sample: Sampler, solved: set<string>, topic: string, draw: nat)
    requires SamplerSound(sample)
    ensures GoodEntry(topic, Pick(sample, solved, Categories, topic, draw, 0, PerTopic).0, solved)
  {
    PickWithinBudget(sample, solved, Categories, topic, draw, 0, PerTopic);
    PickMatches(sample, solved, Categories, topic, draw, 0, PerTopic);
  }

  /** The quiz has an entry exactly for the names of the week's topics, each holding at
      most two questions filed under that name and not yet solved. */
  lemma {:induction false} CollectEntries(
    sample: Sampler, solved: set<string>, ts: seq<StudyData>, draw: nat, results: map<string, seq<Question>>)
    requires SamplerSound(sample)
    ensures var out := Collect(sample, solved, ts, draw, results);
      && out.Keys == results.Keys + (set t | t in ts :: t.name)
      && forall n :: n in out && n !in results ==> GoodEntry(n, out[n], solved)
  {
    if ts != [] {
      var name := ts[0].name;
      var picked := Pick(sample, solved, Categories, name, draw, 0, PerTopic);
      var next := results[name := picked.0];
      CollectEntries(sample, solved, ts[1..], picked.1, next);
      NamesOfCons(ts);
      var out := Collect(sample, solved, ts, draw, results);
      assert out == Collect(sample, solved, ts[1..], picked.1, next);
      if name !in results {
        PickGood(sample, solved, name, draw);
        CollectKeepsOrRefills(sample, solved, ts[1..], picked.1, next, name);
      }
    }
  }

  lemma NamesOfCons(ts: seq<StudyData>)
    requires ts != []
    ensures (set t | t in ts :: t.name) == {ts[0].name} + (set t | t in ts[1..] :: t.name)
  {
    assert ts == [ts[0]] + ts[1..];
  }

  /** An entry already in `results` either survives untouched or is refilled by a later
      topic of the same name. */
  lemma {:induction false} CollectKeepsOrRefills(
    sample: Sampler, solved: set<string>, ts: seq<StudyData>, draw: nat, results: map<string, seq<Question>>, n: string)
    requires SamplerSound(sample)
    requires n in results
    requires GoodEntry(n, results[n], solved)
    ensures var out := Collect(sample, solved, ts, draw, results);
      n in out && GoodEntry(n, out[n], solved)
    ensures (forall k :: 0 <= k < |ts| ==> ts[k].name != n) ==>
      Collect(sample, solved, ts, draw, results)[n] == results[n]
  {
    if forall k :: 0 <= k < |ts| ==> ts[k].name != n {
      CollectKeepsUnnamed(sample, solved, ts, draw, results, n);
    }
    if ts != [] {
      var picked := Pick(sample, solved, Categories, ts[0].name, draw, 0, PerTopic);
      PickGood(sample, solved, ts[0].name, draw);
      CollectKeepsOrRefills(sample, solved, ts[1..], picked.1, results[ts[0].name := picked.0], n);
    }
  }

  /** The draw number after the topics `ts`, starting from `draw`. */
  function DrawAfter(sample: Sampler, solved: set<string>, ts: seq<StudyData>, draw: nat): nat {
    if ts == [] then draw
    else DrawAfter(sample, solved, ts[1..], Pick(sample, solved, Categories, ts[0].name, draw, 0, PerTopic).1)
  }

  /** A name no topic of `ts` carries keeps its entry, or its absence. */
  lemma {:induction false} CollectKeepsUnnamed(
    sample: Sampler, solved: set<string>, ts: seq<StudyData>, draw: nat, results: map<string, seq<Question>>, n: string)
    requires forall k :: 0 <= k < |ts| ==> ts[k].name != n
    ensures var out := Collect(sample, solved, ts, draw, results);
      && (n in out <==> n in results)
      && (n in results ==> out[n] == results[n])
  {
    if ts != [] {
      var picked := Pick(sample, solved, Categories, ts[0].name, draw, 0, PerTopic);
      CollectKeepsUnnamed(sample, solved, ts[1..], picked.1, results[ts[0].name := picked.0], n);
    }
  }

  /** The last occurrence of a name decides its entry: whatever earlier topics of that
      name drew is thrown away, and the entry is what the last one draws, with the draw
      number the topics before it leave. */
  lemma {:induction false} CollectLastOccurrenceDecides(
    sample: Sampler, solved: set<string>, ts: seq<StudyData>, draw: nat, results: map<string, seq<Question>>, j: nat)
    requires j < |ts|
    requires forall k :: j < k < |ts| ==> ts[k].name != ts[j].name
    ensures var out := Collect(sample, solved, ts, draw, results);
      && ts[j].name in out
      && out[ts[j].name]
         == Pick(sample, solved, Categories, ts[j].name, DrawAfter(sample, solved, ts[..j], draw), 0, PerTopic).0
  {
    var picked := Pick(sample, solved, Categories, ts[0].name, draw, 0, PerTopic);
    var next := results[ts[0].name := picked.0];
    CollectStep(sample, solved, ts, draw, results);
    if j == 0 {
      CollectKeepsUnnamed(sample, solved, ts[1..], picked.1, next, ts[0].name);
      assert ts[..0] == [];
    } else {
      CollectLastOccurrenceDecides(sample, solved, ts[1..], picked.1, next, j - 1);
      DrawAfterStep(sample, solved, ts, draw, j);
    }
  }

  lemma DrawAfterStep(sample: Sampler, solved: set<string>, ts: seq<StudyData>, draw: nat, j: nat)
    requires 0 < j <= |ts|
    ensures DrawAfter(sample, solved, ts[..j], draw)
         == DrawAfter(sample, solved, ts[1..][..j - 1], Pick(sample, solved, Categories, ts[0].name, draw, 0, PerTopic).1)
  {
    assert ts[..j][1..] == ts[1..][..j - 1];
  }

  /** A planner that does not start on a Monday is never found by the quiz: the build
      starts on the activation day when that falls later in the week, so such a week gets
      no weekly quiz. */
  lemma MidWeekPlannerHasNoQuiz(p: Planner, student: string, today: int)
    requires Weekday(p.startDate) != 0
    ensures !CoversWeekOf(p, student, today)
  {
  }
}
