/** `runJobWithRetries` (src/controllers/Planner/scheduler.ts): runs a handler once for
    every eligible user, and when the run throws, starts the whole run again a bounded
    number of times. The three-minute delay between attempts and the cron triggers are
    not modelled; the attempts follow one another. */
module Scheduler {
  import opened Wrappers
  import opened UserModel

  /** The retry budget the cron triggers pass. */
  const MaxRetries: nat := 3

  /** The query's filter: an active subscription with an activation date, or an active
      free trial. */
  predicate Eligible(u: User)
    reads u
  {
    || (u.subscription.status == Some("active") && u.subscription.dateOfActivation.Some?)
    || u.freeTrial.active
  }

  /** `User.find(...)` over the stored users, in stored order. */
  function EligibleUsers(users: seq<User>): (r: seq<User>)
    reads users
    ensures |r| <= |users|
  {
    if users == [] then []
    else EligibleUsers(users[..|users| - 1]) + (if Eligible(users[|users| - 1]) then [users[|users| - 1]] else [])
  }

  /** What goes wrong in one attempt: nothing, the query throws, or the handler throws
      while serving the user at the given position of the eligible list (a position past
      its end means the attempt goes through). */
  datatype Fault = NoFault | QueryFails | JobThrowsAt(position: nat)

  /** One call of the handler: the user in `req.user` and `req.body.nextWeek`. */
  datatype Invocation = Invocation(user: User, nextWeek: bool)

  /** One handler call per user, in order. */
  function Invocations(us: seq<User>, nextWeek: bool): (calls: seq<Invocation>)
    ensures |calls| == |us|
  {
    if us == [] then [] else Invocations(us[..|us| - 1], nextWeek) + [Invocation(us[|us| - 1], nextWeek)]
  }

  /** Each call serves one of the given users, with the given flag. */
  lemma {:induction false} InvocationsServe(us: seq<User>, nextWeek: bool)
    ensures forall c :: c in Invocations(us, nextWeek) ==> c.user in us && c.nextWeek == nextWeek
  {
    if us != [] {
      InvocationsServe(us[..|us| - 1], nextWeek);
    }
  }

  lemma {:induction false} InvocationsAt(us: seq<User>, nextWeek: bool, i: nat)
    requires i < |us|
    ensures Invocations(us, nextWeek)[i] == Invocation(us[i], nextWeek)
  {
    if i < |us| - 1 {
      InvocationsAt(us[..|us| - 1], nextWeek, i);
    }
  }

  /** How many users one attempt reaches: all of them, none when the query throws, or up
      to and including the one whose call throws. */
  function Reached(eligible: seq<User>, fault: Fault): (n: nat)
    ensures n <= |eligible|
  {
    match fault
    case NoFault => |eligible|
    case QueryFails => 0
    case JobThrowsAt(k) => if k < |eligible| then k + 1 else |eligible|
  }

  /** The handler calls one attempt makes. */
  function AttemptCalls(eligible: seq<User>, fault: Fault, nextWeek: bool): seq<Invocation> {
    Invocations(eligible[..Reached(eligible, fault)], nextWeek)
  }

  /** Whether one attempt ends in a thrown error. */
  predicate AttemptThrows(eligible: seq<User>, fault: Fault) {
    fault.QueryFails? || (fault.JobThrowsAt? && fault.position < |eligible|)
  }

  /** The result of a run: the handler calls made, the number of attempts, and whether
      an attempt went through. */
  datatype Outcome = Outcome(calls: seq<Invocation>, attempts: nat, completed: bool)

  /** The run from attempt number `attempt` on, with `retries` retries left. `faults` says
      what goes wrong in each attempt. */
  function Run(eligible: seq<User>, faults: nat -> Fault, nextWeek: bool, attempt: nat, retries: nat): Outcome
    decreases retries
  {
    var calls := AttemptCalls(eligible, faults(attempt), nextWeek);
    if !AttemptThrows(eligible, faults(attempt)) then Outcome(calls, 1, true)
    else if retries > 0 then
      var rest := Run(eligible, faults, nextWeek, attempt + 1, retries - 1);
      Outcome(calls + rest.calls, rest.attempts + 1, rest.completed)
    else Outcome(calls, 1, false)
  }

  /** One attempt: the query, then the loop over the users it returns, calling the
      handler for each in turn and stopping at the call that throws. */
  method RunAttempt(users: seq<User>, fault: Fault, nextWeek: bool) returns (made: seq<Invocation>, threw: bool)
    ensures made == AttemptCalls(EligibleUsers(users), fault, nextWeek)
    ensures threw == AttemptThrows(EligibleUsers(users), fault)
  {
    if fault.QueryFails? {
      return [], true;
    }
    var found := EligibleUsers(users);
    made := [];
    threw := false;
    var i := 0;
    while i < |found| && !threw
      invariant 0 <= i <= |found|
      invariant made == Invocations(found[..i], nextWeek)
      invariant threw <==> fault.JobThrowsAt? && fault.position < i
      invariant threw ==> i == fault.position + 1
    {
      assert found[..i + 1][..i] == found[..i];
      made := made + [Invocation(found[i], nextWeek)];
      if fault.JobThrowsAt? && fault.position == i {
        threw := true;
      }
      i := i + 1;
    }
  }

  /** `runJobWithRetries(jobFunction, retries, nextWeek)`. `attempt` numbers the attempt
      within the run (0 for the cron trigger's call) and picks its entry of `faults`. A
      failed attempt with retries left calls itself again; in the source that call is
      deferred by `setTimeout`, here it follows at once. The handler's own effects are
      not part of this method (see `PlannerController.CreatePlanner`); errors it reports
      through `next` are only logged, so they do not appear here. */
  method RunJobWithRetries(users: seq<User>, faults: nat -> Fault, attempt: nat, retries: nat, nextWeek: bool)
    returns (r: Outcome)
    ensures r == Run(EligibleUsers(users), faults, nextWeek, attempt, retries)
    decreases retries
  {
    var made, threw := RunAttempt(users, faults(attempt), nextWeek);
    if !threw {
      return Outcome(made, 1, true);
    }
    if retries == 0 {
      return Outcome(made, 1, false);
    }
    var rest := RunJobWithRetries(users, faults, attempt + 1, retries - 1, nextWeek);
    return Outcome(made + rest.calls, rest.attempts + 1, rest.completed);
  }

  // ---------------------------------------------------------------------------
  // Properties of the retry

  /** At most `retries + 1` attempts are made, at least one. */
  lemma {:induction false} AttemptsBounded(eligible: seq<User>, faults: nat -> Fault, nextWeek: bool, attempt: nat, retries: nat)
    ensures 1 <= Run(eligible, faults, nextWeek, attempt, retries).attempts <= retries + 1
    decreases retries
  {
    if AttemptThrows(eligible, faults(attempt)) && retries > 0 {
      AttemptsBounded(eligible, faults, nextWeek, attempt + 1, retries - 1);
    }
  }

  /** From the cron triggers' budget, at most four attempts. */
  lemma AtMostFourAttempts(users: seq<User>, faults: nat -> Fault, nextWeek: bool)
    ensures Run(EligibleUsers(users), faults, nextWeek, 0, MaxRetries).attempts <= 4
  {
    AttemptsBounded(EligibleUsers(users), faults, nextWeek, 0, MaxRetries);
  }

  /** The run goes through exactly when some attempt within the budget does not throw;
      it then stops at the first such attempt, and otherwise uses up the budget. */
  lemma {:induction false} CompletesIffSomeAttemptClean(
    eligible: seq<User>, faults: nat -> Fault, nextWeek: bool, attempt: nat, retries: nat)
    ensures var r := Run(eligible, faults, nextWeek, attempt, retries);
      && (r.completed <==> exists k :: attempt <= k <= attempt + retries && !AttemptThrows(eligible, faults(k)))
      && (r.completed ==> (&& !AttemptThrows(eligible, faults(attempt + r.attempts - 1))
                           && forall k :: attempt <= k < attempt + r.attempts - 1 ==> AttemptThrows(eligible, faults(k))))
      && (!r.completed ==> r.attempts == retries + 1)
    decreases retries
  {
    if AttemptThrows(eligible, faults(attempt)) && retries > 0 {
      CompletesIffSomeAttemptClean(eligible, faults, nextWeek, attempt + 1, retries - 1);
      var r := Run(eligible, faults, nextWeek, attempt, retries);
      var rest := Run(eligible, faults, nextWeek, attempt + 1, retries - 1);
      if r.completed {
        var k :| attempt + 1 <= k <= attempt + 1 + retries - 1 && !AttemptThrows(eligible, faults(k));
        assert attempt <= k <= attempt + retries;
      } else {
        forall k | attempt <= k <= attempt + retries ensures AttemptThrows(eligible, faults(k)) {
          if k > attempt {
            assert attempt + 1 <= k <= attempt + 1 + (retries - 1);
          }
        }
      }
    }
  }

  /** A run that goes through ends with one call per eligible user, in query order, each
      with the caller's `nextWeek` flag; earlier calls belong to failed attempts, which
      already served a prefix of the same list. */
  lemma {:induction false} CompletedRunServesEveryone(
    eligible: seq<User>, faults: nat -> Fault, nextWeek: bool, attempt: nat, retries: nat)
    ensures var r := Run(eligible, faults, nextWeek, attempt, retries);
      r.completed ==> (&& |eligible| <= |r.calls|
                       && r.calls[|r.calls| - |eligible|..] == Invocations(eligible, nextWeek))
    decreases retries
  {
    var calls := AttemptCalls(eligible, faults(attempt), nextWeek);
    if !AttemptThrows(eligible, faults(attempt)) {
      CleanAttemptServesEveryone(eligible, faults(attempt), nextWeek);
    } else if retries > 0 {
      CompletedRunServesEveryone(eligible, faults, nextWeek, attempt + 1, retries - 1);
      var rest := Run(eligible, faults, nextWeek, attempt + 1, retries - 1);
      if rest.completed {
        SuffixOfConcat(calls, rest.calls, |eligible|);
      }
    }
  }

  lemma CleanAttemptServesEveryone(eligible: seq<User>, fault: Fault, nextWeek: bool)
    requires !AttemptThrows(eligible, fault)
    ensures AttemptCalls(eligible, fault, nextWeek) == Invocations(eligible, nextWeek)
  {
    assert eligible[..|eligible|] == eligible;
  }

  lemma SuffixOfConcat<T>(a: seq<T>, b: seq<T>, n: nat)
    requires n <= |b|
    ensures (a + b)[|a + b| - n..] == b[|b| - n..]
  {
  }

  /** A retry starts again from the first user: when an attempt throws inside the loop
      and the retry goes through, the first user is served twice. */
  lemma RetryServesFirstUserAgain(eligible: seq<User>, faults: nat -> Fault, nextWeek: bool, attempt: nat, retries: nat)
    requires faults(attempt).JobThrowsAt? && faults(attempt).position < |eligible|
    requires retries > 0 && !AttemptThrows(eligible, faults(attempt + 1))
    ensures var calls := Run(eligible, faults, nextWeek, attempt, retries).calls;
      var first := faults(attempt).position + 1;
      && first < |calls|
      && calls[0] == Invocation(eligible[0], nextWeek)
      && calls[first] == Invocation(eligible[0], nextWeek)
  {
    var k := faults(attempt).position;
    var made := AttemptCalls(eligible, faults(attempt), nextWeek);
    CleanAttemptServesEveryone(eligible, faults(attempt + 1), nextWeek);
    InvocationsAt(eligible[..k + 1], nextWeek, 0);
    InvocationsAt(eligible, nextWeek, 0);
  }

  /** Every call serves an eligible user with the caller's flag. */
  lemma {:induction false} CallsServeEligibleUsers(
    eligible: seq<User>, faults: nat -> Fault, nextWeek: bool, attempt: nat, retries: nat)
    ensures forall c :: c in Run(eligible, faults, nextWeek, attempt, retries).calls ==>
      c.user in eligible && c.nextWeek == nextWeek
    decreases retries
  {
    var prefix := eligible[..Reached(eligible, faults(attempt))];
    InvocationsServe(prefix, nextWeek);
    assert forall u :: u in prefix ==> u in eligible;
    if AttemptThrows(eligible, faults(attempt)) && retries > 0 {
      CallsServeEligibleUsers(eligible, faults, nextWeek, attempt + 1, retries - 1);
    }
  }

  /** Eligibility is exactly the query's filter. */
  lemma {:induction false} EligibleUsersFilter(users: seq<User>)
    ensures forall u :: u in EligibleUsers(users) ==> u in users && Eligible(u)
    ensures forall u :: u in users && Eligible(u) ==> u in EligibleUsers(users)
  {
    if users != [] {
      EligibleUsersFilter(users[..|users| - 1]);
      assert users == users[..|users| - 1] + [users[|users| - 1]];
    }
  }
}
