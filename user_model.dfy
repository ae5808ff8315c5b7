/** The user document (src/models/userModel.ts, src/types/IUser.d.ts): the fields the
    core reads and writes, the e-mail check run before every save, and `getToken`. */
module UserModel {
  import opened Wrappers

  /** `subscription.upgradation`, written when an active subscriber pays again. */
  datatype Upgradation = Upgradation(
    previousPlanId: Option<string>,
    previousDuration: Option<int>,
    dateOfUpgradation: int,
    addedDuration: int)

  /** `user.subscription`; dates are instants in milliseconds. `category` is the tier that
      the tier check reads; `duration` counts months. */
  datatype Subscription = Subscription(
    id: Option<string>,
    status: Option<string>,
    planId: Option<string>,
    duration: Option<int>,
    coupon: Option<string>,
    category: Option<string>,
    dateOfActivation: Option<int>,
    dateOfDeactivation: Option<int>,
    upgradation: Option<Upgradation>)

  /** `user.freeTrial`. */
  datatype FreeTrial = FreeTrial(
    availed: bool,
    active: bool,
    dateOfActivation: Option<int>,
    dateOfDeactivation: Option<int>)

  /** `user.details.streak`; a stored `null` count behaves as 0 under `+ 1`. */
  datatype Streak = Streak(number: int, updatedAt: Option<int>)

  /** Ten minutes, in milliseconds: how long a password-reset token stays valid. */
  const ResetTokenLifetime: int := 10 * 60 * 1000

  class User {
    const id: string
    const email: string
    var planner: bool
    /** `user.category`, set on payment and on free-trial activation. */
    var category: Option<string>
    var subscription: Subscription
    var freeTrial: FreeTrial
    var streak: Streak
    var resetPasswordToken: Option<string>
    var resetTokenExpiry: Option<int>

    /** `getToken`: keeps only the hash of a fresh random token and sets its expiry ten
        minutes from `now`; the caller gets the token itself. Randomness and SHA-256 are
        parameters. */
    method GetToken(now: int, randomToken: string, sha256: string -> string) returns (token: string)
      modifies this`resetPasswordToken, this`resetTokenExpiry
      ensures token == randomToken
      ensures resetPasswordToken == Some(sha256(token))
      ensures resetTokenExpiry == Some(now + ResetTokenLifetime) && resetTokenExpiry.value - now == 600000
    {
      token := randomToken;
      resetPasswordToken := Some(sha256(token));
      resetTokenExpiry := Some(now + ResetTokenLifetime);
    }
  }

  /** `freeTrial.dateOfActivation || subscription.dateOfActivation`. */
  function ActivationDate(user: User): (d: Option<int>)
    reads user
    ensures d.Some? <==> user.freeTrial.dateOfActivation.Some? || user.subscription.dateOfActivation.Some?
    ensures user.freeTrial.dateOfActivation.Some? ==> d == user.freeTrial.dateOfActivation
    ensures user.freeTrial.dateOfActivation.None? ==> d == user.subscription.dateOfActivation
  {
    user.freeTrial.dateOfActivation.OrElse(user.subscription.dateOfActivation)
  }

  // ---------------------------------------------------------------------------
  // The e-mail pattern /^[^\s@]+@[^\s@]+\.[^\s@]+$/

  /** JavaScript's `\s`: the ECMAScript white-space and line-terminator characters. */
  predicate IsSpace(c: char) {
    || c == ' ' || c == '\t' || c == '\n' || c == '\r' || c == '\U{000B}' || c == '\U{000C}'
    || c == '\U{00A0}' || c == '\U{1680}' || '\U{2000}' <= c <= '\U{200A}'
    || c == '\U{2028}' || c == '\U{2029}' || c == '\U{202F}' || c == '\U{205F}'
    || c == '\U{3000}' || c == '\U{FEFF}'
  }

  /** The class `[^\s@]`. */
  predicate Plain(c: char) {
    !IsSpace(c) && c != '@'
  }

  predicate AllPlain(s: string) {
    forall i :: 0 <= i < |s| ==> Plain(s[i])
  }

  /** What the regular expression means: three non-empty runs of `[^\s@]`, the first two
      separated by '@' and the last two by '.'. */
  ghost predicate MatchesEmailPattern(s: string) {
    exists at, dot ::
      && 0 < at && at + 1 < dot && dot + 1 < |s|
      && s[at] == '@' && s[dot] == '.'
      && AllPlain(s[..at]) && AllPlain(s[at + 1..dot]) && AllPlain(s[dot + 1..])
  }

  /** Index of the first '@' in `s`, or `|s|` when there is none. */
  function FirstAt(s: string): (i: nat)
    ensures i <= |s|
    ensures i < |s| ==> s[i] == '@'
    ensures forall j :: 0 <= j < i ==> s[j] != '@'
  {
    if s == [] then 0
    else if s[0] == '@' then 0
    else 1 + FirstAt(s[1..])
  }

  /** An '@' preceded only by `[^\s@]` characters is the first one. */
  lemma {:induction false} FirstAtIs(s: string, a: nat)
    requires a < |s| && s[a] == '@' && AllPlain(s[..a])
    ensures FirstAt(s) == a
  {
    if a > 0 {
      assert s[..a][0] == s[0];
      assert s[1..][..a - 1] == s[..a][1..];
      FirstAtIs(s[1..], a - 1);
    }
  }

  /** The test the pre-save hook runs: split at the first '@', then look for a '.' that is
      neither the first nor the last character of the domain. */
  predicate ValidEmail(s: string) {
    var at := FirstAt(s);
    0 < at && at + 3 < |s| && AllPlain(s[..at]) && AllPlain(s[at + 1..]) && '.' in s[at + 2..|s| - 1]
  }

  /** The split test accepts exactly the strings the regular expression matches. */
  lemma ValidEmailIsPattern(s: string)
    ensures ValidEmail(s) <==> MatchesEmailPattern(s)
  {
    if ValidEmail(s) {
      ValidEmailMatches(s);
    }
    if MatchesEmailPattern(s) {
      PatternPassesTest(s);
    }
  }

  lemma ValidEmailMatches(s: string)
    requires ValidEmail(s)
    ensures MatchesEmailPattern(s)
  {
    var at := FirstAt(s);
    var k :| at + 2 <= k < |s| - 1 && s[k] == '.';
    assert s[at + 1..k] == s[at + 1..][..k - at - 1];
    assert s[k + 1..] == s[at + 1..][k - at..];
  }

  /** A domain that is plain on both sides of its '.' is plain throughout. */
  lemma DomainPlain(s: string, a: nat, d: nat)
    requires a < d < |s| && s[d] == '.'
    requires AllPlain(s[a + 1..d]) && AllPlain(s[d + 1..])
    ensures AllPlain(s[a + 1..])
  {
    forall j | a + 1 <= j < |s| ensures Plain(s[j]) {
      if j < d { assert s[a + 1..d][j - a - 1] == s[j]; }
      else if j > d { assert s[d + 1..][j - d - 1] == s[j]; }
    }
  }

  lemma PatternPassesTest(s: string)
    requires MatchesEmailPattern(s)
    ensures ValidEmail(s)
  {
    var a, d :| && 0 < a && a + 1 < d && d + 1 < |s|
                && s[a] == '@' && s[d] == '.'
                && AllPlain(s[..a]) && AllPlain(s[a + 1..d]) && AllPlain(s[d + 1..]);
    SplitPassesTest(s, a, d);
  }

  /** The split test accepts a string split by the pattern at `a` and `d`. */
  lemma SplitPassesTest(s: string, a: nat, d: nat)
    requires 0 < a && a + 1 < d && d + 1 < |s| && s[a] == '@' && s[d] == '.'
    requires AllPlain(s[..a]) && AllPlain(s[a + 1..d]) && AllPlain(s[d + 1..])
    ensures ValidEmail(s)
  {
    FirstAtIs(s, a);
    DomainPlain(s, a, d);
    assert s[a + 2..|s| - 1][d - a - 2] == s[d];
  }

  /** The pre-save hook: a save is aborted with this message exactly when the e-mail
      does not match the pattern. */
  function PreSave(email: string): (r: Result<()>)
    ensures r.Ok? <==> MatchesEmailPattern(email)
    ensures r.Err? ==> r.message == "Please enter a valid email address" && r.status.None?
  {
    ValidEmailIsPattern(email);
    if ValidEmail(email) then Ok(()) else Err("Please enter a valid email address", None)
  }

  /** An accepted address has no white space and exactly one '@', with something before
      it, and the part after it holds a '.' that is neither its first nor its last
      character. */
  lemma {:induction false} AcceptedEmailShape(s: string)
    requires MatchesEmailPattern(s)
    ensures forall i :: 0 <= i < |s| ==> !IsSpace(s[i])
    ensures var at := FirstAt(s);
      && 0 < at < |s| && s[at] == '@'
      && (forall i :: 0 <= i < |s| && i != at ==> s[i] != '@')
      && exists k :: at + 1 < k < |s| - 1 && s[k] == '.'
  {
    var a, d :| && 0 < a && a + 1 < d && d + 1 < |s|
                && s[a] == '@' && s[d] == '.'
                && AllPlain(s[..a]) && AllPlain(s[a + 1..d]) && AllPlain(s[d + 1..]);
    SplitShape(s, a, d);
  }

  lemma SplitShape(s: string, a: nat, d: nat)
    requires 0 < a && a + 1 < d && d + 1 < |s| && s[a] == '@' && s[d] == '.'
    requires AllPlain(s[..a]) && AllPlain(s[a + 1..d]) && AllPlain(s[d + 1..])
    ensures FirstAt(s) == a
    ensures forall i :: 0 <= i < |s| && i != a ==> Plain(s[i])
  {
    DomainPlain(s, a, d);
    forall i | 0 <= i < |s| && i != a ensures Plain(s[i]) {
      if i < a { assert s[..a][i] == s[i]; }
      else { assert s[a + 1..][i - a - 1] == s[i]; }
    }
    FirstAtIs(s, a);
  }
}
