/** `authorizeSubscriber(requiredCategory)` (src/middlewares/checkCategory.ts): lets a
    request through when the user has an active subscription or free trial and a
    subscription tier at least the required one, in the order basic < pro < premium < free. */
module CheckCategory {
  import opened Wrappers
  import opened UserModel

  /** `categoryHierarchy`, lowest tier first. */
  const CategoryHierarchy: seq<string> := ["basic", "pro", "premium", "free"]

  /** `Array.prototype.indexOf`: the first position holding `x`, or -1; a missing
      category is never found. */
  function IndexOf(s: seq<string>, x: Option<string>): (r: int)
    ensures -1 <= r < |s|
    ensures r == -1 <==> x.None? || x.value !in s
    ensures r >= 0 ==> x.Some? && s[r] == x.value && forall j :: 0 <= j < r ==> s[j] != x.value
  {
    if x.None? || s == [] then -1
    else if s[0] == x.value then 0
    else
      var rest := IndexOf(s[1..], x);
      if rest == -1 then -1 else rest + 1
  }

  /** Why a request is refused. */
  datatype Refusal = NoActivePlan | BelowTier(required: string) {
    /** The error message passed on with the refusal. */
    function Message(): string {
      match this
      case NoActivePlan => "You don't have an active subscription or free trial"
      case BelowTier(required) => "This feature requires a " + required + " subscription or higher"
    }
  }

  /** What the middleware does with the request: pass it on, or pass an error on. */
  datatype Decision = Next | Reject(refusal: Refusal, status: int)

  /** The middleware for `required`, applied to `req.user`'s subscription and trial. */
  function Authorize(required: string, subscription: Subscription, trial: FreeTrial): (d: Decision)
    ensures d == Reject(NoActivePlan, 403) <==> subscription.status != Some("active") && !trial.active
    ensures (subscription.status == Some("active") || trial.active) ==>
      (d == Next <==> IndexOf(CategoryHierarchy, subscription.category) >= IndexOf(CategoryHierarchy, Some(required)))
    ensures d.Reject? ==> d.status == 403 && (d.refusal == NoActivePlan || d.refusal == BelowTier(required))
  {
    if subscription.status != Some("active") && !trial.active then Reject(NoActivePlan, 403)
    else if IndexOf(CategoryHierarchy, subscription.category) < IndexOf(CategoryHierarchy, Some(required)) then
      Reject(BelowTier(required), 403)
    else Next
  }

  /** Positions of the four tiers. */
  lemma TierPositions()
    ensures IndexOf(CategoryHierarchy, Some("basic")) == 0
    ensures IndexOf(CategoryHierarchy, Some("pro")) == 1
    ensures IndexOf(CategoryHierarchy, Some("premium")) == 2
    ensures IndexOf(CategoryHierarchy, Some("free")) == 3
  {
    assert CategoryHierarchy[0] == "basic" && CategoryHierarchy[1] == "pro";
    assert CategoryHierarchy[2] == "premium" && CategoryHierarchy[3] == "free";
    assert "free" != "basic" && "free" != "pro" && "free" != "premium";
    assert "premium" != "basic" && "premium" != "pro" && "pro" != "basic";
  }

  /** Passing is monotone in the requirement: a user who may use a feature of some tier
      may use every feature of a lower one. */
  lemma PassingIsMonotone(higher: string, lower: string, subscription: Subscription, trial: FreeTrial)
    requires IndexOf(CategoryHierarchy, Some(lower)) <= IndexOf(CategoryHierarchy, Some(higher))
    requires Authorize(higher, subscription, trial) == Next
    ensures Authorize(lower, subscription, trial) == Next
  {
  }

  /** The hierarchy lists "free" last, so an active user whose subscription category is
      "free" passes every tier check, "premium" included. */
  lemma FreeTierPassesEverything(required: string, subscription: Subscription, trial: FreeTrial)
    requires subscription.status == Some("active") || trial.active
    requires subscription.category == Some("free")
    ensures Authorize(required, subscription, trial) == Next
  {
    TierPositions();
  }

  /** An active user without a listed subscription category (none at all, as after a free
      trial, which sets only the user-level category) is refused every listed tier. */
  lemma UnlistedCategoryRefused(required: string, subscription: Subscription, trial: FreeTrial)
    requires subscription.status == Some("active") || trial.active
    requires subscription.category.None? || subscription.category.value !in CategoryHierarchy
    requires required in CategoryHierarchy
    ensures Authorize(required, subscription, trial) == Reject(BelowTier(required), 403)
  {
  }

  /** A requirement outside the hierarchy ranks at -1, below everything, so it only
      checks that a subscription or trial is active. */
  lemma UnlistedRequirementOnlyChecksActivity(required: string, subscription: Subscription, trial: FreeTrial)
    requires required !in CategoryHierarchy
    ensures Authorize(required, subscription, trial) == Next <==> subscription.status == Some("active") || trial.active
  {
  }

  /** A "basic" requirement admits exactly the active users whose category is listed. */
  lemma BasicAdmitsListedCategories(subscription: Subscription, trial: FreeTrial)
    requires subscription.status == Some("active") || trial.active
    ensures Authorize("basic", subscription, trial) == Next
        <==> subscription.category.Some? && subscription.category.value in CategoryHierarchy
  {
    TierPositions();
  }
}
