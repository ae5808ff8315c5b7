/** The subscription controller (src/controllers/Subscription/index.ts): coupon checks and
    redemption, the order kept per user, the status changes of `buySubscription` and
    `verifySubscription`, the refund window of `cancelSubscription`, and
    `getFreeTrialActive`. The payment gateway, the HMAC signature and the mails are
    outside the model: the gateway's order id and the signature check are inputs. */
module Subscriptions {
  import opened Wrappers
  import opened Calendar
  import opened UserModel
  import opened CheckCategory

  // ---------------------------------------------------------------------------
  // Plans

  /** A `Pricing` document. The schema has no `category`; the controller reads one
      anyway, so it is kept here as an optional field. */
  datatype Pricing = Pricing(planId: string, amount: int, durationMonths: int, category: Option<string>)

  /** `Pricing.findOne({planId})`: the first plan with that id. */
  function FindPricing(pricings: seq<Pricing>, planId: string): (r: Option<Pricing>)
    ensures r.Some? ==> r.value in pricings && r.value.planId == planId
    ensures r.None? ==> forall p :: p in pricings ==> p.planId != planId
  {
    if pricings == [] then None
    else if pricings[0].planId == planId then Some(pricings[0])
    else FindPricing(pricings[1..], planId)
  }

  // ---------------------------------------------------------------------------
  // Coupons

  /** `"percentage"`, or any other discount type, which the controller treats as flat. */
  datatype DiscountType = Percentage | Flat

  /** A `Coupon` document; only its usage limit is ever changed. */
  class Coupon {
    const code: string
    const expiryDate: Option<int>
    const discountType: DiscountType
    const discountValue: int
    var usageLimit: Option<int>
  }

  /** `Coupon.findOne({code})`. */
  function FindCoupon(coupons: seq<Coupon>, code: string): (r: Option<Coupon>)
    ensures r.Some? ==> r.value in coupons && r.value.code == code
    ensures r.None? ==> forall c :: c in coupons ==> c.code != code
  {
    if coupons == [] then None
    else if coupons[0].code == code then Some(coupons[0])
    else FindCoupon(coupons[1..], code)
  }

  /** `coupon.usageLimit` used as a condition: set and non-zero. */
  predicate Limited(limit: Option<int>) {
    limit.Some? && limit.value != 0
  }

  /** The usage-limit refusal `coupon.usageLimit && coupon.usageLimit <= 0`: only a
      negative limit triggers it. */
  predicate LimitReached(limit: Option<int>)
    ensures LimitReached(limit) <==> limit.Some? && limit.value < 0
  {
    Limited(limit) && limit.value <= 0
  }

  /** `coupon.expiryDate && coupon.expiryDate < new Date()`. */
  predicate Expired(expiryDate: Option<int>, now: int) {
    expiryDate.Some? && expiryDate.value < now
  }

  /** The limit after one redemption: a set, non-zero limit drops by one; 0 and a missing
      limit stay as they are. */
  function Redeemed(limit: Option<int>): (r: Option<int>)
    ensures Limited(limit) ==> r == Some(limit.value - 1)
    ensures !Limited(limit) ==> r == limit
  {
    if Limited(limit) then Some(limit.value - 1) else limit
  }

  /** The limit after `k` redemptions. */
  function RedeemedTimes(limit: Option<int>, k: nat): Option<int> {
    if k == 0 then limit else Redeemed(RedeemedTimes(limit, k - 1))
  }

  /** The amount after the coupon, in paise. A flat coupon takes `discountValue` rupees
      off and nothing keeps the result from going below zero; the percentage case is
      floating point in the source and is the parameter `percentage` here. */
  function Discounted(amount: int, kind: DiscountType, value: int, percentage: (int, int) -> int): (r: int)
    ensures kind == Flat ==> r == amount - value * 100
  {
    match kind
    case Percentage => percentage(amount, value)
    case Flat => amount - value * 100
  }

  /** `coupon.usageLimit -= 1` behind its guard, then `coupon.save()`. */
  method RedeemCoupon(c: Coupon)
    modifies c`usageLimit
    ensures c.usageLimit == Redeemed(old(c.usageLimit))
  {
    if Limited(c.usageLimit) {
      c.usageLimit := Some(c.usageLimit.value - 1);
    }
  }

  // ---------------------------------------------------------------------------
  // Orders and payments

  /** An `Order` document: the last order a user started. */
  datatype Order = Order(
    user: string, orderId: string, planId: string, duration: int,
    coupon: Option<string>, category: Option<string>)

  /** A `Payment` document. */
  datatype Payment = Payment(
    paymentId: string, subscriptionId: string, signature: string, user: string,
    planId: Option<string>, coupon: Option<string>, createdAt: int)

  /** `Order.findOne({user})`: the first order of the user. */
  function FindOrder(orders: seq<Order>, user: string): (r: Option<Order>)
    ensures r.Some? ==> r.value in orders && r.value.user == user
    ensures r.None? <==> forall o :: o in orders ==> o.user != user
  {
    if orders == [] then None
    else if orders[0].user == user then Some(orders[0])
    else FindOrder(orders[1..], user)
  }

  /** Position of the user's first order, or `|orders|`. */
  function OrderIndex(orders: seq<Order>, user: string): (i: nat)
    ensures i <= |orders|
    ensures i < |orders| ==> orders[i].user == user
    ensures forall j :: 0 <= j < i ==> orders[j].user != user
  {
    if orders == [] then 0
    else if orders[0].user == user then 0
    else 1 + OrderIndex(orders[1..], user)
  }

  /** The orders after `o` is saved: the user's existing order is overwritten, otherwise
      `o` is added. */
  function Upserted(orders: seq<Order>, o: Order): seq<Order> {
    var i := OrderIndex(orders, o.user);
    if i < |orders| then orders[i := o] else orders + [o]
  }

  /** At most one order per user. */
  predicate OneOrderPerUser(orders: seq<Order>) {
    forall i, j :: 0 <= i < j < |orders| ==> orders[i].user != orders[j].user
  }

  /** `Payment.findOne({razorpay_subscription_id})`. */
  function FindPayment(payments: seq<Payment>, subscriptionId: string): (r: Option<Payment>)
    ensures r.Some? ==> r.value in payments && r.value.subscriptionId == subscriptionId
    ensures r.None? ==> forall p :: p in payments ==> p.subscriptionId != subscriptionId
  {
    if payments == [] then None
    else if payments[0].subscriptionId == subscriptionId then Some(payments[0])
    else FindPayment(payments[1..], subscriptionId)
  }

  /** The order and payment collections. */
  class Store {
    var orders: seq<Order>
    var payments: seq<Payment>

    /** The find-then-save of `buySubscription`. */
    method UpsertOrder(o: Order)
      modifies this`orders
      ensures orders == Upserted(old(orders), o)
    {
      var i := OrderIndex(orders, o.user);
      if i < |orders| {
        orders := orders[i := o];
      } else {
        orders := orders + [o];
      }
    }

    /** `Payment.create`. */
    method RecordPayment(p: Payment)
      modifies this`payments
      ensures payments == old(payments) + [p]
    {
      payments := payments + [p];
    }
  }

  // ---------------------------------------------------------------------------
  // buySubscription

  /** The user `User.findById` returned, as a set: empty when there is none. */
  function Found(user: User?): set<User> {
    if user == null then {} else {user}
  }

  /** The status `buySubscription` leaves: an active subscription stays active, any other
      status (none included) becomes "pending". */
  function StatusAfterPurchase(status: Option<string>): (r: Option<string>)
    ensures status == Some("active") ==> r == status
    ensures status != Some("active") ==> r == Some("pending")
  {
    if status == Some("active") then status else Some("pending")
  }

  /** The price before any coupon, in paise: the plan's amount, or for an active
      subscriber with a plan id the rounded difference `prorate` computes from the new
      plan, the current plan, the deactivation date and `now` (floating point in the
      source). */
  function BasePrice(
    sub: Subscription, plan: Pricing, current: Option<Pricing>, now: int,
    prorate: (Pricing, Pricing, Option<int>, int) -> int): int
  {
    if sub.status == Some("active") && Present(sub.planId) && current.Some? then
      prorate(plan, current.value, sub.dateOfDeactivation, now) * 100
    else plan.amount * 100
  }

  /** The user exists, the plan exists, and an active subscriber's current plan exists:
      `buySubscription` gets past its plan checks. */
  predicate PlanChecksPass(user: User?, pricings: seq<Pricing>, planId: string)
    reads user
  {
    && user != null && FindPricing(pricings, planId).Some?
    && !(user.subscription.status == Some("active") && Present(user.subscription.planId)
         && FindPricing(pricings, user.subscription.planId.value).None?)
  }

  /** `buySubscription`. `couponCode` is the query's coupon, if given and non-empty;
      `gatewayOrderId` is the id the payment gateway gives the new order. The result is
      the amount asked from the gateway, in paise. */
  method BuySubscription(
    user: User?, store: Store, pricings: seq<Pricing>, coupons: seq<Coupon>,
    planId: string, couponCode: Option<string>, now: int, gatewayOrderId: string,
    prorate: (Pricing, Pricing, Option<int>, int) -> int, percentage: (int, int) -> int)
    returns (r: Result<int>)
    modifies store`orders, Found(user)`subscription, (set c | c in coupons)`usageLimit
    ensures user == null ==> r == Err("User not found", Some(404)) && unchanged(store)
    ensures user != null && FindPricing(pricings, planId).None? ==>
      r == Err("Invalid plan selected", Some(400)) && unchanged(store) && unchanged(Found(user))
    ensures (&& user != null && FindPricing(pricings, planId).Some?
             && old(user.subscription.status) == Some("active") && Present(old(user.subscription.planId))
             && FindPricing(pricings, old(user.subscription.planId).value).None?) ==>
      r == Err("Current subscription plan not found", Some(400)) && unchanged(store) && unchanged(Found(user))
    ensures couponCode.Some? && FindCoupon(coupons, couponCode.value).None? ==>
      r.Err? && unchanged(store) && unchanged(Found(user))
      && (old(PlanChecksPass(user, pricings, planId)) ==> r == Err("Invalid coupon code", Some(400)))
    ensures couponCode.Some? && FindCoupon(coupons, couponCode.value).Some? ==>
      var c := FindCoupon(coupons, couponCode.value).value;
      && ((Expired(c.expiryDate, now) || old(LimitReached(c.usageLimit))) ==>
            r.Err? && unchanged(store, c) && unchanged(Found(user)))
      && (old(PlanChecksPass(user, pricings, planId)) && Expired(c.expiryDate, now) ==>
            r == Err("Coupon has expired", Some(400)))
      && (old(PlanChecksPass(user, pricings, planId)) && !Expired(c.expiryDate, now) && old(LimitReached(c.usageLimit)) ==>
            r == Err("Coupon usage limit reached", Some(400)))
    ensures forall c :: c in coupons && (couponCode.None? || FindCoupon(coupons, couponCode.value) != Some(c)) ==>
      c.usageLimit == old(c.usageLimit)
    ensures !old(PlanChecksPass(user, pricings, planId)) ==>
      forall c :: c in coupons ==> c.usageLimit == old(c.usageLimit)
    ensures r.Ok? <==>
      && old(PlanChecksPass(user, pricings, planId))
      && (couponCode.Some? ==>
            && FindCoupon(coupons, couponCode.value).Some?
            && !Expired(FindCoupon(coupons, couponCode.value).value.expiryDate, now)
            && !old(LimitReached(FindCoupon(coupons, couponCode.value).value.usageLimit)))
      && PreSave(user.email).Ok?
    ensures r.Ok? ==>
      && user != null
      && var plan := FindPricing(pricings, planId).value;
      && var current := if Present(old(user.subscription.planId)) then FindPricing(pricings, old(user.subscription.planId).value) else None;
      && var base := BasePrice(old(user.subscription), plan, current, now, prorate);
      && (couponCode.None? ==> r.value == base)
      && (couponCode.Some? ==>
            var c := FindCoupon(coupons, couponCode.value).value;
            && !Expired(c.expiryDate, now) && !old(LimitReached(c.usageLimit))
            && r.value == Discounted(base, c.discountType, c.discountValue, percentage)
            && c.usageLimit == Redeemed(old(c.usageLimit)))
      && store.orders == Upserted(old(store.orders),
           Order(user.id, gatewayOrderId, planId, plan.durationMonths, couponCode, plan.category))
      && user.subscription == old(user.subscription).(status := StatusAfterPurchase(old(user.subscription.status)))
      && PreSave(user.email).Ok?
  {
    if user == null {
      return Err("User not found", Some(404));
    }
    var found := FindPricing(pricings, planId);
    if found.None? {
      return Err("Invalid plan selected", Some(400));
    }
    var plan := found.value;
    var amount := plan.amount * 100;
    var current: Option<Pricing> := None;
    if user.subscription.status == Some("active") && Present(user.subscription.planId) {
      current := FindPricing(pricings, user.subscription.planId.value);
      if current.None? {
        return Err("Current subscription plan not found", Some(400));
      }
      amount := prorate(plan, current.value, user.subscription.dateOfDeactivation, now) * 100;
    }
    assert amount == BasePrice(user.subscription, plan, current, now, prorate);
    if couponCode.Some? {
      var coupon := FindCoupon(coupons, couponCode.value);
      if coupon.None? {
        return Err("Invalid coupon code", Some(400));
      }
      var c := coupon.value;
      if Expired(c.expiryDate, now) {
        return Err("Coupon has expired", Some(400));
      }
      if LimitReached(c.usageLimit) {
        return Err("Coupon usage limit reached", Some(400));
      }
      amount := Discounted(amount, c.discountType, c.discountValue, percentage);
      RedeemCoupon(c);
    }
    store.UpsertOrder(Order(user.id, gatewayOrderId, planId, plan.durationMonths, couponCode, plan.category));
    user.subscription := user.subscription.(status := StatusAfterPurchase(user.subscription.status));
    var saved := PreSave(user.email);
    if saved.Err? {
      return Err(saved.message, Some(500));
    }
    return Ok(amount);
  }

  // ---------------------------------------------------------------------------
  // verifySubscription

  /** The subscription after a verified payment for `order`, whose plan runs `months`
      months. An active subscription is extended: the previous plan and duration go to
      `upgradation`, the duration grows by `months` (a missing one stays missing) and a
      deactivation date, if any, moves `months` months on. Any other subscription starts
      now and ends `months` months from now. `addMonths` is the calendar's month
      addition. */
  function Verified(sub: Subscription, order: Order, months: int, now: int, addMonths: (int, int) -> int): (r: Subscription)
    ensures r.status == Some("active")
    ensures r.id == Some(order.orderId) && r.planId == Some(order.planId) && r.coupon == order.coupon
    ensures r.category == sub.category
  {
    if sub.status == Some("active") then
      sub.(
        upgradation := Some(Upgradation(sub.planId, sub.duration, now, months)),
        duration := if sub.duration.Some? then Some(sub.duration.value + months) else None,
        id := Some(order.orderId),
        planId := Some(order.planId),
        coupon := order.coupon,
        dateOfDeactivation :=
          if sub.dateOfDeactivation.Some? then Some(addMonths(sub.dateOfDeactivation.value, months)) else None)
    else
      sub.(
        status := Some("active"),
        id := Some(order.orderId),
        planId := Some(order.planId),
        duration := Some(months),
        coupon := order.coupon,
        dateOfActivation := Some(now),
        dateOfDeactivation := Some(addMonths(now, months)))
  }

  /** What the caller is sent to after a check that got past the lookups. */
  datatype Verification = PaymentFailed | PaymentSucceeded

  /** `verifySubscription`. `secretDefined` says whether the gateway secret is
      configured, `signatureMatches` whether the HMAC of the stored order id and
      `paymentId` equals `signature`. */
  method VerifySubscription(
    user: User?, store: Store, pricings: seq<Pricing>,
    paymentId: string, gatewayOrderId: string, signature: string,
    secretDefined: bool, signatureMatches: bool, now: int, addMonths: (int, int) -> int)
    returns (r: Result<Verification>)
    modifies store`payments, Found(user)`subscription, Found(user)`category
    ensures user == null ==> r == Err("User not found", Some(404)) && unchanged(store)
    ensures user != null && FindOrder(store.orders, user.id).None? ==>
      r == Err("Order not found", Some(404)) && unchanged(store) && unchanged(Found(user))
    ensures user != null && FindOrder(store.orders, user.id).Some? && !secretDefined ==>
      r == Err("Razorpay secret is not defined", Some(400)) && unchanged(store) && unchanged(Found(user))
    ensures user != null && FindOrder(store.orders, user.id).Some? && secretDefined && !signatureMatches ==>
      r == Ok(PaymentFailed) && unchanged(store) && unchanged(Found(user))
    ensures user != null && FindOrder(store.orders, user.id).Some? && secretDefined && signatureMatches ==>
      && var order := FindOrder(store.orders, user.id).value;
      && store.payments == old(store.payments) + [Payment(paymentId, gatewayOrderId, signature, user.id,
                                                          old(user.subscription.planId), old(user.subscription.coupon), now)]
      && (FindPricing(pricings, order.planId).None? ==>
            r == Err("Invalid plan duration selected", Some(400)) && unchanged(user))
      && (FindPricing(pricings, order.planId).Some? ==>
            && user.subscription == Verified(old(user.subscription), order,
                                             FindPricing(pricings, order.planId).value.durationMonths, now, addMonths)
            && user.category == order.category
            && (r == Ok(PaymentSucceeded) <==> PreSave(user.email).Ok?))
    ensures r == Ok(PaymentSucceeded) ==> user != null && user.subscription.status == Some("active")
  {
    if user == null {
      return Err("User not found", Some(404));
    }
    var order := FindOrder(store.orders, user.id);
    if order.None? {
      return Err("Order not found", Some(404));
    }
    if !secretDefined {
      return Err("Razorpay secret is not defined", Some(400));
    }
    if !signatureMatches {
      return Ok(PaymentFailed);
    }
    store.RecordPayment(Payment(paymentId, gatewayOrderId, signature, user.id,
                                user.subscription.planId, user.subscription.coupon, now));
    var pricing := FindPricing(pricings, order.value.planId);
    if pricing.None? {
      return Err("Invalid plan duration selected", Some(400));
    }
    var months := pricing.value.durationMonths;
    user.category := order.value.category;
    user.subscription := Verified(user.subscription, order.value, months, now, addMonths);
    var saved := PreSave(user.email);
    if saved.Err? {
      return Err(saved.message, Some(500));
    }
    return Ok(PaymentSucceeded);
  }

  // ---------------------------------------------------------------------------
  // cancelSubscription

  /** `process.env.REFUND_DAYS`: unset or empty, a number of days, or a text `Number`
      turns into NaN. */
  datatype RefundDays = Unset | Days(days: int) | NotANumber

  /** `cancelSubscription`: the checks before the cancellation request is mailed. The
      refusal message says seven days whatever the configured window is. */
  function CancelSubscription(user: User?, payments: seq<Payment>, refundDays: RefundDays, now: int): (r: Result<()>)
    reads user
    ensures user == null ==> r == Err("User not found", Some(404))
    ensures user != null && !Present(user.subscription.id) ==> r == Err("Subscription ID is not available", Some(400))
    ensures r.Ok? ==> (&& user != null && Present(user.subscription.id)
                       && FindPayment(payments, user.subscription.id.value).Some?
                       && !refundDays.Unset?)
  {
    if user == null then Err("User not found", Some(404))
    else if !Present(user.subscription.id) then Err("Subscription ID is not available", Some(400))
    else
      var payment := FindPayment(payments, user.subscription.id.value);
      if payment.None? then Err("Payment not found", Some(404))
      else
        var gap := now - payment.value.createdAt;
        match refundDays
        case Unset => Err("Please provide Refund Days", Some(404))
        case NotANumber => Ok(())
        case Days(n) =>
          if gap > n * MsPerDay then Err("Cannot cancel subscription after 7 days.", Some(400)) else Ok(())
  }

  // ---------------------------------------------------------------------------
  // getFreeTrialActive

  const TrialDays: int := 14

  /** The trial `getFreeTrialActive` grants at `now`: active, marked availed, ending 14
      days later. */
  function TrialFrom(now: int): (t: FreeTrial)
    ensures t.active && t.availed
    ensures t.dateOfActivation == Some(now)
    ensures t.dateOfDeactivation == Some(now + TrialDays * MsPerDay)
  {
    FreeTrial(true, true, Some(now), Some(now + TrialDays * MsPerDay))
  }

  /** `getFreeTrialActive`: grants the trial whatever the user's trial history, sets the
      user's category to "free", then saves. */
  method GetFreeTrialActive(user: User?, now: int) returns (r: Result<()>)
    modifies Found(user)`freeTrial, Found(user)`category
    ensures user == null ==> r == Err("User not found", Some(404))
    ensures user != null ==>
      && user.freeTrial == TrialFrom(now)
      && user.category == Some("free")
      && user.subscription == old(user.subscription)
      && (r.Ok? <==> PreSave(user.email).Ok?)
      && (r.Err? ==> r == Err("Please enter a valid email address", None))
  {
    if user == null {
      return Err("User not found", Some(404));
    }
    user.freeTrial := TrialFrom(now);
    user.category := Some("free");
    var saved := PreSave(user.email);
    if saved.Err? {
      return Err(saved.message, None);
    }
    return Ok(());
  }

  // ---------------------------------------------------------------------------
  // Properties

  /** A limit of 0 or no limit means unlimited use: never refused, never decremented. */
  lemma ZeroLimitIsUnlimited(limit: Option<int>)
    requires limit.None? || limit.value == 0
    ensures !LimitReached(limit) && Redeemed(limit) == limit
  {
  }

  /** A coupon whose limit starts at `n >= 0` is never refused for its limit, however
      often it is used: the count runs down to 0, and 0 counts as no limit. */
  lemma {:induction false} NonNegativeLimitNeverReached(n: int, k: nat)
    requires n >= 0
    ensures RedeemedTimes(Some(n), k) == Some(if k <= n then n - k else 0)
    ensures !LimitReached(RedeemedTimes(Some(n), k))
  {
    if k > 0 {
      NonNegativeLimitNeverReached(n, k - 1);
    }
  }

  /** A flat coupon worth more than the price gives a negative amount. */
  lemma FlatDiscountIsNotClamped(amount: int, value: int, percentage: (int, int) -> int)
    ensures Discounted(amount, Flat, value, percentage) < 0 <==> value * 100 > amount
  {
  }

  /** After the upsert the user's order is the new one; other users' orders are kept. */
  lemma {:induction false} UpsertFindsNewOrder(orders: seq<Order>, o: Order, user: string)
    ensures FindOrder(Upserted(orders, o), o.user) == Some(o)
    ensures user != o.user ==> FindOrder(Upserted(orders, o), user) == FindOrder(orders, user)
  {
    var i := OrderIndex(orders, o.user);
    var u := Upserted(orders, o);
    FindOrderAt(u, o.user, i);
    if user != o.user {
      FindOrderSame(orders, u, user);
    }
  }

  lemma {:induction false} FindOrderAt(orders: seq<Order>, user: string, i: nat)
    requires i < |orders| && orders[i].user == user
    requires forall j :: 0 <= j < i ==> orders[j].user != user
    ensures FindOrder(orders, user) == Some(orders[i])
  {
    if i > 0 {
      FindOrderAt(orders[1..], user, i - 1);
    }
  }

  /** Two order lists that agree on every order of `user` give the same lookup. */
  lemma {:induction false} FindOrderSame(a: seq<Order>, b: seq<Order>, user: string)
    requires |a| <= |b|
    requires forall j :: 0 <= j < |a| ==> (a[j].user == user || b[j].user == user) ==> a[j] == b[j]
    requires forall j :: |a| <= j < |b| ==> b[j].user != user
    ensures FindOrder(a, user) == FindOrder(b, user)
  {
    if a != [] && a[0].user != user {
      FindOrderSame(a[1..], b[1..], user);
    }
  }

  /** The upsert keeps at most one order per user, and adds an order only for a user
      who had none. */
  lemma UpsertKeepsOneOrderPerUser(orders: seq<Order>, o: Order)
    requires OneOrderPerUser(orders)
    ensures OneOrderPerUser(Upserted(orders, o))
    ensures |Upserted(orders, o)| == |orders| + (if FindOrder(orders, o.user).Some? then 0 else 1)
  {
    var i := OrderIndex(orders, o.user);
    if i == |orders| {
      assert FindOrder(orders, o.user).None?;
    } else {
      assert orders[i] in orders;
    }
  }

  /** A verified payment always leaves the subscription active; an active one keeps its
      activation date, any other one starts now with the plan's duration. */
  lemma VerifiedStartsOrExtends(sub: Subscription, order: Order, months: int, now: int, addMonths: (int, int) -> int)
    ensures var r := Verified(sub, order, months, now, addMonths);
      && r.status == Some("active")
      && (sub.status == Some("active") ==>
            && r.dateOfActivation == sub.dateOfActivation
            && r.upgradation == Some(Upgradation(sub.planId, sub.duration, now, months))
            && r.duration == (if sub.duration.Some? then Some(sub.duration.value + months) else None)
            && (sub.dateOfDeactivation.Some? ==>
                  r.dateOfDeactivation == Some(addMonths(sub.dateOfDeactivation.value, months)))
            && (sub.dateOfDeactivation.None? ==> r.dateOfDeactivation.None?))
      && (sub.status != Some("active") ==>
            && r.dateOfActivation == Some(now) && r.duration == Some(months)
            && r.dateOfDeactivation == Some(addMonths(now, months))
            && r.upgradation == sub.upgradation)
  {
  }

  /** Two verified payments for the same plan add up: from no active subscription, the
      duration is twice the plan's, and the second payment records the first as its
      previous plan. */
  lemma TwoPaymentsAddUp(sub: Subscription, order: Order, months: int, now1: int, now2: int, addMonths: (int, int) -> int)
    requires sub.status != Some("active")
    ensures var once := Verified(sub, order, months, now1, addMonths);
      var twice := Verified(once, order, months, now2, addMonths);
      && twice.duration == Some(months + months)
      && twice.dateOfActivation == Some(now1)
      && twice.dateOfDeactivation == Some(addMonths(addMonths(now1, months), months))
      && twice.upgradation == Some(Upgradation(Some(order.planId), Some(months), now2, months))
  {
  }

  /** The refund window: with a configured number of days, a cancellation that gets past
      the lookups is accepted exactly when the payment is at most that many days old; a
      value that is not a number accepts every such cancellation. */
  lemma CancelWithinWindow(user: User, payments: seq<Payment>, refundDays: RefundDays, now: int)
    requires Present(user.subscription.id)
    requires FindPayment(payments, user.subscription.id.value).Some?
    ensures var p := FindPayment(payments, user.subscription.id.value).value;
      && (refundDays.Days? ==>
            (CancelSubscription(user, payments, refundDays, now).Ok? <==> now - p.createdAt <= refundDays.days * MsPerDay))
      && (refundDays.NotANumber? ==> CancelSubscription(user, payments, refundDays, now).Ok?)
      && (refundDays.Unset? ==> CancelSubscription(user, payments, refundDays, now) == Err("Please provide Refund Days", Some(404)))
  {
  }

  /** Without a payment for the subscription id, cancellation is refused. */
  lemma CancelNeedsPayment(user: User, payments: seq<Payment>, refundDays: RefundDays, now: int)
    requires Present(user.subscription.id)
    requires forall p :: p in payments ==> p.subscriptionId != user.subscription.id.value
    ensures CancelSubscription(user, payments, refundDays, now) == Err("Payment not found", Some(404))
  {
  }

  /** A trial lasts exactly 14 days, and granting it ignores any earlier trial. */
  lemma TrialLastsFourteenDays(now: int)
    ensures TrialFrom(now).dateOfDeactivation.value - TrialFrom(now).dateOfActivation.value == 14 * 86400000
  {
  }

  /** The trial sets only the user-level category, not the subscription's, which the
      tier check reads: a trial user without a subscription category is refused every
      listed tier. */
  lemma TrialDoesNotUnlockTiers(sub: Subscription, now: int, required: string)
    requires sub.category.None?
    requires required in CategoryHierarchy
    ensures Authorize(required, sub, TrialFrom(now)) == Reject(BelowTier(required), 403)
  {
    UnlistedCategoryRefused(required, sub, TrialFrom(now));
  }
}
