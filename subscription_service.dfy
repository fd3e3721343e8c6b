/**
 * `SubscriptionService` as written, with its default models: its model class
 * is the per-user `Subscription` record and its user class is `User`. The
 * plan operations address columns that record lacks (`name`, `price`,
 * `duration_days`) and a `subscription_id` that `User` lacks, so none of them
 * can succeed: the module states what each returns or raises instead. The
 * plan table they evidently mean is modelled in `SubscriptionPlans`. The two
 * lookups of subscription records work as intended.
 */
module SubscriptionService {
  import opened Optional
  import opened Text
  import opened SubscriptionModel
  import opened Store

  /** The `{"success", "message"}` part of a `SubscriptionResult`. */
  datatype Reply = Reply(success: bool, message: string)

  const DefaultTier := "basic"
  const DatabaseErrorPrefix := "Database error: "

  /** What reading an attribute that `Subscription` does not declare raises. */
  const NoPlanName: Attempt<Reply> := NoAttribute("Subscription", "name")

  /**
   * `create_subscription_plan(name, price, duration_days, tier="basic", features="")`:
   * `filter_by(name=...)` names a column `Subscription` lacks, so building the
   * query raises `InvalidRequestError`, a `SQLAlchemyError` the handler turns
   * into a database error. Nothing is stored.
   */
  function CreateSubscriptionPlan(db: Database, name: string, price: int, durationDays: int,
                                  tier: string := DefaultTier, features: string := ""): (r: Reply)
    ensures !r.success && StartsWith(r.message, DatabaseErrorPrefix)
  {
    var m := DatabaseErrorPrefix + "Subscription has no property \"name\"";
    assert m[..|DatabaseErrorPrefix|] == DatabaseErrorPrefix;
    Reply(false, m)
  }

  /**
   * `get_subscription_plan`: the id is looked up among the subscription
   * records; a missing one is reported, and a stored one raises
   * `AttributeError` when its `name` is read for the reply.
   */
  function GetSubscriptionPlan(db: Database, planId: int): (r: Attempt<Reply>)
    reads db
    ensures r.NoAttribute? <==> planId in db.subscriptions
    ensures r.NoAttribute? ==> r == NoPlanName
    ensures r.Done? ==> r.value == Reply(false, "Subscription plan not found.")
  {
    if planId in db.subscriptions then NoPlanName else Done(Reply(false, "Subscription plan not found."))
  }

  /**
   * `list_all_plans`: with no subscription record the reply succeeds with an
   * empty `plans` list and an explanatory message; with any record, reading
   * its `name` raises `AttributeError`, which the `except SQLAlchemyError`
   * does not catch.
   */
  function ListAllPlans(db: Database): (r: Attempt<Reply>)
    reads db
    ensures r.NoAttribute? <==> db.subscriptions != map[]
    ensures r.NoAttribute? ==> r == NoPlanName
    ensures r.Done? ==> r.value == Reply(true, "No subscription plans found.")
  {
    if db.subscriptions != map[] then NoPlanName else Done(Reply(true, "No subscription plans found."))
  }

  /**
   * `assign_subscription_to_user`: a missing user is reported before a
   * missing plan, which is looked up among the subscription records. `User`
   * declares no `subscription_id`, so `hasattr` is false for every stored
   * user and nothing is written.
   */
  function AssignSubscriptionToUser(db: Database, userId: int, planId: int): (r: Reply)
    reads db
    ensures !r.success
    ensures userId !in db.users ==> r.message == "User not found."
    ensures userId in db.users && planId !in db.subscriptions ==> r.message == "Subscription plan not found."
    ensures userId in db.users && planId in db.subscriptions ==> r.message == "User model lacks subscription field."
  {
    if userId !in db.users then Reply(false, "User not found.")
    else if planId !in db.subscriptions then Reply(false, "Subscription plan not found.")
    else Reply(false, "User model lacks subscription field.")
  }

  /** `cancel_user_subscription`: a stored user lacks `subscription_id`, so nothing is cleared. */
  function CancelUserSubscription(db: Database, userId: int): (r: Reply)
    reads db
    ensures !r.success
    ensures userId !in db.users ==> r.message == "User not found."
    ensures userId in db.users ==> r.message == "User model lacks subscription field."
  {
    if userId !in db.users then Reply(false, "User not found.")
    else Reply(false, "User model lacks subscription field.")
  }

  /**
   * No plan operation of the service can succeed or hand out a plan: every
   * reply it returns is a failure, apart from the empty listing, and every
   * stored id it looks up raises.
   */
  lemma PlanOperationsNeverSucceed(db: Database, name: string, price: int, durationDays: int, userId: int, planId: int)
    ensures !CreateSubscriptionPlan(db, name, price, durationDays).success
    ensures GetSubscriptionPlan(db, planId).Done? ==> !GetSubscriptionPlan(db, planId).value.success
    ensures ListAllPlans(db).Done? ==> db.subscriptions == map[]
    ensures !AssignSubscriptionToUser(db, userId, planId).success && !CancelUserSubscription(db, userId).success
  {
  }

  /** `get_user_subscriptions`: the subscription rows whose `user_id` is the given one. */
  function GetUserSubscriptions(subscriptions: map<int, Subscription>, userId: int): (r: set<Subscription>)
    reads subscriptions.Values
    ensures r <= subscriptions.Values
    ensures forall s | s in r :: s.userId == userId
    ensures forall k | k in subscriptions && subscriptions[k].userId == userId :: subscriptions[k] in r
  {
    set k | k in subscriptions && subscriptions[k].userId == userId :: subscriptions[k]
  }

  /** After the cascade of a user's hard delete, no subscription of that user is left. */
  lemma NoSubscriptionsAfterCascade(subscriptions: map<int, Subscription>, remaining: map<int, Subscription>, userId: int)
    requires remaining.Keys <= subscriptions.Keys
    requires forall k | k in subscriptions :: k in remaining <==> subscriptions[k].userId != userId
    requires forall k | k in remaining :: remaining[k] == subscriptions[k]
    ensures GetUserSubscriptions(remaining, userId) == {}
  {
  }

  /** `get_subscription_by_id` */
  function GetSubscriptionById(subscriptions: map<int, Subscription>, subscriptionId: int): (r: Option<Subscription>)
    ensures r.Some? <==> subscriptionId in subscriptions
    ensures r.Some? ==> r.value in subscriptions.Values && r.value == subscriptions[subscriptionId]
  {
    if subscriptionId in subscriptions then Some(subscriptions[subscriptionId]) else None
  }
}
