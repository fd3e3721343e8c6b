/**
 * The subscription service as its code evidently intends it: plans are rows of
 * a plan table with a name, price, duration, tier and features, and a user
 * row carries a `subscription_id`. The code names neither (its model class is
 * the per-user `Subscription` record, and `User` has no such column), so this
 * module is the corrected counterpart of `SubscriptionService`, kept over the
 * store's plan table and the user's `subscriptionId` field.
 */
module SubscriptionPlans {
  import opened Optional
  import opened UserModel
  import opened Store
  // the reply shape and the default tier are the service's own; the
  // operations declared here take the place of its namesakes
  import opened SubscriptionService

  /** `create_subscription_plan(name, price, duration_days, tier="basic", features="")`: a plan name may be used once. */
  method CreateSubscriptionPlan(db: Database, name: string, price: int, durationDays: int,
                                tier: string := DefaultTier, features: string := "")
    returns (r: Reply, planId: Option<int>)
    requires db.Valid()
    modifies db`plans, db`nextPlanId
    ensures db.Valid()
    ensures old(db.PlanNameTaken(name)) ==>
              r == Reply(false, "Subscription plan already exists.") && planId == None
              && db.plans == old(db.plans) && db.nextPlanId == old(db.nextPlanId)
    ensures !old(db.PlanNameTaken(name)) ==>
              var id := old(db.nextPlanId);
              && r == Reply(true, "Subscription plan created successfully.") && planId == Some(id)
              && id !in old(db.plans) && db.plans == old(db.plans)[id := Plan(id, name, price, durationDays, tier, features)]
              && |db.plans| == |old(db.plans)| + 1
  {
    if exists id | id in db.plans :: db.plans[id].name == name {
      return Reply(false, "Subscription plan already exists."), None;
    }
    var id := db.nextPlanId;
    db.InsertPlan(Plan(id, name, price, durationDays, tier, features));
    r, planId := Reply(true, "Subscription plan created successfully."), Some(id);
  }

  /** `get_subscription_plan` */
  function GetSubscriptionPlan(db: Database, planId: int): (r: (Reply, Option<Plan>))
    requires db.Valid()
    reads db, db.users.Values
    ensures r.0.success <==> planId in db.plans
    ensures !r.0.success ==> r == (Reply(false, "Subscription plan not found."), None)
    ensures r.0.success ==>
              r.0.message == "Plan retrieved successfully." && r.1.Some? && r.1.value.id == planId && r.1.value in db.plans.Values
  {
    if planId !in db.plans then (Reply(false, "Subscription plan not found."), None)
    else (Reply(true, "Plan retrieved successfully."), Some(db.plans[planId]))
  }

  /** Plans whose ids match their keys are distinct rows, so there are as many as there are ids. */
  lemma {:induction false} OnePlanPerId(m: map<int, Plan>)
    requires forall id | id in m :: m[id].id == id
    ensures |m.Values| == |m.Keys|
    decreases |m.Keys|
  {
    if m.Keys != {} {
      assert exists k :: k in m.Keys by {
        if forall k :: k !in m.Keys {
          assert false;
        }
      }
      var k :| k in m.Keys;
      var rest := m - {k};
      OnePlanPerId(rest);
      assert m.Keys == rest.Keys + {k};
      assert m.Values == rest.Values + {m[k]} by {
        forall v | v in m.Values ensures v in rest.Values + {m[k]} {
          var j :| j in m && m[j] == v;
          if j != k { assert rest[j] == v; }
        }
      }
      assert m[k] !in rest.Values;
    }
  }

  /**
   * `list_all_plans`: an empty table is still a success, with an explanatory
   * message; otherwise one entry per stored plan (the query has no order).
   */
  function ListAllPlans(db: Database): (r: (bool, Option<string>, set<Plan>))
    requires db.Valid()
    reads db, db.users.Values
    ensures r.0
    ensures db.plans == map[] ==> r == (true, Some("No subscription plans found."), {})
    ensures db.plans != map[] ==> r.1 == None
    ensures r.2 == db.plans.Values && |r.2| == |db.plans|
  {
    OnePlanPerId(db.plans);
    if db.plans == map[] then (true, Some("No subscription plans found."), {})
    else (true, None, db.plans.Values)
  }

  /**
   * `assign_subscription_to_user`: a missing user is reported before a
   * missing plan; on success only the user's `subscription_id` changes.
   */
  method AssignSubscriptionToUser(db: Database, userId: int, planId: int) returns (r: Reply)
    requires db.Valid()
    modifies db.UserAt(userId)`subscriptionId
    ensures db.Valid()
    ensures userId !in db.users ==> r == Reply(false, "User not found.")
    ensures userId in db.users && planId !in db.plans ==> r == Reply(false, "Subscription plan not found.")
    ensures r.success <==> userId in db.users && planId in db.plans
    ensures r.success ==> r.message == "Subscription assigned successfully." && db.users[userId].subscriptionId == Some(planId)
    ensures !r.success ==> forall u | u in db.users.Values :: u.subscriptionId == old(u.subscriptionId)
  {
    if userId !in db.users {
      return Reply(false, "User not found.");
    }
    if planId !in db.plans {
      return Reply(false, "Subscription plan not found.");
    }
    var user := db.users[userId];
    user.subscriptionId := Some(db.plans[planId].id);
    r := Reply(true, "Subscription assigned successfully.");
  }

  /** `cancel_user_subscription`: clears the user's `subscription_id`. */
  method CancelUserSubscription(db: Database, userId: int) returns (r: Reply)
    requires db.Valid()
    modifies db.UserAt(userId)`subscriptionId
    ensures db.Valid()
    ensures userId !in db.users ==> r == Reply(false, "User not found.")
    ensures r.success <==> userId in db.users
    ensures r.success ==> r.message == "Subscription cancelled." && db.users[userId].subscriptionId == None
    ensures !r.success ==> forall u | u in db.users.Values :: u.subscriptionId == old(u.subscriptionId)
  {
    if userId !in db.users {
      return Reply(false, "User not found.");
    }
    var user := db.users[userId];
    user.subscriptionId := None;
    r := Reply(true, "Subscription cancelled.");
  }
}
