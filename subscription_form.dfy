/**
 * `SubscriptionForm`: its constructor loads the plan choices from the plan
 * source (`None` when loading raised), and the plan field accepts only one
 * of the loaded choice keys.
 */
module SubscriptionForm {
  import opened Optional
  import opened Text
  import opened FormRules

  /** A plan as the plan source hands it to the form. */
  datatype PlanOption = PlanOption(id: int, displayName: string)

  /** `[(str(plan.id), plan.display_name) for plan in plans]`, in load order. */
  function Choices(plans: seq<PlanOption>): (r: seq<(string, string)>)
    ensures |r| == |plans|
    ensures forall i :: 0 <= i < |plans| ==> r[i] == (IntToString(plans[i].id), plans[i].displayName)
  {
    seq(|plans|, i requires 0 <= i < |plans| => (IntToString(plans[i].id), plans[i].displayName))
  }

  /** The choice keys of a loading attempt: none when it failed. */
  function LoadedChoices(loaded: Option<seq<PlanOption>>): (r: seq<(string, string)>)
    ensures loaded.None? ==> r == []
    ensures loaded.Some? ==> r == Choices(loaded.value)
  {
    if loaded.Some? then Choices(loaded.value) else []
  }

  /** `validate_plan_name` */
  predicate ValidChoice(planName: string, choices: seq<(string, string)>) {
    exists i :: 0 <= i < |choices| && choices[i].0 == planName
  }

  /** `user_id` is required (zero counts as missing) and at least one. */
  predicate ValidUserId(userId: Option<int>) {
    userId.Some? && userId.value != 0 && userId.value >= 1
  }

  predicate SubscriptionRules(planName: string, userId: Option<int>, choices: seq<(string, string)>) {
    DataRequired(planName) && ValidChoice(planName, choices) && ValidUserId(userId)
  }

  class SubscriptionForm {
    var planName: string
    var userId: Option<int>
    var choices: seq<(string, string)>

    /** `__init__`: the submitted data, and the choices built from the plan source. */
    constructor (planName: string, userId: Option<int>, loaded: Option<seq<PlanOption>>)
      ensures this.planName == planName && this.userId == userId
      ensures choices == LoadedChoices(loaded)
    {
      this.planName := planName;
      this.userId := userId;
      if loaded.Some? {
        choices := Choices(loaded.value);
      } else {
        choices := [];
      }
    }

    /** `validate` */
    function Validate(): (ok: bool)
      reads this
      ensures ok ==> exists i :: 0 <= i < |choices| && choices[i].0 == planName
      ensures ok ==> userId.Some? && userId.value >= 1
    {
      SubscriptionRules(planName, userId, choices)
    }

    /** `get_selected_plan_id`: the submitted key, unchanged. */
    function GetSelectedPlanId(): (r: string)
      reads this
      ensures Validate() ==> ValidChoice(r, choices)
    {
      planName
    }
  }

  /** When loading failed there are no choices, so every submitted plan is refused. */
  lemma FailedLoadRejectsAll(planName: string, userId: Option<int>)
    ensures !SubscriptionRules(planName, userId, LoadedChoices(None))
  {
  }

  /** A plan is accepted exactly when it names the id of a loaded plan (and the rest of the form is valid). */
  lemma AcceptedPlanIsLoaded(planName: string, userId: Option<int>, plans: seq<PlanOption>)
    ensures SubscriptionRules(planName, userId, Choices(plans)) <==>
              DataRequired(planName) && ValidUserId(userId) && exists i :: 0 <= i < |plans| && IntToString(plans[i].id) == planName
  {
    var c := Choices(plans);
    if exists i :: 0 <= i < |plans| && IntToString(plans[i].id) == planName {
      var i :| 0 <= i < |plans| && IntToString(plans[i].id) == planName;
      assert c[i].0 == planName;
    }
  }

  /** A user id below one, or zero, is refused. */
  lemma UserIdAtLeastOne(planName: string, userId: int, choices: seq<(string, string)>)
    requires userId < 1
    ensures !SubscriptionRules(planName, Some(userId), choices)
  {
  }
}
