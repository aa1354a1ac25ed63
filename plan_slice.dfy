/** src/store/slices/planSlice.ts: meal plans, the plan on screen and a loading flag. */
module PlanSlice {
  import opened Wrappers
  import opened DbTypes
  import KeyedList

  class Slice {
    var plans: seq<Plan>
    var currentPlan: Option<Plan>
    var isLoading: bool

    constructor()
      ensures plans == [] && currentPlan == None && !isLoading
    {
      plans, currentPlan, isLoading := [], None, false;
    }

    /** Replaces the list wholesale. */
    method SetPlans(newPlans: seq<Plan>)
      modifies this
      ensures plans == newPlans
      ensures currentPlan == old(currentPlan) && isLoading == old(isLoading)
    {
      plans := newPlans;
    }

    method AddPlan(plan: Plan)
      modifies this
      ensures plans == old(plans) + [plan]
      ensures currentPlan == old(currentPlan) && isLoading == old(isLoading)
    {
      plans := plans + [plan];
    }

    /** Merges into the plans with the id; `currentPlan` keeps its possibly outdated copy. */
    method UpdatePlan(id: string, updates: PlanUpdate)
      modifies this
      ensures plans == KeyedList.UpdateWhere(old(plans), PlanKey, id, MergePlan, updates)
      ensures currentPlan == old(currentPlan) && isLoading == old(isLoading)
    {
      plans := KeyedList.UpdateWhere(plans, PlanKey, id, MergePlan, updates);
    }

    /** Drops the plans with the id; `currentPlan` is left as it was, so it can name a plan
        that is no longer in the list. */
    method RemovePlan(id: string)
      modifies this
      ensures plans == KeyedList.RemoveWhere(old(plans), PlanKey, id)
      ensures currentPlan == old(currentPlan) && isLoading == old(isLoading)
      ensures currentPlan.Some? && currentPlan.value.id == id ==> currentPlan.value !in plans
    {
      plans := KeyedList.RemoveWhere(plans, PlanKey, id);
    }

    method SetCurrentPlan(plan: Option<Plan>)
      modifies this
      ensures currentPlan == plan && plans == old(plans) && isLoading == old(isLoading)
    {
      currentPlan := plan;
    }

    method SetLoading(loading: bool)
      modifies this
      ensures isLoading == loading && plans == old(plans) && currentPlan == old(currentPlan)
    {
      isLoading := loading;
    }
  }
}
