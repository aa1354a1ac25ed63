/** The TIER_LIMITS table of src/constants/index.ts. */
module Constants {

  datatype Tier = Free | Plus | Pro

  /** A monthly recipe allowance; `Infinity` in the source is `Unlimited`. */
  datatype RecipeQuota = Limited(perMonth: nat) | Unlimited

  datatype TierLimits = TierLimits(
    recipesPerMonth: RecipeQuota,
    multiRecipeMerge: bool,
    substitutions: bool,
    nutritionalAnalysis: bool,
    weeklyAiPlans: bool)

  const FreeRecipesPerMonth: nat := 5

  /** TIER_LIMITS[tier]: only the free tier has a recipe limit, merging and substitutions
      come together with any paid tier, and analysis and AI plans come together. */
  function TierLimitsOf(tier: Tier): (limits: TierLimits)
    ensures limits.recipesPerMonth.Limited? <==> tier == Free
    ensures limits.recipesPerMonth.Limited? ==> limits.recipesPerMonth.perMonth == FreeRecipesPerMonth
    ensures limits.multiRecipeMerge == limits.substitutions == (tier != Free)
    ensures limits.nutritionalAnalysis == limits.weeklyAiPlans
    ensures limits.nutritionalAnalysis ==> limits.multiRecipeMerge
  {
    match tier
    case Free => TierLimits(Limited(FreeRecipesPerMonth), false, false, false, false)
    case Plus => TierLimits(Unlimited, true, true, false, false)
    case Pro => TierLimits(Unlimited, true, true, true, true)
  }

  /** The order free < plus < pro. */
  function Rank(tier: Tier): nat {
    match tier
    case Free => 0
    case Plus => 1
    case Pro => 2
  }

  /** A quota at least as generous as another. */
  predicate QuotaCovers(big: RecipeQuota, small: RecipeQuota) {
    big.Unlimited? || (small.Limited? && small.perMonth <= big.perMonth)
  }

  /** `high` allows everything `low` allows. */
  predicate Covers(high: TierLimits, low: TierLimits) {
    QuotaCovers(high.recipesPerMonth, low.recipesPerMonth) &&
    (low.multiRecipeMerge ==> high.multiRecipeMerge) &&
    (low.substitutions ==> high.substitutions) &&
    (low.nutritionalAnalysis ==> high.nutritionalAnalysis) &&
    (low.weeklyAiPlans ==> high.weeklyAiPlans)
  }

  /** The free tier allows five recipes a month and none of the features. */
  lemma FreeTierLimits()
    ensures TierLimitsOf(Free).recipesPerMonth == Limited(5)
    ensures var f := TierLimitsOf(Free);
            !f.multiRecipeMerge && !f.substitutions && !f.nutritionalAnalysis && !f.weeklyAiPlans
  {
  }

  /** Plus and pro have no recipe limit. */
  lemma PaidTiersUnlimited(tier: Tier)
    requires tier != Free
    ensures TierLimitsOf(tier).recipesPerMonth == Unlimited
  {
  }

  /** A higher tier allows everything a lower one does; in particular pro covers plus. */
  lemma TiersOrdered(low: Tier, high: Tier)
    requires Rank(low) <= Rank(high)
    ensures Covers(TierLimitsOf(high), TierLimitsOf(low))
  {
  }

  /** Nutritional analysis and weekly AI plans belong to pro alone. */
  lemma ProOnlyFeatures(tier: Tier)
    ensures TierLimitsOf(tier).nutritionalAnalysis <==> tier == Pro
    ensures TierLimitsOf(tier).weeklyAiPlans <==> tier == Pro
  {
  }
}
