/** src/components/UsageLimitBanner.tsx: when the free-quota banner shows, and what it says. */
module UsageLimitBanner {
  import opened Wrappers
  import opened DbTypes
  import Constants

  /** The limit the banner hard-codes. */
  const BannerLimit: int := 5

  /** The title's numbers: "Free Limit Reached (count/limit)". */
  datatype BannerContent = BannerContent(count: int, limit: int)

  /** `profile?.monthly_recipe_count || 0`: a missing profile counts as zero. */
  function RecipeCount(profile: Option<Profile>): int {
    if profile.Some? then profile.value.monthlyRecipeCount else 0
  }

  /** The rendered banner, or None when the component returns null. Only `isPlus` is read
      from the subscription store. */
  function Banner(profile: Option<Profile>, isPlus: bool, isPro: bool): (r: Option<BannerContent>)
    ensures r.Some? <==> !isPlus && RecipeCount(profile) >= BannerLimit
    ensures r.Some? ==> r.value.count == RecipeCount(profile) && r.value.limit == BannerLimit
  {
    var count := RecipeCount(profile);
    if isPlus || count < BannerLimit then None else Some(BannerContent(count, BannerLimit))
  }

  /** A plus subscriber never sees the banner. */
  lemma HiddenForPlus(profile: Option<Profile>, isPro: bool)
    ensures Banner(profile, true, isPro) == None
  {
  }

  /** Without a profile the count is zero and the banner is hidden. */
  lemma HiddenWithoutProfile(isPlus: bool, isPro: bool)
    ensures Banner(None, isPlus, isPro) == None
  {
  }

  /** `isPro` has no effect: a pro subscriber whose plus flag is false sees the banner once
      the count reaches the limit. */
  lemma ProDoesNotHide(profile: Option<Profile>, isPlus: bool)
    ensures Banner(profile, isPlus, true) == Banner(profile, isPlus, false)
  {
  }

  /** The hard-coded limit is the free tier's monthly allowance. */
  lemma LimitIsFreeQuota()
    ensures Constants.TierLimitsOf(Constants.Free).recipesPerMonth == Constants.Limited(BannerLimit as nat)
  {
  }
}
