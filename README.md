# PantryPilot core, modelled in Dafny

PantryPilot is a React Native recipe and pantry app. This project models the part of it
that makes decisions, and proves properties of that model:

- **Utilities.** The edit distance used for ingredient de-duplication, the similarity
  percentage built on it, the unit normaliser and `clamp`. The e-mail and password checks
  used by the sign-in form. The `TIER_LIMITS` table of the three subscription tiers.
- **Keyed-list stores.** The pantry, grocery, plan and recipe slices, and the standalone
  pantry and grocery stores. Each keeps a list of records keyed by `id` and supports
  append, remove-by-id, merge-by-id, the grocery `checked` toggle, clear and a loading
  flag. The shared list operations live once in `KeyedList`. Every store is a `class` whose
  methods reassign its fields.
- **Flag state machines.** These are the user slice (`isAuthenticated` tracks whether a user
  is set), the staged recipe input and the subscription store (its `isPlus`/`isPro` flags
  come from the active-entitlement map). The auth store moves user, session, profile,
  `loading` and `error` through initialise, sign-in, sign-up, Google OAuth, sign-out,
  profile and session refresh, and password reset. Its profile lookup is a bounded retry
  loop.
- **Component rules.** These are the usage-limit banner's visibility, the recipe input
  screen's input-kind badge, submit classification and text/image handlers, and the auth
  screen's local checks, per-button loading flags, success messages and mode-change effect.

Every call to Supabase, RevenueCat, the image picker, the clipboard or `new URL` is a
parameter carrying its outcome. So every transition is a deterministic step. The profile
query is a function from attempt number to answer. An awaited call runs to completion
before the next step. A React effect is an explicit method (`RunDetectEffect`,
`RunModeEffect`) taken after the state it depends on changes.

Strings are sequences of ASCII characters. `trim`, `toLowerCase` and the regex class `\s`
are modelled on ASCII (`Ascii`). Numbers are unbounded integers. The plus and pro tiers'
`Infinity` recipe allowance is the `Unlimited` constructor.

Two facts the proofs bring out about the code as written:

- The recipe input badge lower-cases the text before looking for the video and social
  hosts, but submit looks for them in the text as typed. So "YOUTU.BE" carries the URL
  badge yet is submitted through the text rule and rejected as too short
  (`RecipeInputScreen.UpperCaseHostMismatch`). The converse holds: whatever submit treats
  as a URL carries the URL badge (`RecipeInputScreen.SubmitUrlIsDetectedUrl`).
- The password-reset button exists only in forgot-password mode. `handleResetPassword`
  sets its success message and then switches the mode to sign-in. The mode effect of the
  next render clears the success message again (`AuthScreen.ResetThenRender`).

## Model

| member | source | states |
|---|---|---|
| Utils.EditDistance | src/utils/index.ts:50-75 | the distance the matrix computes, defined by its recurrence; it is zero exactly when the two strings are equal |
| Utils.LevenshteinDistance | src/utils/index.ts:50-75 | the matrix filled by the nested loops ends with the standard edit distance of the two strings (insert, delete and substitute cost 1, a match costs 0) |
| Utils.FillRow | src/utils/index.ts:60-72 | filling one row sets every cell of it to the edit distance of the matching prefixes and leaves the other rows alone |
| Utils.CellIsDistance | src/utils/index.ts:62-70 | the loop's cell rule (diagonal on a match, else 1 + the least of diagonal, left and up) yields the edit distance of the prefixes |
| Utils.MatchTakesDiagonal | src/utils/index.ts:62-63 | when the last characters match, the distance is the distance of the shortened strings, as the loop takes it |
| Utils.DistanceBounds | src/utils/index.ts:53-74 | the distance from "" to b is \|b\|, from a to "" is \|a\|, from a to a is 0, and never more than the longer length |
| Utils.DistanceAtLeastLengthGap | src/utils/index.ts:50-75 | the distance is at least the difference of the lengths |
| Utils.DropLastOfSecond | src/utils/index.ts:67-68 | dropping the last character of the second string raises or lowers the distance by at most 1 (both directions) |
| Utils.DropLastOfFirst | src/utils/index.ts:67-68 | dropping the last character of the first string raises or lowers the distance by at most 1 (both directions) |
| Utils.DistanceSymmetric | src/utils/index.ts:50-75 | the distance does not depend on the order of its arguments, so indexing the matrix by b then a is harmless |
| Utils.RoundedPercentAtMost100 | src/utils/index.ts:84 | rounding k·100/m half up gives at most 100 when k ≤ m, and exactly 100 when k = m |
| Utils.StringSimilarity | src/utils/index.ts:80-85 | the similarity is 100 for two empty strings, at most 100 always, and 100 for strings equal up to ASCII case |
| Utils.FullNamesAreNotAbbreviations | src/utils/index.ts:91-105 | no full unit name is itself one of the 13 abbreviations |
| Utils.FullNamesAreNormal | src/utils/index.ts:91-105 | every full unit name is lower case with no surrounding whitespace |
| Utils.NormalizeUnit | src/utils/index.ts:107-108 | the result is lower case, has no whitespace at either end, and is never one of the 13 abbreviations |
| Utils.NormalizeTbspExample | src/utils/index.ts:107-108 | " TBSP " normalises to "tablespoon" |
| Utils.NormalizePoundExamples | src/utils/index.ts:95-96 | both "lb" and "lbs" normalise to "pound" |
| Utils.NormalizeLb | src/utils/index.ts:95 | "lb" normalises to "pound" |
| Utils.NormalizeLbs | src/utils/index.ts:96 | "lbs" normalises to "pound" |
| Utils.NormalizeAbbreviation | src/utils/index.ts:107-108 | a listed abbreviation, already lower case and trimmed, maps to its full name |
| Utils.NormalizeUnitIdempotent | src/utils/index.ts:107-108 | normalising a normalised unit changes nothing |
| Utils.NormalizeUnlisted | src/utils/index.ts:107-108 | a unit outside the table comes back lower-cased and trimmed, with no upper-case letter and no whitespace at either end |
| Utils.Clamp | src/utils/index.ts:114-116 | the result lies in [min, max] when min ≤ max, is the value itself when it is already in range, and is max when min > max |
| AuthUtils.ValidateEmail | src/utils/authUtils.ts:8-11 | an accepted address has at least five characters and contains an '@' and a '.' |
| AuthUtils.ValidateEmailIsShape | src/utils/authUtils.ts:9 | the regex accepts exactly the strings with no whitespace, exactly one '@' with something before it, and a '.' after it that is neither first nor last in the domain |
| AuthUtils.SplitGivesShape | src/utils/authUtils.ts:9 | a match of the regex has that shape |
| AuthUtils.ShapeGivesSplit | src/utils/authUtils.ts:9 | a string of that shape matches the regex |
| AuthUtils.WhitespaceRejected | src/utils/authUtils.ts:9 | any string holding a whitespace character is rejected |
| AuthUtils.AcceptedHasOneAtAndInnerDot | src/utils/authUtils.ts:9 | an accepted address has exactly one '@', not first, and an inner '.' in its domain |
| AuthUtils.EmailExamples | src/utils/authUtils.ts:8-11 | "a@b.c" is accepted; "a@.c" and "a@b." are rejected |
| AuthUtils.ValidatePassword | src/utils/authUtils.ts:28-33 | valid exactly when the length is at least 6; an invalid password carries the too-short message and a valid one the empty message |
| Constants.TierLimitsOf | src/constants/index.ts:112-134 | only the free tier has a recipe limit, and it is 5; merging and substitutions come exactly with a paid tier; analysis and AI plans come together and only with merging |
| Constants.FreeTierLimits | src/constants/index.ts:113-119 | the free tier allows 5 recipes a month and none of the four features |
| Constants.PaidTiersUnlimited | src/constants/index.ts:120-128 | plus and pro have no recipe limit |
| Constants.TiersOrdered | src/constants/index.ts:112-134 | a higher tier allows every feature and at least the allowance of a lower one |
| Constants.ProOnlyFeatures | src/constants/index.ts:124-132 | nutritional analysis and weekly AI plans are enabled exactly for pro |
| DbTypes.MergeKeepsKeys | src/store/slices/pantrySlice.ts:26-29 | merging an update that does not set `id` keeps the record's id, for every record kind |
| KeyedList.RemoveWhere | src/store/slices/pantrySlice.ts:24-25 | the filtered list holds exactly the records whose id differs from the removed one, and is no longer |
| KeyedList.RemoveDistributes | src/store/slices/pantrySlice.ts:24-25 | filtering a concatenation filters each part, so kept records stay in their original order |
| KeyedList.RemoveCounts | src/store/slices/pantrySlice.ts:24-25 | each kept record keeps its number of copies, and no copy with the id remains |
| KeyedList.RemoveAbsent | src/store/slices/pantrySlice.ts:24-25 | removing an id no record has leaves the list unchanged |
| KeyedList.RemoveIdempotent | src/store/slices/pantrySlice.ts:24-25 | removing the same id twice is removing it once |
| KeyedList.RemoveAfterAppend | src/store/slices/pantrySlice.ts:23-25 | append accepts a duplicate id, and remove then takes out every copy |
| KeyedList.UpdateWhere | src/store/slices/pantrySlice.ts:26-29 | the mapped list has the same length; records with the id are merged and all others are unchanged in place |
| KeyedList.UpdateAbsent | src/store/slices/pantrySlice.ts:26-29 | updating an id no record has leaves the list unchanged |
| KeyedList.UpdateTwiceRestores | src/store/slices/grocerySlice.ts:25-30 | an update that keeps the key and undoes itself restores the list when applied twice |
| PantrySlice.Slice.constructor | src/store/slices/pantrySlice.ts:19-21 | the slice starts with no items, not loading |
| PantrySlice.Slice.SetItems | src/store/slices/pantrySlice.ts:22 | replaces the items and nothing else |
| PantrySlice.Slice.AddItem | src/store/slices/pantrySlice.ts:23 | appends the item at the end, whatever its id, keeping the others in order |
| PantrySlice.Slice.RemoveItem | src/store/slices/pantrySlice.ts:24-25 | the items become the id-filtered list; the loading flag is kept |
| PantrySlice.Slice.UpdateItem | src/store/slices/pantrySlice.ts:26-29 | the items become the merged list; the loading flag is kept |
| PantrySlice.Slice.SetLoading | src/store/slices/pantrySlice.ts:30 | changes only the loading flag |
| PantrySlice.Slice.ClearPantry | src/store/slices/pantrySlice.ts:31 | empties the items and keeps the loading flag |
| GrocerySlice.Slice.constructor | src/store/slices/grocerySlice.ts:21-22 | the slice starts with no items, not loading |
| GrocerySlice.Slice.SetItems | src/store/slices/grocerySlice.ts:23 | replaces the items and nothing else |
| GrocerySlice.Slice.AddItem | src/store/slices/grocerySlice.ts:24 | appends the item at the end |
| GrocerySlice.Slice.ToggleItem | src/store/slices/grocerySlice.ts:25-30 | the items become the list with `checked` flipped on the records with the id |
| GrocerySlice.ToggleOnlyFlipsChecked | src/store/slices/grocerySlice.ts:25-30 | toggling negates `checked` on the records with the id, changes no other field or record, and toggling twice restores the list |
| GrocerySlice.Slice.RemoveItem | src/store/slices/grocerySlice.ts:31-32 | the items become the id-filtered list |
| GrocerySlice.Slice.UpdateItem | src/store/slices/grocerySlice.ts:33-36 | the items become the merged list, same length |
| GrocerySlice.Slice.ClearList | src/store/slices/grocerySlice.ts:37 | empties the items and keeps the loading flag |
| GrocerySlice.Slice.SetLoading | src/store/slices/grocerySlice.ts:38 | changes only the loading flag |
| PlanSlice.Slice.constructor | src/store/slices/planSlice.ts:18-20 | no plans, no current plan, not loading |
| PlanSlice.Slice.SetPlans | src/store/slices/planSlice.ts:21 | replaces the plans wholesale |
| PlanSlice.Slice.AddPlan | src/store/slices/planSlice.ts:22 | appends the plan at the end |
| PlanSlice.Slice.UpdatePlan | src/store/slices/planSlice.ts:23-26 | merges into the plans with the id; the current plan keeps its possibly outdated copy |
| PlanSlice.Slice.RemovePlan | src/store/slices/planSlice.ts:27-28 | filters the plans by id and leaves the current plan as it was, so it can refer to a plan no longer in the list |
| PlanSlice.Slice.SetCurrentPlan | src/store/slices/planSlice.ts:29 | changes only the current plan |
| PlanSlice.Slice.SetLoading | src/store/slices/planSlice.ts:30 | changes only the loading flag |
| RecipeSlice.Slice.constructor | src/store/slices/recipeSlice.ts:23-26 | no recipes, no current recipe, no raw input, not processing |
| RecipeSlice.Slice.SetRecipes | src/store/slices/recipeSlice.ts:27 | replaces the recipes and nothing else |
| RecipeSlice.Slice.AddRecipe | src/store/slices/recipeSlice.ts:28-29 | appends the recipe at the end |
| RecipeSlice.Slice.UpdateRecipe | src/store/slices/recipeSlice.ts:30-35 | merges into the recipes with the id; nothing else changes |
| RecipeSlice.Slice.RemoveRecipe | src/store/slices/recipeSlice.ts:36-37 | filters the recipes by id and leaves the current recipe as it was |
| RecipeSlice.Slice.SetCurrentRecipe | src/store/slices/recipeSlice.ts:38 | changes only the current recipe |
| RecipeSlice.Slice.SetRawInput | src/store/slices/recipeSlice.ts:39 | stores a plain string or nothing and changes nothing else |
| RecipeSlice.Slice.SetProcessing | src/store/slices/recipeSlice.ts:40 | changes only the processing flag |
| PantryStore.Store.constructor | src/store/pantryStore.ts:19-20 | no items, not loading |
| PantryStore.Store.SetPantryItems | src/store/pantryStore.ts:21 | replaces the items and nothing else |
| PantryStore.Store.AddPantryItem | src/store/pantryStore.ts:22 | appends the item at the end |
| PantryStore.Store.RemovePantryItem | src/store/pantryStore.ts:23-24 | the items become the id-filtered list |
| PantryStore.Store.UpdatePantryItem | src/store/pantryStore.ts:25-28 | the items become the merged list |
| PantryStore.Store.SetPantryLoading | src/store/pantryStore.ts:29 | changes only the loading flag |
| PantryStore.Store.ClearPantry | src/store/pantryStore.ts:30 | empties the items and leaves the loading flag untouched |
| GroceryStore.Store.constructor | src/store/groceryStore.ts:16-17 | no items, not loading |
| GroceryStore.Store.SetGroceryItems | src/store/groceryStore.ts:18 | replaces the items and nothing else |
| GroceryStore.Store.AddGroceryItem | src/store/groceryStore.ts:19 | appends the item at the end |
| GroceryStore.Store.ToggleGroceryItem | src/store/groceryStore.ts:20-25 | flips `checked` on the records with the id only |
| GroceryStore.Store.RemoveGroceryItem | src/store/groceryStore.ts:26-27 | the items become the id-filtered list |
| GroceryStore.Store.UpdateGroceryItem | src/store/groceryStore.ts:28-31 | the items become the merged list |
| GroceryStore.Store.ClearGroceryList | src/store/groceryStore.ts:32 | empties the list |
| GroceryStore.Store.SetGroceryLoading | src/store/groceryStore.ts:33 | changes only the loading flag |
| UserSlice.Slice.constructor | src/store/slices/userSlice.ts:15-17 | no user, not authenticated, loading; `isAuthenticated` agrees with the user |
| UserSlice.Slice.SetUser | src/store/slices/userSlice.ts:18 | stores the user and sets `isAuthenticated` exactly when it is present; the agreement is kept |
| UserSlice.Slice.SetLoading | src/store/slices/userSlice.ts:19 | changes only the loading flag; the agreement is kept |
| UserSlice.Slice.Logout | src/store/slices/userSlice.ts:20 | clears the user and `isAuthenticated` and keeps the loading flag |
| RecipeStore.Store.constructor | src/store/recipeStore.ts:5-7 | nothing staged, not loading, no error |
| RecipeStore.Store.SetRawInput | src/store/recipeStore.ts:8 | stages the input, clears the error, keeps the loading flag |
| RecipeStore.Store.ClearInput | src/store/recipeStore.ts:9 | discards the input and the error and keeps the loading flag; on a cleared store it changes nothing, so a second call equals the first |
| SubscriptionStore.GetEntitlements | src/services/revenuecat.ts:14-22 | the active entitlement map, or the empty map when the SDK call fails |
| SubscriptionStore.FetchFlagsFromActive | src/services/revenuecat.ts:14-22 | a flag derived from getEntitlements is set exactly when the SDK answered and the key is active; the result equals that of an empty answer exactly when the SDK failed or answered an empty map |
| SubscriptionStore.Store.constructor | src/store/subscriptionStore.ts:19-22 | no entitlements, neither flag, loading |
| SubscriptionStore.Store.FetchEntitlements | src/store/subscriptionStore.ts:23-36 | the map getEntitlements yields is stored and `isPlus`/`isPro` come from its "plus"/"pro" keys independently; when the SDK call fails the map is `{}` and both flags are cleared; loading ends and the listeners are kept |
| SubscriptionStore.Store.RestorePurchases | src/store/subscriptionStore.ts:37-45 | a failed restore ends loading with the map and flags kept; otherwise the map and flags come from the fresh fetch |
| SubscriptionStore.Store.OnCustomerInfoUpdate | src/store/subscriptionStore.ts:47-54 | the listener sets the map and both flags from the active entitlements and never touches loading |
| SubscriptionStore.Store.InitializeListener | src/store/subscriptionStore.ts:46-57 | registers the listener, changes no entitlement state, and returns a handle holding the SDK's cleanup value |
| SubscriptionStore.Store.CallHandle | src/store/subscriptionStore.ts:55-56 | calling the handle returns the SDK cleanup value and does not unregister the listener |
| AuthStore.WaitFrom | src/store/authStore.ts:30-54 | from attempt i the loop makes at least one more query while attempts remain and at most `maxRetries` in all; k attempts make k − 1 waits; a profile it returns is the answer of its last query |
| AuthStore.WaitForProfile | src/store/authStore.ts:30-54 | at most `maxRetries` queries and at least one when any are allowed; a returned profile is the answer of the last query |
| AuthStore.GoogleSignInOutcome | src/store/authStore.ts:167-299 | a thrown or failed start or a missing OAuth URL fails the flow; the flow ends quietly exactly when the browser returns anything but a success with a URL; a session is established only after a successful browser return |
| AuthStore.GetOrWaitForProfile | src/store/authStore.ts:30-54 | the retry loop's result is `WaitForProfile` of the query answers |
| AuthStore.WaitForProfileFacts | src/store/authStore.ts:30-54 | at most `maxRetries` queries; the first profile found is returned; an error other than PGRST116 returns no profile at once; exhausting the attempts returns no profile; k attempts make k − 1 waits |
| AuthStore.WaitFromFacts | src/store/authStore.ts:31-50 | the same facts for the loop entered at any attempt after non-decisive answers |
| AuthStore.BrowserAbandonIsQuiet | src/store/authStore.ts:290-293 | a browser result other than a success with a URL (the test at line 204) ends the Google flow without a session and without an error |
| AuthStore.EstablishedSessionSource | src/store/authStore.ts:210-289 | an established Google session comes from the code exchange, the hash-fragment tokens or the existing session |
| AuthStore.Store.constructor | src/store/authStore.ts:67-72 | no user, session or profile; loading; no error; online |
| AuthStore.Store.Establish | src/store/authStore.ts:125-131 | sets session, user and the looked-up profile, and ends loading |
| AuthStore.Store.Initialize | src/store/authStore.ts:75-108 | a gateway error is stored verbatim with the account kept; a stored session is taken with its profile; none clears the account; a throw reports the offline or failure message by `isOnline` |
| AuthStore.Store.PasswordAuth | src/store/authStore.ts:111-165 | the shared shape of sign-in and sign-up |
| AuthStore.Store.SignIn | src/store/authStore.ts:111-136 | an error is stored verbatim and a throw as "Sign in failed", with the account kept; a user sets session, user and profile; an answer with no user leaves loading on and the account unchanged |
| AuthStore.Store.SignUp | src/store/authStore.ts:139-165 | the same with "Sign up failed" |
| AuthStore.Store.SignInWithGoogle | src/store/authStore.ts:167-299 | an established session sets session, user and profile; an abandoned browser flow only ends loading; a failure stores the thrown error's message, or "Google sign-in failed" for a non-Error |
| AuthStore.Store.SignOut | src/store/authStore.ts:302-321 | user, session and profile are cleared only when the gateway reports no error; an error or a throw keeps them |
| AuthStore.Store.RefreshProfile | src/store/authStore.ts:324-330 | without a user nothing changes; otherwise only the profile is replaced |
| AuthStore.Store.RefreshSession | src/store/authStore.ts:333-348 | never touches loading or the profile; a new session replaces session and user; an error or a throw is stored |
| AuthStore.Store.ResetPassword | src/store/authStore.ts:351-365 | never changes user, session or profile; stores the error or the failure message and ends loading |
| AuthStore.Store.SetError | src/store/authStore.ts:368 | changes only the error |
| AuthStore.Store.SetOnlineStatus | src/store/authStore.ts:369 | changes only `isOnline` |
| UsageLimitBanner.Banner | src/components/UsageLimitBanner.tsx:19-24 | the banner shows exactly when `isPlus` is false and the monthly count reaches 5, and then reports that count against 5 |
| UsageLimitBanner.HiddenForPlus | src/components/UsageLimitBanner.tsx:22 | a plus subscriber never sees the banner |
| UsageLimitBanner.HiddenWithoutProfile | src/components/UsageLimitBanner.tsx:19 | without a profile the count is 0 and the banner is hidden |
| UsageLimitBanner.ProDoesNotHide | src/components/UsageLimitBanner.tsx:17-22 | `isPro` has no effect on the banner |
| UsageLimitBanner.LimitIsFreeQuota | src/components/UsageLimitBanner.tsx:20 | the hard-coded limit equals the free tier's monthly allowance |
| RecipeInputScreen.UrlLike | src/screens/RecipeInputScreen/RecipeInputScreen.tsx:64-71 | text that passes the URL test is at least 7 characters long in its prefix view or 8 in its host view |
| RecipeInputScreen.DetectType | src/screens/RecipeInputScreen/RecipeInputScreen.tsx:59-79 | the badge is image exactly when an image is attached, absent exactly when there is no image and the trimmed text is blank, URL only for URL-like lower-cased text and text only otherwise |
| RecipeInputScreen.UrlCandidate | src/screens/RecipeInputScreen/RecipeInputScreen.tsx:171 | the string handed to `new URL` starts with "http" and ends with the trimmed text |
| RecipeInputScreen.ClassifySubmit | src/screens/RecipeInputScreen/RecipeInputScreen.tsx:152-195 | no input exactly when there is no image and the text is blank; an image is staged exactly when attached; an invalid URL only when the candidate does not parse; too short only for 1 to 19 trimmed characters; staged text has at least 20 characters and staged text or URL is the trimmed text |
| RecipeInputScreen.ImageWins | src/screens/RecipeInputScreen/RecipeInputScreen.tsx:155-156 | an attached image gives the image badge (the effect at lines 60-61) and is what submit stages, with its MIME type, whatever the text |
| RecipeInputScreen.BlankIsNoInput | src/screens/RecipeInputScreen/RecipeInputScreen.tsx:157-190 | without an image, submit stages nothing and no badge shows exactly when the trimmed text is empty |
| RecipeInputScreen.StagedTextIsTrimmed | src/screens/RecipeInputScreen/RecipeInputScreen.tsx:157-183 | staged text or URL content is the trimmed text: non-empty, with no whitespace at either end |
| RecipeInputScreen.TextRule | src/screens/RecipeInputScreen/RecipeInputScreen.tsx:178-183 | text that is not URL-like is staged exactly when it has at least 20 characters after trimming, and is otherwise rejected as too short |
| RecipeInputScreen.UrlRule | src/screens/RecipeInputScreen/RecipeInputScreen.tsx:161-176 | URL-like text is staged as a URL exactly when its candidate parses, and is otherwise rejected as invalid |
| RecipeInputScreen.KnownHostLowered | src/screens/RecipeInputScreen/RecipeInputScreen.tsx:63-71 | a host found in the text is still found after lower-casing |
| RecipeInputScreen.SubmitUrlIsDetectedUrl | src/screens/RecipeInputScreen/RecipeInputScreen.tsx:161-168 | every text that submit treats as a URL carries the URL badge of the effect at lines 63-72 |
| RecipeInputScreen.UpperCaseHostMismatch | src/screens/RecipeInputScreen/RecipeInputScreen.tsx:161-168 | "YOUTU.BE" carries the URL badge of the effect at lines 63-71 but submit rejects it as text that is too short |
| RecipeInputScreen.Screen.constructor | src/screens/RecipeInputScreen/RecipeInputScreen.tsx:30-33 | empty text, no image, no MIME type, no badge |
| RecipeInputScreen.Screen.RunDetectEffect | src/screens/RecipeInputScreen/RecipeInputScreen.tsx:59-79 | the badge becomes the detected type of the current text and image |
| RecipeInputScreen.Screen.HandleSubmit | src/screens/RecipeInputScreen/RecipeInputScreen.tsx:152-195 | the outcome is the submit classification; the store input is set once, only for a staged outcome, and the store is untouched otherwise |
| RecipeInputScreen.Screen.HandleChangeText | src/screens/RecipeInputScreen/RecipeInputScreen.tsx:349-352 | the text is replaced; non-empty text drops the image but keeps its MIME type |
| RecipeInputScreen.Screen.HandlePickedImage | src/screens/RecipeInputScreen/RecipeInputScreen.tsx:96-141 | an accepted image sets URI and MIME type and clears the text; a failure, a cancel or a file over 10·1024·1024 bytes changes nothing |
| RecipeInputScreen.Screen.HandlePaste | src/screens/RecipeInputScreen/RecipeInputScreen.tsx:82-93 | non-empty clipboard text replaces the text and drops image and MIME type; otherwise nothing changes |
| RecipeInputScreen.Screen.HandleClear | src/screens/RecipeInputScreen/RecipeInputScreen.tsx:144-149 | empties text, image and MIME type and clears the store's input and error |
| AuthScreen.Screen.constructor | src/screens/AuthScreen.tsx:25-38 | empty form, sign-in mode, no messages, no loading flag |
| AuthScreen.Screen.SetEmail | src/screens/AuthScreen.tsx:25 | changes only the e-mail |
| AuthScreen.Screen.SetPassword | src/screens/AuthScreen.tsx:26 | changes only the password |
| AuthScreen.Screen.SetMode | src/screens/AuthScreen.tsx:28 | changes only the mode until the effect runs |
| AuthScreen.Screen.RunModeEffect | src/screens/AuthScreen.tsx:47-51 | on the first render and after a mode change it clears the store error, the e-mail error and the success message; otherwise it changes nothing |
| AuthScreen.Screen.HandleEmailBlur | src/screens/AuthScreen.tsx:54-60 | sets the e-mail error exactly for a non-empty invalid address and clears it otherwise |
| AuthScreen.Screen.HandleSignIn | src/screens/AuthScreen.tsx:70-78 | an invalid address sets the e-mail error and calls no store action; otherwise the store signs in once with `signInLoading` set during the call, and no flag is left set |
| AuthScreen.Screen.HandleSignUp | src/screens/AuthScreen.tsx:81-93 | only the address is checked locally; after the store call the confirm-email message is set exactly when the store's user exists without a confirmation date |
| AuthScreen.Screen.HandleGoogleSignIn | src/screens/AuthScreen.tsx:96-100 | no local check; the store runs the Google flow once with `googleLoading` set during the call |
| AuthScreen.Screen.HandleResetPassword | src/screens/AuthScreen.tsx:103-113 | an invalid address calls nothing; otherwise, after the store call, the success message is set and the mode becomes sign-in, whatever error the store reported |
| AuthScreen.ResetThenRender | src/screens/AuthScreen.tsx:103-113 | a reset from forgot-password mode followed by the next render's mode effect (lines 47-51) leaves no success message |

## Left out

- Rendering, styles, navigation, alerts and the screens not listed above carry no
  decision beyond display. Alerts become the outcome values of submit.
- Supabase, RevenueCat, the image picker, the clipboard, the web browser and
  AsyncStorage persistence are outside calls. Their results are parameters. The
  `persist` middleware is not modelled.
- `new URL` and `URLSearchParams` are not modelled. Whether the submit candidate
  parses is a parameter (`urlParses`). The Google callback's `code` parameter, or the
  throw of its parse, and the `access_token` of its hash fragment are fields of
  `GoogleFlow`.
- The 300 ms backoff of the profile retry loop is a count of waits, not a delay.
  `debounce`, `generateId` and `formatDate` (timers, randomness, locale) are not
  modelled. `getOfflineStatus` reads the browser's `navigator` and is not modelled.
- Theme stores hold a single field assignment and are not modelled. The declared
  `history`, `draft`, `needsUpgrade`, `addToHistory` and `parseCurrentInput` of the recipe
  state have no implementation in the store, so they are not modelled.
- Overlapping asynchronous calls are not modelled. Each awaited call completes before the
  next step, so two handlers never race on `loading`.
- AuthStore.GetOrWaitForProfile: a profile query that throws (rather than answering with
  an error) is not modelled. In the source, the caller's `catch` would then report its
  failure message.
- AuthStore.Store.SignInWithGoogle: a failure of the dynamic imports of the browser
  modules is not modelled.
- Utils.StringSimilarity: `Math.round` of the floating-point quotient is modelled as exact
  rational rounding half up. A float that lands just below a half is not modelled.
- SubscriptionStore.Store.FetchEntitlements: the `catch` at src/store/subscriptionStore.ts:33-35
  cannot be reached, because getEntitlements (src/services/revenuecat.ts:14-22) catches every
  SDK error and resolves to `{}`; the model therefore has no rejected fetch.
- Utils.Clamp: modelled over integers. NaN and infinities are not covered.
- Utils.NormalizeUnit: the map is a finite 13-entry table. Keys that hit inherited object
  properties (such as "constructor") are not modelled.
- AuthUtils.ValidateEmail: `\s` is modelled on ASCII whitespace only.
- UsageLimitBanner.Banner: the count is the profile's integer; a missing field of a
  present profile is not modelled, because the profile record always carries one.
- RecipeInputScreen.Screen.HandlePickedImage: an asset list without a first element is
  treated as a cancel.
