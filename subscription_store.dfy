/**
 * src/store/subscriptionStore.ts: the active entitlements and the isPlus / isPro flags
 * derived from them. The purchases SDK is a parameter: each awaited call is given as its
 * outcome. getEntitlements of src/services/revenuecat.ts is modelled by `GetEntitlements`.
 */
module SubscriptionStore {
  import opened Wrappers

  /** An entry of `customerInfo.entitlements.active`. Every entry is an object, so the
      source's `!!ents[key]` holds exactly when the key is present. */
  datatype EntitlementInfo = EntitlementInfo(identifier: string, productIdentifier: string)

  type ActiveEntitlements = map<string, EntitlementInfo>

  /** The outcome of `Purchases.getCustomerInfo()`. */
  datatype CustomerInfoCall = CustomerInfo(active: ActiveEntitlements) | CustomerInfoFailed

  /** getEntitlements: the active map, or `{}` when the SDK call fails. */
  function GetEntitlements(call: CustomerInfoCall): (ents: ActiveEntitlements)
    ensures call.CustomerInfo? ==> ents == call.active
    ensures call.CustomerInfoFailed? ==> ents == map[]
  {
    match call
    case CustomerInfo(active) => active
    case CustomerInfoFailed => map[]
  }

  /** How an awaited promise settles. */
  datatype Settled<T> = Resolved(value: T) | Rejected

  function HasEntitlement(ents: ActiveEntitlements, key: string): bool {
    key in ents
  }

  /** The cleanup the SDK hands back when a listener is registered. */
  datatype Cleanup = Cleanup(listenerId: nat)

  /** The function initializeListener returns: calling it yields `cleanup` without calling it. */
  datatype ListenerHandle = ReturnsCleanup(cleanup: Cleanup)

  class Store {
    var entitlements: Option<ActiveEntitlements>
    var isPlus: bool
    var isPro: bool
    var loading: bool
    /** The listeners the SDK holds for this store. */
    var listeners: set<nat>

    constructor()
      ensures entitlements == None && !isPlus && !isPro && loading && listeners == {}
    {
      entitlements, isPlus, isPro, loading, listeners := None, false, false, true, {};
    }

    /** fetchEntitlements: the flags come from what getEntitlements yields, each on its own.
        getEntitlements never rejects (a failing SDK call yields `{}`), so the source's catch
        branch cannot be reached and a failed SDK call clears both flags. */
    method FetchEntitlements(call: CustomerInfoCall)
      modifies this
      ensures !loading && listeners == old(listeners)
      ensures entitlements == Some(GetEntitlements(call))
      ensures isPlus == HasEntitlement(GetEntitlements(call), "plus")
      ensures isPro == HasEntitlement(GetEntitlements(call), "pro")
      ensures call.CustomerInfo? ==>
                entitlements == Some(call.active) &&
                isPlus == ("plus" in call.active) && isPro == ("pro" in call.active)
      ensures call.CustomerInfoFailed? ==> entitlements == Some(map[]) && !isPlus && !isPro
    {
      loading := true;
      var ents := GetEntitlements(call);
      entitlements, isPlus, isPro, loading :=
        Some(ents), HasEntitlement(ents, "plus"), HasEntitlement(ents, "pro"), false;
    }

    /** restorePurchases: a failed restore only clears `loading`; otherwise the flags come from
        a fresh fetch. */
    method RestorePurchases(restore: Settled<()>, call: CustomerInfoCall)
      modifies this
      ensures !loading && listeners == old(listeners)
      ensures restore.Rejected? ==>
                entitlements == old(entitlements) && isPlus == old(isPlus) && isPro == old(isPro)
      ensures restore.Resolved? ==>
                entitlements == Some(GetEntitlements(call)) &&
                isPlus == HasEntitlement(GetEntitlements(call), "plus") &&
                isPro == HasEntitlement(GetEntitlements(call), "pro")
    {
      loading := true;
      if restore.Rejected? {
        loading := false;
      } else {
        FetchEntitlements(call);
      }
    }

    /** The listener closure: applies pushed entitlements and never touches `loading`. */
    method OnCustomerInfoUpdate(active: ActiveEntitlements)
      modifies this
      ensures entitlements == Some(active)
      ensures isPlus == HasEntitlement(active, "plus") && isPro == HasEntitlement(active, "pro")
      ensures loading == old(loading) && listeners == old(listeners)
    {
      entitlements, isPlus, isPro := Some(active), HasEntitlement(active, "plus"), HasEntitlement(active, "pro");
    }

    /** initializeListener: registers the listener with the SDK and returns a handle. */
    method InitializeListener(sdkCleanup: Cleanup) returns (handle: ListenerHandle)
      modifies this
      ensures listeners == old(listeners) + {sdkCleanup.listenerId}
      ensures handle == ReturnsCleanup(sdkCleanup)
      ensures entitlements == old(entitlements) && isPlus == old(isPlus) && isPro == old(isPro)
      ensures loading == old(loading)
    {
      listeners := listeners + {sdkCleanup.listenerId};
      handle := ReturnsCleanup(sdkCleanup);
    }

    /** Calling the handle: it returns the SDK's cleanup instead of invoking it, so the
        listener stays registered. The method has no `modifies` clause, so its frame alone
        is what guarantees that `listeners` is unchanged. */
    method CallHandle(handle: ListenerHandle) returns (result: Cleanup)
      ensures result == handle.cleanup && listeners == old(listeners)
    {
      result := handle.cleanup;
    }
  }

  /** The flags a fetch leaves depend on the SDK's answer only through its active map: a failed
      SDK call and an empty active map give the same flags, and the flags are set exactly
      when the matching key is active. */
  lemma FetchFlagsFromActive(call: CustomerInfoCall, key: string)
    ensures HasEntitlement(GetEntitlements(call), key) <==>
            (call.CustomerInfo? && key in call.active)
    ensures GetEntitlements(call) == GetEntitlements(CustomerInfo(map[])) <==>
            (call.CustomerInfoFailed? || call.active == map[])
  {
  }
}
