/**
 * The user slice of the mobile app's store (Mobile/store/userSlice.ts): the
 * state record, its initial value, the actions that reach the slice's
 * reducer, the reducer itself, and what each of the three asynchronous
 * operations hands to the reducer once its remote call has settled.
 *
 * The remote calls and the persistent storage are not modelled; their
 * results enter as parameters (an `ApiOutcome`, a stored token).
 */
module UserSlice {
  import opened Wrappers

  /** A product on the user's wishlist. Nothing in the slice computes on its
      fields, so only its identity and title are kept. */
  datatype WishlistItem = WishlistItem(id: string, title: string)

  /** An entry of the order history returned by the server; opaque here. */
  datatype OrderRecord = OrderRecord(id: string)

  /** The authenticated user's profile. The slice reads only `wishlist`. */
  datatype UserData = UserData(
    id: string,
    firstname: string,
    lastname: string,
    email: string,
    mobile: string,
    password: string,
    role: string,
    isBlocked: bool,
    wishlist: seq<WishlistItem>,
    refreshToken: string)

  /** The slice's state: `userData` and `error` may be null. */
  datatype UserState = UserState(
    userData: Option<UserData>,
    wishlist: seq<WishlistItem>,
    loading: bool,
    error: Option<string>)

  /** Every action that can reach the slice's reducer. */
  datatype Action =
    | SetUserData(user: UserData)
    | FetchWishlistPending
    | FetchWishlistFulfilled(items: seq<WishlistItem>)
    | FetchWishlistRejected(payload: Option<string>)
    | UpdateProfilePending
    | UpdateProfileFulfilled(token: string, updated: UserData)
    | UpdateProfileRejected(message: string)
    | FetchOrderHistoryPending
    | FetchOrderHistoryFulfilled(orders: seq<OrderRecord>)
    | FetchOrderHistoryRejected(message: string)
    | Unrelated(actionType: string)  // an action of another slice
  {
    /** The three lifecycle actions of the wishlist fetch, the only
        asynchronous operation with cases in the reducer. */
    predicate IsWishlistPhase() {
      FetchWishlistPending? || FetchWishlistFulfilled? || FetchWishlistRejected?
    }

    /** Actions for which the reducer registers a case. */
    predicate IsHandled() {
      SetUserData? || IsWishlistPhase()
    }
  }

  /** How a remote call settled: the response's `data`, or the message
      found at `error.response.data.message`, if there was one. */
  datatype ApiOutcome<T> = Responded(data: T) | Failed(message: Option<string>)

  /** How the profile update's storage steps went, once its remote call has
      responded: reading the token and writing the profile both succeeded
      (with the token read, which may be absent), or one of them threw. An
      error thrown by the storage normally has no `response`, so its message
      is usually absent. */
  datatype StorageOutcome = Stored(token: Option<string>) | StorageFailed(message: Option<string>)

  const UpdateFailed: string := "Update failed"
  const OrderHistoryFailed: string := "Failed to fetch order history"
  const WishlistFailed: string := "Failed to fetch wishlist"

  const Initial: UserState := UserState(None, [], false, None)

  /** JavaScript's `value || fallback` where `value` is a string that may be
      absent: the value when it is present and non-empty (an empty string is
      falsy), the fallback otherwise. */
  function OrElse(value: Option<string>, fallback: string): (r: string)
    ensures r == fallback || (value.Some? && r == value.value)
    ensures r == fallback <== value.None? || value.value == ""
    ensures r == value.value <== value.Some? && value.value != ""
    ensures fallback != "" ==> r != ""
  {
    match value
    case Some(s) => if s != "" then s else fallback
    case None => fallback
  }

  /** The reducer: one transition of the slice's state. Only `setUserData`
      and the three wishlist-fetch phases have cases; every other action,
      including the lifecycles of the profile update and the order-history
      fetch, leaves the state as it was. */
  function Reduce(s: UserState, a: Action): (r: UserState)
    ensures !a.IsHandled() ==> r == s
    ensures r.userData != s.userData ==> a.SetUserData?
    ensures r.loading != s.loading ==> a.IsWishlistPhase()
    ensures r.wishlist != s.wishlist ==> a.SetUserData? || a.FetchWishlistFulfilled?
    ensures r.error != s.error ==> a.FetchWishlistPending? || a.FetchWishlistRejected?
    ensures a.FetchWishlistRejected? ==> r.error.Some? && r.error.value != ""
  {
    match a
    case SetUserData(u) => s.(userData := Some(u), wishlist := u.wishlist)
    case FetchWishlistPending => s.(loading := true, error := None)
    case FetchWishlistFulfilled(items) => s.(wishlist := items, loading := false)
    case FetchWishlistRejected(p) => s.(loading := false, error := Some(OrElse(p, WishlistFailed)))
    case _ => s
  }

  /** The action with which `updateProfile` settles. Its `try` block holds
      the remote call and then the two storage steps, so it is fulfilled
      only when all of them succeed: the action then carries the stored
      token (an absent or empty one becomes "") and the profile the server
      returned. Any failure, of the call or of a storage step, is caught and
      rejects with the normalised message. `storage` is not consulted when
      the remote call failed, since the storage steps then never run. */
  function UpdateProfileSettled(outcome: ApiOutcome<UserData>, storage: StorageOutcome): (a: Action)
    ensures a.UpdateProfileFulfilled? <==> outcome.Responded? && storage.Stored?
    ensures a.UpdateProfileFulfilled? || a.UpdateProfileRejected?
    ensures a.UpdateProfileFulfilled? ==> a.updated == outcome.data && a.token == OrElse(storage.token, "")
    ensures outcome.Failed? ==> a.message == OrElse(outcome.message, UpdateFailed)
    ensures outcome.Responded? && storage.StorageFailed? ==> a.message == OrElse(storage.message, UpdateFailed)
    ensures a.UpdateProfileRejected? ==> a.message != ""
  {
    match outcome
    case Failed(m) => UpdateProfileRejected(OrElse(m, UpdateFailed))
    case Responded(user) =>
      match storage
      case Stored(token) => UpdateProfileFulfilled(OrElse(token, ""), user)
      case StorageFailed(m) => UpdateProfileRejected(OrElse(m, UpdateFailed))
  }

  /** The action with which `fetchOrderHistory` settles: the response's data
      verbatim, or the normalised message. */
  function OrderHistorySettled(outcome: ApiOutcome<seq<OrderRecord>>): (a: Action)
    ensures a.FetchOrderHistoryFulfilled? <==> outcome.Responded?
    ensures a.FetchOrderHistoryFulfilled? || a.FetchOrderHistoryRejected?
    ensures outcome.Responded? ==> a.orders == outcome.data
    ensures outcome.Failed? ==> a.message == OrElse(outcome.message, OrderHistoryFailed) && a.message != ""
  {
    match outcome
    case Responded(orders) => FetchOrderHistoryFulfilled(orders)
    case Failed(m) => FetchOrderHistoryRejected(OrElse(m, OrderHistoryFailed))
  }

  /** The action with which `fetchUserWishlist` settles: the wishlist of the
      user object in the response, or the normalised message as the
      rejection's payload. */
  function WishlistSettled(outcome: ApiOutcome<UserData>): (a: Action)
    ensures a.FetchWishlistFulfilled? <==> outcome.Responded?
    ensures a.FetchWishlistFulfilled? || a.FetchWishlistRejected?
    ensures outcome.Responded? ==> a.items == outcome.data.wishlist
    ensures outcome.Failed? ==> a.payload == Some(OrElse(outcome.message, WishlistFailed))
    ensures outcome.Failed? ==> a.payload.value != ""
  {
    match outcome
    case Responded(user) => FetchWishlistFulfilled(user.wishlist)
    case Failed(m) => FetchWishlistRejected(Some(OrElse(m, WishlistFailed)))
  }

  /** The reducer's own `payload || 'Failed to fetch wishlist'` never
      replaces a message the thunks normalised: normalising twice is
      normalising once. */
  lemma OrElseIdempotent(value: Option<string>, fallback: string, other: string)
    requires fallback != ""
    ensures OrElse(Some(OrElse(value, fallback)), other) == OrElse(value, fallback)
  {
  }

  /** `setUserData` twice with the same profile is `setUserData` once. */
  lemma SetUserDataIdempotent(s: UserState, u: UserData)
    ensures Reduce(Reduce(s, SetUserData(u)), SetUserData(u)) == Reduce(s, SetUserData(u))
  {
  }

  /** A wishlist fetch that settles before any other wishlist-fetch phase:
      on success the state holds the user's wishlist, is not loading and has
      no error; on failure it keeps its wishlist and holds the server's
      message (or the fixed one) as the error. `userData` is kept either way. */
  lemma WishlistFetchCycle(s: UserState, outcome: ApiOutcome<UserData>)
    ensures var r := Reduce(Reduce(s, FetchWishlistPending), WishlistSettled(outcome));
      && !r.loading
      && r.userData == s.userData
      && (outcome.Responded? ==> r.wishlist == outcome.data.wishlist && r.error == None)
      && (outcome.Failed? ==> r.wishlist == s.wishlist && r.error == Some(OrElse(outcome.message, WishlistFailed)))
  {
  }

  /** The profile update's lifecycle has no cases in the reducer: its pending
      and settled actions leave the state as it was, including `loading`. */
  lemma UpdateProfileCycleKeepsState(s: UserState, outcome: ApiOutcome<UserData>, storage: StorageOutcome)
    ensures Reduce(Reduce(s, UpdateProfilePending), UpdateProfileSettled(outcome, storage)) == s
  {
  }

  /** Likewise for the order-history fetch: its data never reaches this slice. */
  lemma OrderHistoryCycleKeepsState(s: UserState, outcome: ApiOutcome<seq<OrderRecord>>)
    ensures Reduce(Reduce(s, FetchOrderHistoryPending), OrderHistorySettled(outcome)) == s
  {
  }

  /** Two overlapping wishlist fetches, the first rejected and the second
      fulfilled afterwards: the fulfilled phase does not clear the first
      fetch's error, so the state shows the new wishlist beside a stale error. */
  lemma StaleErrorSurvivesOverlappingFetch(s: UserState, payload: Option<string>, items: seq<WishlistItem>)
    ensures var r := Reduce(Reduce(Reduce(Reduce(s, FetchWishlistPending), FetchWishlistPending),
                                   FetchWishlistRejected(payload)), FetchWishlistFulfilled(items));
      && r.wishlist == items && !r.loading
      && r.error == Some(OrElse(payload, WishlistFailed)) && r.error.value != ""
  {
  }

  /** The slice's state as the store holds it: a record whose four fields
      the case reducers assign in place. */
  class UserStore {
    var userData: Option<UserData>
    var wishlist: seq<WishlistItem>
    var loading: bool
    var error: Option<string>

    /** The record the fields currently hold. */
    function State(): UserState
      reads this
    {
      UserState(userData, wishlist, loading, error)
    }

    /** The store starts from the slice's initial state. */
    constructor ()
      ensures userData == None && wishlist == [] && !loading && error == None
      ensures State() == Initial
    {
      userData := None;
      wishlist := [];
      loading := false;
      error := None;
    }

    /** `setUserData`: the profile and its embedded wishlist replace the
        current ones; `loading` and `error` are untouched. */
    method SetUserData(u: UserData)
      modifies this
      ensures userData == Some(u) && wishlist == u.wishlist
      ensures loading == old(loading) && error == old(error)
    {
      userData := Some(u);
      wishlist := u.wishlist;
    }

    /** The pending phase of the wishlist fetch. */
    method FetchWishlistPending()
      modifies this
      ensures loading && error == None
      ensures userData == old(userData) && wishlist == old(wishlist)
    {
      loading := true;
      error := None;
    }

    /** The fulfilled phase: the payload replaces the wishlist wholesale;
        `error` is not cleared. */
    method FetchWishlistFulfilled(items: seq<WishlistItem>)
      modifies this
      ensures wishlist == items && !loading
      ensures userData == old(userData) && error == old(error)
    {
      wishlist := items;
      loading := false;
    }

    /** The rejected phase: `error` becomes the payload, or the fixed
        message when the payload is absent or empty. */
    method FetchWishlistRejected(payload: Option<string>)
      modifies this
      ensures !loading
      ensures error == Some(OrElse(payload, WishlistFailed))
      ensures error.value != ""
      ensures payload.Some? && payload.value != "" ==> error == payload
      ensures userData == old(userData) && wishlist == old(wishlist)
    {
      loading := false;
      error := Some(OrElse(payload, WishlistFailed));
    }

    /** The slice's reducer applied to this store: the case registered for
        the action runs; any other action changes nothing. */
    method Dispatch(a: Action)
      modifies this
      ensures State() == Reduce(old(State()), a)
      ensures !a.IsHandled() ==> unchanged(this)
    {
      match a
      case SetUserData(u) => SetUserData(u);
      case FetchWishlistPending => FetchWishlistPending();
      case FetchWishlistFulfilled(items) => FetchWishlistFulfilled(items);
      case FetchWishlistRejected(p) => FetchWishlistRejected(p);
      case _ =>
    }
  }
}
