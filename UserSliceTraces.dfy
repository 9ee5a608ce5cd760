/**
 * Properties of the user slice over whole sequences of dispatched actions.
 * The store applies the reducer to each action in turn; for each field of
 * the state, the value after a trace is the one written by the last action
 * that writes that field, or the starting value when none does. This is
 * the "last resolved wins" behaviour of overlapping wishlist fetches: there
 * is no request identifier, so only the order of arrival counts.
 */
module UserSliceTraces {
  import opened Wrappers
  import opened UserSlice

  /** The state after dispatching `trace` to a store holding `s`. */
  function ReduceAll(s: UserState, trace: seq<Action>): (r: UserState)
  {
    if trace == [] then s else Reduce(ReduceAll(s, trace[..|trace| - 1]), trace[|trace| - 1])
  }

  /** The value that the last action of `trace` for which `write` gives one
      writes, or None when no action of `trace` writes. */
  function LastWrite<T>(trace: seq<Action>, write: Action -> Option<T>): (w: Option<T>)
  {
    if trace == [] then None
    else if write(trace[|trace| - 1]).Some? then write(trace[|trace| - 1])
    else LastWrite(trace[..|trace| - 1], write)
  }

  // Which actions write which field, and what they write, read off the
  // reducer's cases: an independent table that the lemmas below check the
  // reducer against. `Some(v)` means "writes v", `None` "leaves the field".

  function UserDataWrite(a: Action): (w: Option<Option<UserData>>)
  {
    if a.SetUserData? then Some(Some(a.user)) else None
  }

  function WishlistWrite(a: Action): (w: Option<seq<WishlistItem>>)
  {
    match a
    case SetUserData(u) => Some(u.wishlist)
    case FetchWishlistFulfilled(items) => Some(items)
    case _ => None
  }

  function LoadingWrite(a: Action): (w: Option<bool>)
  {
    match a
    case FetchWishlistPending => Some(true)
    case FetchWishlistFulfilled(_) => Some(false)
    case FetchWishlistRejected(_) => Some(false)
    case _ => None
  }

  function ErrorWrite(a: Action): (w: Option<Option<string>>)
  {
    match a
    case FetchWishlistPending => Some(None)
    case FetchWishlistRejected(p) => Some(Some(OrElse(p, WishlistFailed)))
    case _ => None
  }

  /** The value written, or `x` when nothing was written. */
  function Written<T>(w: Option<T>, x: T): (v: T)
  {
    if w.Some? then w.value else x
  }

  /** After a trace, `userData` is the profile of the last `setUserData`, or
      the starting one: no other action, not even a successful profile
      update, writes it. */
  lemma {:induction false} UserDataIsLastSet(s: UserState, trace: seq<Action>)
    ensures ReduceAll(s, trace).userData == Written(LastWrite(trace, UserDataWrite), s.userData)
  {
    if trace != [] {
      UserDataIsLastSet(s, trace[..|trace| - 1]);
    }
  }

  /** After a trace, `wishlist` is whatever the last `setUserData` or the
      last fulfilled wishlist fetch wrote, whichever came later. */
  lemma {:induction false} WishlistIsLastWrite(s: UserState, trace: seq<Action>)
    ensures ReduceAll(s, trace).wishlist == Written(LastWrite(trace, WishlistWrite), s.wishlist)
  {
    if trace != [] {
      WishlistIsLastWrite(s, trace[..|trace| - 1]);
    }
  }

  /** After a trace, `loading` is set by the last wishlist-fetch phase. */
  lemma {:induction false} LoadingIsLastWrite(s: UserState, trace: seq<Action>)
    ensures ReduceAll(s, trace).loading == Written(LastWrite(trace, LoadingWrite), s.loading)
  {
    if trace != [] {
      LoadingIsLastWrite(s, trace[..|trace| - 1]);
    }
  }

  /** After a trace, `error` is set by the last pending or rejected phase of
      the wishlist fetch. */
  lemma {:induction false} ErrorIsLastWrite(s: UserState, trace: seq<Action>)
    ensures ReduceAll(s, trace).error == Written(LastWrite(trace, ErrorWrite), s.error)
  {
    if trace != [] {
      ErrorIsLastWrite(s, trace[..|trace| - 1]);
    }
  }

  /** Dispatching `t1` and then `t2` is dispatching their concatenation. */
  lemma {:induction false} ReduceAllAppend(s: UserState, t1: seq<Action>, t2: seq<Action>)
    ensures ReduceAll(s, t1 + t2) == ReduceAll(ReduceAll(s, t1), t2)
  {
    if t2 == [] {
      assert t1 + t2 == t1;
    } else {
      assert (t1 + t2)[..|t1 + t2| - 1] == t1 + t2[..|t2| - 1];
      ReduceAllAppend(s, t1, t2[..|t2| - 1]);
    }
  }

  /** Actions other than the wishlist-fetch phases never touch `loading` or
      `error`: the profile update and the order-history fetch do not track
      their progress in this slice. */
  lemma {:induction false} NoFetchPhaseKeepsStatus(s: UserState, trace: seq<Action>)
    requires forall i :: 0 <= i < |trace| ==> !trace[i].IsWishlistPhase()
    ensures ReduceAll(s, trace).loading == s.loading
    ensures ReduceAll(s, trace).error == s.error
  {
    if trace != [] {
      NoFetchPhaseKeepsStatus(s, trace[..|trace| - 1]);
    }
  }

  /** `error` holds null or a non-empty message. */
  predicate ErrorWellFormed(s: UserState)
  {
    s.error.None? || s.error.value != ""
  }

  /** From the initial state, the store is loading exactly when the last
      wishlist-fetch phase dispatched was the pending one. This is not "while
      a fetch is outstanding": with overlapping fetches (pending, pending,
      fulfilled) one fetch is still outstanding but `loading` is false. */
  lemma {:induction false} LoadingIffLastPhasePending(trace: seq<Action>)
    ensures ReduceAll(Initial, trace).loading <==> LastWrite(trace, LoadingWrite) == Some(true)
  {
    LoadingIsLastWrite(Initial, trace);
  }

  /** No trace can leave an empty message in `error`. */
  lemma {:induction false} ErrorStaysWellFormed(s: UserState, trace: seq<Action>)
    requires ErrorWellFormed(s)
    ensures ErrorWellFormed(ReduceAll(s, trace))
  {
    if trace != [] {
      ErrorStaysWellFormed(s, trace[..|trace| - 1]);
    }
  }

  /** Once the wishlist fetch is rejected, `error` holds the normalised
      message and `loading` is false until the next wishlist-fetch phase,
      whatever else is dispatched meanwhile. */
  lemma RejectionPersistsUntilNextFetchPhase(s: UserState, before: seq<Action>, payload: Option<string>, after: seq<Action>)
    requires forall i :: 0 <= i < |after| ==> !after[i].IsWishlistPhase()
    ensures var r := ReduceAll(s, before + [FetchWishlistRejected(payload)] + after);
      !r.loading && r.error == Some(OrElse(payload, WishlistFailed)) && r.error.value != ""
  {
    ReduceAllAppend(s, before + [FetchWishlistRejected(payload)], after);
    NoFetchPhaseKeepsStatus(ReduceAll(s, before + [FetchWishlistRejected(payload)]), after);
  }
}
