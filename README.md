# User slice of the mobile store, modelled in Dafny

This project models the user slice of the mobile shopping app's state store
(`Mobile/store/userSlice.ts`). The slice holds four fields: the signed-in user's
profile (`userData`), the wishlist, a `loading` flag and an `error` message.
Its reducer reacts to five kinds of input:

- the synchronous `setUserData` action;
- the pending, fulfilled and rejected phases of the wishlist fetch;
- every other action, which leaves the state unchanged.

"Every other action" includes the lifecycles of the profile update and of the
order-history fetch. The three asynchronous operations (thunks) turn a failed
remote call into a message with JavaScript's `message || fallback`.

Files:

- `Wrappers.dfy`: `Option`, used for the source's `string | null`.
- `UserSlice.dfy` has the following parts:
  - the entities and the `Action` datatype;
  - the normalisation `OrElse`;
  - the reducer `Reduce`, written as a pure transition;
  - the actions each thunk settles with (`UpdateProfileSettled`, `OrderHistorySettled`, `WishlistSettled`);
  - lemmas about whole fetch lifecycles;
  - the class `UserStore`. Its methods assign the four fields in place, as the source's case reducers assign the Immer draft. `Dispatch` is proved equal to `Reduce`.
- `UserSliceTraces.dfy`: the state after any sequence of dispatched actions (`ReduceAll`). For each field, it proves that the value is the one written by the last action that writes that field. This is the source's "last resolved wins" behaviour when wishlist fetches overlap.

The remote calls and `AsyncStorage` are not modelled. They enter as parameters: an `ApiOutcome` (the response's data, or the optional message at `error.response.data.message`), and, for the profile update, a `StorageOutcome` (the stored token, or the failure of a storage step).

## Model

| member | source | states |
|---|---|---|
| `UserSlice.OrElse` | Mobile/store/userSlice.ts:100-132 | `m \|\| fallback` on an optional string: the message when it is present and non-empty, otherwise the fallback. The result is never empty when the fallback is not. |
| `UserSlice.OrElseIdempotent` | Mobile/store/userSlice.ts:162 | The reducer's second `payload \|\| 'Failed to fetch wishlist'` never changes a message the thunk has already normalised. |
| `UserSlice.Reduce` | Mobile/store/userSlice.ts:140-164 | Actions without a case leave the state unchanged. Only `setUserData` changes `userData`. Only the wishlist phases change `loading`. Only `setUserData` and the fulfilled phase change `wishlist`. Only the pending and rejected phases change `error`. After a rejection, `error` is a non-empty string. |
| `UserSlice.UpdateProfileSettled` | Mobile/store/userSlice.ts:92-108 | The action is fulfilled exactly when the remote call and both storage steps succeed. It then carries the returned profile and the stored token, or "" when the token is absent or empty. If the call fails, or a storage step fails after it, the action is rejected with the error's message, or "Update failed". That message is never empty. |
| `UserSlice.OrderHistorySettled` | Mobile/store/userSlice.ts:111-121 | On success, the fulfilled action carries the response data unchanged. On failure, the rejected action carries the server's message, or "Failed to fetch order history". That message is never empty. |
| `UserSlice.WishlistSettled` | Mobile/store/userSlice.ts:124-135 | On success, the fulfilled action carries the wishlist of the returned user. On failure, the rejected action's payload is the server's message, or "Failed to fetch wishlist". That payload is never empty. |
| `UserSlice.SetUserDataIdempotent` | Mobile/store/userSlice.ts:142-145 | Dispatching `setUserData(u)` twice gives the same state as dispatching it once. |
| `UserSlice.WishlistFetchCycle` | Mobile/store/userSlice.ts:150-163 | A fetch made of pending and then settled ends with `loading` false and `userData` kept. On success, the wishlist is the user's wishlist and there is no error. On failure, the wishlist is kept and the error is the normalised message. |
| `UserSlice.UpdateProfileCycleKeepsState` | Mobile/store/userSlice.ts:147-164 | The profile update's pending and settled actions leave the whole state unchanged, `loading` included. |
| `UserSlice.OrderHistoryCycleKeepsState` | Mobile/store/userSlice.ts:147-164 | The order-history fetch's pending and settled actions leave the whole state unchanged. |
| `UserSlice.StaleErrorSurvivesOverlappingFetch` | Mobile/store/userSlice.ts:155-163 | If one fetch is rejected and an overlapping fetch is fulfilled later, the new wishlist sits beside the first fetch's error. The fulfilled phase does not clear `error`. |
| `UserSlice.UserStore.constructor` | Mobile/store/userSlice.ts:84-89 | The initial state: no user, an empty wishlist, not loading, no error. |
| `UserSlice.UserStore.SetUserData` | Mobile/store/userSlice.ts:142-145 | `userData := u` and `wishlist := u.wishlist`. `loading` and `error` are unchanged. |
| `UserSlice.UserStore.FetchWishlistPending` | Mobile/store/userSlice.ts:150-153 | `loading` becomes true and `error` becomes null, whatever the state was before. `userData` and `wishlist` are unchanged. |
| `UserSlice.UserStore.FetchWishlistFulfilled` | Mobile/store/userSlice.ts:155-158 | The payload replaces `wishlist` whole and `loading` becomes false. `error` and `userData` are unchanged. |
| `UserSlice.UserStore.FetchWishlistRejected` | Mobile/store/userSlice.ts:160-163 | `loading` becomes false. `error` becomes the payload if it is present and non-empty, otherwise "Failed to fetch wishlist", so it is never empty. `wishlist` and `userData` are unchanged. |
| `UserSlice.UserStore.Dispatch` | Mobile/store/userSlice.ts:137-165 | Applying an action to the store has the effect `Reduce` gives it. Actions without a case change nothing. |
| `UserSliceTraces.UserDataIsLastSet` | Mobile/store/userSlice.ts:142-145 | After any trace, `userData` is the profile of the last `setUserData`, or the starting value when the trace has none. |
| `UserSliceTraces.WishlistIsLastWrite` | Mobile/store/userSlice.ts:142-158 | After any trace, `wishlist` is what the later of the last `setUserData` and the last fulfilled fetch wrote. The last one to arrive wins. |
| `UserSliceTraces.LoadingIsLastWrite` | Mobile/store/userSlice.ts:150-163 | After any trace, `loading` was set by the last wishlist-fetch phase: true for pending, false for fulfilled or rejected. |
| `UserSliceTraces.ErrorIsLastWrite` | Mobile/store/userSlice.ts:150-163 | After any trace, `error` was set by the last pending phase (to null) or the last rejected phase (to the normalised message), whichever came later. |
| `UserSliceTraces.ReduceAllAppend` | Mobile/store/userSlice.ts:137-165 | Dispatching two traces one after the other gives the same state as dispatching their concatenation. |
| `UserSliceTraces.NoFetchPhaseKeepsStatus` | Mobile/store/userSlice.ts:147-164 | A trace with no wishlist-fetch phase never changes `loading` or `error`. |
| `UserSliceTraces.LoadingIffLastPhasePending` | Mobile/store/userSlice.ts:84-163 | From the initial state, `loading` is true exactly when the last wishlist-fetch phase dispatched was pending. When fetches overlap, this differs from "a fetch is outstanding". |
| `UserSliceTraces.ErrorStaysWellFormed` | Mobile/store/userSlice.ts:150-163 | No trace can leave an empty string in `error`. |
| `UserSliceTraces.RejectionPersistsUntilNextFetchPhase` | Mobile/store/userSlice.ts:150-163 | After a rejection, `error` keeps the normalised message and `loading` stays false until the next wishlist-fetch phase arrives, whatever is dispatched meanwhile. |

## Left out

- The remote calls `updateUserProfile`, `getOrderHistory` and `getUserWishlist`: their service module is not part of this model. Only how they settle is modelled, as an `ApiOutcome`.
- `AsyncStorage`: the result of reading the token and writing the profile (the token, or the error thrown) becomes a parameter. Writing the serialised profile under "customer" (`JSON.stringify`) is not modelled, because the storage and its encoder are external.
- The Redux Toolkit machinery: `createSlice`, `createAsyncThunk`, Immer drafts and action-type strings. An action is a datatype constructor here, and the store is a class whose fields the case methods assign.
- Concurrency: the scheduling of overlapping fetches is not modelled. The model only fixes what each arrival order produces (`UserSliceTraces`).
- The fields of `Product`, `WishlistItem`, `Image` and `Rating`: nothing in the slice computes on them. `WishlistItem` keeps an identity and a title, and `UserData` keeps its identity, contact, password, role and block fields, its wishlist and its refresh token. `cart`, the timestamps and `__v` are dropped.
- Dynamic typing: the model assumes the thunks' payloads have their declared shapes. In JavaScript, a rejection payload that is a non-string truthy value, or a response without a `wishlist` field (which would store `undefined`), is possible but is not modelled. A rejection that carries no payload is modelled as `None`.
