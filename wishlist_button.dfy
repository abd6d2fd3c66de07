/** The heart-shaped wishlist toggle of src/components/ui/WishlistButton.tsx. Its
    state is `inWishlist` and `loading`; a toggle checks the token prop, raises
    `loading`, removes or adds the product depending on `inWishlist`, flips
    `inWishlist` only when that call resolves, and lowers `loading` in every case. */
module WishlistButton {
  import opened Js
  import opened Browser
  import Api

  const SIGN_IN_REQUIRED := "You must be signed in to manage your wishlist"
  const REMOVED := "Removed from wishlist"
  const ADDED := "Added to wishlist"
  const FAILED := "Something went wrong"

  /** The observable state of one button. */
  datatype State = State(inWishlist: bool, loading: bool, sent: seq<Sent>, notices: seq<Notice>)

  /** The state of a freshly mounted button. */
  const Initial := State(false, false, [], [])

  /** The request a toggle issues in state `s`. */
  function ToggleRequest(s: State, token: string, productId: string): (req: Api.Request)
    ensures s.inWishlist ==> req == Api.RemoveFromWishlist(token, productId)
    ensures !s.inWishlist ==> req == Api.AddToWishlist(token, productId)
  {
    if s.inWishlist then Api.RemoveFromWishlist(token, productId) else Api.AddToWishlist(token, productId)
  }

  /** toggleWishlist, run to completion on the outcome of the awaited call. */
  function Toggle(s: State, token: Option<string>, productId: string, outcome: Call): (r: State)
    // Without a token nothing but an error toast happens.
    ensures !Present(token) ==>
              r.inWishlist == s.inWishlist && r.loading == s.loading && r.sent == s.sent
              && r.notices == s.notices + [ErrorToast(SIGN_IN_REQUIRED)]
    // With one, exactly one request goes out while loading, and loading ends low.
    ensures Present(token) ==>
              r.sent == s.sent + [Sent(ToggleRequest(s, token.value, productId), true)] && !r.loading
    // inWishlist flips exactly when the call resolves.
    ensures Present(token) ==> (r.inWishlist != s.inWishlist <==> outcome.Resolved?)
    ensures !Present(token) || outcome.Rejected? ==> r.inWishlist == s.inWishlist
  {
    if !Present(token) then
      s.(notices := s.notices + [ErrorToast(SIGN_IN_REQUIRED)])
    else
      var sent := s.sent + [Sent(ToggleRequest(s, token.value, productId), true)];
      match outcome
      case Resolved =>
        State(!s.inWishlist, false, sent, s.notices + [SuccessToast(if s.inWishlist then REMOVED else ADDED)])
      case Rejected(_) =>
        State(s.inWishlist, false, sent, s.notices + [ErrorToast(FAILED)])
  }

  class Button {
    const token: Option<string>
    const productId: string
    var inWishlist: bool
    var loading: bool
    var sent: seq<Sent>
    var notices: seq<Notice>

    function Snapshot(): State
      reads this
    {
      State(inWishlist, loading, sent, notices)
    }

    constructor (token: Option<string>, productId: string)
      ensures this.token == token && this.productId == productId
      ensures Snapshot() == Initial
    {
      this.token := token;
      this.productId := productId;
      inWishlist := false;
      loading := false;
      sent := [];
      notices := [];
    }

    method ToggleWishlist(outcome: Call)
      modifies this
      ensures Snapshot() == Toggle(old(Snapshot()), token, productId, outcome)
    {
      if !Present(token) {
        notices := notices + [ErrorToast(SIGN_IN_REQUIRED)];
        return;
      }
      loading := true;
      if inWishlist {
        sent := sent + [Sent(Api.RemoveFromWishlist(token.value, productId), loading)];
        if outcome.Resolved? {
          inWishlist := false;
          notices := notices + [SuccessToast(REMOVED)];
        } else {
          notices := notices + [ErrorToast(FAILED)];
        }
      } else {
        sent := sent + [Sent(Api.AddToWishlist(token.value, productId), loading)];
        if outcome.Resolved? {
          inWishlist := true;
          notices := notices + [SuccessToast(ADDED)];
        } else {
          notices := notices + [ErrorToast(FAILED)];
        }
      }
      loading := false;
    }
  }

  // ---------------------------------------------------------------------------
  // Runs of several toggles

  /** The state after toggling once per outcome, in order. */
  function Run(s: State, token: Option<string>, productId: string, outcomes: seq<Call>): State
    decreases |outcomes|
  {
    if outcomes == [] then s
    else Run(Toggle(s, token, productId, outcomes[0]), token, productId, outcomes[1..])
  }

  /** How many of the outcomes resolved. */
  function Successes(outcomes: seq<Call>): nat {
    if outcomes == [] then 0
    else (if outcomes[0].Resolved? then 1 else 0) + Successes(outcomes[1..])
  }

  /** Two successful toggles in a row restore `inWishlist`. */
  lemma TwoSuccessfulTogglesRestore(s: State, token: Option<string>, productId: string)
    ensures Toggle(Toggle(s, token, productId, Resolved), token, productId, Resolved).inWishlist == s.inWishlist
  {
  }

  /** With a token, `inWishlist` has flipped once per resolved call, one request
      went out per toggle, and `loading` is low after any toggle. */
  lemma {:induction false} RunWithToken(s: State, token: Option<string>, productId: string, outcomes: seq<Call>)
    requires Present(token)
    ensures Run(s, token, productId, outcomes).inWishlist == (if Successes(outcomes) % 2 == 0 then s.inWishlist else !s.inWishlist)
    ensures |Run(s, token, productId, outcomes).sent| == |s.sent| + |outcomes|
    ensures |outcomes| > 0 ==> !Run(s, token, productId, outcomes).loading
    decreases |outcomes|
  {
    if outcomes != [] {
      RunWithToken(Toggle(s, token, productId, outcomes[0]), token, productId, outcomes[1..]);
    }
  }

  /** Without a token no toggle changes the wishlist state or issues a request,
      one error toast per attempt is all that happens. */
  lemma {:induction false} RunWithoutToken(s: State, token: Option<string>, productId: string, outcomes: seq<Call>)
    requires !Present(token)
    ensures Run(s, token, productId, outcomes).inWishlist == s.inWishlist
    ensures Run(s, token, productId, outcomes).loading == s.loading
    ensures Run(s, token, productId, outcomes).sent == s.sent
    ensures |Run(s, token, productId, outcomes).notices| == |s.notices| + |outcomes|
    decreases |outcomes|
  {
    if outcomes != [] {
      RunWithoutToken(Toggle(s, token, productId, outcomes[0]), token, productId, outcomes[1..]);
    }
  }

  /** From the initial state `loading` is never seen high once a toggle completes. */
  lemma {:induction false} NeverLoadingAfterMount(token: Option<string>, productId: string, outcomes: seq<Call>)
    ensures !Run(Initial, token, productId, outcomes).loading
  {
    if Present(token) {
      RunWithToken(Initial, token, productId, outcomes);
    } else {
      RunWithoutToken(Initial, token, productId, outcomes);
    }
  }
}
