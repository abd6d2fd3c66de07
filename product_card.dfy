/** The two handlers of src/components/products/ProductCard.tsx. Adding to the
    cart uses the `token` prop or else the stored token, raises `loading` around
    the call and lowers it in every case; adding to the wishlist reads only the
    stored token and sets `isWishlisted` once a call resolves, never clearing it. */
module ProductCard {
  import opened Js
  import opened Browser
  import Api

  const SIGN_IN_FIRST := "You need to sign in first!"
  const ADDED_TO_CART := "Added to cart!"
  const CART_FAILED := "Failed to add to cart"
  const LOGIN_FOR_WISHLIST := "Please login to add to wishlist"
  const ADDED_TO_WISHLIST := "Added to wishlist"
  const WISHLIST_FAILED := "Failed to add to wishlist"

  /** The observable state of one card. */
  datatype State = State(loading: bool, isWishlisted: bool, sent: seq<Sent>, notices: seq<Notice>)

  const Initial := State(false, false, [], [])

  /** `token || storedToken`: the prop when it is truthy, the stored token otherwise. */
  function AuthToken(prop: Option<string>, stored: Option<string>): (t: Option<string>)
    ensures Present(prop) ==> t == prop
    ensures !Present(prop) ==> t == stored
    ensures Present(t) <==> Present(prop) || Present(stored)
  {
    if Present(prop) then prop else stored
  }

  /** `err.message || "Failed to add to cart"`. */
  function CartFailure(message: string): (text: string)
    ensures message != "" ==> text == message
    ensures message == "" ==> text == CART_FAILED
  {
    if message != "" then message else CART_FAILED
  }

  /** handleAddToCart, run to completion on the outcome of `addToCart`. */
  function AddToCart(s: State, prop: Option<string>, stored: Option<string>, productId: string, outcome: Call): (r: State)
    // Without any token: a toast, no call, and nothing else changes.
    ensures !Present(AuthToken(prop, stored)) ==>
              r == s.(notices := s.notices + [ErrorToast(SIGN_IN_FIRST)])
    // Otherwise one call for one unit of the card's product, in flight while loading.
    ensures Present(AuthToken(prop, stored)) ==>
              r.sent == s.sent + [Sent(Api.AddToCart(AuthToken(prop, stored).value, productId, 1), true)]
              && !r.loading
    ensures Present(AuthToken(prop, stored)) ==>
              r.notices == s.notices + [if outcome.Resolved? then SuccessToast(ADDED_TO_CART) else ErrorToast(CartFailure(outcome.message))]
    ensures r.isWishlisted == s.isWishlisted
  {
    var auth := AuthToken(prop, stored);
    if !Present(auth) then
      s.(notices := s.notices + [ErrorToast(SIGN_IN_FIRST)])
    else
      var notice := match outcome
        case Resolved => SuccessToast(ADDED_TO_CART)
        case Rejected(m) => ErrorToast(CartFailure(m));
      s.(loading := false,
         sent := s.sent + [Sent(Api.AddToCart(auth.value, productId, 1), true)],
         notices := s.notices + [notice])
  }

  /** handleAddToWishlist, run to completion on the outcome of `addToWishlist`.
      It does not touch `loading`. */
  function AddToWishlist(s: State, stored: Option<string>, productId: string, outcome: Call): (r: State)
    ensures !Present(stored) ==> r == s.(notices := s.notices + [ErrorToast(LOGIN_FOR_WISHLIST)])
    ensures Present(stored) ==> r.sent == s.sent + [Sent(Api.AddToWishlist(stored.value, productId), s.loading)]
    // isWishlisted is set only by a resolved call with a stored token, and never cleared.
    ensures r.isWishlisted <==> s.isWishlisted || (Present(stored) && outcome.Resolved?)
    ensures r.loading == s.loading
  {
    if !Present(stored) then
      s.(notices := s.notices + [ErrorToast(LOGIN_FOR_WISHLIST)])
    else
      var sent := s.sent + [Sent(Api.AddToWishlist(stored.value, productId), s.loading)];
      match outcome
      case Resolved => s.(isWishlisted := true, sent := sent, notices := s.notices + [SuccessToast(ADDED_TO_WISHLIST)])
      case Rejected(_) => s.(sent := sent, notices := s.notices + [ErrorToast(WISHLIST_FAILED)])
  }

  class Card {
    /** `product._id` */
    const productId: string
    /** the optional `token` prop */
    const token: Option<string>
    const storage: LocalStorage
    var loading: bool
    var isWishlisted: bool
    var sent: seq<Sent>
    var notices: seq<Notice>

    function Snapshot(): State
      reads this
    {
      State(loading, isWishlisted, sent, notices)
    }

    constructor (productId: string, token: Option<string>, storage: LocalStorage)
      ensures this.productId == productId && this.token == token && this.storage == storage
      ensures Snapshot() == Initial
    {
      this.productId := productId;
      this.token := token;
      this.storage := storage;
      loading := false;
      isWishlisted := false;
      sent := [];
      notices := [];
    }

    method HandleAddToCart(outcome: Call)
      modifies this
      ensures Snapshot() == AddToCart(old(Snapshot()), token, storage.Get(USER_TOKEN), productId, outcome)
    {
      var storedToken := storage.Get(USER_TOKEN);
      var authToken := if Present(token) then token else storedToken;
      if !Present(authToken) {
        notices := notices + [ErrorToast(SIGN_IN_FIRST)];
        return;
      }
      loading := true;
      sent := sent + [Sent(Api.AddToCart(authToken.value, productId, 1), loading)];
      if outcome.Resolved? {
        notices := notices + [SuccessToast(ADDED_TO_CART)];
      } else {
        var text := if outcome.message != "" then outcome.message else CART_FAILED;
        notices := notices + [ErrorToast(text)];
      }
      loading := false;
    }

    /** Like the source's handler, this one takes the product id as its argument
        (the card passes its own product's id) rather than reading `productId`. */
    method HandleAddToWishlist(id: string, outcome: Call)
      modifies this
      ensures Snapshot() == AddToWishlist(old(Snapshot()), storage.Get(USER_TOKEN), id, outcome)
    {
      var stored := storage.Get(USER_TOKEN);
      if !Present(stored) {
        notices := notices + [ErrorToast(LOGIN_FOR_WISHLIST)];
        return;
      }
      sent := sent + [Sent(Api.AddToWishlist(stored.value, id), loading)];
      if outcome.Resolved? {
        isWishlisted := true;
        notices := notices + [SuccessToast(ADDED_TO_WISHLIST)];
      } else {
        notices := notices + [ErrorToast(WISHLIST_FAILED)];
      }
    }
  }

  // ---------------------------------------------------------------------------
  // Runs of several wishlist attempts

  function WishlistRun(s: State, stored: Option<string>, productId: string, outcomes: seq<Call>): State
    decreases |outcomes|
  {
    if outcomes == [] then s
    else WishlistRun(AddToWishlist(s, stored, productId, outcomes[0]), stored, productId, outcomes[1..])
  }

  /** After any sequence of wishlist attempts the heart is filled exactly when
      it was before or some attempt with a stored token resolved; no attempt
      ever clears it. */
  lemma {:induction false} WishlistedIffSomeAttemptResolved(s: State, stored: Option<string>, productId: string, outcomes: seq<Call>)
    ensures WishlistRun(s, stored, productId, outcomes).isWishlisted <==>
              s.isWishlisted || (Present(stored) && exists i :: 0 <= i < |outcomes| && outcomes[i].Resolved?)
    decreases |outcomes|
  {
    if outcomes != [] {
      var s' := AddToWishlist(s, stored, productId, outcomes[0]);
      WishlistedIffSomeAttemptResolved(s', stored, productId, outcomes[1..]);
      if Present(stored) && exists i :: 0 <= i < |outcomes| && outcomes[i].Resolved? {
        var i :| 0 <= i < |outcomes| && outcomes[i].Resolved?;
        if i > 0 {
          assert outcomes[1..][i - 1].Resolved?;
        }
      }
      if exists j :: 0 <= j < |outcomes[1..]| && outcomes[1..][j].Resolved? {
        var j :| 0 <= j < |outcomes[1..]| && outcomes[1..][j].Resolved?;
        assert outcomes[j + 1].Resolved?;
      }
    }
  }

  /** Which token the cart request carries: a truthy prop wins over storage, and
      storage is consulted only when the prop is missing or empty. */
  lemma CartTokenChoice(s: State, prop: Option<string>, stored: Option<string>, productId: string, outcome: Call)
    requires Present(prop) || Present(stored)
    ensures AddToCart(s, prop, stored, productId, outcome).sent[|s.sent|].request.token ==
              (if Present(prop) then prop.value else stored.value)
  {
  }
}
