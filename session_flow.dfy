/** How the token the sign-in page stores reaches the other components: they all
    read the same `localStorage` key, so a successful sign-in with an access
    token is what makes the cart, wishlist and profile requests carry a token. */
module SessionFlow {
  import opened Js
  import opened Browser
  import Api
  import SignInPage
  import ProductCard
  import ProfilePage

  /** A successful sign-in stores the session's token, and a card without a
      token prop then adds one unit to the cart with exactly that token. */
  lemma SignedInTokenReachesCart(page: SignInPage.State, token: string,
                                 card: ProductCard.State, productId: string, outcome: Call)
    requires token != ""
    ensures var after := SignInPage.SignIn(page, SignInPage.SignInSettled(""), SignInPage.SessionLoaded(Some(token)));
            var r := ProductCard.AddToCart(card, None, Lookup(after.storage, USER_TOKEN), productId, outcome);
            r.sent == card.sent + [Sent(Api.AddToCart(token, productId, 1), true)]
  {
  }

  /** A rejected sign-in on a browser with no stored token leaves the profile
      page signed out: its mount asks the user to log in and fetches nothing. */
  lemma FailedSignInLeavesProfileSignedOut(page: SignInPage.State, error: string, session: SignInPage.SessionReply,
                                           profile: ProfilePage.State, p: Fetch<ProfilePage.User>,
                                           list: Fetch<seq<ProfilePage.Address>>)
    requires USER_TOKEN !in page.storage
    requires error != ""
    ensures var after := SignInPage.SignIn(page, SignInPage.SignInSettled(error), session);
            after.error == SignInPage.INVALID_LOGIN
            && ProfilePage.Mount(profile, Lookup(after.storage, USER_TOKEN), p, list).sent == profile.sent
  {
  }

  /** The same flow on the component objects themselves: both pages share one
      storage object, so the card's request carries the token the sign-in page wrote. */
  method SignInThenAddToCart(token: string, productId: string) returns (req: Api.Request)
    requires token != ""
    ensures req == Api.AddToCart(token, productId, 1)
  {
    var storage := new LocalStorage(map[]);
    var signIn := new SignInPage.Page(storage);
    var card := new ProductCard.Card(productId, None, storage);
    signIn.HandleSignIn(SignInPage.SignInSettled(""), SignInPage.SessionLoaded(Some(token)));
    assert storage.items[USER_TOKEN] == token;
    card.HandleAddToCart(Resolved);
    assert card.sent == [Sent(Api.AddToCart(token, productId, 1), true)];
    req := card.sent[0].request;
  }
}
