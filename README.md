# Techmart storefront: response handling and client handlers, in Dafny

The storefront is a set of page components that call one remote commerce REST
API. This project models the parts of it that have behaviour of their own:

- **The HTTP client wrapper** (`Api`, in `api.dfy`). `HandleResponse`
  classifies a response into "no data", parsed data or an error, with its checks
  in their fixed order: empty body, then JSON validity, then status or the
  `statusMsg: "fail"` marker. `LoginUser` is the stricter login variant that also
  needs a truthy `token`. `GetSubcategories` and `GetProductsBySubcategory` are
  the lenient variants that fall back to `[]`. `TokenHeader` and
  `RequestHeaders` describe the raw `token` header. A response is its status, its
  body text and the result of parsing that text; `Ok()` is the status range
  200–299 of the Fetch Standard.
- **JavaScript value semantics** (`Js`, in `js.dfy`). JSON values, truthiness
  (what `||` and `!` test), property reads, and the string conversion that
  `new Error(x)` applies. Reading a property of a parsed `null` throws a
  TypeError; the model keeps that path.
- **The client components**, one module each. Each has a `State` record and a
  pure step function per handler that says what one run of the handler does,
  given the outcome of the call it awaits. Each component also has a class with
  the React state as fields; its imperative methods are proved to produce exactly
  what the step function says (`Snapshot() == Step(old(Snapshot()), ...)`).
  Toasts and alerts are recorded in `notices`, router pushes in `navigations`,
  and issued requests in `sent`. Each sent request carries the `loading` flag
  shown while it is in flight. `localStorage` is a shared `LocalStorage` object
  (`Browser`, in `browser.dfy`).
  - `WishlistButton`: the heart toggle.
  - `ProductCard`: add to cart and add to wishlist.
  - `ProfilePage`: mount, adding an address, removing an address, the two form
    inputs.
  - `RegisterPage`: field updates and sign-up.
  - `SignInPage`: sign-in and token persistence.
  - `SessionFlow`: how a stored token reaches the other components.

Inputs the program gets from outside are parameters of the model:

- the response of each `fetch`;
- the outcomes of `signIn` and of the session request;
- the resolution or rejection of each accessor call, as a `Call` or `Fetch` value.

## Model

| member | source | states |
|---|---|---|
| `Api.TokenHeader` | src/lib/api.ts:16-18 | the auth header has exactly one key, `token`, whose value is the raw token with no prefix |
| `Api.JsonTokenHeaders` | src/lib/api.ts:94 | a JSON-body request sends exactly `Content-Type: application/json` and the raw `token` header |
| `Api.RequestHeaders` | src/lib/api.ts:43-296 | every authenticated request carries its own token under `token`; a sign-up request carries none; no request sends `Authorization`; only requests with a JSON body send a content type |
| `Api.SignUpHeaders` | src/app/auth/register/page.tsx:39-41 | the register page's own sign-up request sends exactly `Content-Type: application/json` and no token |
| `Api.Response.ParsedBody` | src/lib/api.ts:324 | `res.json()` rejects on an empty body and otherwise yields what parsing the text yields |
| `Api.FailMarked` | src/lib/api.ts:35 | a body is fail-marked exactly when it is an object whose `statusMsg` is the string "fail" |
| `Api.MessageOr` | src/lib/api.ts:37 | the error message is the body's `message` when that is truthy (a string message verbatim), else the fallback |
| `Api.HandleResponse` | src/lib/api.ts:20-40 | empty body: no data if ok, else error "API returned an error with no body"; non-empty body that does not parse: "Invalid JSON response" whatever the status; a parsed body is rejected iff not ok or `statusMsg == "fail"`, with `message` or "Something went wrong"; an accepted body is returned unchanged; a `null` body fails with the TypeError of the first property read |
| `Api.LoginUser` | src/lib/api.ts:315-330 | accepted iff the body parses to a non-null value, the status is ok and `token` is truthy; an accepted body is returned unchanged; a rejected one has `message` or "Invalid credentials"; an empty or malformed body is a SyntaxError |
| `Api.GetSubcategories` | src/lib/api.ts:115-125 | an empty body gives `[]`; any other body gives its parsed value, or a SyntaxError when it does not parse |
| `Api.GetProductsBySubcategory` | src/lib/api.ts:132-139 | a parsed non-null body gives `data.data` when truthy and `[]` otherwise, so the result is always truthy |
| `Api.LenientAccessorsIgnoreStatus` | src/lib/api.ts:122-138 | neither lenient accessor's result depends on the status |
| `Api.LoginAcceptanceImpliesHandled` | src/lib/api.ts:325-329 | a login reply that is accepted and not fail-marked is also accepted by handleResponse with the same body |
| `Api.TokenlessDataIsNotLogin` | src/lib/api.ts:35-39 | every ok, not fail-marked, non-null body without a truthy `token` is returned unchanged by handleResponse, while loginUser rejects it with its `message` or "Invalid credentials" |
| `Api.HandledWithoutTokenIsNotLogin` | src/lib/api.ts:35-39 | an ok `{}` body is data for handleResponse but "Invalid credentials" for loginUser |
| `Browser.LocalStorage.SetItem` | src/app/auth/signin/page.tsx:36 | `setItem` sets one key and leaves every other key's value as it was |
| `WishlistButton.ToggleRequest` | src/components/ui/WishlistButton.tsx:21-26 | a toggle removes the product when it is in the wishlist and adds it otherwise |
| `WishlistButton.Toggle` | src/components/ui/WishlistButton.tsx:13-36 | without a token: only an error toast, with no request and `inWishlist` and `loading` unchanged; with one: exactly one request, sent while loading, and `loading` false afterwards; `inWishlist` flips iff the call resolves |
| `WishlistButton.Button.constructor` | src/components/ui/WishlistButton.tsx:9-11 | a new button is not in the wishlist and not loading |
| `WishlistButton.Button.ToggleWishlist` | src/components/ui/WishlistButton.tsx:13-36 | the method's new state is exactly `Toggle` of the old state |
| `WishlistButton.TwoSuccessfulTogglesRestore` | src/components/ui/WishlistButton.tsx:21-28 | two successful toggles restore `inWishlist` |
| `WishlistButton.RunWithToken` | src/components/ui/WishlistButton.tsx:19-35 | over any run of toggles with a token, `inWishlist` has flipped once per resolved call, one request went out per toggle, and `loading` is false |
| `WishlistButton.RunWithoutToken` | src/components/ui/WishlistButton.tsx:14-17 | over any run of toggles without a token, no request goes out and `inWishlist` and `loading` never change |
| `WishlistButton.NeverLoadingAfterMount` | src/components/ui/WishlistButton.tsx:11 | from mount on, `loading` is false after every completed toggle |
| `ProductCard.AuthToken` | src/components/products/ProductCard.tsx:25-27 | the cart token is the prop when truthy, otherwise the stored token |
| `ProductCard.CartFailure` | src/components/products/ProductCard.tsx:39 | the failure toast is the error's message when non-empty, else "Failed to add to cart" |
| `ProductCard.AddToCart` | src/components/products/ProductCard.tsx:24-43 | no token: "You need to sign in first!" with no call and no change to `loading`; otherwise one `addToCart(token, product._id, 1)` sent while loading, `loading` false afterwards, and a success or failure toast |
| `ProductCard.AddToWishlist` | src/components/products/ProductCard.tsx:45-59 | reads only the stored token; with none, no call; `isWishlisted` afterwards iff it was before or the call resolved; `loading` untouched |
| `ProductCard.Card.constructor` | src/components/products/ProductCard.tsx:15-21 | a new card is not loading and not wishlisted |
| `ProductCard.Card.HandleAddToCart` | src/components/products/ProductCard.tsx:24-43 | the method's new state is `AddToCart` of the old one, with the prop and the stored "userToken" |
| `ProductCard.Card.HandleAddToWishlist` | src/components/products/ProductCard.tsx:45-59 | the method's new state is `AddToWishlist` of the old one, with the stored "userToken" only |
| `ProductCard.WishlistedIffSomeAttemptResolved` | src/components/products/ProductCard.tsx:52-53 | after any run of wishlist attempts, `isWishlisted` holds iff it held before or some attempt with a stored token resolved; it is never cleared |
| `ProductCard.CartTokenChoice` | src/components/products/ProductCard.tsx:25-36 | the cart request carries the prop token when truthy, else the stored one |
| `ProfilePage.RemoveByIdMembers` | src/app/user/page.tsx:65 | an address remains after removal iff it was present and its `_id` differs from the removed id |
| `ProfilePage.RemoveByIdConcat` | src/app/user/page.tsx:65 | removal distributes over concatenation, so the remaining addresses keep their original order |
| `ProfilePage.RemoveAbsentId` | src/app/user/page.tsx:65 | removing an id that no address has leaves the list unchanged |
| `ProfilePage.RemoveByIdIdempotent` | src/app/user/page.tsx:65 | removing the same id twice equals removing it once |
| `ProfilePage.RemoveById` | src/app/user/page.tsx:65 | the filter keeps no address with the removed id, and the list never grows |
| `ProfilePage.Mount` | src/app/user/page.tsx:21-37 | no stored token: "Please log in.", no fetch, `loading` false; otherwise the profile and address fetches use the token, the user becomes `res.data`, the list becomes `res.data` or `[]`, a failed fetch leaves its part unchanged, and `loading` ends false |
| `ProfilePage.AddAddress` | src/app/user/page.tsx:39-55 | no token: nothing changes; a resolved post of the form clears it to four empty strings and refetches, and the list becomes the refetched `data` or `[]`; a rejected post keeps form and list; `loading` ends false |
| `ProfilePage.RemoveAddress` | src/app/user/page.tsx:57-71 | no token: nothing changes; a resolved delete replaces the list by the removal of `id`; a rejected one keeps it; `loading` ends false |
| `ProfilePage.EditDetails` | src/app/user/page.tsx:110 | the details input changes only the form's `details` |
| `ProfilePage.EditCity` | src/app/user/page.tsx:117 | the city input changes only the form's `city` |
| `ProfilePage.HandlersKeepFormInvariant` | src/app/user/page.tsx:19 | every handler keeps the form's name and phone empty, because no input edits them |
| `ProfilePage.RemoveTwiceIsRemoveOnce` | src/app/user/page.tsx:57-71 | two successful removals of one id leave the same list as one |
| `ProfilePage.Page.constructor` | src/app/user/page.tsx:16-19 | the page starts loading, with no user, no addresses and an empty form |
| `ProfilePage.Page.OnMount` | src/app/user/page.tsx:21-37 | the method's new state is `Mount` of the old state with the stored token, and it keeps the form invariant |
| `ProfilePage.Page.HandleAddAddress` | src/app/user/page.tsx:39-55 | the method's new state is `AddAddress` of the old one, and it keeps the form invariant |
| `ProfilePage.Page.HandleRemoveAddress` | src/app/user/page.tsx:57-71 | the method's new state is `RemoveAddress` of the old one, and it keeps the form invariant |
| `ProfilePage.Page.HandleDetailsChange` | src/app/user/page.tsx:110 | the method's new state is `EditDetails` of the old one |
| `ProfilePage.Page.HandleCityChange` | src/app/user/page.tsx:117 | the method's new state is `EditCity` of the old one |
| `RegisterPage.WithField` | src/app/auth/register/page.tsx:22-25 | `handleChange` sets the named field and leaves the other five unchanged |
| `RegisterPage.WithFieldLaws` | src/app/auth/register/page.tsx:22-25 | writing a field's own value changes nothing, and the last write to a field wins |
| `RegisterPage.Body` | src/app/auth/register/page.tsx:42-48 | the request sends name, email, phone and password, and sends `confirmPassword` as `rePassword` |
| `RegisterPage.BodyOmitsBirthDate` | src/app/auth/register/page.tsx:42-48 | the birth date has no influence on the request body |
| `RegisterPage.FailureMessage` | src/app/auth/register/page.tsx:53-54 | a non-ok reply's error is `data.message` when truthy, else "Failed to register"; a `null` body gives the TypeError of reading `message` |
| `RegisterPage.SignUp` | src/app/auth/register/page.tsx:27-62 | mismatched passwords: "Passwords do not match!" and no request; otherwise one sign-up request; it navigates iff the reply is ok, and then to "/auth/signin" with an alert and no error; a non-ok reply or a rejection sets the error |
| `RegisterPage.PreviousErrorIsCleared` | src/app/auth/register/page.tsx:29 | the error from an earlier submission has no influence on a new one |
| `RegisterPage.ServerMessageShown` | src/app/auth/register/page.tsx:53-60 | a server string `message` on a non-ok reply is shown as the error verbatim |
| `RegisterPage.Page.constructor` | src/app/auth/register/page.tsx:11-20 | the form starts with six empty fields and no error |
| `RegisterPage.Page.HandleChange` | src/app/auth/register/page.tsx:22-25 | the method changes only the form, to `WithField` of the old form |
| `RegisterPage.Page.HandleSignUp` | src/app/auth/register/page.tsx:27-62 | the method's new state is `SignUp` of the old state |
| `SignInPage.SignIn` | src/app/auth/signin/page.tsx:15-43 | the error is cleared and then set to "Invalid email or password" iff signIn reports an error, and storage and navigation are then untouched; after success it navigates to "/"; storage changes only as "userToken" := the session's `accessToken`, and only when that token is truthy |
| `SignInPage.OnlyUserTokenChanges` | src/app/auth/signin/page.tsx:35-36 | no storage key other than "userToken" changes |
| `SignInPage.Page.constructor` | src/app/auth/signin/page.tsx:11-13 | the inputs and the error start empty |
| `SignInPage.Page.HandleEmailChange` | src/app/auth/signin/page.tsx:56 | only `email` changes |
| `SignInPage.Page.HandlePasswordChange` | src/app/auth/signin/page.tsx:65 | only `password` changes |
| `SignInPage.Page.HandleSignIn` | src/app/auth/signin/page.tsx:15-43 | the method's new page and storage state is `SignIn` of the old one |
| `SessionFlow.SignedInTokenReachesCart` | src/components/products/ProductCard.tsx:25-36 | after a sign-in that stores token t, a card without a token prop adds to the cart with exactly t |
| `SessionFlow.FailedSignInLeavesProfileSignedOut` | src/app/user/page.tsx:22-27 | a rejected sign-in on a browser with no stored token leaves the profile mount without any fetch |
| `SessionFlow.SignInThenAddToCart` | src/components/products/ProductCard.tsx:25-36 | with the sign-in page and a card sharing one storage object, the cart request carries the signed-in token |

## Left out

- Network I/O: `fetch`, `res.text()` and `res.json()`, the base URL, request paths, request methods and cache options. Each becomes the response or outcome it yields.
- The accessors that only call `handleResponse`, and `removeCartItem` and `updateCartItem`, which return `res.json()` unchecked: their behaviour is `HandleResponse` or `Response.ParsedBody` of their response. The server-side meaning of cart, wishlist, orders and addresses belongs to the remote API.
- JSON parsing itself: a `Response` carries the parse outcome of its text, not the parser.
- JSON numbers are integers. Fractional numbers and JavaScript's exponent notation in `String(n)` (from 1e21) are not modelled.
- Prototype properties of parsed values are not modelled. The model reads only `message`, `statusMsg`, `token` and `data`.
- Engine-dependent error texts. The TypeError text of a `null` property read is V8's wording. The messages of rejected `fetch`, `res.json()` and `signIn` calls are parameters.
- Concurrency. Each handler is one atomic step on the outcomes it awaits. The profile mount applies the profile fetch before the address fetch; in the program they race, and only the address fetch clears `loading`. Interleaving two handlers of one component is not modelled.
- The intermediate `loading = true` state is observed only through the flag recorded with each sent request.
- `console.log`, `console.error`, the toast and router libraries, `alert`, and `e.preventDefault()`. Toasts and alerts are recorded in `notices`, navigations in `navigations`.
- The `next-auth` configuration and callbacks (src/app/api/auth/[...nextauth]/route.ts) and the session endpoint. Their results are the `SignInOutcome` and `SessionReply` parameters.
- Rendering, the navbar's active-link test, the spinner, prices and totals, and the type-only interface files.
- A resolved address fetch whose `data` is not an array is not modelled, because the component's type declares an address array. A `null` result, whose `res.data` read throws, is folded into `LoadFailed`.
