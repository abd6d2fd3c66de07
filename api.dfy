/** The HTTP client wrapper of src/lib/api.ts: how a response is classified into
    "no data", parsed data or an error, the stricter acceptance rule of the login
    accessor, the lenient accessors for subcategories, and the headers that carry
    the auth token. The network call itself is outside the model: every accessor
    is a function of the response it receives. */
module Api {
  import opened Js

  /** What a `fetch` call resolves to, as far as the accessors look at it.
      `json` is what `JSON.parse(text)` yields, None when it throws. */
  datatype Response = Response(status: int, text: string, json: Option<Json>) {
    /** `res.ok` of the Fetch Standard: the status is in the range 200 to 299. */
    predicate Ok() {
      200 <= status <= 299
    }

    /** What `res.json()` resolves to; None when it rejects. It parses the body
        with the same rules as `JSON.parse`, which throws on an empty text. */
    function ParsedBody(): (b: Option<Json>)
      ensures text == "" ==> b.None?
      ensures text != "" ==> b == json
    {
      if text == "" then None else json
    }
  }

  /** What an accessor throws: an `Error` with a message, the TypeError of
      reading a property of a parsed `null`, or the SyntaxError of a body that is
      not JSON when nothing catches it. */
  datatype ApiError =
    | Error(message: string)
    | TypeError(reading: string)
    | SyntaxError

  datatype Result<+T> = Success(value: T) | Failure(error: ApiError)

  const NO_BODY_ERROR := "API returned an error with no body"
  const INVALID_JSON := "Invalid JSON response"
  const GENERIC_ERROR := "Something went wrong"
  const INVALID_CREDENTIALS := "Invalid credentials"
  const FAIL_MARKER := "fail"

  // ---------------------------------------------------------------------------
  // Headers

  /** getTokenHeader: the token travels raw in a header named `token`. */
  function TokenHeader(token: string): (h: map<string, string>)
    ensures h.Keys == {"token"}
    ensures h["token"] == token
  {
    map["token" := token]
  }

  /** `{ "Content-Type": "application/json", ...getTokenHeader(token) }`, the
      headers of the accessors that send a JSON body. */
  function JsonTokenHeaders(token: string): (h: map<string, string>)
    ensures h.Keys == {"Content-Type", "token"}
    ensures h["token"] == token && h["Content-Type"] == "application/json"
  {
    map["Content-Type" := "application/json"] + TokenHeader(token)
  }

  /** The shape of the address body `addAddress` sends. */
  datatype AddressForm = AddressForm(name: string, details: string, phone: string, city: string)

  /** The shape of the sign-up body `registerUser` sends. */
  datatype SignUpBody = SignUpBody(name: string, email: string, password: string, rePassword: string, phone: string)

  /** The requests the modelled components issue. */
  datatype Request =
    | GetUserProfile(token: string)
    | GetUserAddresses(token: string)
    | AddAddress(token: string, address: AddressForm)
    | RemoveAddress(token: string, id: string)
    | AddToCart(token: string, productId: string, count: int)
    | AddToWishlist(token: string, productId: string)
    | RemoveFromWishlist(token: string, productId: string)
    | SignUp(body: SignUpBody)
  {
    predicate Authenticated() {
      !SignUp?
    }
  }

  /** The headers of the register page's own sign-up `fetch`: a JSON body and no token. */
  function SignUpHeaders(): (h: map<string, string>)
    ensures h.Keys == {"Content-Type"}
    ensures h["Content-Type"] == "application/json"
  {
    map["Content-Type" := "application/json"]
  }

  /** The headers each accessor sends: those with a JSON body add a content type
      to the token header; the sign-up request carries no token. */
  function RequestHeaders(req: Request): (h: map<string, string>)
    ensures req.Authenticated() ==> "token" in h && h["token"] == req.token
    ensures !req.Authenticated() ==> "token" !in h
    ensures "Authorization" !in h
    ensures "Content-Type" in h <==> req.AddAddress? || req.AddToCart? || req.AddToWishlist? || req.SignUp?
  {
    match req
    case GetUserProfile(t) => TokenHeader(t)
    case GetUserAddresses(t) => TokenHeader(t)
    case AddAddress(t, _) => JsonTokenHeaders(t)
    case RemoveAddress(t, _) => TokenHeader(t)
    case AddToCart(t, _, _) => JsonTokenHeaders(t)
    case AddToWishlist(t, _) => JsonTokenHeaders(t)
    case RemoveFromWishlist(t, _) => TokenHeader(t)
    case SignUp(_) => SignUpHeaders()
  }

  // ---------------------------------------------------------------------------
  // Response classification

  /** `data.message || fallback`, as the message of the Error built from it. */
  function MessageOr(data: Json, fallback: string): (m: string)
    ensures !TruthyProp(Prop(data, "message")) ==> m == fallback
    ensures Prop(data, "message").Some? && Prop(data, "message").value.JStr? && TruthyProp(Prop(data, "message"))
            ==> m == Prop(data, "message").value.s
  {
    var msg := Prop(data, "message");
    if TruthyProp(msg) then ToJsString(msg.value) else fallback
  }

  /** The body marks an application-level failure: `data.statusMsg === "fail"`. */
  function FailMarked(data: Json): (b: bool)
    ensures b <==> data.JObj? && "statusMsg" in data.fields && data.fields["statusMsg"] == JStr(FAIL_MARKER)
  {
    Prop(data, "statusMsg") == Some(JStr(FAIL_MARKER))
  }

  /** handleResponse. `Success(None)` is the `null` it returns for an empty body. */
  function HandleResponse(res: Response): (r: Result<Option<Json>>)
    // The body is read first: an empty one is "no data" on success and an error otherwise.
    ensures res.text == "" && res.Ok() ==> r == Success(None)
    ensures res.text == "" && !res.Ok() ==> r == Failure(Error(NO_BODY_ERROR))
    // A body that does not parse is rejected before the status is looked at.
    ensures res.text != "" && res.json.None? ==> r == Failure(Error(INVALID_JSON))
    // A parsed object or value is rejected exactly when the status fails or the body is fail-marked.
    ensures res.text != "" && res.json.Some? && res.json.value != JNull ==>
              (r.Failure? <==> !res.Ok() || FailMarked(res.json.value))
    ensures res.text != "" && res.json.Some? && res.json.value != JNull && r.Failure? ==>
              r.error == Error(MessageOr(res.json.value, GENERIC_ERROR))
    // An accepted body is returned unchanged, and only a non-empty one is ever data.
    ensures r.Success? && r.value.Some? ==> res.text != "" && res.json == r.value
    ensures res.text != "" && res.json.Some? && res.json.value != JNull && res.Ok() && !FailMarked(res.json.value) ==>
              r == Success(res.json)
    // A parsed `null` fails reading the first property the guard touches.
    ensures res.text != "" && res.json == Some(JNull) ==>
              r == Failure(TypeError(if res.Ok() then "statusMsg" else "message"))
  {
    if res.text == "" then
      if !res.Ok() then Failure(Error(NO_BODY_ERROR)) else Success(None)
    else
      match res.json
      case None => Failure(Error(INVALID_JSON))
      case Some(data) =>
        if data == JNull then
          // `!res.ok || data.statusMsg` reads statusMsg only when ok; `data.message` otherwise.
          Failure(TypeError(if res.Ok() then "statusMsg" else "message"))
        else if !res.Ok() || FailMarked(data) then
          Failure(Error(MessageOr(data, GENERIC_ERROR)))
        else
          Success(Some(data))
  }

  /** The acceptance logic of loginUser: the body comes from `res.json()` and must
      carry a truthy `token` besides a successful status. */
  function LoginUser(res: Response): (r: Result<Json>)
    ensures r.Success? <==>
              res.ParsedBody().Some? && res.ParsedBody().value != JNull
              && res.Ok() && TruthyProp(Prop(res.ParsedBody().value, "token"))
    ensures r.Success? ==> res.ParsedBody() == Some(r.value)
    ensures res.ParsedBody().None? ==> r == Failure(SyntaxError)
    ensures res.ParsedBody().Some? && res.ParsedBody().value != JNull && r.Failure? ==>
              r.error == Error(MessageOr(res.ParsedBody().value, INVALID_CREDENTIALS))
  {
    match res.ParsedBody()
    case None => Failure(SyntaxError)
    case Some(data) =>
      if data == JNull then
        Failure(TypeError(if res.Ok() then "token" else "message"))
      else if !res.Ok() || !TruthyProp(Prop(data, "token")) then
        Failure(Error(MessageOr(data, INVALID_CREDENTIALS)))
      else
        Success(data)
  }

  /** getSubcategories: an empty body is an empty list; any other body is parsed
      (a SyntaxError escapes) and returned whatever the status. */
  function GetSubcategories(res: Response): (r: Result<Json>)
    ensures res.text == "" ==> r == Success(JArr([]))
    ensures res.text != "" ==> (r.Success? <==> res.json.Some?)
    ensures res.text != "" && r.Success? ==> Some(r.value) == res.json
    ensures r.Failure? ==> r.error == SyntaxError
  {
    if res.text == "" then Success(JArr([]))
    else
      match res.json
      case None => Failure(SyntaxError)
      case Some(data) => Success(data)
  }

  /** getProductsBySubcategory: `data.data || []` of the parsed body, whatever the status. */
  function GetProductsBySubcategory(res: Response): (r: Result<Json>)
    ensures r.Success? <==> res.ParsedBody().Some? && res.ParsedBody().value != JNull
    ensures r.Success? && TruthyProp(Prop(res.ParsedBody().value, "data")) ==>
              r.value == Prop(res.ParsedBody().value, "data").value
    ensures r.Success? && !TruthyProp(Prop(res.ParsedBody().value, "data")) ==> r.value == JArr([])
    ensures r.Success? ==> Truthy(r.value)
  {
    match res.ParsedBody()
    case None => Failure(SyntaxError)
    case Some(data) =>
      if data == JNull then Failure(TypeError("data"))
      else
        var d := Prop(data, "data");
        Success(if TruthyProp(d) then d.value else JArr([]))
  }

  // ---------------------------------------------------------------------------
  // Relations between the accessors

  /** Neither lenient accessor consults the status. */
  lemma LenientAccessorsIgnoreStatus(res: Response, status: int)
    ensures GetSubcategories(res.(status := status)) == GetSubcategories(res)
    ensures GetProductsBySubcategory(res.(status := status)) == GetProductsBySubcategory(res)
  {
  }

  /** A login reply that is accepted and not fail-marked is accepted by
      handleResponse too, with the same body. */
  lemma LoginAcceptanceImpliesHandled(res: Response)
    requires LoginUser(res).Success?
    requires !FailMarked(LoginUser(res).value)
    ensures HandleResponse(res) == Success(Some(LoginUser(res).value))
  {
  }

  /** The converse does not hold: every accepted body without a truthy token is
      data for handleResponse but a rejected login, with the body's message or
      "Invalid credentials". */
  lemma TokenlessDataIsNotLogin(res: Response)
    requires res.text != "" && res.json.Some? && res.json.value != JNull
    requires res.Ok() && !FailMarked(res.json.value)
    requires !TruthyProp(Prop(res.json.value, "token"))
    ensures HandleResponse(res) == Success(res.json)
    ensures LoginUser(res) == Failure(Error(MessageOr(res.json.value, INVALID_CREDENTIALS)))
  {
  }

  /** One such body: an ok `{}`. */
  lemma HandledWithoutTokenIsNotLogin()
    ensures var res := Response(200, "{}", Some(JObj(map[])));
            HandleResponse(res) == Success(Some(JObj(map[]))) && LoginUser(res) == Failure(Error(INVALID_CREDENTIALS))
  {
  }
}
