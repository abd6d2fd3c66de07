/** The sign-up page of src/app/auth/register/page.tsx: six form fields updated
    one at a time by `handleChange`, and `handleSignUp`, which clears the error,
    refuses mismatched passwords locally, posts the form with `confirmPassword`
    sent as `rePassword` and without `birthDate`, and on success alerts and
    navigates to the sign-in page. */
module RegisterPage {
  import opened Js
  import opened Browser
  import Api

  const PASSWORDS_DIFFER := "Passwords do not match!"
  const REGISTER_FAILED := "Failed to register"
  const REGISTERED := "Registration successful! Please log in."
  const SIGN_IN_PATH := "/auth/signin"

  /** The `name` attributes of the six inputs. */
  datatype FieldName = Name | Email | Phone | BirthDate | Password | ConfirmPassword

  datatype Form = Form(name: string, email: string, phone: string, birthDate: string,
                       password: string, confirmPassword: string)

  const EmptyForm := Form("", "", "", "", "", "")

  function FieldValue(f: Form, n: FieldName): string {
    match n
    case Name => f.name
    case Email => f.email
    case Phone => f.phone
    case BirthDate => f.birthDate
    case Password => f.password
    case ConfirmPassword => f.confirmPassword
  }

  /** handleChange: `{ ...formData, [name]: value }`. */
  function WithField(f: Form, n: FieldName, value: string): (r: Form)
    ensures FieldValue(r, n) == value
    ensures forall m :: m != n ==> FieldValue(r, m) == FieldValue(f, m)
  {
    match n
    case Name => f.(name := value)
    case Email => f.(email := value)
    case Phone => f.(phone := value)
    case BirthDate => f.(birthDate := value)
    case Password => f.(password := value)
    case ConfirmPassword => f.(confirmPassword := value)
  }

  /** Two forms that agree on every field are the same form. */
  lemma FormsEqualByFields(f: Form, g: Form)
    requires forall m :: FieldValue(f, m) == FieldValue(g, m)
    ensures f == g
  {
    assert FieldValue(f, Name) == FieldValue(g, Name);
    assert FieldValue(f, Email) == FieldValue(g, Email);
    assert FieldValue(f, Phone) == FieldValue(g, Phone);
    assert FieldValue(f, BirthDate) == FieldValue(g, BirthDate);
    assert FieldValue(f, Password) == FieldValue(g, Password);
    assert FieldValue(f, ConfirmPassword) == FieldValue(g, ConfirmPassword);
  }

  /** Typing a field's current value back into it changes nothing, and a later
      change of the same field overrides an earlier one. */
  lemma WithFieldLaws(f: Form, n: FieldName, v: string, w: string)
    ensures WithField(f, n, FieldValue(f, n)) == f
    ensures WithField(WithField(f, n, v), n, w) == WithField(f, n, w)
  {
    FormsEqualByFields(WithField(f, n, FieldValue(f, n)), f);
    FormsEqualByFields(WithField(WithField(f, n, v), n, w), WithField(f, n, w));
  }

  /** The JSON body of the sign-up request. */
  function Body(f: Form): (b: Api.SignUpBody)
    ensures b.rePassword == f.confirmPassword && b.password == f.password
    ensures b.name == f.name && b.email == f.email && b.phone == f.phone
  {
    Api.SignUpBody(f.name, f.email, f.password, f.confirmPassword, f.phone)
  }

  /** The birth date never reaches the request. */
  lemma BodyOmitsBirthDate(f: Form, birthDate: string)
    ensures Body(f.(birthDate := birthDate)) == Body(f)
  {
  }

  /** How the awaited `fetch` and `res.json()` end: one of them rejects with a
      message, or both resolve with the status flag and the parsed body. */
  datatype SignUpReply = Threw(message: string) | Replied(ok: bool, data: Json)

  /** The message of `new Error(data.message || "Failed to register")`; reading
      `message` of a `null` body throws a TypeError instead. */
  function FailureMessage(data: Json): (m: string)
    ensures data == JNull ==> m == NullReadMessage("message")
    ensures data != JNull ==> m == Api.MessageOr(data, REGISTER_FAILED)
  {
    if data == JNull then NullReadMessage("message") else Api.MessageOr(data, REGISTER_FAILED)
  }

  datatype State = State(form: Form, error: string, sent: seq<Api.Request>,
                         notices: seq<Notice>, navigations: seq<string>)

  const Initial := State(EmptyForm, "", [], [], [])

  /** handleSignUp, on the reply of the sign-up call. */
  function SignUp(s: State, reply: SignUpReply): (r: State)
    ensures r.form == s.form
    // Mismatched passwords: a local error and no request.
    ensures s.form.password != s.form.confirmPassword ==>
              r == s.(error := PASSWORDS_DIFFER)
    ensures s.form.password == s.form.confirmPassword ==>
              r.sent == s.sent + [Api.SignUp(Body(s.form))]
    // Only a successful reply navigates, and then to the sign-in page with no error shown.
    ensures r.navigations != s.navigations <==>
              s.form.password == s.form.confirmPassword && reply.Replied? && reply.ok
    ensures r.navigations != s.navigations ==>
              r.navigations == s.navigations + [SIGN_IN_PATH] && r.error == ""
              && r.notices == s.notices + [Alert(REGISTERED)]
    ensures s.form.password == s.form.confirmPassword && reply.Replied? && !reply.ok ==>
              r.error == FailureMessage(reply.data)
    ensures s.form.password == s.form.confirmPassword && reply.Threw? ==> r.error == reply.message
  {
    var cleared := s.(error := "");
    if s.form.password != s.form.confirmPassword then
      cleared.(error := PASSWORDS_DIFFER)
    else
      var posted := cleared.(sent := s.sent + [Api.SignUp(Body(s.form))]);
      match reply
      case Threw(m) => posted.(error := m)
      case Replied(ok, data) =>
        if !ok then posted.(error := FailureMessage(data))
        else posted.(notices := s.notices + [Alert(REGISTERED)], navigations := s.navigations + [SIGN_IN_PATH])
  }

  /** The error of an earlier submission never survives a new one. */
  lemma PreviousErrorIsCleared(s: State, earlier: string, reply: SignUpReply)
    ensures SignUp(s.(error := earlier), reply) == SignUp(s, reply)
  {
  }

  /** A server-supplied string message is shown as it is. */
  lemma ServerMessageShown(s: State, message: string, fields: map<string, Json>)
    requires s.form.password == s.form.confirmPassword
    requires message != ""
    ensures SignUp(s, Replied(false, JObj(fields["message" := JStr(message)]))).error == message
  {
  }

  class Page {
    var form: Form
    var error: string
    var sent: seq<Api.Request>
    var notices: seq<Notice>
    var navigations: seq<string>

    function Snapshot(): State
      reads this
    {
      State(form, error, sent, notices, navigations)
    }

    constructor ()
      ensures Snapshot() == Initial
    {
      form := EmptyForm;
      error := "";
      sent := [];
      notices := [];
      navigations := [];
    }

    method HandleChange(name: FieldName, value: string)
      modifies this
      ensures Snapshot() == old(Snapshot()).(form := WithField(old(form), name, value))
    {
      form := WithField(form, name, value);
    }

    method HandleSignUp(reply: SignUpReply)
      modifies this
      ensures Snapshot() == SignUp(old(Snapshot()), reply)
    {
      error := "";
      if form.password != form.confirmPassword {
        error := PASSWORDS_DIFFER;
        return;
      }
      sent := sent + [Api.SignUp(Api.SignUpBody(form.name, form.email, form.password, form.confirmPassword, form.phone))];
      match reply {
        case Threw(m) =>
          error := m;
        case Replied(ok, data) =>
          if !ok {
            var message := if data == JNull then NullReadMessage("message") else Api.MessageOr(data, REGISTER_FAILED);
            error := message;
          } else {
            notices := notices + [Alert(REGISTERED)];
            navigations := navigations + [SIGN_IN_PATH];
          }
      }
    }
  }
}
