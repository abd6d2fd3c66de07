/** The sign-in page of src/app/auth/signin/page.tsx: `handleSignIn` clears the
    error, submits the two inputs to the session library, and either shows
    "Invalid email or password" or reads the session, stores its access token
    under "userToken" when there is one, and navigates home. */
module SignInPage {
  import opened Js
  import opened Browser

  const INVALID_LOGIN := "Invalid email or password"
  const HOME := "/"

  /** The credentials handed to `signIn("credentials", ...)`. */
  datatype Credentials = Credentials(email: string, password: string)

  /** How `signIn` ends: it rejects, or it resolves with `result?.error`, where ""
      stands for no error (or no result). */
  datatype SignInOutcome = SignInThrew | SignInSettled(error: string)

  /** How reading `/api/auth/session` ends: it rejects, or yields `session?.accessToken`. */
  datatype SessionReply = SessionThrew | SessionLoaded(accessToken: Option<string>)

  /** The page's observable state together with the contents of local storage. */
  datatype State = State(email: string, password: string, error: string,
                         attempts: seq<Credentials>, navigations: seq<string>,
                         storage: map<string, string>)

  /** handleSignIn, on the outcomes of `signIn` and of the session fetch. A
      rejection of either stops the handler where it is. */
  function SignIn(s: State, result: SignInOutcome, session: SessionReply): (r: State)
    ensures r.email == s.email && r.password == s.password
    ensures r.attempts == s.attempts + [Credentials(s.email, s.password)]
    // A reported error shows the fixed message, stores nothing and stays on the page.
    ensures r.error == (if result.SignInSettled? && result.error != "" then INVALID_LOGIN else "")
    ensures result.SignInSettled? && result.error != "" ==>
              r.storage == s.storage && r.navigations == s.navigations
    // Success navigates home; the token is stored exactly when the session has one.
    ensures r.navigations != s.navigations <==>
              result == SignInSettled("") && session.SessionLoaded?
    ensures r.navigations != s.navigations ==> r.navigations == s.navigations + [HOME]
    ensures r.storage != s.storage ==>
              result == SignInSettled("") && session.SessionLoaded? && Present(session.accessToken)
    ensures result == SignInSettled("") && session.SessionLoaded? && Present(session.accessToken) ==>
              r.storage == s.storage[USER_TOKEN := session.accessToken.value]
  {
    var cleared := s.(error := "", attempts := s.attempts + [Credentials(s.email, s.password)]);
    match result
    case SignInThrew => cleared
    case SignInSettled(e) =>
      if e != "" then cleared.(error := INVALID_LOGIN)
      else
        match session
        case SessionThrew => cleared
        case SessionLoaded(token) =>
          var stored := if Present(token) then s.storage[USER_TOKEN := token.value] else s.storage;
          cleared.(storage := stored, navigations := s.navigations + [HOME])
  }

  /** A stored token is written under "userToken" only; no other key changes. */
  lemma OnlyUserTokenChanges(s: State, result: SignInOutcome, session: SessionReply, key: string)
    requires key != USER_TOKEN
    ensures (key in SignIn(s, result, session).storage) == (key in s.storage)
    ensures key in s.storage ==> SignIn(s, result, session).storage[key] == s.storage[key]
  {
  }

  class Page {
    const storage: LocalStorage
    var email: string
    var password: string
    var error: string
    var attempts: seq<Credentials>
    var navigations: seq<string>

    function Snapshot(): State
      reads this, storage
    {
      State(email, password, error, attempts, navigations, storage.items)
    }

    constructor (storage: LocalStorage)
      ensures this.storage == storage
      ensures Snapshot() == State("", "", "", [], [], storage.items)
    {
      this.storage := storage;
      email := "";
      password := "";
      error := "";
      attempts := [];
      navigations := [];
    }

    method HandleEmailChange(value: string)
      modifies this
      ensures Snapshot() == old(Snapshot()).(email := value)
    {
      email := value;
    }

    method HandlePasswordChange(value: string)
      modifies this
      ensures Snapshot() == old(Snapshot()).(password := value)
    {
      password := value;
    }

    method HandleSignIn(result: SignInOutcome, session: SessionReply)
      modifies this, storage
      ensures Snapshot() == SignIn(old(Snapshot()), result, session)
    {
      error := "";
      attempts := attempts + [Credentials(email, password)];
      if result.SignInThrew? {
        return;
      }
      if result.error != "" {
        error := INVALID_LOGIN;
        return;
      }
      if session.SessionThrew? {
        return;
      }
      if Present(session.accessToken) {
        storage.SetItem(USER_TOKEN, session.accessToken.value);
      }
      navigations := navigations + [HOME];
    }
  }
}
