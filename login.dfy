/** The login page of client/src/pages/Login.js: the credentials go through the session
    store, and a successful login sends the user to the home page of their role. */
module Login {
  import opened Common
  import opened Text
  import Api
  import Auth
  import Signup

  datatype LoginState = LoginState(email: string, password: string, status: Status)

  const InitialState: LoginState := LoginState("", "", IdleStatus)

  datatype Outcome = Outcome(state: LoginState, effects: seq<Api.Effect>)

  /** Where a role lands after logging in. */
  function HomeOf(role: string): (path: string)
    ensures path == "/senior/home" <==> role == "senior"
    ensures path == "/admin" <==> role == "admin"
    ensures path == "/student/home" <==> role != "senior" && role != "admin"
  {
    if role == "senior" then "/senior/home"
    else if role == "admin" then "/admin"
    else "/student/home"
  }

  /** Logging in lands a senior or a student where signing up did. */
  lemma LoginAgreesWithSignup(role: string)
    requires role != "admin"
    ensures HomeOf(role) == Signup.Destination(role)
  {
  }

  /** The text for a rejected login: server `error`, server `message`, the client error's
      message, then a fixed fallback. */
  function ErrorMessage(e: ApiError): (r: string)
    ensures r != []
    ensures e.dataError != [] ==> r == e.dataError
    ensures e.dataError == [] && e.dataMessage != [] ==> r == e.dataMessage
    ensures e.dataError == [] && e.dataMessage == [] && e.message != [] ==> r == e.message
    ensures e.dataError == [] && e.dataMessage == [] && e.message == [] ==> r == "Could not log in."
  {
    if e.dataError != [] then e.dataError
    else if e.dataMessage != [] then e.dataMessage
    else if e.message != [] then e.message
    else "Could not log in."
  }

  /** `onSubmit` up to its await: the status shows "Signing in..." and the login request
      carries the trimmed, lower-cased e-mail and the password as typed. */
  function Started(s: LoginState): (o: Outcome)
    ensures o.state == s.(status := Status(Loading, "Signing in..."))
    ensures o.effects == [Api.AuthLogin(ToLower(Trim(s.email)), s.password)]
  {
    Outcome(s.(status := Status(Loading, "Signing in...")), [Api.AuthLogin(ToLower(Trim(s.email)), s.password)])
  }

  /** `onSubmit` once the login settled: success reports and navigates to the role's home,
      failure shows the error; the form is kept either way. */
  function Settled(s: LoginState, response: Result<Auth.AuthData>): (o: Outcome)
    ensures o.state.email == s.email && o.state.password == s.password
    ensures response.Ok? ==>
              o.state.status == Status(Success, "Logged in.")
              && o.effects == [Api.Navigate(HomeOf(response.value.user.role))]
    ensures response.Err? ==> o.state.status == Status(Error, ErrorMessage(response.error)) && o.effects == []
  {
    match response
    case Ok(data) => Outcome(s.(status := Status(Success, "Logged in.")), [Api.Navigate(HomeOf(data.user.role))])
    case Err(e) => Outcome(s.(status := Status(Error, ErrorMessage(e))), [])
  }

  /** The whole of `onSubmit`: the loading state of Started is always left again, for the
      success or the error of Settled. */
  function Submitted(s: LoginState, response: Result<Auth.AuthData>): (o: Outcome)
    ensures o.state.email == s.email && o.state.password == s.password
    ensures o.state.status.kind != Loading
    ensures |o.effects| >= 1 && o.effects[0] == Api.AuthLogin(ToLower(Trim(s.email)), s.password)
    ensures response.Ok? ==>
              o.state.status == Status(Success, "Logged in.")
              && o.effects[1..] == [Api.Navigate(HomeOf(response.value.user.role))]
    ensures response.Err? ==>
              o.state.status == Status(Error, ErrorMessage(response.error)) && |o.effects| == 1
  {
    var started := Started(s);
    var settled := Settled(started.state, response);
    Outcome(settled.state, started.effects + settled.effects)
  }

  /** The e-mail sent is the same whatever surrounding white space or capitals were typed. */
  lemma SentEmailIgnoresCase(s: LoginState, t: LoginState, response: Result<Auth.AuthData>)
    requires ToLower(Trim(s.email)) == ToLower(Trim(t.email)) && s.password == t.password
    ensures Submitted(s, response).effects == Submitted(t, response).effects
  {
  }

  datatype Input = EmailInput | PasswordInput

  class LoginPage {
    var email: string
    var password: string
    var status: Status
    /** Login requests and navigations, in order. */
    var effects: seq<Api.Effect>

    function State(): LoginState
      reads this
    {
      LoginState(email, password, status)
    }

    constructor ()
      ensures State() == InitialState && effects == []
    {
      email, password, status := "", "", IdleStatus;
      effects := [];
    }

    method Change(input: Input, value: string)
      modifies this
      ensures input == EmailInput ==> State() == old(State()).(email := value)
      ensures input == PasswordInput ==> State() == old(State()).(password := value)
      ensures effects == old(effects)
    {
      match input
      case EmailInput => email := value;
      case PasswordInput => password := value;
    }

    /** The submit up to the await of the login request. */
    method Start()
      modifies this
      ensures State() == Started(old(State())).state
      ensures effects == old(effects) + Started(old(State())).effects
    {
      status := Status(Loading, "Signing in...");
      effects := effects + [Api.AuthLogin(ToLower(Trim(email)), password)];
    }

    /** The rest of the submit, once the login request settled. */
    method Settle(response: Result<Auth.AuthData>)
      modifies this
      ensures State() == Settled(old(State()), response).state
      ensures effects == old(effects) + Settled(old(State()), response).effects
    {
      match response
      case Ok(data) =>
        status := Status(Success, "Logged in.");
        effects := effects + [Api.Navigate(HomeOf(data.user.role))];
      case Err(e) =>
        status := Status(Error, ErrorMessage(e));
    }

    method Submit(response: Result<Auth.AuthData>)
      modifies this
      ensures State() == Submitted(old(State()), response).state
      ensures effects == old(effects) + Submitted(old(State()), response).effects
    {
      Start();
      Settle(response);
    }
  }
}
