/** The two account sign-up pages: client/src/pages/Signup.js, where the visitor picks the
    role, and client/src/pages/StudentSignup.js, which always registers a student. Both
    validate the same form, send the same payload through the session store and reset the
    form on success; they differ in the success message, the fallback error text and
    whether `error.message` is consulted. */
module Signup {
  import opened Common
  import opened Text
  import AccountForms
  import Api
  import Auth

  datatype Page = GeneralSignup | StudentSignup

  datatype SignupState = SignupState(
    role: string,
    form: AccountForms.AccountForm,
    errors: map<AccountForms.Field, string>,
    status: Status)

  const InitialState: SignupState := SignupState("student", AccountForms.EmptyForm, map[], IdleStatus)

  datatype Outcome = Outcome(state: SignupState, effects: seq<Api.Effect>)

  /** The role sent: the selected one on the general page, "student" on the student page. */
  function RoleOf(page: Page, selected: string): (r: string)
    ensures page == StudentSignup ==> r == "student"
    ensures page == GeneralSignup ==> r == selected
  {
    if page == GeneralSignup then selected else "student"
  }

  function SuccessMessage(page: Page): string {
    if page == GeneralSignup then "Account created." else "Student account created."
  }

  /** The home page a freshly registered account is sent to. */
  function Destination(role: string): (path: string)
    ensures path == "/senior/home" <==> role == "senior"
    ensures path == "/student/home" <==> role != "senior"
  {
    if role == "senior" then "/senior/home" else "/student/home"
  }

  /** The text shown for a rejected sign-up: the server's `error`, then its `message`, then
      (on the general page only) the client error's own message, then a fixed fallback. */
  function ErrorMessage(page: Page, e: ApiError): (r: string)
    ensures r != []
    ensures e.dataError != [] ==> r == e.dataError
    ensures e.dataError == [] && e.dataMessage != [] ==> r == e.dataMessage
    ensures page == GeneralSignup && e.dataError == [] && e.dataMessage == [] ==>
              r == if e.message != [] then e.message else "Could not register. Please try again."
    ensures page == StudentSignup && e.dataError == [] && e.dataMessage == [] ==>
              r == "Could not register student. Please try again."
  {
    if e.dataError != [] then e.dataError
    else if e.dataMessage != [] then e.dataMessage
    else if page == GeneralSignup then
      if e.message != [] then e.message else "Could not register. Please try again."
    else "Could not register student. Please try again."
  }

  /** The two pages disagree on a rejection that carries only a client-side message. */
  lemma PagesDisagreeOnClientMessage(m: string)
    requires m != []
    ensures ErrorMessage(GeneralSignup, ApiError("", "", m)) == m
    ensures ErrorMessage(StudentSignup, ApiError("", "", m)) != m
            || m == "Could not register student. Please try again."
  {
  }

  /** `onChange` for the input named after `field`: that field takes `value`, nothing else
      moves. */
  function Edited(form: AccountForms.AccountForm, field: AccountForms.Field, value: string)
    : (r: AccountForms.AccountForm)
    ensures field == AccountForms.FirstName ==> r == form.(firstName := value)
    ensures field == AccountForms.LastName ==> r == form.(lastName := value)
    ensures field == AccountForms.Email ==> r == form.(email := value)
    ensures field == AccountForms.Phone ==> r == form.(phone := value)
    ensures field == AccountForms.Address ==> r == form.(address := value)
    ensures field == AccountForms.Password ==> r == form.(password := value)
  {
    match field
    case FirstName => form.(firstName := value)
    case LastName => form.(lastName := value)
    case Email => form.(email := value)
    case Phone => form.(phone := value)
    case Address => form.(address := value)
    case Password => form.(password := value)
  }

  /** `onSubmit`: the status is cleared and the form validated; a rejected form sends
      nothing. An accepted one is sent through `signup`; on success the form is reset and
      the visitor is sent to the role's home page, on failure the form is kept and the
      error shown. */
  function Submitted(page: Page, s: SignupState, response: Result<Auth.AuthData>): (o: Outcome)
    ensures o.state.errors == AccountForms.Validate(s.form)
    ensures !AccountForms.FormValid(s.form) ==>
              o == Outcome(s.(errors := AccountForms.Validate(s.form), status := IdleStatus), [])
    ensures AccountForms.FormValid(s.form) ==>
              o == Sent(page, s.(errors := map[], status := IdleStatus), response)
  {
    AccountForms.ValidateAccepts(s.form);
    var checked := s.(errors := AccountForms.Validate(s.form), status := IdleStatus);
    if checked.errors != map[] then Outcome(checked, []) else Sent(page, checked, response)
  }

  /** The `try` block of `onSubmit`, reached with an accepted form. */
  function Sent(page: Page, s: SignupState, response: Result<Auth.AuthData>): (o: Outcome)
    ensures |o.effects| >= 1
    ensures o.effects[0] == Api.AuthSignup(RoleOf(page, s.role), AccountForms.BuildPayload(s.form))
    ensures response.Ok? ==>
              o.state == s.(form := AccountForms.EmptyForm, errors := map[], status := Status(Success, SuccessMessage(page)))
              && o.effects[1..] == [Api.Navigate(Destination(RoleOf(page, s.role)))]
    ensures response.Err? ==>
              o.state == s.(status := Status(Error, ErrorMessage(page, response.error))) && |o.effects| == 1
  {
    var role := RoleOf(page, s.role);
    var sent := [Api.AuthSignup(role, AccountForms.BuildPayload(s.form))];
    match response
    case Ok(_) =>
      Outcome(s.(form := AccountForms.EmptyForm, errors := map[], status := Status(Success, SuccessMessage(page))),
              sent + [Api.Navigate(Destination(role))])
    case Err(e) => Outcome(s.(status := Status(Error, ErrorMessage(page, e))), sent)
  }

  /** "Please fix the errors above." is shown while errors are recorded and the status is
      not a success. */
  predicate FixHintShown(s: SignupState) {
    s.errors != map[] && s.status.kind != Success
  }

  /** After a submission the hint is shown exactly when the form was rejected. */
  lemma FixHintAfterSubmit(page: Page, s: SignupState, response: Result<Auth.AuthData>)
    ensures FixHintShown(Submitted(page, s, response).state) <==> !AccountForms.FormValid(s.form)
  {
    AccountForms.ValidateAccepts(s.form);
  }

  /** Whatever a page sends carries non-empty names, phone and address and an e-mail that
      still passes the pattern. */
  lemma SentPayloadIsValid(page: Page, s: SignupState, response: Result<Auth.AuthData>)
    requires |Submitted(page, s, response).effects| >= 1
    ensures var e := Submitted(page, s, response).effects[0];
            e.AuthSignup? && e.account.firstName != [] && e.account.lastName != []
            && e.account.phone != [] && e.account.address != [] && AccountForms.EmailTest(e.account.email)
  {
    AccountForms.ValidFormPayload(s.form);
  }

  /** Submitting again straight after a success sends nothing: the reset form is rejected. */
  lemma ResubmitAfterSuccessSendsNothing(page: Page, s: SignupState, first: Auth.AuthData,
                                         second: Result<Auth.AuthData>)
    requires AccountForms.FormValid(s.form)
    ensures Submitted(page, Submitted(page, s, Ok(first)).state, second).effects == []
  {
    assert IsBlank(AccountForms.EmptyForm.firstName);
  }

  class SignupPage {
    const page: Page
    var role: string
    var form: AccountForms.AccountForm
    var errors: map<AccountForms.Field, string>
    var status: Status
    /** Sign-up requests and navigations, in order. */
    var effects: seq<Api.Effect>

    function State(): SignupState
      reads this
    {
      SignupState(role, form, errors, status)
    }

    constructor (page0: Page)
      ensures page == page0 && State() == InitialState && effects == []
    {
      page := page0;
      role, form, errors, status := "student", AccountForms.EmptyForm, map[], IdleStatus;
      effects := [];
    }

    /** The Student / Senior toggle, present on the general page only. */
    method SetRole(selected: string)
      requires page == GeneralSignup
      modifies this
      ensures State() == old(State()).(role := selected) && effects == old(effects)
    {
      role := selected;
    }

    method Change(field: AccountForms.Field, value: string)
      modifies this
      ensures State() == old(State()).(form := Edited(old(form), field, value)) && effects == old(effects)
    {
      form := Edited(form, field, value);
    }

    /** The address picker's `onSelect`. */
    method SelectAddress(formatted: string, lat: Option<real>, lng: Option<real>)
      modifies this
      ensures State() == old(State()).(form := AccountForms.SelectAddress(old(form), formatted, lat, lng))
      ensures effects == old(effects)
    {
      form := AccountForms.SelectAddress(form, formatted, lat, lng);
    }

    method Submit(response: Result<Auth.AuthData>)
      modifies this
      ensures State() == Submitted(page, old(State()), response).state
      ensures effects == old(effects) + Submitted(page, old(State()), response).effects
    {
      Check();
      if errors == map[] {
        Send(response);
      }
    }

    /** The status reset and `validate()` at the start of `onSubmit`. */
    method Check()
      modifies this
      ensures State() == old(State()).(errors := AccountForms.Validate(old(form)), status := IdleStatus)
      ensures effects == old(effects)
    {
      status := IdleStatus;
      errors := AccountForms.Validate(form);
    }

    method Send(response: Result<Auth.AuthData>)
      modifies this
      ensures State() == Sent(page, old(State()), response).state
      ensures effects == old(effects) + Sent(page, old(State()), response).effects
    {
      var sentRole := RoleOf(page, role);
      effects := effects + [Api.AuthSignup(sentRole, AccountForms.BuildPayload(form))];
      if response.Err? {
        status := Status(Error, ErrorMessage(page, response.error));
        return;
      }
      status := Status(Success, SuccessMessage(page));
      errors := map[];
      form := AccountForms.EmptyForm;
      effects := effects + [Api.Navigate(Destination(sentRole))];
    }
  }
}
