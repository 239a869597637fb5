/** The senior registration page of client/src/pages/SeniorSignup.js: names, phone and
    address, a checkbox list of needs and a preferred language chosen from a fixed list;
    the registration is sent straight to the server, not through the session store. */
module SeniorSignup {
  import opened Common
  import opened Text
  import opened Lists
  import AccountForms
  import Api

  /** The needs offered as checkboxes. */
  const NeedOptions: seq<string> := ["tech_help", "groceries", "transport", "companionship", "household_help"]

  /** The languages offered in the select, after its empty "Select one" option. */
  const LanguageOptions: seq<string> := ["English", "French", "Mandarin", "Arabic", "Spanish"]

  datatype SeniorForm = SeniorForm(
    firstName: string,
    lastName: string,
    phone: string,
    address: string,
    needs: seq<string>,
    language: string)

  /** The initial form, and what `resetForm` restores. */
  const EmptySeniorForm: SeniorForm := SeniorForm("", "", "", "", [], "")

  datatype SeniorField = FirstName | LastName | Phone | Address | Needs | Language

  const NeedsRequired: string := "Select at least one need."
  const LanguageRequired: string := "Select a preferred language."

  /** The inputs `onChange` writes, by their `name`. */
  datatype TextInput = FirstNameInput | LastNameInput | PhoneInput | AddressInput | LanguageInput

  function Edited(form: SeniorForm, input: TextInput, value: string): (r: SeniorForm)
    ensures input == FirstNameInput ==> r == form.(firstName := value)
    ensures input == LastNameInput ==> r == form.(lastName := value)
    ensures input == PhoneInput ==> r == form.(phone := value)
    ensures input == AddressInput ==> r == form.(address := value)
    ensures input == LanguageInput ==> r == form.(language := value)
  {
    match input
    case FirstNameInput => form.(firstName := value)
    case LastNameInput => form.(lastName := value)
    case PhoneInput => form.(phone := value)
    case AddressInput => form.(address := value)
    case LanguageInput => form.(language := value)
  }

  /** The form `validate` accepts. */
  predicate FormValid(form: SeniorForm) {
    && !IsBlank(form.firstName) && !IsBlank(form.lastName)
    && !IsBlank(form.phone) && !IsBlank(form.address)
    && form.needs != [] && form.language != []
  }

  /** `validate`: one message per failed rule, each rule about its own field. */
  function Validate(form: SeniorForm): (errors: map<SeniorField, string>)
    ensures (FirstName in errors <==> IsBlank(form.firstName))
            && (FirstName in errors ==> errors[FirstName] == AccountForms.FirstNameRequired)
    ensures (LastName in errors <==> IsBlank(form.lastName))
            && (LastName in errors ==> errors[LastName] == AccountForms.LastNameRequired)
    ensures (Phone in errors <==> IsBlank(form.phone))
            && (Phone in errors ==> errors[Phone] == AccountForms.PhoneRequired)
    ensures (Address in errors <==> IsBlank(form.address))
            && (Address in errors ==> errors[Address] == AccountForms.AddressRequired)
    ensures (Needs in errors <==> form.needs == []) && (Needs in errors ==> errors[Needs] == NeedsRequired)
    ensures (Language in errors <==> form.language == [])
            && (Language in errors ==> errors[Language] == LanguageRequired)
  {
    var e1 := AccountForms.Note(map[], AccountForms.TrimsToEmpty(form.firstName), FirstName, AccountForms.FirstNameRequired);
    var e2 := AccountForms.Note(e1, AccountForms.TrimsToEmpty(form.lastName), LastName, AccountForms.LastNameRequired);
    var e3 := AccountForms.Note(e2, AccountForms.TrimsToEmpty(form.phone), Phone, AccountForms.PhoneRequired);
    var e4 := AccountForms.Note(e3, AccountForms.TrimsToEmpty(form.address), Address, AccountForms.AddressRequired);
    var e5 := AccountForms.Note(e4, |form.needs| == 0, Needs, NeedsRequired);
    AccountForms.Note(e5, form.language == [], Language, LanguageRequired)
  }

  /** The form is accepted exactly when every rule holds. */
  lemma ValidateAccepts(form: SeniorForm)
    ensures Validate(form) == map[] <==> FormValid(form)
  {
    var errors := Validate(form);
    if errors == map[] {
      assert FirstName !in errors && LastName !in errors && Phone !in errors;
      assert Address !in errors && Needs !in errors && Language !in errors;
    } else {
      var f :| f in errors;
      match f
      case FirstName =>
      case LastName =>
      case Phone =>
      case Address =>
      case Needs =>
      case Language =>
    }
  }

  /** The body sent to `createSenior`: trimmed text fields, needs and language as chosen. */
  function Payload(form: SeniorForm): (p: Api.SeniorPayload)
    ensures p.firstName == Trim(form.firstName) && p.lastName == Trim(form.lastName)
    ensures p.phone == Trim(form.phone) && p.address == Trim(form.address)
    ensures p.needs == form.needs && p.language == form.language
  {
    Api.SeniorPayload(Trim(form.firstName), Trim(form.lastName), Trim(form.phone), Trim(form.address),
                      form.needs, form.language)
  }

  /** What a valid form sends: non-empty names, phone, address, needs and language, the
      text fields already trimmed (trimming them again changes nothing). */
  lemma ValidFormPayload(form: SeniorForm)
    requires FormValid(form)
    ensures var p := Payload(form);
            p.firstName != [] && p.lastName != [] && p.phone != [] && p.address != []
            && p.needs != [] && p.language != []
            && Trim(p.firstName) == p.firstName && Trim(p.lastName) == p.lastName
            && Trim(p.phone) == p.phone && Trim(p.address) == p.address
  {
    TrimIdempotent(form.firstName);
    TrimIdempotent(form.lastName);
    TrimIdempotent(form.phone);
    TrimIdempotent(form.address);
  }

  /** The success text: the id is mentioned only when it is truthy (present and non-zero). */
  function RegisteredMessage(seniorId: Option<int>): (m: string)
    ensures seniorId.Some? && seniorId.value != 0 ==>
              m == "Senior registered (ID: " + ShowInt(seniorId.value) + ")."
    ensures seniorId.None? || seniorId == Some(0) ==> m == "Senior registered."
  {
    var suffix := if seniorId.Some? && seniorId.value != 0 then " (ID: " + ShowInt(seniorId.value) + ")" else "";
    "Senior registered" + suffix + "."
  }

  /** The text for a rejected registration: the server's `error`, then its `message`, then a
      fixed fallback; the client error's own message is never shown. */
  function ErrorMessage(e: ApiError): (r: string)
    ensures r != []
    ensures e.dataError != [] ==> r == e.dataError
    ensures e.dataError == [] && e.dataMessage != [] ==> r == e.dataMessage
    ensures e.dataError == [] && e.dataMessage == [] ==> r == "Could not register senior. Please try again."
  {
    if e.dataError != [] then e.dataError
    else if e.dataMessage != [] then e.dataMessage
    else "Could not register senior. Please try again."
  }

  datatype SeniorSignupState = SeniorSignupState(
    form: SeniorForm,
    errors: map<SeniorField, string>,
    status: Status)

  const InitialState: SeniorSignupState := SeniorSignupState(EmptySeniorForm, map[], IdleStatus)

  datatype Outcome = Outcome(state: SeniorSignupState, effects: seq<Api.Effect>)

  /** `onSubmit`: a rejected form sends nothing; an accepted one is registered, after which
      the form is reset on success or kept on failure. */
  function Submitted(s: SeniorSignupState, response: Result<Option<int>>): (o: Outcome)
    ensures o.state.errors == Validate(s.form)
    ensures !FormValid(s.form) ==> o == Outcome(s.(errors := Validate(s.form), status := IdleStatus), [])
    ensures FormValid(s.form) ==> o.effects == [Api.Request(Api.CreateSeniorCall(Payload(s.form)))]
    ensures FormValid(s.form) && response.Ok? ==>
              o.state == SeniorSignupState(EmptySeniorForm, map[], Status(Success, RegisteredMessage(response.value)))
    ensures FormValid(s.form) && response.Err? ==>
              o.state == SeniorSignupState(s.form, map[], Status(Error, ErrorMessage(response.error)))
  {
    ValidateAccepts(s.form);
    var errors := Validate(s.form);
    if errors != map[] then Outcome(s.(errors := errors, status := IdleStatus), [])
    else
      var sent := [Api.Request(Api.CreateSeniorCall(Payload(s.form)))];
      match response
      case Ok(id) => Outcome(SeniorSignupState(EmptySeniorForm, map[], Status(Success, RegisteredMessage(id))), sent)
      case Err(e) => Outcome(SeniorSignupState(s.form, errors, Status(Error, ErrorMessage(e))), sent)
  }

  /** The needs are distinct and come from the checkbox list; the language is empty or one
      of the offered languages. */
  predicate Choices(form: SeniorForm) {
    && NoDuplicates(form.needs)
    && (forall k :: 0 <= k < |form.needs| ==> form.needs[k] in NeedOptions)
    && (form.language == [] || form.language in LanguageOptions)
  }

  /** Ticking or unticking an offered need keeps the choices well formed. */
  lemma ToggleNeedKeepsChoices(form: SeniorForm, need: string)
    requires Choices(form) && need in NeedOptions
    ensures Choices(form.(needs := Toggle(form.needs, need)))
  {
    if need in form.needs {
      RemoveAllNoDuplicates(form.needs, need);
      var r := Toggle(form.needs, need);
      forall k | 0 <= k < |r| ensures r[k] in NeedOptions {
        assert r[k] in multiset(r);
      }
    } else {
      var r := form.needs + [need];
      assert forall k :: 0 <= k < |form.needs| ==> r[k] == form.needs[k];
    }
  }

  /** Whatever the page sends names only offered needs, without repeats, and an offered
      language. */
  lemma SentChoicesAreOffered(s: SeniorSignupState, response: Result<Option<int>>)
    requires Choices(s.form)
    requires Submitted(s, response).effects != []
    ensures var p := Submitted(s, response).effects[0].call.senior;
            p.needs != [] && NoDuplicates(p.needs) && (forall k :: 0 <= k < |p.needs| ==> p.needs[k] in NeedOptions)
            && p.language in LanguageOptions
  {
  }

  class SeniorSignupPage {
    var form: SeniorForm
    var errors: map<SeniorField, string>
    var status: Status
    /** Registration requests, in order. */
    var effects: seq<Api.Effect>

    function State(): SeniorSignupState
      reads this
    {
      SeniorSignupState(form, errors, status)
    }

    predicate Valid()
      reads this
    {
      Choices(form)
    }

    constructor ()
      ensures Valid() && State() == InitialState && effects == []
    {
      form, errors, status := EmptySeniorForm, map[], IdleStatus;
      effects := [];
    }

    /** A text input; the language comes from the select, so it is empty or offered. */
    method Change(input: TextInput, value: string)
      requires Valid()
      requires input == LanguageInput ==> value == [] || value in LanguageOptions
      modifies this
      ensures Valid()
      ensures State() == old(State()).(form := Edited(old(form), input, value)) && effects == old(effects)
    {
      form := Edited(form, input, value);
    }

    /** The checkbox of an offered need. */
    method ToggleNeed(need: string)
      requires Valid() && need in NeedOptions
      modifies this
      ensures Valid()
      ensures State() == old(State()).(form := old(form).(needs := Toggle(old(form.needs), need)))
      ensures effects == old(effects)
    {
      ToggleNeedKeepsChoices(form, need);
      var next := if need in form.needs then RemoveAll(form.needs, need) else form.needs + [need];
      form := form.(needs := next);
    }

    method Submit(response: Result<Option<int>>)
      requires Valid()
      modifies this
      ensures Valid()
      ensures State() == Submitted(old(State()), response).state
      ensures effects == old(effects) + Submitted(old(State()), response).effects
    {
      status := IdleStatus;
      errors := Validate(form);
      ValidateAccepts(form);
      if errors != map[] {
        return;
      }
      effects := effects + [Api.Request(Api.CreateSeniorCall(Payload(form)))];
      match response
      case Ok(id) =>
        status := Status(Success, RegisteredMessage(id));
        errors := map[];
        form := EmptySeniorForm;
      case Err(e) =>
        status := Status(Error, ErrorMessage(e));
    }
  }
}
