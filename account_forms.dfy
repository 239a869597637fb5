/** The account form shared, line for line, by the generic sign-up page
    (client/src/pages/Signup.js) and the student sign-up page
    (client/src/pages/StudentSignup.js): its fields, the required-field and e-mail rules
    of `validate`, the payload built on submit and the merge done when an address
    suggestion is picked. */
module AccountForms {
  import opened Common
  import opened Text
  import Api

  datatype AccountForm = AccountForm(
    firstName: string,
    lastName: string,
    email: string,
    phone: string,
    address: string,
    latitude: Option<real>,
    longitude: Option<real>,
    password: string)

  /** The initial form, and what `resetForm` restores. */
  const EmptyForm: AccountForm := AccountForm("", "", "", "", "", None, None, "")

  datatype Field = FirstName | LastName | Email | Phone | Address | Password

  const FirstNameRequired: string := "First name is required."
  const LastNameRequired: string := "Last name is required."
  const EmailRequired: string := "Email is required."
  const InvalidEmail: string := "Enter a valid email."
  const PhoneRequired: string := "Phone is required."
  const AddressRequired: string := "Address is required."
  const PasswordRequired: string := "Password is required."

  /** `[^\s@]`: a character the e-mail pattern accepts in each of its three parts. */
  predicate EmailChar(c: char) {
    !IsSpace(c) && c != '@'
  }

  /** `[^\s@]+`. */
  predicate EmailPiece(p: string) {
    |p| > 0 && forall k :: 0 <= k < |p| ==> EmailChar(p[k])
  }

  /** `s` read as `a@b.c` with each part matching `[^\s@]+`. */
  predicate IsEmailSplit(s: string, a: string, b: string, c: string) {
    s == a + "@" + b + "." + c && EmailPiece(a) && EmailPiece(b) && EmailPiece(c)
  }

  /** What `/^[^\s@]+@[^\s@]+\.[^\s@]+$/.test(s)` accepts, read off the pattern. */
  ghost predicate MatchesEmailPattern(s: string) {
    exists a, b, c :: IsEmailSplit(s, a, b, c)
  }

  /** The same test by positions: no white space, exactly one `@`, after a non-empty local
      part, and a later `.` with at least one character on each side. */
  predicate EmailTest(s: string) {
    && NoSpace(s) && multiset(s)['@'] == 1
    && exists i, j | 0 < i && i + 1 < j && j + 1 < |s| :: s[i] == '@' && s[j] == '.'
  }

  /** `s[i]` is the only occurrence of `c` exactly when `c` occurs once. */
  lemma OnlyOccurrence(s: string, i: nat, c: char)
    requires i < |s| && s[i] == c
    ensures multiset(s)[c] == 1 <==> forall k :: 0 <= k < |s| && k != i ==> s[k] != c
  {
    var a, b := s[..i], s[i + 1..];
    assert s == a + [c] + b;
    assert multiset(s)[c] == multiset(a)[c] + 1 + multiset(b)[c];
    if multiset(s)[c] == 1 {
      forall k | 0 <= k < |s| && k != i ensures s[k] != c {
        if k < i {
          assert s[k] in a;
        } else {
          assert s[k] == b[k - i - 1];
          assert s[k] in b;
        }
      }
    }
    if forall k :: 0 <= k < |s| && k != i ==> s[k] != c {
      assert c !in a by {
        forall k | 0 <= k < |a| ensures a[k] != c { assert a[k] == s[k]; }
      }
      assert c !in b by {
        forall k | 0 <= k < |b| ensures b[k] != c { assert b[k] == s[i + 1 + k]; }
      }
    }
  }

  /** The positional test is exactly the pattern, backtracking included: the domain may
      hold further dots before the one the pattern splits at. */
  lemma EmailTestIsPattern(s: string)
    ensures EmailTest(s) <==> MatchesEmailPattern(s)
  {
    if EmailTest(s) {
      EmailTestSplits(s);
    }
    if MatchesEmailPattern(s) {
      var a, b, c :| IsEmailSplit(s, a, b, c);
      SplitPassesEmailTest(s, a, b, c);
    }
  }

  lemma EmailTestSplits(s: string)
    requires EmailTest(s)
    ensures MatchesEmailPattern(s)
  {
    var i, j :| 0 < i && i + 1 < j && j + 1 < |s| && s[i] == '@' && s[j] == '.';
    OnlyOccurrence(s, i, '@');
    SplitAround(s, i, j);
    PieceBetween(s, 0, i, i);
    PieceBetween(s, i + 1, j, i);
    PieceBetween(s, j + 1, |s|, i);
    assert IsEmailSplit(s, s[..i], s[i + 1..j], s[j + 1..]);
  }

  /** `s` cut at the `@` at `i` and the `.` at `j`. */
  lemma SplitAround(s: string, i: nat, j: nat)
    requires i < j < |s| && s[i] == '@' && s[j] == '.'
    ensures s == s[..i] + "@" + s[i + 1..j] + "." + s[j + 1..]
  {
    var a, b, c := s[..i], s[i + 1..j], s[j + 1..];
    var t := a + "@" + b + "." + c;
    forall k | 0 <= k < |s| ensures t[k] == s[k] {
      if k < i {
        assert t[k] == a[k];
      } else if k < j {
        assert k == i || t[k] == b[k - i - 1];
      } else if k > j {
        assert t[k] == c[k - j - 1];
      }
    }
  }

  /** A non-empty stretch of `s` avoiding the one `@` at `at` and white space is a piece. */
  lemma PieceBetween(s: string, lo: nat, hi: nat, at: nat)
    requires lo < hi <= |s| && (at < lo || hi <= at) && NoSpace(s)
    requires forall k :: 0 <= k < |s| && k != at ==> s[k] != '@'
    ensures EmailPiece(s[lo..hi])
  {
    forall k | 0 <= k < hi - lo ensures EmailChar(s[lo..hi][k]) {
      assert s[lo..hi][k] == s[lo + k];
    }
  }

  lemma SplitPassesEmailTest(s: string, a: string, b: string, c: string)
    requires IsEmailSplit(s, a, b, c)
    ensures EmailTest(s)
  {
    var i, j := |a|, |a| + 1 + |b|;
    assert s[i] == '@' && s[j] == '.';
    forall k | 0 <= k < |s| && k != i ensures EmailChar(s[k]) {
      if k < i {
        assert s[k] == a[k];
      } else if k < j {
        assert s[k] == b[k - i - 1];
      } else if k > j {
        assert s[k] == c[k - j - 1];
      }
    }
    OnlyOccurrence(s, i, '@');
  }

  /** The second e-mail rule: a non-empty (untrimmed) value the pattern rejects. */
  predicate BadEmail(email: string) {
    email != [] && !EmailTest(email)
  }

  /** The form `validate` accepts. */
  predicate FormValid(form: AccountForm) {
    && !IsBlank(form.firstName) && !IsBlank(form.lastName) && !IsBlank(form.email)
    && !BadEmail(form.email)
    && !IsBlank(form.phone) && !IsBlank(form.address) && !IsBlank(form.password)
  }

  /** `validate`: the errors it records in `nextErrors`, one rule after the other; the
      e-mail format rule runs after the required rule and overwrites its message. The form
      is accepted exactly when nothing was recorded (ValidateAccepts). */
  function Validate(form: AccountForm): map<Field, string> {
    RecordErrors(
      TrimsToEmpty(form.firstName), TrimsToEmpty(form.lastName), TrimsToEmpty(form.email),
      BadEmail(form.email),
      TrimsToEmpty(form.phone), TrimsToEmpty(form.address), TrimsToEmpty(form.password))
  }

  /** Each required field is flagged, with its own message, exactly when it is blank. */
  lemma ValidateRequired(form: AccountForm)
    ensures var errors := Validate(form);
            && (FirstName in errors <==> IsBlank(form.firstName))
            && (FirstName in errors ==> errors[FirstName] == FirstNameRequired)
            && (LastName in errors <==> IsBlank(form.lastName))
            && (LastName in errors ==> errors[LastName] == LastNameRequired)
            && (Phone in errors <==> IsBlank(form.phone))
            && (Phone in errors ==> errors[Phone] == PhoneRequired)
            && (Address in errors <==> IsBlank(form.address))
            && (Address in errors ==> errors[Address] == AddressRequired)
            && (Password in errors <==> IsBlank(form.password))
            && (Password in errors ==> errors[Password] == PasswordRequired)
  {
  }

  /** The e-mail is flagged when blank or malformed, and the format message wins. */
  lemma ValidateEmail(form: AccountForm)
    ensures var errors := Validate(form);
            && (Email in errors <==> IsBlank(form.email) || BadEmail(form.email))
            && (Email in errors ==> errors[Email] == if BadEmail(form.email) then InvalidEmail else EmailRequired)
  {
  }

  /** `Object.keys(nextErrors).length === 0`: nothing is recorded exactly for a valid form. */
  lemma ValidateAccepts(form: AccountForm)
    ensures Validate(form) == map[] <==> FormValid(form)
  {
    RecordErrorsEmpty(
      TrimsToEmpty(form.firstName), TrimsToEmpty(form.lastName), TrimsToEmpty(form.email),
      BadEmail(form.email),
      TrimsToEmpty(form.phone), TrimsToEmpty(form.address), TrimsToEmpty(form.password));
  }

  /** Every check passed exactly when no rule recorded anything. */
  lemma RecordErrorsEmpty(blankFirst: bool, blankLast: bool, blankEmail: bool, badEmail: bool,
                          blankPhone: bool, blankAddress: bool, blankPassword: bool)
    ensures RecordErrors(blankFirst, blankLast, blankEmail, badEmail, blankPhone, blankAddress, blankPassword) == map[]
            <==> !blankFirst && !blankLast && !blankEmail && !badEmail && !blankPhone && !blankAddress && !blankPassword
  {
  }

  /** The rules of `validate` applied in order to the outcome of each check. */
  function RecordErrors(blankFirst: bool, blankLast: bool, blankEmail: bool, badEmail: bool,
                        blankPhone: bool, blankAddress: bool, blankPassword: bool)
    : (errors: map<Field, string>)
    ensures (FirstName in errors <==> blankFirst) && (FirstName in errors ==> errors[FirstName] == FirstNameRequired)
    ensures (LastName in errors <==> blankLast) && (LastName in errors ==> errors[LastName] == LastNameRequired)
    ensures (Email in errors <==> blankEmail || badEmail)
            && (Email in errors ==> errors[Email] == if badEmail then InvalidEmail else EmailRequired)
    ensures (Phone in errors <==> blankPhone) && (Phone in errors ==> errors[Phone] == PhoneRequired)
    ensures (Address in errors <==> blankAddress) && (Address in errors ==> errors[Address] == AddressRequired)
    ensures (Password in errors <==> blankPassword) && (Password in errors ==> errors[Password] == PasswordRequired)
  {
    var e1 := Note(map[], blankFirst, FirstName, FirstNameRequired);
    var e2 := Note(e1, blankLast, LastName, LastNameRequired);
    var e3 := Note(e2, blankEmail, Email, EmailRequired);
    var e4 := Note(e3, badEmail, Email, InvalidEmail);
    var e5 := Note(e4, blankPhone, Phone, PhoneRequired);
    var e6 := Note(e5, blankAddress, Address, AddressRequired);
    Note(e6, blankPassword, Password, PasswordRequired)
  }

  /** `!value.trim()`. */
  function TrimsToEmpty(value: string): (b: bool)
    ensures b <==> IsBlank(value)
  {
    Trim(value) == []
  }

  /** `if (cond) nextErrors[field] = message;` */
  function Note<K>(errors: map<K, string>, cond: bool, field: K, message: string): (r: map<K, string>)
    ensures r.Keys == if cond then errors.Keys + {field} else errors.Keys
    ensures cond ==> r[field] == message
    ensures forall g :: g in errors && g != field ==> r[g] == errors[g]
    ensures !cond ==> r == errors
    ensures r == map[] <==> errors == map[] && !cond
  {
    if cond then errors[field := message] else errors
  }

  /** A well-formed address is never blank, so for the e-mail field the format rule alone decides. */
  lemma EmailTestNotBlank(email: string)
    requires EmailTest(email)
    ensures !IsBlank(email) && !BadEmail(email)
  {
    assert |email| > 0;
    assert !IsSpace(email[0]);
  }

  /** The payload sent on submit: text fields trimmed, the e-mail also lower-cased, the
      password and the coordinates as they are. */
  function BuildPayload(form: AccountForm): (p: Api.AccountPayload)
    ensures p.email == ToLower(Trim(form.email))
    ensures p.firstName == Trim(form.firstName) && p.lastName == Trim(form.lastName)
    ensures p.phone == Trim(form.phone) && p.address == Trim(form.address)
    ensures p.password == form.password
    ensures p.latitude == form.latitude && p.longitude == form.longitude
  {
    Api.AccountPayload(
      ToLower(Trim(form.email)), form.password,
      Trim(form.firstName), Trim(form.lastName), Trim(form.phone), Trim(form.address),
      form.latitude, form.longitude)
  }

  /** What a valid form sends: non-empty names, phone and address, and an e-mail that still
      passes the pattern after trimming and lower-casing. */
  lemma ValidFormPayload(form: AccountForm)
    requires FormValid(form)
    ensures var p := BuildPayload(form);
            p.firstName != [] && p.lastName != [] && p.phone != [] && p.address != []
            && EmailTest(p.email)
  {
    EmailTestNotBlank(form.email);
    TrimNoSpace(form.email);
    ToLowerKeepsEmailTest(form.email);
  }

  /** Lower-casing touches only letters, so it keeps white space, `@` and `.` where they are. */
  lemma ToLowerKeepsEmailTest(e: string)
    requires EmailTest(e)
    ensures EmailTest(ToLower(e))
  {
    var i, j :| 0 < i && i + 1 < j && j + 1 < |e| && e[i] == '@' && e[j] == '.';
    var l := ToLower(e);
    assert l[i] == '@' && l[j] == '.';
    OnlyOccurrence(e, i, '@');
    OnlyOccurrence(l, i, '@');
    forall k | 0 <= k < |l| ensures !IsSpace(l[k]) {
      assert !IsSpace(e[k]);
    }
  }

  /** `onSelect(formatted, place)`: the chosen address replaces the text; a coordinate the
      place supplies replaces the old one, a missing one (`lat ?? prev.latitude`) keeps it. */
  function SelectAddress(form: AccountForm, formatted: string, lat: Option<real>, lng: Option<real>)
    : (r: AccountForm)
    ensures r.address == formatted
    ensures lat.Some? ==> r.latitude == lat
    ensures lat.None? ==> r.latitude == form.latitude
    ensures lng.Some? ==> r.longitude == lng
    ensures lng.None? ==> r.longitude == form.longitude
    ensures r.(address := form.address, latitude := form.latitude, longitude := form.longitude) == form
  {
    form.(
      address := formatted,
      latitude := if lat.Some? then lat else form.latitude,
      longitude := if lng.Some? then lng else form.longitude)
  }

  /** A suggestion without geometry after one with geometry keeps the earlier coordinates. */
  lemma SelectWithoutGeometryKeepsCoordinates(form: AccountForm, first: string, second: string, lat: real, lng: real)
    ensures var r := SelectAddress(SelectAddress(form, first, Some(lat), Some(lng)), second, None, None);
            r.address == second && r.latitude == Some(lat) && r.longitude == Some(lng)
  {
  }
}
