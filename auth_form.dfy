/**
 * Frontend/src/components/AuthForm/AuthForm.jsx: the client-side checks of
 * the sign-in / sign-up form and the handlers that keep its state.
 *
 * The email and phone patterns are the predicates `isEmail` and `isPhone`.
 */
module AuthForm {

  import opened Wrappers
  import Text
  import UserModel

  /** The form's inputs. */
  datatype Field = Email | Username | Password | ConfirmPassword | ContactNumber | City | State | Country

  const AllFields: set<Field> := {Email, Username, Password, ConfirmPassword, ContactNumber, City, State, Country}

  datatype FormData = FormData(
    email: string, username: string, password: string, confirmPassword: string,
    contactNumber: string, city: string, state: string, country: string)

  const EmptyForm: FormData := FormData("", "", "", "", "", "", "", "")

  function Get(form: FormData, f: Field): string
  {
    match f
    case Email => form.email
    case Username => form.username
    case Password => form.password
    case ConfirmPassword => form.confirmPassword
    case ContactNumber => form.contactNumber
    case City => form.city
    case State => form.state
    case Country => form.country
  }

  /** `{ ...prev, [name]: value }`. */
  function Set(form: FormData, f: Field, value: string): (r: FormData)
    ensures Get(r, f) == value
    ensures forall g :: g != f ==> Get(r, g) == Get(form, g)
  {
    match f
    case Email => form.(email := value)
    case Username => form.(username := value)
    case Password => form.(password := value)
    case ConfirmPassword => form.(confirmPassword := value)
    case ContactNumber => form.(contactNumber := value)
    case City => form.(city := value)
    case State => form.(state := value)
    case Country => form.(country := value)
  }

  /** `/^[a-zA-Z0-9_]+$/` without its non-empty part: every character is a word character. */
  function AllWordChars(s: string): bool
  {
    s == [] || (UserModel.IsWordChar(s[0]) && AllWordChars(s[1..]))
  }

  /** validateUsername; `length` counts UTF-16 code units. */
  function ValidateUsername(username: string): bool
  {
    3 <= Text.Utf16Length(username) <= 30 && AllWordChars(username)
  }

  /** The scan and the character-class quantifier agree. */
  lemma {:induction false} AllWordCharsIff(s: string)
    ensures AllWordChars(s) <==> forall i :: 0 <= i < |s| ==> UserModel.IsWordChar(s[i])
  {
    if s != [] {
      AllWordCharsIff(s[1..]);
      assert forall i :: 1 <= i < |s| ==> s[i] == s[1..][i - 1];
    }
  }

  /**
   * validateUsername accepts exactly the usernames that meet the schema's
   * bounds as they are: 3 to 30 letters, digits or underscores.  Such a
   * username has no white space to trim, so the server stores it unchanged.
   */
  lemma ValidateUsernameMatchesSchema(username: string)
    ensures ValidateUsername(username) <==> UserModel.UsernameOk(username)
    ensures ValidateUsername(username) <==>
      3 <= |username| <= 30 && forall i :: 0 <= i < |username| ==> UserModel.IsWordChar(username[i])
    ensures ValidateUsername(username) ==> Text.Trim(username) == username
  {
    AllWordCharsIff(username);
    if ValidateUsername(username) {
      assert !Text.IsJsWhitespace(username[0]) && !Text.IsJsWhitespace(username[|username| - 1]) by {
        assert UserModel.IsWordChar(username[0]) && UserModel.IsWordChar(username[|username| - 1]);
      }
      Text.TrimUnpadded(username);
    }
  }

  /**
   * The form is stricter than the schema about white space: the schema
   * trims a username before it checks it, the form checks it as typed.
   */
  lemma FormRefusesPaddedUsername()
    ensures !ValidateUsername(" alice1") && UserModel.UsernameOk(Text.Trim(" alice1"))
  {
    UserModel.PaddedUsernameExample();
    ValidateUsernameMatchesSchema(" alice1");
  }

  /** validatePassword: the server's minimum of 6 UTF-16 code units. */
  function ValidatePassword(password: string): (ok: bool)
    ensures ok <==> UserModel.PasswordOk(password)
    ensures |password| >= 6 ==> ok
    ensures ok ==> |password| >= 3
  {
    Text.Utf16Length(password) >= 6
  }

  /** Three characters beyond U+FFFF make six code units: a long enough password. */
  lemma AstralPasswordAccepted()
    ensures ValidatePassword("\U{1F600}\U{1F600}\U{1F600}")
  {
    var p := "\U{1F600}\U{1F600}\U{1F600}";
    assert p[..2][..1] == p[..1] && p[..1][..0] == [];
    assert p[..|p| - 1] == p[..2];
    assert Text.Utf16Length(p[..1]) == 2;
    assert Text.Utf16Length(p[..2]) == 4;
  }

  const EmailRequired: string := "Email is required"
  const EmailInvalid: string := "Please enter a valid email address"
  const PasswordRequired: string := "Password is required"
  const PasswordTooShort: string := "Password must be at least 6 characters"
  const UsernameRequired: string := "Username is required"
  const UsernameInvalid: string := "Username must be 3-30 characters (letters, numbers, underscores only)"
  const ConfirmRequired: string := "Please confirm your password"
  const PasswordsDiffer: string := "Passwords do not match"
  const PhoneInvalid: string := "Please enter a valid phone number"

  /** The email check: required first, then the pattern. */
  function EmailError(email: string, isEmail: string -> bool): Option<string>
  {
    if email == "" then Some(EmailRequired) else if !isEmail(email) then Some(EmailInvalid) else None
  }

  /** The password check: required first, then the length. */
  function PasswordError(password: string): Option<string>
  {
    if password == "" then Some(PasswordRequired) else if !ValidatePassword(password) then Some(PasswordTooShort) else None
  }

  /** The username check, in sign-up mode only. */
  function UsernameError(isSignUp: bool, username: string): Option<string>
  {
    if !isSignUp then None
    else if username == "" then Some(UsernameRequired)
    else if !ValidateUsername(username) then Some(UsernameInvalid)
    else None
  }

  /** The confirmation check, in sign-up mode only. */
  function ConfirmError(isSignUp: bool, password: string, confirmPassword: string): Option<string>
  {
    if !isSignUp then None
    else if confirmPassword == "" then Some(ConfirmRequired)
    else if password != confirmPassword then Some(PasswordsDiffer)
    else None
  }

  /** The contact-number check, in sign-up mode and only for a non-empty number. */
  function ContactError(isSignUp: bool, contactNumber: string, isPhone: string -> bool): Option<string>
  {
    if isSignUp && contactNumber != "" && !isPhone(contactNumber) then Some(PhoneInvalid) else None
  }

  /** `newErrors.f = e` when the check for `f` produced a message. */
  function With(m: map<Field, string>, f: Field, e: Option<string>): map<Field, string>
  {
    if e.Some? then m[f := e.value] else m
  }

  /** The error map `validateForm` computes: the checks in source order. */
  function ComputeErrors(form: FormData, isSignUp: bool, isEmail: string -> bool, isPhone: string -> bool)
    : map<Field, string>
  {
    var m1 := With(map[], Email, EmailError(form.email, isEmail));
    var m2 := With(m1, Password, PasswordError(form.password));
    var m3 := With(m2, Username, UsernameError(isSignUp, form.username));
    var m4 := With(m3, ConfirmPassword, ConfirmError(isSignUp, form.password, form.confirmPassword));
    With(m4, ContactNumber, ContactError(isSignUp, form.contactNumber, isPhone))
  }

  /**
   * The checks of validateForm, run one after another on a fresh error map:
   * email and password always, username, confirmation and phone in sign-up
   * mode only.  The map built is the one `ComputeErrors` specifies.
   */
  method CollectErrors(data: FormData, isSignUp: bool, isEmail: string -> bool, isPhone: string -> bool)
    returns (newErrors: map<Field, string>)
    ensures newErrors == ComputeErrors(data, isSignUp, isEmail, isPhone)
  {
    newErrors := map[];
    if data.email == "" {
      newErrors := newErrors[Email := EmailRequired];
    } else if !isEmail(data.email) {
      newErrors := newErrors[Email := EmailInvalid];
    }
    assert newErrors == With(map[], Email, EmailError(data.email, isEmail));
    ghost var m1 := newErrors;
    if data.password == "" {
      newErrors := newErrors[Password := PasswordRequired];
    } else if !ValidatePassword(data.password) {
      newErrors := newErrors[Password := PasswordTooShort];
    }
    assert newErrors == With(m1, Password, PasswordError(data.password));
    ghost var m2 := newErrors;
    if isSignUp {
      if data.username == "" {
        newErrors := newErrors[Username := UsernameRequired];
      } else if !ValidateUsername(data.username) {
        newErrors := newErrors[Username := UsernameInvalid];
      }
      assert newErrors == With(m2, Username, UsernameError(isSignUp, data.username));
      ghost var m3 := newErrors;
      if data.confirmPassword == "" {
        newErrors := newErrors[ConfirmPassword := ConfirmRequired];
      } else if data.password != data.confirmPassword {
        newErrors := newErrors[ConfirmPassword := PasswordsDiffer];
      }
      assert newErrors == With(m3, ConfirmPassword, ConfirmError(isSignUp, data.password, data.confirmPassword));
      ghost var m4 := newErrors;
      if data.contactNumber != "" && !isPhone(data.contactNumber) {
        newErrors := newErrors[ContactNumber := PhoneInvalid];
      }
      assert newErrors == With(m4, ContactNumber, ContactError(isSignUp, data.contactNumber, isPhone));
    }
  }

  /** Each key of the error map holds exactly its own check's message, and only checked fields appear. */
  lemma ErrorsByField(form: FormData, isSignUp: bool, isEmail: string -> bool, isPhone: string -> bool)
    ensures var errs := ComputeErrors(form, isSignUp, isEmail, isPhone);
      && errs.Keys <= {Email, Password, Username, ConfirmPassword, ContactNumber}
      && (Email in errs <==> EmailError(form.email, isEmail).Some?)
      && (Email in errs ==> errs[Email] == EmailError(form.email, isEmail).value)
      && (Password in errs <==> PasswordError(form.password).Some?)
      && (Password in errs ==> errs[Password] == PasswordError(form.password).value)
      && (Username in errs <==> UsernameError(isSignUp, form.username).Some?)
      && (Username in errs ==> errs[Username] == UsernameError(isSignUp, form.username).value)
      && (ConfirmPassword in errs <==> ConfirmError(isSignUp, form.password, form.confirmPassword).Some?)
      && (ConfirmPassword in errs ==>
            errs[ConfirmPassword] == ConfirmError(isSignUp, form.password, form.confirmPassword).value)
      && (ContactNumber in errs <==> ContactError(isSignUp, form.contactNumber, isPhone).Some?)
      && (ContactNumber in errs ==> errs[ContactNumber] == ContactError(isSignUp, form.contactNumber, isPhone).value)
  {
  }

  /**
   * Error precedence and scope: an empty email or password gets the
   * "required" message and never the format one; sign-in produces no
   * username, confirmation or contact-number error; a non-empty
   * confirmation that differs gets "Passwords do not match"; an empty
   * contact number is never an error.
   */
  lemma ErrorPrecedence(form: FormData, isSignUp: bool, isEmail: string -> bool, isPhone: string -> bool)
    ensures var errs := ComputeErrors(form, isSignUp, isEmail, isPhone);
      && (form.email == "" ==> Email in errs && errs[Email] == EmailRequired)
      && (form.password == "" ==> Password in errs && errs[Password] == PasswordRequired)
      && (!isSignUp ==> errs.Keys <= {Email, Password})
      && (isSignUp && form.confirmPassword != "" && form.confirmPassword != form.password ==>
            ConfirmPassword in errs && errs[ConfirmPassword] == PasswordsDiffer)
      && (form.contactNumber == "" ==> ContactNumber !in errs)
  {
    ErrorsByField(form, isSignUp, isEmail, isPhone);
  }

  /** The form is accepted exactly when every check passes. */
  lemma AcceptedExactly(form: FormData, isSignUp: bool, isEmail: string -> bool, isPhone: string -> bool)
    ensures ComputeErrors(form, isSignUp, isEmail, isPhone) == map[] <==>
      && form.email != "" && isEmail(form.email)
      && Text.Utf16Length(form.password) >= 6
      && (isSignUp ==>
            && UserModel.UsernameOk(form.username)
            && form.confirmPassword == form.password
            && (form.contactNumber == "" || isPhone(form.contactNumber)))
  {
    var errs := ComputeErrors(form, isSignUp, isEmail, isPhone);
    ErrorsByField(form, isSignUp, isEmail, isPhone);
    ValidateUsernameMatchesSchema(form.username);
    if errs != map[] {
      var f :| f in errs;
    }
  }

  /** The state the form keeps. */
  class AuthFormState {
    var isSignUp: bool
    var showPassword: bool
    var showConfirmPassword: bool
    var form: FormData
    var errors: map<Field, string>

    constructor ()
      ensures !isSignUp && !showPassword && !showConfirmPassword
      ensures form == EmptyForm && errors == map[]
    {
      isSignUp := false;
      showPassword := false;
      showConfirmPassword := false;
      form := EmptyForm;
      errors := map[];
    }

    /** handleInputChange: store the value; blank out that field's error if it had a non-empty one. */
    method HandleInputChange(name: Field, value: string)
      modifies this
      ensures form == Set(old(form), name, value)
      ensures errors == if name in old(errors) && old(errors)[name] != "" then old(errors)[name := ""] else old(errors)
      ensures forall f :: f != name ==> (f in errors <==> f in old(errors))
      ensures forall f :: f != name && f in errors ==> errors[f] == old(errors)[f]
      ensures isSignUp == old(isSignUp) && showPassword == old(showPassword)
      ensures showConfirmPassword == old(showConfirmPassword)
    {
      form := Set(form, name, value);
      if name in errors && errors[name] != "" {
        errors := errors[name := ""];
      }
    }

    /** validateForm: build the error map, store it, report whether it is empty. */
    method ValidateForm(isEmail: string -> bool, isPhone: string -> bool) returns (ok: bool)
      modifies this
      ensures errors == ComputeErrors(form, isSignUp, isEmail, isPhone)
      ensures ok <==> errors == map[]
      ensures form == old(form) && isSignUp == old(isSignUp)
      ensures showPassword == old(showPassword) && showConfirmPassword == old(showConfirmPassword)
    {
      var newErrors := CollectErrors(form, isSignUp, isEmail, isPhone);
      assert |newErrors| == 0 <==> newErrors == map[] by {
        if newErrors != map[] {
          var f :| f in newErrors;
        }
      }
      errors := newErrors;
      ok := |newErrors| == 0;
    }

    /** toggleAuthMode: flip the mode and reset the fields, the errors and both visibility toggles. */
    method ToggleAuthMode()
      modifies this
      ensures isSignUp == !old(isSignUp)
      ensures form == EmptyForm && errors == map[]
      ensures !showPassword && !showConfirmPassword
    {
      isSignUp := !isSignUp;
      form := EmptyForm;
      errors := map[];
      showPassword := false;
      showConfirmPassword := false;
    }

    /**
     * handleSubmit, up to the request: a form that fails validation is not
     * sent; otherwise the form goes to "signup" or "signin" by mode and,
     * whatever the answer, the fields and errors are reset afterwards.
     */
    method HandleSubmit(isEmail: string -> bool, isPhone: string -> bool) returns (sent: Option<(string, FormData)>)
      modifies this
      ensures sent.None? <==> ComputeErrors(old(form), old(isSignUp), isEmail, isPhone) != map[]
      ensures sent.None? ==> form == old(form) && errors == ComputeErrors(old(form), old(isSignUp), isEmail, isPhone)
      ensures sent.Some? ==> sent.value == (if old(isSignUp) then "signup" else "signin", old(form))
      ensures sent.Some? ==> form == EmptyForm && errors == map[]
      ensures isSignUp == old(isSignUp)
      ensures showPassword == old(showPassword) && showConfirmPassword == old(showConfirmPassword)
    {
      var ok := ValidateForm(isEmail, isPhone);
      if !ok {
        return None;
      }
      sent := Some((if isSignUp then "signup" else "signin", form));
      form := EmptyForm;
      errors := map[];
    }
  }
}
