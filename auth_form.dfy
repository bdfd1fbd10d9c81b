/** The sign-in / sign-up modal: its form validation rules and the
    transitions of its form state (field edits, the mode toggle, submit). */
module AuthForm {
  import opened Text

  /** The three input fields of the form */
  datatype Field = Email | Password | Name

  datatype FormData = FormData(email: string, password: string, name: string)
  {
    function Get(f: Field): (value: string)
    {
      match f
      case Email => email
      case Password => password
      case Name => name
    }

    function With(f: Field, value: string): (d: FormData)
      ensures d.Get(f) == value
      ensures forall g :: g != f ==> d.Get(g) == Get(g)
    {
      match f
      case Email => this.(email := value)
      case Password => this.(password := value)
      case Name => this.(name := value)
    }
  }

  const EmptyForm := FormData("", "", "")

  /** The key under which a field's error is stored (the input's `name`) */
  function Key(f: Field): (k: string)
    ensures k in FieldKeys
  {
    match f
    case Email => "email"
    case Password => "password"
    case Name => "name"
  }

  const FieldKeys: set<string> := {"email", "password", "name"}
  const SubmitKey := "submit"

  const EmailRequired := "Email is required"
  const EmailInvalid := "Email is invalid"
  const PasswordRequired := "Password is required"
  const PasswordTooShort := "Password must be at least 6 characters"
  const NameRequired := "Name is required"
  const AuthenticationFailed := "Authentication failed. Please try again."

  const MinPasswordLength := 6

  // ---------------------------------------------------------------------
  // The email pattern /\S+@\S+\.\S+/, tested without anchors

  /** `s[a..e]` has the shape `\S+ @ \S+ . \S+`, with the `@` at `p` and
      the `.` at `q` */
  ghost predicate MatchAt(s: string, a: int, p: int, q: int, e: int)
  {
    && 0 <= a < p && p + 1 < q && q + 1 < e <= |s|
    && NoWhitespace(s[a..p]) && s[p] == '@'
    && NoWhitespace(s[p + 1..q]) && s[q] == '.'
    && NoWhitespace(s[q + 1..e])
  }

  /** `/\S+@\S+\.\S+/.test(s)`: some substring of `s` matches the pattern */
  ghost predicate MatchesEmailPattern(s: string)
  {
    exists a, p, q, e :: MatchAt(s, a, p, q, e)
  }

  /** An `@` at `p` and a `.` at `q`, each with a non-whitespace character
      on both sides and only non-whitespace between them */
  predicate AtAndDotAt(s: string, p: int, q: int)
    requires 0 < p && p + 1 < q && q + 1 < |s|
  {
    && s[p] == '@' && s[q] == '.'
    && !IsWhitespace(s[p - 1]) && NoWhitespace(s[p + 1..q]) && !IsWhitespace(s[q + 1])
  }

  /** The executable form of the pattern test */
  predicate EmailTest(s: string)
    ensures EmailTest(s) ==> |s| >= 5
  {
    exists p, q | 0 < p < |s| && 0 < q < |s| && p + 1 < q && q + 1 < |s| :: AtAndDotAt(s, p, q)
  }

  /** The executable test agrees with the pattern's meaning on every string */
  lemma EmailTestMatchesPattern(s: string)
    ensures EmailTest(s) <==> MatchesEmailPattern(s)
  {
    if EmailTest(s) {
      var p, q :| 0 < p < |s| && 0 < q < |s| && p + 1 < q && q + 1 < |s| && AtAndDotAt(s, p, q);
      assert s[p - 1..p] == [s[p - 1]];
      assert s[q + 1..q + 2] == [s[q + 1]];
      assert MatchAt(s, p - 1, p, q, q + 2);
    }
    if MatchesEmailPattern(s) {
      var a, p, q, e :| MatchAt(s, a, p, q, e);
      assert s[p - 1] == s[a..p][p - 1 - a];
      assert s[q + 1] == s[q + 1..e][0];
      assert AtAndDotAt(s, p, q);
    }
  }

  // ---------------------------------------------------------------------
  // The validation rules

  /** The email rule: present and matching the pattern */
  ghost predicate EmailAcceptable(email: string)
  {
    email != "" && MatchesEmailPattern(email)
  }

  /** The password rule: at least 6 UTF-16 code units (which excludes "") */
  predicate PasswordAcceptable(password: string)
  {
    Utf16Length(password) >= MinPasswordLength
  }

  /** The name rule: required only when registering */
  predicate NameAcceptable(name: string, isLogin: bool)
  {
    isLogin || name != ""
  }

  ghost predicate RulesHold(d: FormData, isLogin: bool)
  {
    EmailAcceptable(d.email) && PasswordAcceptable(d.password) && NameAcceptable(d.name, isLogin)
  }

  /** `validateForm`'s error map, built by successive assignments: one entry
      per violated rule, holding that rule's message */
  function Validate(d: FormData, isLogin: bool): (errors: map<string, string>)
    ensures errors.Keys <= FieldKeys
    ensures "email" in errors <==> !EmailAcceptable(d.email)
    ensures d.email == "" ==> errors["email"] == EmailRequired
    ensures d.email != "" && "email" in errors ==> errors["email"] == EmailInvalid
    ensures "password" in errors <==> !PasswordAcceptable(d.password)
    ensures d.password == "" ==> errors["password"] == PasswordRequired
    ensures d.password != "" && "password" in errors ==> errors["password"] == PasswordTooShort
    ensures "name" in errors <==> !NameAcceptable(d.name, isLogin)
    ensures "name" in errors ==> errors["name"] == NameRequired
    ensures |errors| == 0 <==> RulesHold(d, isLogin)
  {
    EmailTestMatchesPattern(d.email);
    var afterEmail: map<string, string> :=
      if d.email == "" then map["email" := EmailRequired]
      else if !EmailTest(d.email) then map["email" := EmailInvalid]
      else map[];
    var afterPassword :=
      if d.password == "" then afterEmail["password" := PasswordRequired]
      else if Utf16Length(d.password) < MinPasswordLength then afterEmail["password" := PasswordTooShort]
      else afterEmail;
    var errors := if !isLogin && d.name == "" then afterPassword["name" := NameRequired] else afterPassword;
    errors
  }

  /** Signing in never reports a missing name, whatever the fields hold */
  lemma LoginHasNoNameError(d: FormData)
    ensures "name" !in Validate(d, true)
  {
  }

  // ---------------------------------------------------------------------
  // The modal's state

  /** The collaborator call `handleSubmit` makes */
  datatype AuthCall =
    | NoCall
    | LoginCall(email: string, password: string)
    | RegisterCall(email: string, password: string, name: string)

  class AuthModal {
    var isLogin: bool
    var showPassword: bool
    var formData: FormData
    var errors: map<string, string>
    /** `onClose` has been called */
    var closed: bool

    /** Errors are only ever stored under a field's key or the submit key,
        and the name field, which only the sign-up form renders, is empty
        while signing in */
    ghost predicate Valid()
      reads this
    {
      && errors.Keys <= FieldKeys + {SubmitKey}
      && (isLogin ==> formData.name == "")
    }

    constructor ()
      ensures Valid()
      ensures isLogin && !showPassword && !closed
      ensures formData == EmptyForm && errors == map[]
    {
      isLogin := true;
      showPassword := false;
      formData := EmptyForm;
      errors := map[];
      closed := false;
    }

    /** `validateForm`: stores the error map and reports whether it is empty */
    method ValidateForm() returns (ok: bool)
      requires Valid()
      modifies this`errors
      ensures Valid()
      ensures errors == Validate(formData, isLogin)
      ensures ok <==> RulesHold(formData, isLogin)
    {
      errors := Validate(formData, isLogin);
      ok := |errors| == 0;
    }

    /** `handleSubmit`; `authSucceeds` is whether the awaited login or
        register call resolves (true) or throws (false) */
    method HandleSubmit(authSucceeds: bool) returns (call: AuthCall)
      requires Valid()
      modifies this`errors, this`closed
      ensures Valid()
      ensures !RulesHold(formData, isLogin) ==>
        call == NoCall && closed == old(closed) && errors == Validate(formData, isLogin)
      ensures RulesHold(formData, isLogin) ==>
        call == if isLogin then LoginCall(formData.email, formData.password)
                else RegisterCall(formData.email, formData.password, formData.name)
      ensures RulesHold(formData, isLogin) && authSucceeds ==> closed && errors == map[]
      ensures RulesHold(formData, isLogin) && !authSucceeds ==>
        closed == old(closed) && errors == map[SubmitKey := AuthenticationFailed]
    {
      var ok := ValidateForm();
      if !ok {
        return NoCall;
      }
      if isLogin {
        call := LoginCall(formData.email, formData.password);
      } else {
        call := RegisterCall(formData.email, formData.password, formData.name);
      }
      if authSucceeds {
        closed := true;
      } else {
        errors := map[SubmitKey := AuthenticationFailed];
      }
    }

    /** `handleInputChange`: the edited field takes the new value; a
        non-empty error stored for it is blanked. The name input exists only
        in the sign-up form */
    method HandleInputChange(f: Field, value: string)
      requires Valid() && (isLogin ==> f != Name)
      modifies this`formData, this`errors
      ensures Valid()
      ensures formData.Get(f) == value
      ensures forall g :: g != f ==> formData.Get(g) == old(formData).Get(g)
      ensures errors ==
        if Key(f) in old(errors) && old(errors)[Key(f)] != "" then old(errors)[Key(f) := ""]
        else old(errors)
    {
      formData := formData.With(f, value);
      if Key(f) in errors && errors[Key(f)] != "" {
        errors := errors[Key(f) := ""];
      }
    }

    /** The "Sign Up" / "Sign In" link */
    method ToggleMode()
      modifies this`isLogin, this`errors, this`formData
      ensures Valid()
      ensures isLogin == !old(isLogin)
      ensures errors == map[] && formData == EmptyForm
    {
      isLogin := !isLogin;
      errors := map[];
      formData := EmptyForm;
    }

    /** The eye button beside the password */
    method TogglePasswordVisibility()
      requires Valid()
      modifies this`showPassword
      ensures Valid()
      ensures showPassword == !old(showPassword)
    {
      showPassword := !showPassword;
    }

    /** The backdrop and the close button */
    method Close()
      requires Valid()
      modifies this`closed
      ensures Valid()
      ensures closed
    {
      closed := true;
    }
  }

  /** What a caller can conclude from the contracts alone */
  method SubmitScenario()
  {
    var modal := new AuthModal();
    var call := modal.HandleSubmit(true);
    assert "email" in Validate(modal.formData, modal.isLogin);
    assert call == NoCall && !modal.closed;
    assert modal.errors["email"] == EmailRequired && modal.errors["password"] == PasswordRequired;
    modal.ToggleMode();
    assert !modal.isLogin && modal.errors == map[];
    modal.HandleInputChange(Password, "abc");
    assert modal.formData.Get(Name) == "" && modal.formData.Get(Password) == "abc";
    call := modal.HandleSubmit(true);
    assert modal.errors["password"] == PasswordTooShort && modal.errors["name"] == NameRequired;
    modal.HandleInputChange(Name, "Ada");
    assert modal.formData.Get(Password) == "abc";
    assert modal.errors["name"] == "" && modal.formData.password == "abc";
  }
}
