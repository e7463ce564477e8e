/** The sign-up form (src/components/Signup.jsx): four text inputs and a terms check box,
    a validator that reports at most one message per field, and a submit handler that
    registers and stores the session. */
module Signup {
  import opened Common
  import opened Patterns
  import opened Forms
  import opened AuthSession
  import Storage

  /** The names the component's dictionaries use: the four inputs, the check box, and the
      submission's own error. */
  datatype Field = Username | Email | Password | ConfirmPassword | Terms | Api

  // ---------------------------------------------------------------------------
  // Per-field checks, first failure wins
  // ---------------------------------------------------------------------------

  function UsernameError(u: string): (r: Option<string>)
    ensures u == "" ==> r == Some("Username is required")
    ensures u != "" && |u| < 3 ==> r == Some("Username must be at least 3 characters")
    ensures |u| >= 3 && !UsernameMatches(u) ==> r == Some("Username can only contain letters, numbers, and underscores")
    ensures r == None <==> |u| >= 3 && UsernameMatches(u)
  {
    if u == "" then Some("Username is required")
    else if |u| < 3 then Some("Username must be at least 3 characters")
    else if !UsernameMatches(u) then Some("Username can only contain letters, numbers, and underscores")
    else None
  }

  function PasswordError(p: string): (r: Option<string>)
    ensures p == "" ==> r == Some("Password is required")
    ensures p != "" && |p| < 8 ==> r == Some("Password must be at least 8 characters")
    ensures |p| >= 8 && !PasswordMatches(p) ==> r == Some("Password must contain uppercase, lowercase, and number")
    ensures r == None <==> |p| >= 8 && PasswordMatches(p)
  {
    if p == "" then Some("Password is required")
    else if |p| < 8 then Some("Password must be at least 8 characters")
    else if !PasswordMatches(p) then Some("Password must contain uppercase, lowercase, and number")
    else None
  }

  function ConfirmError(password: string, confirm: string): (r: Option<string>)
    ensures confirm == "" ==> r == Some("Please confirm your password")
    ensures confirm != "" && confirm != password ==> r == Some("Passwords do not match")
    ensures r == None <==> confirm != "" && confirm == password
  {
    if confirm == "" then Some("Please confirm your password")
    else if password != confirm then Some("Passwords do not match")
    else None
  }

  function TermsError(agreed: bool): (r: Option<string>)
    ensures r == None <==> agreed
  {
    if !agreed then Some("You must agree to the terms and conditions") else None
  }

  /** `validateForm`'s checks, in order, each under its field. */
  function SignupChecks(form: map<Field, string>, agreed: bool): seq<(Field, Option<string>)> {
    var p := FieldValue(form, Password);
    [(Username, UsernameError(FieldValue(form, Username))),
     (Email, EmailError(FieldValue(form, Email))),
     (Password, PasswordError(p)),
     (ConfirmPassword, ConfirmError(p, FieldValue(form, ConfirmPassword))),
     (Terms, TermsError(agreed))]
  }

  /** The `newErrors` dictionary `validateForm` builds. */
  function SignupErrors(form: map<Field, string>, agreed: bool): map<Field, string> {
    Collect(SignupChecks(form, agreed))
  }

  /** Each field's entry is exactly its own check's message, whatever the other fields hold;
      a field whose checks all pass has no entry. */
  lemma SignupErrorsPerField(form: map<Field, string>, agreed: bool)
    ensures var errs := SignupErrors(form, agreed);
      var u := FieldValue(form, Username);
      var e := FieldValue(form, Email);
      var p := FieldValue(form, Password);
      var c := FieldValue(form, ConfirmPassword);
      && (Username in errs <==> UsernameError(u).Some?) && (Username in errs ==> errs[Username] == UsernameError(u).value)
      && (Email in errs <==> EmailError(e).Some?) && (Email in errs ==> errs[Email] == EmailError(e).value)
      && (Password in errs <==> PasswordError(p).Some?) && (Password in errs ==> errs[Password] == PasswordError(p).value)
      && (ConfirmPassword in errs <==> ConfirmError(p, c).Some?)
      && (ConfirmPassword in errs ==> errs[ConfirmPassword] == ConfirmError(p, c).value)
      && (Terms in errs <==> !agreed)
  {
    var checks := SignupChecks(form, agreed);
    assert DistinctFields(checks) by {
      assert Username != Email && Username != Password && Username != ConfirmPassword && Username != Terms;
      assert Email != Password && Email != ConfirmPassword && Email != Terms;
      assert Password != ConfirmPassword && Password != Terms && ConfirmPassword != Terms;
    }
    CollectLookup(checks, 0);
    CollectLookup(checks, 1);
    CollectLookup(checks, 2);
    CollectLookup(checks, 3);
    CollectLookup(checks, 4);
  }

  /** The form passes exactly when every check passes. */
  lemma SignupErrorsEmpty(form: map<Field, string>, agreed: bool)
    ensures var p := FieldValue(form, Password);
      |SignupErrors(form, agreed)| == 0
      <==> && UsernameError(FieldValue(form, Username)).None? && EmailError(FieldValue(form, Email)).None?
           && PasswordError(p).None? && ConfirmError(p, FieldValue(form, ConfirmPassword)).None? && agreed
  {
    var checks := SignupChecks(form, agreed);
    CollectEmptyFive(checks[0], checks[1], checks[2], checks[3], checks[4]);
    assert checks == [checks[0], checks[1], checks[2], checks[3], checks[4]];
  }

  /** The submission's own error is never a validation message. */
  lemma SignupErrorsOnlyFields(form: map<Field, string>, agreed: bool)
    ensures Api !in SignupErrors(form, agreed)
  {
    CollectAbsent(SignupChecks(form, agreed), Api);
  }

  /** A form the validator accepts has a username of 3 or more word characters, a matching
      email, a password of 8 or more characters with all three classes, an equal
      confirmation and the terms accepted. */
  lemma AcceptedForm(form: map<Field, string>, agreed: bool)
    requires |SignupErrors(form, agreed)| == 0
    ensures var p := FieldValue(form, Password);
      && |FieldValue(form, Username)| >= 3 && UsernameMatches(FieldValue(form, Username))
      && EmailRegexMatches(FieldValue(form, Email))
      && |p| >= 8 && HasLower(p) && HasUpper(p) && HasDigit(p)
      && FieldValue(form, ConfirmPassword) == p
      && agreed
  {
    SignupErrorsEmpty(form, agreed);
    EmailPatternIff(FieldValue(form, Email));
    PasswordNeedsAllClasses(FieldValue(form, Password));
  }

  // ---------------------------------------------------------------------------
  // What a successful registration stores
  // ---------------------------------------------------------------------------

  /** `user.username || user.name || formData.username` */
  function SignupUsername(u: UserRecord, formUsername: string): string {
    OrElse(Or(u.username, u.name), formUsername)
  }

  /** The `setItem` calls after `authAPI.register` answers `reply` for this form. */
  function SignupWrites(reply: AuthReply, form: map<Field, string>): seq<(string, string)> {
    var u := UserOf(reply);
    SessionWrites(TokenOf(reply), OrElse(u.email, FieldValue(form, Email)),
                  SignupUsername(u, FieldValue(form, Username)), StoredUserId(u))
  }

  /** The stored values follow the fallback chains: username, then name, then the form's
      username; id, then `_id`, then `''`; the reply's email, then the form's. */
  lemma SignupStoredValues(items: map<string, string>, reply: AuthReply, form: map<Field, string>)
    ensures var after := Assign(items, SignupWrites(reply, form));
      var u := UserOf(reply);
      && "username" in after && "userId" in after && "userEmail" in after
      && (Truthy(u.username) ==> after["username"] == u.username.value)
      && (!Truthy(u.username) && Truthy(u.name) ==> after["username"] == u.name.value)
      && (!Truthy(u.username) && !Truthy(u.name) ==> after["username"] == FieldValue(form, Username))
      && (Truthy(u.id) ==> after["userId"] == u.id.value)
      && (!Truthy(u.id) && Truthy(u.dbId) ==> after["userId"] == u.dbId.value)
      && (!Truthy(u.id) && !Truthy(u.dbId) ==> after["userId"] == "")
      && after["userEmail"] == (if Truthy(u.email) then u.email.value else FieldValue(form, Email))
      && (Truthy(TokenOf(reply)) ==> "authToken" in after && after["authToken"] == TokenOf(reply).value)
      && (!Truthy(TokenOf(reply)) ==> ("authToken" in after <==> "authToken" in items))
  {
    var u := UserOf(reply);
    SessionWritesEffect(items, TokenOf(reply), OrElse(u.email, FieldValue(form, Email)),
                        SignupUsername(u, FieldValue(form, Username)), StoredUserId(u));
  }

  /** What `authAPI.register` does: answers with a reply, or throws with a message. */
  datatype RegisterOutcome = Registered(reply: AuthReply) | RegisterFailed(message: Option<string>)

  /** The body sent to `authAPI.register`. */
  datatype Registration = Registration(username: string, email: string, password: string)

  const RegistrationFailedText: string := "Registration failed. Please try again."

  // ---------------------------------------------------------------------------
  // The component
  // ---------------------------------------------------------------------------

  class SignupForm {
    var formData: map<Field, string>
    var errors: map<Field, string>
    var agreedToTerms: bool
    var isLoading: bool

    constructor ()
      ensures formData == map[Username := "", Email := "", Password := "", ConfirmPassword := ""]
      ensures errors == map[] && !agreedToTerms && !isLoading
    {
      formData := map[Username := "", Email := "", Password := "", ConfirmPassword := ""];
      errors := map[];
      agreedToTerms := false;
      isLoading := false;
    }

    /** `handleChange`: sets the named input and clears that field's shown message. */
    method HandleChange(name: Field, value: string)
      modifies this
      ensures formData == old(formData)[name := value]
      ensures errors == ClearError(old(errors), name)
      ensures agreedToTerms == old(agreedToTerms) && isLoading == old(isLoading)
    {
      formData := formData[name := value];
      if name in errors && errors[name] != "" {
        errors := errors[name := ""];
      }
    }

    /** The terms check box's `onChange`. */
    method HandleTermsChange(checked: bool)
      modifies this
      ensures agreedToTerms == checked
      ensures errors == ClearError(old(errors), Terms)
      ensures formData == old(formData) && isLoading == old(isLoading)
    {
      agreedToTerms := checked;
      if Terms in errors && errors[Terms] != "" {
        errors := errors[Terms := ""];
      }
    }

    /** `validateForm`: replaces `errors` with the dictionary the checks build (see
        `SignupErrorsPerField` for what it holds) and reports whether it is empty. */
    method ValidateForm() returns (ok: bool)
      modifies this
      ensures errors == SignupErrors(formData, agreedToTerms)
      ensures ok <==> |errors| == 0
      ensures formData == old(formData) && agreedToTerms == old(agreedToTerms) && isLoading == old(isLoading)
    {
      var newErrors := SignupErrors(formData, agreedToTerms);
      errors := newErrors;
      ok := |newErrors| == 0;
    }

    /** `handleSubmit`: validate; on success send the registration, store the session from
        the reply or record the failure as `errors.api`, and end not loading. Returns the
        body sent, if any. */
    method HandleSubmit(storage: Storage.LocalStorage, outcome: RegisterOutcome) returns (sent: Option<Registration>)
      modifies this, storage
      ensures formData == old(formData) && agreedToTerms == old(agreedToTerms)
      ensures sent.None? <==> |SignupErrors(old(formData), old(agreedToTerms))| != 0
      ensures sent.None? ==> errors == SignupErrors(old(formData), old(agreedToTerms))
                             && storage.items == old(storage.items) && isLoading == old(isLoading)
      ensures sent.Some? ==> && sent.value == Registration(FieldValue(formData, Username),
                                                           FieldValue(formData, Email),
                                                           FieldValue(formData, Password))
                             && !isLoading
      ensures sent.Some? && outcome.Registered? ==>
                errors == map[] && storage.items == Assign(old(storage.items), SignupWrites(outcome.reply, formData))
      ensures sent.Some? && outcome.RegisterFailed? ==>
                errors == map[Api := OrElse(outcome.message, RegistrationFailedText)]
                && storage.items == old(storage.items)
    {
      var ok := ValidateForm();
      if !ok {
        return None;
      }
      isLoading := true;
      errors := map[];
      sent := Some(Registration(FieldValue(formData, Username), FieldValue(formData, Email),
                                FieldValue(formData, Password)));
      match outcome {
        case Registered(reply) =>
          var token := TokenOf(reply);
          var user := UserOf(reply);
          StoreSession(storage, token, OrElse(user.email, FieldValue(formData, Email)),
                       SignupUsername(user, FieldValue(formData, Username)), StoredUserId(user));
        case RegisterFailed(message) =>
          errors := map[Api := OrElse(message, RegistrationFailedText)];
      }
      isLoading := false;
    }
  }
}
