/** The login form (src/components/Login.jsx): email and password inputs, a validator, a
    submit handler that stores the session from the login reply, and the social sign-in
    path that stores the session from the social-auth reply. */
module Login {
  import opened Common
  import opened Patterns
  import opened Forms
  import opened AuthSession
  import Storage
  import Api

  /** The names the component's dictionaries use. */
  datatype Field = Email | Password | Api

  // ---------------------------------------------------------------------------
  // Validation
  // ---------------------------------------------------------------------------

  /** The password is only required; there is no length or character rule. */
  function PasswordError(p: string): (r: Option<string>)
    ensures r.None? <==> p != ""
    ensures r.Some? ==> r.value == "Password is required"
  {
    if p == "" then Some("Password is required") else None
  }

  /** `validateForm`'s checks, in order. */
  function LoginChecks(form: map<Field, string>): seq<(Field, Option<string>)> {
    [(Email, EmailError(FieldValue(form, Email))), (Password, PasswordError(FieldValue(form, Password)))]
  }

  /** The `newErrors` dictionary `validateForm` builds. */
  function LoginErrors(form: map<Field, string>): map<Field, string> {
    Collect(LoginChecks(form))
  }

  /** Each field's entry is its own check's message; `api` never appears; the form passes
      exactly when the email matches the pattern and the password is non-empty. */
  lemma LoginErrorsPerField(form: map<Field, string>)
    ensures var errs := LoginErrors(form);
      var e := FieldValue(form, Email);
      var p := FieldValue(form, Password);
      && (Email in errs <==> EmailError(e).Some?) && (Email in errs ==> errs[Email] == EmailError(e).value)
      && (Password in errs <==> p == "") && (Password in errs ==> errs[Password] == "Password is required")
      && Api !in errs
      && (|errs| == 0 <==> EmailLooksValid(e) && p != "")
  {
    var checks := LoginChecks(form);
    assert DistinctFields(checks);
    CollectLookup(checks, 0);
    CollectLookup(checks, 1);
    CollectAbsent(checks, Api);
    CollectEmptyTwo(checks[0], checks[1]);
    assert checks == [checks[0], checks[1]];
  }

  /** A one-character password passes, unlike on the sign-up form. */
  lemma ShortPasswordAccepted()
    ensures |LoginErrors(map[Email := "a@b.co", Password := "x"])| == 0
  {
    var form := map[Email := "a@b.co", Password := "x"];
    assert FieldValue(form, Email) == "a@b.co";
    assert EmailWitness("a@b.co", 1, 3);
    LoginErrorsPerField(form);
  }

  // ---------------------------------------------------------------------------
  // What a successful login stores
  // ---------------------------------------------------------------------------

  /** `s.split('@')[0]`: the text before the first `@`, or all of `s` when it has none. */
  function BeforeAt(s: string): (r: string)
    ensures StartsWith(s, r)
    ensures forall k :: 0 <= k < |r| ==> r[k] != '@'
    ensures |r| < |s| ==> s[|r|] == '@'
  {
    if s == [] || s[0] == '@' then [] else [s[0]] + BeforeAt(s[1..])
  }

  /** `user.email?.split('@')[0]`: absent when the email is. */
  function EmailLocalPart(email: Option<string>): Option<string> {
    if email.Some? then Some(BeforeAt(email.value)) else None
  }

  /** `user.username || user.name || user.email?.split('@')[0] || 'User'` */
  function LoginUsername(u: UserRecord): string {
    OrElse(Or(Or(u.username, u.name), EmailLocalPart(u.email)), "User")
  }

  /** The fallback chain on concrete records: the local part of the email, and `User` when
      the email starts with `@`. */
  lemma LoginUsernameExamples()
    ensures LoginUsername(UserRecord(None, None, Some("ann@x.io"), None, None)) == "ann"
    ensures LoginUsername(UserRecord(None, None, Some("@x.io"), None, None)) == "User"
    ensures LoginUsername(UserRecord(None, None, Some("ann@x.io"), Some(""), Some("Ann"))) == "Ann"
    ensures LoginUsername(UserRecord(None, None, None, None, None)) == "User"
  {
    assert BeforeAt("ann@x.io") == "ann" by {
      assert "ann@x.io"[1..] == "nn@x.io";
      assert "nn@x.io"[1..] == "n@x.io";
      assert "n@x.io"[1..] == "@x.io";
    }
  }

  /** The `setItem` calls after `authAPI.login` answers `reply` for this form. */
  function LoginWrites(reply: AuthReply, form: map<Field, string>): seq<(string, string)> {
    var u := UserOf(reply);
    SessionWrites(TokenOf(reply), OrElse(u.email, FieldValue(form, Email)), LoginUsername(u), StoredUserId(u))
  }

  /** The stored username is the first truthy of username, name and the email's local part,
      else `User`; the stored id and email follow their chains as on sign-up. */
  lemma LoginStoredValues(items: map<string, string>, reply: AuthReply, form: map<Field, string>)
    ensures var after := Assign(items, LoginWrites(reply, form));
      var u := UserOf(reply);
      var local := if u.email.Some? then BeforeAt(u.email.value) else "";
      && "username" in after && "userId" in after && "userEmail" in after
      && (Truthy(u.username) ==> after["username"] == u.username.value)
      && (!Truthy(u.username) && Truthy(u.name) ==> after["username"] == u.name.value)
      && (!Truthy(u.username) && !Truthy(u.name) && local != "" ==> after["username"] == local)
      && (!Truthy(u.username) && !Truthy(u.name) && local == "" ==> after["username"] == "User")
      && (Truthy(u.id) ==> after["userId"] == u.id.value)
      && (!Truthy(u.id) && Truthy(u.dbId) ==> after["userId"] == u.dbId.value)
      && (!Truthy(u.id) && !Truthy(u.dbId) ==> after["userId"] == "")
      && after["userEmail"] == (if Truthy(u.email) then u.email.value else FieldValue(form, Email))
      && (Truthy(TokenOf(reply)) ==> "authToken" in after && after["authToken"] == TokenOf(reply).value)
      && (!Truthy(TokenOf(reply)) ==> ("authToken" in after <==> "authToken" in items))
  {
    var u := UserOf(reply);
    SessionWritesEffect(items, TokenOf(reply), OrElse(u.email, FieldValue(form, Email)), LoginUsername(u), StoredUserId(u));
  }

  // ---------------------------------------------------------------------------
  // Social sign-in
  // ---------------------------------------------------------------------------

  /** `result.user` as `signInWithGoogle` builds it from the provider's account, and
      `result.token`. A field the account lacks is `null` there, never `undefined`, so
      `None` stands for `null` in these two types. */
  datatype ProviderUser = ProviderUser(provider: Option<string>, id: Option<string>, email: Option<string>,
                                       username: Option<string>, avatar: Option<string>)
  datatype SignInResult = SignInResult(user: ProviderUser, token: Option<string>)

  /** The body sent to `authAPI.socialAuth`. */
  datatype SocialAuthRequest = SocialAuthRequest(provider: Option<string>, providerId: Option<string>,
                                                 email: Option<string>, username: Option<string>,
                                                 avatar: Option<string>, firebaseToken: Option<string>)

  /** What a backend call does: answers with a reply, or throws with a message. */
  datatype AuthOutcome = Answered(reply: AuthReply) | Failed(message: Option<string>)

  function SocialRequest(result: SignInResult): (req: SocialAuthRequest)
    ensures req.providerId == result.user.id && req.email == result.user.email
    ensures req.username == result.user.username && req.firebaseToken == result.token
    ensures req.provider == result.user.provider && req.avatar == result.user.avatar
  {
    var p := result.user;
    SocialAuthRequest(p.provider, p.id, p.email, p.username, p.avatar, result.token)
  }

  /** The message of the `TypeError` thrown by calling the missing `authAPI.socialAuth`, in
      V8's wording on an unminified build; other engines and minified bundles word it
      differently, and only the text changes. */
  const SocialAuthMissingText: string := "authAPI.socialAuth is not a function"

  /** `authAPI.socialAuth(...)` on an API object with the given members: when `socialAuth`
      is one of them the request goes out and the backend's outcome comes back; otherwise
      the property is `undefined`, and calling it throws a `TypeError` before any request
      is sent. */
  function SocialAuthCall(members: set<string>, result: SignInResult, backend: AuthOutcome)
    : (r: (Option<SocialAuthRequest>, AuthOutcome))
    ensures r.0.Some? <==> "socialAuth" in members
    ensures r.0.Some? ==> r.0.value == SocialRequest(result) && r.1 == backend
    ensures r.0.None? ==> r.1 == Failed(Some(SocialAuthMissingText))
  {
    if "socialAuth" in members then (Some(SocialRequest(result)), backend)
    else (None, Failed(Some(SocialAuthMissingText)))
  }

  /** As written: `authAPI` defines no `socialAuth`, so for every sign-in result and whatever
      the backend would answer, nothing is sent and the call fails with the `TypeError`. */
  lemma SocialAuthAsWritten(result: SignInResult, backend: AuthOutcome)
    ensures SocialAuthCall(Api.AuthApiMembers, result, backend) == (None, Failed(Some(SocialAuthMissingText)))
  {
    Api.SocialAuthUndefined();
  }

  /** As intended: with a `socialAuth` member the provider's data reaches the backend and
      its answer is what the handler sees. */
  lemma SocialAuthIntended(result: SignInResult, backend: AuthOutcome)
    ensures SocialAuthCall(Api.AuthApiMembers + {"socialAuth"}, result, backend) == (Some(SocialRequest(result)), backend)
  {
  }

  /** What `setItem` stores for a provider field: the string itself, or `"null"`. */
  function ProviderString(o: Option<string>): (r: string)
    ensures o.Some? ==> r == o.value
    ensures o.None? ==> r == "null"
  {
    if o.Some? then o.value else "null"
  }

  /** The `setItem` calls after the social-auth endpoint answers `reply`: each stored value
      falls back to the provider's own, which is stored as `"null"` when the account lacks
      it. */
  function SocialWrites(reply: AuthReply, p: ProviderUser): seq<(string, string)> {
    var u := UserOf(reply);
    SessionWrites(TokenOf(reply), ProviderString(Or(u.email, p.email)), ProviderString(Or(u.username, p.username)),
                  ProviderString(Or(Or(u.id, u.dbId), p.id)))
  }

  /** On the social path the id falls back from the backend's id to `_id` to the provider's
      id, and email and username fall back to the provider's; a provider field that is
      `null` is stored as `"null"`. */
  lemma SocialStoredValues(items: map<string, string>, reply: AuthReply, p: ProviderUser)
    ensures var after := Assign(items, SocialWrites(reply, p));
      var u := UserOf(reply);
      && "username" in after && "userId" in after && "userEmail" in after
      && (Truthy(u.id) ==> after["userId"] == u.id.value)
      && (!Truthy(u.id) && Truthy(u.dbId) ==> after["userId"] == u.dbId.value)
      && (!Truthy(u.id) && !Truthy(u.dbId) ==> after["userId"] == ProviderString(p.id))
      && after["userEmail"] == (if Truthy(u.email) then u.email.value else ProviderString(p.email))
      && after["username"] == (if Truthy(u.username) then u.username.value else ProviderString(p.username))
      && (!Truthy(u.email) && p.email.None? ==> after["userEmail"] == "null")
      && (Truthy(TokenOf(reply)) ==> "authToken" in after && after["authToken"] == TokenOf(reply).value)
  {
    var u := UserOf(reply);
    SessionWritesEffect(items, TokenOf(reply), ProviderString(Or(u.email, p.email)), ProviderString(Or(u.username, p.username)),
                        ProviderString(Or(Or(u.id, u.dbId), p.id)));
  }

  const BackendAuthFailedText: string := "Failed to authenticate with backend"
  const GoogleSignInFailedText: string := "Failed to sign in with Google"

  /** `handleSocialAuthSuccess` against an API object with the given members: sends the
      provider's data to the backend when it can; on an answer stores the session, and on
      any failure, the missing-member `TypeError` included, stores nothing and returns the
      error toast's text. */
  method HandleSocialAuthSuccess(storage: Storage.LocalStorage, members: set<string>, result: SignInResult,
                                 backend: AuthOutcome)
    returns (sent: Option<SocialAuthRequest>, failure: Option<string>)
    modifies storage
    ensures sent.Some? <==> "socialAuth" in members
    ensures sent.Some? ==> sent.value == SocialRequest(result)
    ensures "socialAuth" !in members ==> failure == Some(SocialAuthMissingText) && storage.items == old(storage.items)
    ensures "socialAuth" in members && backend.Answered? ==>
              failure.None? && storage.items == Assign(old(storage.items), SocialWrites(backend.reply, result.user))
    ensures "socialAuth" in members && backend.Failed? ==>
              failure == Some(OrElse(backend.message, BackendAuthFailedText)) && storage.items == old(storage.items)
  {
    var call := SocialAuthCall(members, result, backend);
    sent := call.0;
    match call.1 {
      case Answered(reply) =>
        var u := UserOf(reply);
        StoreSession(storage, TokenOf(reply), ProviderString(Or(u.email, result.user.email)),
                     ProviderString(Or(u.username, result.user.username)),
                     ProviderString(Or(Or(u.id, u.dbId), result.user.id)));
        failure := None;
      case Failed(message) =>
        failure := Some(OrElse(message, BackendAuthFailedText));
    }
  }

  /** What the provider's sign-in pop-up does: yields a result, or throws with a message. */
  datatype SignInOutcome = SignedIn(result: SignInResult) | SignInFailed(message: Option<string>)

  // ---------------------------------------------------------------------------
  // The component
  // ---------------------------------------------------------------------------

  /** The body sent to `authAPI.login`. */
  datatype Credentials = Credentials(email: string, password: string)

  const LoginFailedText: string := "Login failed. Please check your credentials and try again."

  class LoginForm {
    var formData: map<Field, string>
    var errors: map<Field, string>
    var isLoading: bool
    var socialLoading: bool

    constructor ()
      ensures formData == map[Email := "", Password := ""]
      ensures errors == map[] && !isLoading && !socialLoading
    {
      formData := map[Email := "", Password := ""];
      errors := map[];
      isLoading := false;
      socialLoading := false;
    }

    /** `handleChange`: sets the named input and clears that field's shown message. */
    method HandleChange(name: Field, value: string)
      modifies this
      ensures formData == old(formData)[name := value]
      ensures errors == ClearError(old(errors), name)
      ensures isLoading == old(isLoading) && socialLoading == old(socialLoading)
    {
      formData := formData[name := value];
      if name in errors && errors[name] != "" {
        errors := errors[name := ""];
      }
    }

    /** `validateForm`: replaces `errors` with the dictionary the checks build and reports
        whether it is empty. */
    method ValidateForm() returns (ok: bool)
      modifies this
      ensures errors == LoginErrors(formData)
      ensures ok <==> |errors| == 0
      ensures formData == old(formData) && isLoading == old(isLoading) && socialLoading == old(socialLoading)
    {
      var newErrors := LoginErrors(formData);
      errors := newErrors;
      ok := |newErrors| == 0;
    }

    /** `handleSubmit`: validate; on success send the credentials, store the session from
        the reply or record the failure as `errors.api`, and end not loading. */
    method HandleSubmit(storage: Storage.LocalStorage, outcome: AuthOutcome) returns (sent: Option<Credentials>)
      modifies this, storage
      ensures formData == old(formData) && socialLoading == old(socialLoading)
      ensures sent.None? <==> |LoginErrors(old(formData))| != 0
      ensures sent.None? ==> errors == LoginErrors(old(formData))
                             && storage.items == old(storage.items) && isLoading == old(isLoading)
      ensures sent.Some? ==> sent.value == Credentials(FieldValue(formData, Email), FieldValue(formData, Password))
                             && !isLoading
      ensures sent.Some? && outcome.Answered? ==>
                errors == map[] && storage.items == Assign(old(storage.items), LoginWrites(outcome.reply, formData))
      ensures sent.Some? && outcome.Failed? ==>
                errors == map[Api := OrElse(outcome.message, LoginFailedText)] && storage.items == old(storage.items)
    {
      var ok := ValidateForm();
      if !ok {
        return None;
      }
      isLoading := true;
      errors := map[];
      var form := formData;
      sent := Some(Credentials(FieldValue(form, Email), FieldValue(form, Password)));
      match outcome {
        case Answered(reply) =>
          var user := UserOf(reply);
          StoreSession(storage, TokenOf(reply), OrElse(user.email, FieldValue(form, Email)),
                       LoginUsername(user), StoredUserId(user));
        case Failed(message) =>
          errors := map[Api := OrElse(message, LoginFailedText)];
      }
      isLoading := false;
    }

    /** `handleGoogleSignIn`: clears the errors, signs in with the provider and hands the
        result to `HandleSocialAuthSuccess` against the API object's members; a failed
        sign-in stores nothing and returns the error toast's text. Ends not loading. With
        the members `authAPI` has (`Api.AuthApiMembers`) every successful sign-in ends in
        the `TypeError` toast. */
    method HandleGoogleSignIn(storage: Storage.LocalStorage, members: set<string>, signIn: SignInOutcome,
                              backend: AuthOutcome)
      returns (sent: Option<SocialAuthRequest>, failure: Option<string>)
      modifies this, storage
      ensures errors == map[] && !socialLoading
      ensures formData == old(formData) && isLoading == old(isLoading)
      ensures signIn.SignInFailed? ==> sent.None? && storage.items == old(storage.items)
                                       && failure == Some(OrElse(signIn.message, GoogleSignInFailedText))
      ensures signIn.SignedIn? && "socialAuth" !in members ==>
                sent.None? && storage.items == old(storage.items) && failure == Some(SocialAuthMissingText)
      ensures signIn.SignedIn? && "socialAuth" in members && backend.Answered? ==>
                sent == Some(SocialRequest(signIn.result)) && failure.None?
                && storage.items == Assign(old(storage.items), SocialWrites(backend.reply, signIn.result.user))
      ensures signIn.SignedIn? && "socialAuth" in members && backend.Failed? ==>
                sent == Some(SocialRequest(signIn.result)) && storage.items == old(storage.items)
                && failure == Some(OrElse(backend.message, BackendAuthFailedText))
    {
      socialLoading := true;
      errors := map[];
      match signIn {
        case SignedIn(result) =>
          sent, failure := HandleSocialAuthSuccess(storage, members, result, backend);
        case SignInFailed(message) =>
          sent := None;
          failure := Some(OrElse(message, GoogleSignInFailedText));
      }
      socialLoading := false;
    }
  }
}
