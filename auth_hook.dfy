/** The `useAuth` hook (src/hooks/useAuth.js): the authenticated flag and the current user
    are read back from `localStorage`, `login` writes the session keys, `logout` removes
    them, and `requireAuth` guards an action behind a login prompt. */
module AuthHook {
  import opened Common
  import opened AuthSession
  import Storage

  /** The user the hook exposes: each field is whatever `getItem` returned, possibly `null`. */
  datatype AuthUser = AuthUser(id: Option<string>, username: Option<string>, email: Option<string>)

  /** The `userData` argument of `login`; a missing field is `None`. */
  datatype LoginData = LoginData(id: Option<string>, username: Option<string>, email: Option<string>)

  /** The prompt's default message. */
  const DefaultAuthMessage := "You need to login to perform this action."

  /** Whether a store holds a session: `!!localStorage.getItem('authToken')`. */
  predicate Authenticated(items: map<string, string>) {
    "authToken" in items && items["authToken"] != ""
  }

  /** The `getItem` result for `key`. */
  function Stored(items: map<string, string>, key: string): (r: Option<string>)
    ensures r.Some? <==> key in items
    ensures r.Some? ==> r.value == items[key]
  {
    if key in items then Some(items[key]) else None
  }

  /** The user `checkAuthStatus` derives from a store: the stored id, username and email
      when there is a session, and none otherwise. */
  function CurrentUser(items: map<string, string>): (r: Option<AuthUser>)
    ensures r.Some? <==> Authenticated(items)
    ensures r.Some? ==> r.value.id == Stored(items, "userId") && r.value.username == Stored(items, "username")
                        && r.value.email == Stored(items, "userEmail")
  {
    if Authenticated(items) then
      Some(AuthUser(Stored(items, "userId"), Stored(items, "username"), Stored(items, "userEmail")))
    else None
  }

  /** The `setItem` calls of `login`, in order; a missing user field is stored as `''`, and
      the token as the string `setItem` makes of it. */
  function LoginWrites(token: Option<string>, data: LoginData): seq<(string, string)> {
    [("authToken", JsString(token)), ("userId", OrElse(data.id, "")), ("username", OrElse(data.username, "")),
     ("userEmail", OrElse(data.email, "")), ("isAuthenticated", "true")]
  }

  /** After `login`'s writes the five session keys hold the given values and no other key
      changes; the session exists exactly when the stored token is non-empty, and the user
      read back is the given data with missing fields as `''`. */
  lemma LoginEffect(items: map<string, string>, token: Option<string>, data: LoginData)
    ensures var after := Assign(items, LoginWrites(token, data));
      && "authToken" in after && after["authToken"] == JsString(token)
      && "isAuthenticated" in after && after["isAuthenticated"] == "true"
      && (Authenticated(after) <==> JsString(token) != "")
      && (Authenticated(after) ==>
            CurrentUser(after) == Some(AuthUser(Some(OrElse(data.id, "")), Some(OrElse(data.username, "")),
                                                Some(OrElse(data.email, "")))))
      && (forall k :: !IsSessionKey(k) ==> (k in after <==> k in items))
      && (forall k :: !IsSessionKey(k) && k in items ==> after[k] == items[k])
  {
    var w := LoginWrites(token, data);
    AssignLastWins(items, w, 0);
    AssignLastWins(items, w, 1);
    AssignLastWins(items, w, 2);
    AssignLastWins(items, w, 3);
    AssignLastWins(items, w, 4);
    forall k | !IsSessionKey(k) ensures (k in Assign(items, w) <==> k in items) && (k in items ==> Assign(items, w)[k] == items[k]) {
      AssignKeeps(items, w, k);
    }
  }

  /** A login whose token was `undefined` stores the string "undefined" and so counts as a
      session; one whose token was `''` does not, although `isAuthenticated` is "true". */
  lemma LoginTokenEdgeCases(items: map<string, string>, data: LoginData)
    ensures Authenticated(Assign(items, LoginWrites(None, data)))
    ensures !Authenticated(Assign(items, LoginWrites(Some(""), data)))
    ensures var after := Assign(items, LoginWrites(Some(""), data));
      "isAuthenticated" in after && after["isAuthenticated"] == "true"
  {
    LoginEffect(items, None, data);
    LoginEffect(items, Some(""), data);
  }

  /** After `logout` there is no session and no user, and every other key is as before. */
  lemma LogoutEffect(items: map<string, string>)
    ensures var after := items - {"authToken", "isAuthenticated", "userEmail", "username", "userId"};
      && !Authenticated(after) && CurrentUser(after).None?
      && (forall k :: IsSessionKey(k) ==> k !in after)
      && (forall k :: !IsSessionKey(k) ==> (k in after <==> k in items))
      && (forall k :: !IsSessionKey(k) && k in items ==> after[k] == items[k])
  {
  }

  /** The confirm dialog's text: the message (the default one when none is passed) and the
      question. */
  function PromptText(message: Option<string>): (r: string)
    ensures message.None? ==> r == DefaultAuthMessage + " Go to login page?"
    ensures message.Some? ==> r == message.value + " Go to login page?"
  {
    (if message.Some? then message.value else DefaultAuthMessage) + " Go to login page?"
  }

  class AuthState {
    var isAuthenticated: bool
    var user: Option<AuthUser>

    /** The hook's initial state, before its effect has read the store. */
    constructor ()
      ensures !isAuthenticated && user.None?
    {
      isAuthenticated := false;
      user := None;
    }

    /** `checkAuthStatus`: the state becomes what the store holds. */
    method CheckAuthStatus(storage: Storage.LocalStorage)
      modifies this
      ensures isAuthenticated == Authenticated(storage.items)
      ensures user == CurrentUser(storage.items)
    {
      var authToken := storage.GetItem("authToken");
      var userId := storage.GetItem("userId");
      var username := storage.GetItem("username");
      var userEmail := storage.GetItem("userEmail");
      isAuthenticated := Truthy(authToken);
      if Truthy(authToken) {
        user := Some(AuthUser(userId, username, userEmail));
      } else {
        user := None;
      }
    }

    /** `requireAuth(callback, message)`, with the user's answer to the dialog as `confirmed`.
        Without a session: asks, navigates to the login page only when the user agrees,
        never runs the callback and returns false. With one: runs the callback when there
        is one and returns true, without asking. */
    method RequireAuth(hasCallback: bool, message: Option<string>, confirmed: bool)
      returns (result: bool, asked: Option<string>, ranCallback: bool, toLogin: bool)
      ensures result == isAuthenticated
      ensures !isAuthenticated ==> asked == Some(PromptText(message)) && !ranCallback && (toLogin <==> confirmed)
      ensures isAuthenticated ==> asked.None? && !toLogin && (ranCallback <==> hasCallback)
    {
      if !isAuthenticated {
        asked := Some(PromptText(message));
        toLogin := confirmed;
        return false, asked, false, toLogin;
      }
      ranCallback := hasCallback;
      return true, None, ranCallback, false;
    }

    /** `login(token, userData)`: the five writes, then the state re-read from the store. */
    method Login(storage: Storage.LocalStorage, token: Option<string>, data: LoginData)
      modifies this, storage
      ensures storage.items == Assign(old(storage.items), LoginWrites(token, data))
      ensures isAuthenticated == Authenticated(storage.items) && user == CurrentUser(storage.items)
      ensures isAuthenticated <==> JsString(token) != ""
    {
      ghost var before := storage.items;
      ghost var done: seq<(string, string)> := [];
      storage.SetItem("authToken", JsString(token));
      AssignSnoc(before, done, ("authToken", JsString(token)));
      done := done + [("authToken", JsString(token))];
      storage.SetItem("userId", OrElse(data.id, ""));
      AssignSnoc(before, done, ("userId", OrElse(data.id, "")));
      done := done + [("userId", OrElse(data.id, ""))];
      storage.SetItem("username", OrElse(data.username, ""));
      AssignSnoc(before, done, ("username", OrElse(data.username, "")));
      done := done + [("username", OrElse(data.username, ""))];
      storage.SetItem("userEmail", OrElse(data.email, ""));
      AssignSnoc(before, done, ("userEmail", OrElse(data.email, "")));
      done := done + [("userEmail", OrElse(data.email, ""))];
      storage.SetItem("isAuthenticated", "true");
      AssignSnoc(before, done, ("isAuthenticated", "true"));
      done := done + [("isAuthenticated", "true")];
      assert done == LoginWrites(token, data);
      LoginEffect(before, token, data);
      CheckAuthStatus(storage);
    }

    /** `logout()`: removes the five session keys and clears the state. */
    method Logout(storage: Storage.LocalStorage)
      modifies this, storage
      ensures storage.items == old(storage.items) - {"authToken", "isAuthenticated", "userEmail", "username", "userId"}
      ensures !isAuthenticated && user.None?
      ensures isAuthenticated == Authenticated(storage.items) && user == CurrentUser(storage.items)
    {
      ghost var before := storage.items;
      storage.RemoveItem("authToken");
      storage.RemoveItem("isAuthenticated");
      storage.RemoveItem("userEmail");
      storage.RemoveItem("username");
      storage.RemoveItem("userId");
      assert storage.items == before - {"authToken", "isAuthenticated", "userEmail", "username", "userId"};
      isAuthenticated := false;
      user := None;
    }
  }
}
