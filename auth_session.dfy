/** What the sign-up and login handlers read from the backend's reply, and what they then
    write to `localStorage`. Both handlers accept several reply shapes, so each value they
    store is the first truthy alternative of a fallback chain. */
module AuthSession {
  import opened Common
  import Storage

  /** The user fields the handlers look at (`_id` is the database id, kept as `dbId`).
      Identifiers are modelled as strings. */
  datatype UserRecord = UserRecord(id: Option<string>, dbId: Option<string>, email: Option<string>,
                                   username: Option<string>, name: Option<string>)

  /** A reply from the register, login or social-auth endpoint: `token`, `accessToken`,
      `data.token`, `user`, `data.user`, and the reply's own top-level user fields for when
      the reply is itself the user. */
  datatype AuthReply = AuthReply(token: Option<string>, accessToken: Option<string>, dataToken: Option<string>,
                                 user: Option<UserRecord>, dataUser: Option<UserRecord>, own: UserRecord)

  /** `response.token || response.accessToken || response.data?.token` */
  function TokenOf(r: AuthReply): (t: Option<string>)
    ensures Truthy(t) <==> Truthy(r.token) || Truthy(r.accessToken) || Truthy(r.dataToken)
    ensures Truthy(r.token) ==> t == r.token
    ensures !Truthy(r.token) && Truthy(r.accessToken) ==> t == r.accessToken
    ensures !Truthy(r.token) && !Truthy(r.accessToken) ==> t == r.dataToken
  {
    Or(Or(r.token, r.accessToken), r.dataToken)
  }

  /** `response.user || response.data?.user || response`: always some record. */
  function UserOf(r: AuthReply): UserRecord {
    if r.user.Some? then r.user.value else if r.dataUser.Some? then r.dataUser.value else r.own
  }

  /** The string `localStorage.setItem` stores for a value that may be `undefined`. */
  function JsString(o: Option<string>): string {
    if o.Some? then o.value else "undefined"
  }

  /** `user.id || user._id || ''` */
  function StoredUserId(u: UserRecord): string {
    OrElse(Or(u.id, u.dbId), "")
  }

  /** The `setItem` calls of a successful sign-in, in order: the token and the
      `isAuthenticated` flag only when the token is truthy, then email, username and id. */
  function SessionWrites(token: Option<string>, email: string, username: string, userId: string): seq<(string, string)> {
    (if Truthy(token) then [("authToken", token.value), ("isAuthenticated", "true")] else [])
    + [("userEmail", email), ("username", username), ("userId", userId)]
  }

  /** The keys a sign-in writes. */
  predicate IsSessionKey(k: string) {
    k == "authToken" || k == "isAuthenticated" || k == "userEmail" || k == "username" || k == "userId"
  }

  /** After a sign-in: email, username and id are the given values; the token and flag are
      written exactly when the token is truthy, and otherwise keep whatever was stored; no
      other key changes. */
  lemma SessionWritesEffect(items: map<string, string>, token: Option<string>, email: string, username: string, userId: string)
    ensures var after := Assign(items, SessionWrites(token, email, username, userId));
      && "userEmail" in after && after["userEmail"] == email
      && "username" in after && after["username"] == username
      && "userId" in after && after["userId"] == userId
      && (Truthy(token) ==> "authToken" in after && after["authToken"] == token.value
                            && "isAuthenticated" in after && after["isAuthenticated"] == "true")
      && (!Truthy(token) ==> ("authToken" in after <==> "authToken" in items)
                             && ("authToken" in items ==> after["authToken"] == items["authToken"])
                             && ("isAuthenticated" in after <==> "isAuthenticated" in items))
      && (forall k :: !IsSessionKey(k) ==> (k in after <==> k in items))
      && (forall k :: !IsSessionKey(k) && k in items ==> after[k] == items[k])
  {
    var w := SessionWrites(token, email, username, userId);
    var n := |w|;
    AssignLastWins(items, w, n - 3);
    AssignLastWins(items, w, n - 2);
    AssignLastWins(items, w, n - 1);
    if Truthy(token) {
      AssignLastWins(items, w, 0);
      AssignLastWins(items, w, 1);
    } else {
      AssignKeeps(items, w, "authToken");
      AssignKeeps(items, w, "isAuthenticated");
    }
    forall k | !IsSessionKey(k) ensures (k in Assign(items, w) <==> k in items) && (k in items ==> Assign(items, w)[k] == items[k]) {
      AssignKeeps(items, w, k);
    }
  }

  /** Performs the `setItem` calls of a successful sign-in on the store. */
  method StoreSession(storage: Storage.LocalStorage, token: Option<string>, email: string, username: string, userId: string)
    modifies storage
    ensures storage.items == Assign(old(storage.items), SessionWrites(token, email, username, userId))
  {
    ghost var before := storage.items;
    ghost var done: seq<(string, string)> := [];
    if Truthy(token) {
      storage.SetItem("authToken", token.value);
      AssignSnoc(before, done, ("authToken", token.value));
      done := done + [("authToken", token.value)];
      storage.SetItem("isAuthenticated", "true");
      AssignSnoc(before, done, ("isAuthenticated", "true"));
      done := done + [("isAuthenticated", "true")];
    }
    storage.SetItem("userEmail", email);
    AssignSnoc(before, done, ("userEmail", email));
    done := done + [("userEmail", email)];
    storage.SetItem("username", username);
    AssignSnoc(before, done, ("username", username));
    done := done + [("username", username)];
    storage.SetItem("userId", userId);
    AssignSnoc(before, done, ("userId", userId));
    done := done + [("userId", userId)];
    assert done == SessionWrites(token, email, username, userId);
  }
}
