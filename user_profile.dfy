/** The profile page (src/components/UserProfile.jsx): whose profile it is, loading the
    profile and its posts, following and unfollowing, and the image addresses it shows. */
module UserProfile {
  import opened Common
  import opened Js
  import R2Upload
  import Storage

  const DefaultAvatar: string := "https://i.pravatar.cc/150?img=1"

  // ---------------------------------------------------------------------------
  // Whose profile
  // ---------------------------------------------------------------------------

  /** `currentUserId === (userId || currentUserId)`: the route's id (absent when the route
      has none) against the stored one (absent when never stored). */
  function IsOwnProfile(routeId: Option<string>, storedId: Option<string>): (r: bool)
    ensures r <==> !Truthy(routeId) || storedId == routeId
    ensures !Truthy(routeId) ==> r
  {
    storedId == Or(routeId, storedId)
  }

  /** `userId || localStorage.getItem('userId')`: the profile to load. */
  function ProfileId(routeId: Option<string>, storedId: Option<string>): (r: Option<string>)
    ensures Truthy(routeId) ==> r == routeId
    ensures !Truthy(routeId) ==> r == storedId
  {
    Or(routeId, storedId)
  }

  /** The page loads the signed-in user's own profile exactly when it is the own profile,
      and otherwise the route's user, whose id differs from the stored one. */
  lemma ProfileShown(routeId: Option<string>, storedId: Option<string>)
    ensures IsOwnProfile(routeId, storedId) ==> ProfileId(routeId, storedId) == storedId
    ensures !IsOwnProfile(routeId, storedId) ==> ProfileId(routeId, storedId) == routeId && routeId != storedId
  {
  }

  // ---------------------------------------------------------------------------
  // Loading
  // ---------------------------------------------------------------------------

  /** `userResponse.user || userResponse` */
  function UserData(response: Value): (r: Value)
    ensures JsTruthy(Prop(response, "user")) ==> r == Prop(response, "user")
    ensures !JsTruthy(Prop(response, "user")) ==> r == response
  {
    JsOr(Prop(response, "user"), response)
  }

  /** `Array.isArray(data) ? data : []` with `data = postsResponse.posts || postsResponse`:
      the response's `posts` when that is an array, or the response itself when it is an
      array without truthy `posts`, and otherwise an empty list. */
  function PostsOf(response: Value): (r: seq<Value>)
    ensures JsTruthy(Prop(response, "posts")) ==> r == (if Prop(response, "posts").Arr? then Prop(response, "posts").items else [])
    ensures !JsTruthy(Prop(response, "posts")) ==> r == (if response.Arr? then response.items else [])
  {
    var data := JsOr(Prop(response, "posts"), response);
    if data.Arr? then data.items else []
  }

  /** The requests the page makes. */
  datatype Call = GetProfile(id: string) | GetPosts(id: string) | ToggleFollow(userId: Value)

  // ---------------------------------------------------------------------------
  // Following
  // ---------------------------------------------------------------------------

  /** An object's own entries, as `{...v}` copies them (only objects are modelled). */
  function Entries(v: Value): map<string, Value> {
    if v.Obj? then v.fields else map[]
  }

  /** `{...user, stats: {...user.stats, followers: count}}`: the follower count replaced,
      every other stat and every other field of the user as before. */
  function WithFollowers(user: Value, count: Value): (r: Value)
    ensures r.Obj? && "stats" in r.fields && r.fields["stats"].Obj?
    ensures "followers" in r.fields["stats"].fields && r.fields["stats"].fields["followers"] == count
    ensures forall k :: k in Entries(Prop(user, "stats")) && k != "followers" ==>
              k in r.fields["stats"].fields && r.fields["stats"].fields[k] == Entries(Prop(user, "stats"))[k]
    ensures forall k :: k in r.fields["stats"].fields ==> k == "followers" || k in Entries(Prop(user, "stats"))
    ensures forall k :: k != "stats" ==> (k in r.fields <==> k in Entries(user))
    ensures forall k :: k != "stats" && k in Entries(user) ==> r.fields[k] == Entries(user)[k]
  {
    Obj(Entries(user)["stats" := Obj(Entries(Prop(user, "stats"))["followers" := count])])
  }

  /** `count + delta` for a numeric count; other counts are not modelled and give
      `undefined`. */
  function Adjusted(count: Value, delta: int): (r: Value)
    ensures count.Num? ==> r == Num(count.n + delta)
  {
    if count.Num? then Num(count.n + delta) else Undefined
  }

  /** The follower count after a toggle: the server's `followerCount` unless it is
      `undefined` (a `null` counts as given), else the previous count one up when now
      following and one down when not. */
  function NewFollowers(previous: Value, result: Value): (r: Value)
    ensures !Prop(result, "followerCount").Undefined? ==> r == Prop(result, "followerCount")
    ensures Prop(result, "followerCount").Undefined? && JsTruthy(Prop(result, "isFollowing")) ==> r == Adjusted(previous, 1)
    ensures Prop(result, "followerCount").Undefined? && !JsTruthy(Prop(result, "isFollowing")) ==> r == Adjusted(previous, -1)
  {
    var given := Prop(result, "followerCount");
    if !given.Undefined? then given
    else Adjusted(previous, if JsTruthy(Prop(result, "isFollowing")) then 1 else -1)
  }

  /** Following then unfollowing without server counts returns a numeric count to where it
      was. */
  lemma FollowThenUnfollow(n: int)
    ensures NewFollowers(NewFollowers(Num(n), Obj(map["isFollowing" := Bool(true)])), Obj(map["isFollowing" := Bool(false)])) == Num(n)
  {
    var on := Obj(map["isFollowing" := Bool(true)]);
    var off := Obj(map["isFollowing" := Bool(false)]);
    assert Prop(on, "followerCount") == Undefined && Prop(on, "isFollowing") == Bool(true);
    assert Prop(off, "followerCount") == Undefined && Prop(off, "isFollowing") == Bool(false);
  }

  /** What `usersAPI.toggleFollow` does: answers with a result, or throws. */
  datatype FollowOutcome = Toggled(result: Value) | FollowFailed

  // ---------------------------------------------------------------------------
  // Image addresses
  // ---------------------------------------------------------------------------

  /** `user.avatar ? getR2FileUrl(user.avatar) : DEFAULT` (avatars modelled as strings). */
  function AvatarUrl(avatar: Option<string>, publicUrl: Option<string>): (r: string)
    ensures !Truthy(avatar) ==> r == DefaultAvatar
    ensures Truthy(avatar) ==> Some(r) == R2Upload.GetR2FileUrl(avatar, publicUrl)
  {
    if Truthy(avatar) then R2Upload.GetR2FileUrl(avatar, publicUrl).value else DefaultAvatar
  }

  /** `post.image ? getR2FileUrl(post.image) : post.image` */
  function PostImageUrl(image: Option<string>, publicUrl: Option<string>): (r: Option<string>)
    ensures !Truthy(image) ==> r == image
    ensures Truthy(image) ==> r == R2Upload.GetR2FileUrl(image, publicUrl)
  {
    if Truthy(image) then R2Upload.GetR2FileUrl(image, publicUrl) else image
  }

  /** A post without an image stays without one, and an image the client uploaded shows
      from the public address of its relay key. */
  lemma UploadedPostImageUrl(prefix: string, timestamp: string, random: string, ext: string, publicUrl: Option<string>)
    requires R2Upload.NoSlash(prefix) && Truthy(publicUrl)
    ensures PostImageUrl(None, publicUrl).None? && PostImageUrl(Some(""), publicUrl) == Some("")
    ensures var f := R2Upload.StorageFilename(prefix, timestamp, random, ext);
      PostImageUrl(Some(f), publicUrl) == Some(publicUrl.value + "/" + R2Upload.Namespace + f)
  {
    var f := R2Upload.StorageFilename(prefix, timestamp, random, ext);
    R2Upload.ResolveUploadedFilename(prefix, timestamp, random, ext, publicUrl);
    assert f != "" by { assert |f| >= |prefix| + 1; }
  }

  /** An avatar the client uploaded shows from the public address of its relay key. */
  lemma UploadedAvatarUrl(prefix: string, timestamp: string, random: string, ext: string, publicUrl: Option<string>)
    requires R2Upload.NoSlash(prefix) && Truthy(publicUrl)
    ensures var f := R2Upload.StorageFilename(prefix, timestamp, random, ext);
      AvatarUrl(Some(f), publicUrl) == publicUrl.value + "/" + R2Upload.Namespace + f
  {
    var f := R2Upload.StorageFilename(prefix, timestamp, random, ext);
    R2Upload.ResolveUploadedFilename(prefix, timestamp, random, ext, publicUrl);
    assert f != "" by { assert |f| >= |prefix| + 1; }
  }

  // ---------------------------------------------------------------------------
  // The page
  // ---------------------------------------------------------------------------

  class Profile {
    const routeId: Option<string>
    var isFollowing: Value
    var isOwnProfile: bool
    var loading: bool
    var user: Value
    var posts: seq<Value>

    constructor (routeId: Option<string>)
      ensures this.routeId == routeId
      ensures isFollowing == Bool(false) && !isOwnProfile && loading && user == Null && posts == []
    {
      this.routeId := routeId;
      isFollowing := Bool(false);
      isOwnProfile := false;
      loading := true;
      user := Null;
      posts := [];
    }

    /** `checkIfOwnProfile` */
    method CheckIfOwnProfile(storage: Storage.LocalStorage)
      modifies this
      ensures isOwnProfile == IsOwnProfile(routeId, storage.GetItem("userId"))
      ensures isFollowing == old(isFollowing) && loading == old(loading) && user == old(user) && posts == old(posts)
    {
      isOwnProfile := storage.GetItem("userId") == Or(routeId, storage.GetItem("userId"));
    }

    /** `loadUserProfile` once its two requests have answered (`Some`) or thrown (`None`).
        With no id to load it makes no request, asks for the login page and stays loading.
        Otherwise it fetches the profile, then (if that succeeded) the posts; a failure at
        any point ends loading with what was set so far. */
    method LoadUserProfile(storage: Storage.LocalStorage, profileAnswer: Option<Value>, postsAnswer: Option<Value>)
      returns (calls: seq<Call>, toLogin: bool)
      modifies this
      ensures isOwnProfile == old(isOwnProfile)
      ensures var id := ProfileId(routeId, storage.GetItem("userId"));
        && (toLogin <==> !Truthy(id))
        && (!Truthy(id) ==> calls == [] && loading && user == old(user) && posts == old(posts)
                            && isFollowing == old(isFollowing))
        && (Truthy(id) ==> !loading && |calls| >= 1 && calls[0] == GetProfile(id.value))
        && (Truthy(id) && (profileAnswer.None? || Nullish(profileAnswer.value)) ==>
              calls == [GetProfile(id.value)] && user == old(user) && posts == old(posts) && isFollowing == old(isFollowing))
        && (Truthy(id) && profileAnswer.Some? && !Nullish(profileAnswer.value) ==>
              var data := UserData(profileAnswer.value);
              && calls == [GetProfile(id.value), GetPosts(id.value)]
              && user == data
              && isFollowing == (if Prop(data, "isFollowing").Undefined? then old(isFollowing) else Prop(data, "isFollowing"))
              && posts == (if postsAnswer.Some? && !Nullish(postsAnswer.value) then PostsOf(postsAnswer.value) else old(posts)))
    {
      loading := true;
      var id := Or(routeId, storage.GetItem("userId"));
      if !Truthy(id) {
        return [], true;
      }
      toLogin := false;
      calls := [GetProfile(id.value)];
      if profileAnswer.None? || Nullish(profileAnswer.value) {
        loading := false;
        return;
      }
      var data := UserData(profileAnswer.value);
      user := data;
      var flag := Prop(data, "isFollowing");
      if !flag.Undefined? {
        isFollowing := flag;
      }
      calls := calls + [GetPosts(id.value)];
      if postsAnswer.Some? && !Nullish(postsAnswer.value) {
        posts := PostsOf(postsAnswer.value);
      }
      loading := false;
    }

    /** `handleFollow`. Without a stored token it makes no request and asks for the login
        page; with no user loaded, `user.id` throws and nothing changes; otherwise a toggle
        sets the following flag and the follower count and leaves the rest of the user. */
    method HandleFollow(storage: Storage.LocalStorage, outcome: FollowOutcome) returns (calls: seq<Call>, toLogin: bool)
      modifies this
      ensures isOwnProfile == old(isOwnProfile) && loading == old(loading) && posts == old(posts)
      ensures toLogin <==> !Truthy(storage.GetItem("authToken"))
      ensures toLogin || Nullish(old(user)) ==> calls == [] && user == old(user) && isFollowing == old(isFollowing)
      ensures !toLogin && !Nullish(old(user)) ==> calls == [ToggleFollow(Prop(old(user), "id"))]
      ensures !toLogin && !Nullish(old(user)) && outcome.Toggled? && !Nullish(outcome.result) ==>
                isFollowing == Prop(outcome.result, "isFollowing")
                && user == WithFollowers(old(user), NewFollowers(OptProp(Prop(old(user), "stats"), "followers"), outcome.result))
      ensures !toLogin && !Nullish(old(user)) && (outcome.FollowFailed? || Nullish(outcome.result)) ==>
                user == old(user) && isFollowing == old(isFollowing)
    {
      if !Truthy(storage.GetItem("authToken")) {
        return [], true;
      }
      toLogin := false;
      var current := user;
      if Nullish(current) {
        return [], false;
      }
      calls := [ToggleFollow(Prop(current, "id"))];
      if outcome.Toggled? && !Nullish(outcome.result) {
        isFollowing := Prop(outcome.result, "isFollowing");
        user := WithFollowers(current, NewFollowers(OptProp(Prop(current, "stats"), "followers"), outcome.result));
      }
    }
  }
}
