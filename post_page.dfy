/** The single-post page (src/components/PostPage.jsx): `normalizePost` turns a loosely
    shaped backend record into the record the detail view shows, a sample post with the
    route's id stands in when there is none, and the load handler applies its updates only
    while the page is still mounted. */
module PostPage {
  import opened Common
  import opened Js

  /** The record `normalizePost` builds. */
  datatype DisplayPost = DisplayPost(id: Value, image: Value, title: Value, author: Value, avatar: Value,
                                     likes: Value, tag: Value, location: Value, content: Value,
                                     comments: Value, isLiked: Value, isBookmarked: Value)

  /** `typeof count === 'number' ? count : Array.isArray(list) ? list.length : list || 0`:
      a numeric count wins even when it is 0; otherwise an array's length; otherwise the
      value itself when truthy, else 0. The shown count is therefore a number or some other
      truthy value, and never `undefined`, `null` or `''`. */
  function CountOf(count: Value, list: Value): (r: Value)
    ensures count.Num? ==> r == count
    ensures !count.Num? && list.Arr? ==> r == Num(|list.items|)
    ensures !count.Num? && !list.Arr? && JsTruthy(list) ==> r == list
    ensures r.Num? || JsTruthy(r)
  {
    if count.Num? then count
    else if list.Arr? then Num(|list.items|)
    else JsOr(list, Num(0))
  }

  /** `normalizePost(rawPost)`: nothing for a falsy record; otherwise the display record with
      its fallback chains. */
  function NormalizePost(raw: Value): (r: Option<DisplayPost>)
    ensures r.None? <==> !JsTruthy(raw)
  {
    if !JsTruthy(raw) then None
    else
      var author := Prop(raw, "author");
      Some(DisplayPost(
        JsOr(Prop(raw, "_id"), Prop(raw, "id")),
        Prop(raw, "image"),
        Prop(raw, "title"),
        JsOr(JsOr(OptProp(author, "username"), OptProp(author, "name")), author),
        JsOr(OptProp(author, "avatar"), Prop(raw, "avatar")),
        CountOf(Prop(raw, "likeCount"), Prop(raw, "likes")),
        Prop(raw, "tag"),
        Prop(raw, "location"),
        Prop(raw, "content"),
        CountOf(Prop(raw, "commentCount"), Prop(raw, "comments")),
        Prop(raw, "isLiked"),
        Prop(raw, "isBookmarked")))
  }

  /** The fallback chains of a normalised record: id is `_id` when truthy, else `id`; author
      is the author's username, else its name, else the raw author value; avatar is the
      author's avatar, else the record's own; likes and comments follow the count rule of
      `CountOf`; the other fields are copied. */
  lemma NormalizedFields(raw: Value)
    requires JsTruthy(raw)
    ensures var p := NormalizePost(raw).value;
      var author := Prop(raw, "author");
      && (JsTruthy(Prop(raw, "_id")) ==> p.id == Prop(raw, "_id"))
      && (!JsTruthy(Prop(raw, "_id")) ==> p.id == Prop(raw, "id"))
      && (JsTruthy(OptProp(author, "username")) ==> p.author == OptProp(author, "username"))
      && (!JsTruthy(OptProp(author, "username")) && JsTruthy(OptProp(author, "name")) ==> p.author == OptProp(author, "name"))
      && (!JsTruthy(OptProp(author, "username")) && !JsTruthy(OptProp(author, "name")) ==> p.author == author)
      && (JsTruthy(OptProp(author, "avatar")) ==> p.avatar == OptProp(author, "avatar"))
      && (!JsTruthy(OptProp(author, "avatar")) ==> p.avatar == Prop(raw, "avatar"))
      && p.image == Prop(raw, "image") && p.title == Prop(raw, "title") && p.tag == Prop(raw, "tag")
      && p.location == Prop(raw, "location") && p.content == Prop(raw, "content")
      && p.isLiked == Prop(raw, "isLiked") && p.isBookmarked == Prop(raw, "isBookmarked")
      && p.likes == CountOf(Prop(raw, "likeCount"), Prop(raw, "likes"))
      && p.comments == CountOf(Prop(raw, "commentCount"), Prop(raw, "comments"))
  {
  }

  /** A record whose author is a plain name keeps that name; one counted with `likeCount: 0`
      shows 0 likes even beside a non-empty `likes` array. */
  lemma NormalizedExamples()
    ensures NormalizePost(Obj(map["author" := Str("ann")])).value.author == Str("ann")
    ensures NormalizePost(Obj(map["likeCount" := Num(0), "likes" := Arr([Null, Null])])).value.likes == Num(0)
    ensures NormalizePost(Obj(map["likes" := Arr([Null, Null])])).value.likes == Num(2)
  {
    var a := Obj(map["author" := Str("ann")]);
    assert Prop(a, "author") == Str("ann");
    assert OptProp(Str("ann"), "username") == Undefined && OptProp(Str("ann"), "name") == Undefined;
    var b := Obj(map["likeCount" := Num(0), "likes" := Arr([Null, Null])]);
    assert Prop(b, "likeCount") == Num(0);
    var c := Obj(map["likes" := Arr([Null, Null])]);
    assert Prop(c, "likeCount") == Undefined && Prop(c, "likes") == Arr([Null, Null]);
  }

  // ---------------------------------------------------------------------------
  // The fallback sample
  // ---------------------------------------------------------------------------

  /** `String(item.id) === String(postId)`, with the route parameter absent or a string. */
  predicate SampleMatches(item: Sample, postId: Option<string>) {
    ToString(if "id" in item then item["id"] else Undefined) == ToString(if postId.Some? then Str(postId.value) else Undefined)
  }

  /** `samplePosts.find(item => String(item.id) === String(postId)) || null`: the first
      matching sample, or none. */
  function FindFallback(samples: seq<Sample>, postId: Option<string>): (r: Option<Sample>)
    ensures r.None? <==> forall i :: 0 <= i < |samples| ==> !SampleMatches(samples[i], postId)
    ensures r.Some? ==> exists i :: 0 <= i < |samples| && samples[i] == r.value && SampleMatches(samples[i], postId)
                                    && forall j :: 0 <= j < i ==> !SampleMatches(samples[j], postId)
  {
    if samples == [] then None
    else if SampleMatches(samples[0], postId) then
      Some(samples[0])
    else
      var r := FindFallback(samples[1..], postId);
      if r.Some? then
        var i :| 0 <= i < |samples[1..]| && samples[1..][i] == r.value && SampleMatches(samples[1..][i], postId)
                 && forall j :: 0 <= j < i ==> !SampleMatches(samples[1..][j], postId);
        assert samples[i + 1] == r.value;
        assert forall j :: 0 <= j < i + 1 ==> !SampleMatches(samples[j], postId) by {
          forall j | 0 <= j < i + 1 ensures !SampleMatches(samples[j], postId) {
            if j > 0 { assert samples[j] == samples[1..][j - 1]; }
          }
        }
        r
      else
        assert forall i :: 0 <= i < |samples| ==> !SampleMatches(samples[i], postId) by {
          forall i | 0 <= i < |samples| ensures !SampleMatches(samples[i], postId) {
            if i > 0 { assert samples[i] == samples[1..][i - 1]; }
          }
        }
        r
  }

  // ---------------------------------------------------------------------------
  // The page
  // ---------------------------------------------------------------------------

  /** What the page shows: the normalised record, or a sample standing in for it. */
  datatype PostView = Normalized(post: DisplayPost) | Fallback(sample: Sample)

  /** `response?.data ?? response` */
  function Payload(response: Value): Value {
    Coalesce(OptProp(response, "data"), response)
  }

  class Page {
    const postId: Option<string>
    const samples: seq<Sample>
    var post: Option<PostView>
    var loading: bool
    /** The `isMounted` flag of the running effect; the cleanup function clears it. */
    var mounted: bool

    constructor (postId: Option<string>, samples: seq<Sample>)
      ensures this.postId == postId && this.samples == samples
      ensures post.None? && loading && !mounted
    {
      this.postId := postId;
      this.samples := samples;
      post := None;
      loading := true;
      mounted := false;
    }

    /** `fallbackPost` */
    function FallbackPost(): Option<Sample> {
      FindFallback(samples, postId)
    }

    /** The effect up to the request: mounts, and without a route id stops loading and makes
        no request; otherwise sets loading and makes one. */
    method Start() returns (fetches: bool)
      modifies this
      ensures mounted && post == old(post)
      ensures fetches <==> Truthy(postId)
      ensures loading == fetches
    {
      mounted := true;
      if !Truthy(postId) {
        loading := false;
        return false;
      }
      loading := true;
      fetches := true;
    }

    /** The rest of `loadPost` once `getById` has answered (`Some`) or thrown (`None`).
        Nothing changes once unmounted. While mounted: an answer shows its normalised record,
        else the fallback; a failure shows the fallback, else nothing with an error toast;
        loading ends. Returns whether the toast was shown. */
    method Finish(response: Option<Value>) returns (toast: bool)
      modifies this
      ensures mounted == old(mounted)
      ensures !mounted ==> post == old(post) && loading == old(loading) && !toast
      ensures mounted ==> !loading
      ensures mounted && response.Some? ==>
                !toast
                && (NormalizePost(Payload(response.value)).Some? ==> post == Some(Normalized(NormalizePost(Payload(response.value)).value)))
                && (NormalizePost(Payload(response.value)).None? && FallbackPost().Some? ==> post == Some(Fallback(FallbackPost().value)))
                && (NormalizePost(Payload(response.value)).None? && FallbackPost().None? ==> post.None?)
      ensures mounted && response.None? ==>
                (FallbackPost().Some? ==> post == Some(Fallback(FallbackPost().value)) && !toast)
                && (FallbackPost().None? ==> post.None? && toast)
    {
      toast := false;
      var fallback := FallbackPost();
      match response {
        case Some(r) =>
          var normalized := NormalizePost(Payload(r));
          if mounted {
            post := if normalized.Some? then Some(Normalized(normalized.value))
                    else if fallback.Some? then Some(Fallback(fallback.value)) else None;
          }
        case None =>
          if mounted {
            if fallback.Some? {
              post := Some(Fallback(fallback.value));
            } else {
              toast := true;
              post := None;
            }
          }
      }
      if mounted {
        loading := false;
      }
    }

    /** The effect's cleanup: clears the flag and nothing else. */
    method Cleanup()
      modifies this
      ensures !mounted && post == old(post) && loading == old(loading)
    {
      mounted := false;
    }
  }
}
