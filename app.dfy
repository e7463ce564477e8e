/** The home feed and the app shell (src/App.jsx): `loadPosts` extracts the records from
    whichever shape the backend answered with, transforms each into a feed post, and shows
    them ahead of the sample posts; the shell remembers which post is open. */
module App {
  import opened Common
  import opened Js
  import PostPage

  /** The record the feed's transform builds. */
  datatype FeedPost = FeedPost(id: Value, image: Value, title: Value, author: Value, avatar: Value,
                               likes: Value, tag: Value, location: Value, content: Value, comments: Value)

  /** What the feed shows: a transformed backend post, or a sample post as it is. */
  datatype FeedItem = Fetched(post: FeedPost) | SampleItem(sample: Sample)

  /** `response.data?.posts || response.posts || response.data || response || []`; absent
      when `response` is `null` or `undefined`, where `response.data` throws. */
  function ExtractRecords(response: Value): (r: Option<Value>)
    ensures r.None? <==> Nullish(response)
  {
    if Nullish(response) then None
    else
      var data := Prop(response, "data");
      Some(JsOr(JsOr(JsOr(JsOr(OptProp(data, "posts"), Prop(response, "posts")), data), response), Arr([])))
  }

  /** The records are the first truthy of `data.posts`, `posts`, `data` and the response
      itself, and an empty list when none is. */
  lemma ExtractOrder(response: Value)
    requires !Nullish(response)
    ensures var r := ExtractRecords(response).value;
      var data := Prop(response, "data");
      && (JsTruthy(OptProp(data, "posts")) ==> r == OptProp(data, "posts"))
      && (!JsTruthy(OptProp(data, "posts")) && JsTruthy(Prop(response, "posts")) ==> r == Prop(response, "posts"))
      && (!JsTruthy(OptProp(data, "posts")) && !JsTruthy(Prop(response, "posts")) && JsTruthy(data) ==> r == data)
      && ((!JsTruthy(OptProp(data, "posts")) && !JsTruthy(Prop(response, "posts")) && !JsTruthy(data)
           && JsTruthy(response)) ==> r == response)
      && (!JsTruthy(response) ==> r == Arr([]))
  {
    if !JsTruthy(response) {
      assert !JsTruthy(Prop(response, "posts")) && !JsTruthy(Prop(response, "data"));
    }
  }

  /** One record of `realPosts.map(...)`; absent for `null` or `undefined`, where `post._id`
      throws. Unlike the single-post page, a `likeCount` of 0 falls through to the length
      of `likes`, and the count shown is truthy or exactly 0. */
  function TransformPost(post: Value): (r: Option<FeedPost>)
    ensures r.None? <==> Nullish(post)
    ensures r.Some? ==> JsTruthy(r.value.likes) || r.value.likes == Num(0)
    ensures r.Some? ==> JsTruthy(r.value.comments) || r.value.comments == Num(0)
  {
    if Nullish(post) then None
    else
      var author := Prop(post, "author");
      Some(FeedPost(
        JsOr(Prop(post, "_id"), Prop(post, "id")),
        Prop(post, "image"),
        Prop(post, "title"),
        JsOr(OptProp(author, "username"), author),
        OptProp(author, "avatar"),
        JsOr(JsOr(Prop(post, "likeCount"), OptProp(Prop(post, "likes"), "length")), Num(0)),
        Prop(post, "tag"),
        Prop(post, "location"),
        Prop(post, "content"),
        JsOr(Prop(post, "commentCount"), Num(0))))
  }

  /** `items.map(transform)`: absent when any item throws, otherwise one feed post per
      item, in order. */
  function TransformItems(items: seq<Value>): (r: Option<seq<FeedPost>>)
    ensures r.Some? <==> forall i :: 0 <= i < |items| ==> !Nullish(items[i])
    ensures r.Some? ==> |r.value| == |items| && forall i :: 0 <= i < |items| ==> Some(r.value[i]) == TransformPost(items[i])
    decreases |items|
  {
    if items == [] then Some([])
    else
      var head := TransformPost(items[0]);
      var tail := TransformItems(items[1..]);
      if head.None? then None
      else if tail.None? then
        assert exists i :: 1 <= i < |items| && Nullish(items[i]) by {
          var k :| 0 <= k < |items[1..]| && Nullish(items[1..][k]);
          assert items[k + 1] == items[1..][k];
        }
        None
      else
        var r := [head.value] + tail.value;
        assert forall i :: 0 <= i < |items| ==> Some(r[i]) == TransformPost(items[i]) by {
          forall i | 0 <= i < |items| ensures Some(r[i]) == TransformPost(items[i]) {
            if i > 0 { assert items[i] == items[1..][i - 1]; }
          }
        }
        assert forall i :: 0 <= i < |items| ==> !Nullish(items[i]) by {
          forall i | 0 <= i < |items| ensures !Nullish(items[i]) {
            if i > 0 { assert items[i] == items[1..][i - 1]; }
          }
        }
        Some(r)
  }

  /** The transformed posts of an answer, or none when extracting or transforming throws
      (`map` is not a function of anything but an array). */
  function LoadedPosts(response: Value): Option<seq<FeedPost>> {
    var records := ExtractRecords(response);
    if records.Some? && records.value.Arr? then TransformItems(records.value.items) else None
  }

  function FetchedItems(posts: seq<FeedPost>): (r: seq<FeedItem>)
    ensures |r| == |posts| && forall i :: 0 <= i < |posts| ==> r[i] == Fetched(posts[i])
  {
    seq(|posts|, i requires 0 <= i < |posts| => Fetched(posts[i]))
  }

  function SampleItems(samples: seq<Sample>): (r: seq<FeedItem>)
    ensures |r| == |samples| && forall i :: 0 <= i < |samples| ==> r[i] == SampleItem(samples[i])
  {
    seq(|samples|, i requires 0 <= i < |samples| => SampleItem(samples[i]))
  }

  /** A post counted with `likeCount: 0` beside two likes shows 2 in the feed and 0 on its
      own page. */
  lemma ZeroLikeCountDiffers()
    ensures var raw := Obj(map["likeCount" := Num(0), "likes" := Arr([Null, Null])]);
      && TransformPost(raw).value.likes == Num(2)
      && PostPage.NormalizePost(raw).value.likes == Num(0)
  {
    var raw := Obj(map["likeCount" := Num(0), "likes" := Arr([Null, Null])]);
    assert Prop(raw, "likeCount") == Num(0) && Prop(raw, "likes") == Arr([Null, Null]);
  }

  /** The home page's state. */
  class Home {
    const samples: seq<Sample>
    var posts: seq<FeedItem>
    var loading: bool

    /** The initial list is the sample posts. */
    constructor (samples: seq<Sample>)
      ensures this.samples == samples && posts == SampleItems(samples) && !loading
    {
      this.samples := samples;
      posts := SampleItems(samples);
      loading := false;
    }

    /** `loadPosts` once `getAll` has answered (`Some`) or thrown (`None`): the transformed
        posts followed by every sample post, or only the sample posts when anything threw.
        Loading ends either way. */
    method LoadPosts(response: Option<Value>)
      modifies this
      ensures !loading
      ensures response.Some? && LoadedPosts(response.value).Some? ==>
                posts == FetchedItems(LoadedPosts(response.value).value) + SampleItems(samples)
      ensures response.None? || LoadedPosts(response.value).None? ==> posts == SampleItems(samples)
    {
      loading := true;
      var loaded := if response.Some? then LoadedPosts(response.value) else None;
      if loaded.Some? {
        posts := FetchedItems(loaded.value) + SampleItems(samples);
      } else {
        posts := SampleItems(samples);
      }
      loading := false;
    }
  }

  /** Real posts come first and every sample post follows, in order. */
  lemma FeedOrder(fetched: seq<FeedPost>, samples: seq<Sample>)
    ensures var all := FetchedItems(fetched) + SampleItems(samples);
      && |all| == |fetched| + |samples|
      && (forall i :: 0 <= i < |fetched| ==> all[i] == Fetched(fetched[i]))
      && (forall j :: 0 <= j < |samples| ==> all[|fetched| + j] == SampleItem(samples[j]))
  {
  }

  /** The shell's state: the post whose detail is open. */
  class Shell {
    var selectedPost: Option<FeedItem>

    constructor ()
      ensures selectedPost.None?
    {
      selectedPost := None;
    }

    method HandlePostClick(post: FeedItem)
      modifies this
      ensures selectedPost == Some(post)
    {
      selectedPost := Some(post);
    }

    method HandleCloseDetail()
      modifies this
      ensures selectedPost.None?
    {
      selectedPost := None;
    }
  }
}
