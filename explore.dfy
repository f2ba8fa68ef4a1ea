/** `routers/explore.py`: discovery over every post, read-only: the most recent posts,
    the trending tags, and the posts carrying one tag. */
module Explore {
  import opened Models
  import opened Builtins
  import opened Storage
  import opened Posts
  import Hashtags

  /** `limit: int = Query(default=20, ge=1, le=100)`: values outside [1, 100] are
      turned away by the request layer before the handler runs. */
  type Limit = n: int | 1 <= n <= 100 witness 20

  const DefaultLimit: Limit := 20

  /** How many entries `explore_trending` keeps. */
  const TrendingSize: nat := 10

  // ---------------------------------------------------------------------------
  // explore_recent

  /** `sorted(posts.values(), key=created_at, reverse=True)[:limit]` */
  function RecentPosts(s: State, limit: Limit): seq<Post> {
    Top(PostValues(s), CreatedAt, limit)
  }

  /** `explore_recent` */
  function Recent(s: State, limit: Limit): seq<PostOut> {
    Outs(s, RecentPosts(s, limit))
  }

  /** A consistent store lists as many post values as it has posts. */
  lemma PostValuesCount(s: State)
    requires KeyOrder(s.postOrder, s.posts)
    ensures |PostValues(s)| == |s.posts|
  {
    ResolveAll(s.postOrder, s.posts);
    EnumerationCard(s.postOrder, s.posts.Keys);
  }

  /** `explore_recent` shows `min(limit, number of posts)` live posts, each once and
      newest first, and every post it leaves out is no newer than any it shows. */
  lemma RecentSpec(s: State, limit: Limit)
    requires PostsOk(s) && OrderOk(s)
    ensures var q := RecentPosts(s, limit);
      && Recent(s, limit) == Outs(s, q)
      && |q| == Min(limit, |s.posts|)
      && (forall p :: p in q ==> p.id in s.posts && s.posts[p.id] == p)
      && SortedDesc(q, CreatedAt)
      && Distinct(q)
      && (forall p :: p in s.posts && s.posts[p] !in q ==>
            forall y :: y in q ==> y.createdAt >= s.posts[p].createdAt)
  {
    PostValuesLive(s);
    PostValuesCount(s);
    TopSpec(PostValues(s), CreatedAt, limit);
  }

  /** With the default limit, at most the twenty newest posts are shown. */
  lemma RecentDefault(s: State)
    requires PostsOk(s) && OrderOk(s)
    ensures |Recent(s, DefaultLimit)| == Min(20, |s.posts|)
  {
    RecentSpec(s, DefaultLimit);
  }

  // ---------------------------------------------------------------------------
  // explore_trending

  /** The sort key of `explore_trending`. */
  function Count(e: HashtagCount): int {
    e.count
  }

  /** `[HashtagCount(tag=t, count=len(ids)) for t, ids in hashtag_posts.items() if ids]`,
      with `order` the dict's key order. */
  function TagCounts(order: seq<string>, m: map<string, set<PostId>>): seq<HashtagCount> {
    if order == [] then []
    else
      var head := if order[0] in m && m[order[0]] != {} then [HashtagCount(order[0], |m[order[0]]|)] else [];
      head + TagCounts(order[1..], m)
  }

  /** The tags a trending list shows. */
  function Tags(r: seq<HashtagCount>): set<string> {
    set e | e in r :: e.tag
  }

  /** `explore_trending`: the counts sorted by size, largest first and stable, then
      the first ten. */
  function Trending(s: State): seq<HashtagCount> {
    Top(TagCounts(s.tagOrder, s.hashtagPosts), Count, TrendingSize)
  }

  /** One entry per listed key whose set is non-empty, counting that set. */
  lemma {:induction false} TagCountsMembers(order: seq<string>, m: map<string, set<PostId>>)
    ensures forall e :: e in TagCounts(order, m) <==>
              e.tag in order && e.tag in m && m[e.tag] != {} && e.count == |m[e.tag]|
    ensures Distinct(order) ==> Distinct(TagCounts(order, m))
  {
    if order != [] {
      TagCountsMembers(order[1..], m);
      var rest := TagCounts(order[1..], m);
      assert forall t :: t in order <==> t == order[0] || t in order[1..];
      if Distinct(order) {
        assert order[0] !in order[1..];
        assert Distinct(order[1..]);
      }
    }
  }

  /** `explore_trending` shows at most ten tags, each once and ranked by count, each
      a lowercase key of the hashtag index whose post set is non-empty, counted
      exactly; a tag with posts that is left out means the list is full and the tag
      has no more posts than any tag shown. */
  lemma TrendingSpec(s: State)
    requires TagIndexOk(s) && OrderOk(s)
    ensures var r := Trending(s);
      && |r| <= TrendingSize
      && SortedDesc(r, Count)
      && (forall e :: e in r ==>
            && e.tag in s.hashtagPosts && Hashtags.IsTag(e.tag)
            && e.count == |s.hashtagPosts[e.tag]| && e.count > 0)
      && (forall i, j :: 0 <= i < j < |r| ==> r[i].tag != r[j].tag)
      && (forall t :: t in s.hashtagPosts && s.hashtagPosts[t] != {} && t !in Tags(r) ==>
            |r| == TrendingSize && forall e :: e in r ==> e.count >= |s.hashtagPosts[t]|)
  {
    var r := Trending(s);
    TagCountsMembers(s.tagOrder, s.hashtagPosts);
    TopSpec(TagCounts(s.tagOrder, s.hashtagPosts), Count, TrendingSize);
    forall i, j | 0 <= i < j < |r| ensures r[i].tag != r[j].tag {
      assert r[i] != r[j];
    }
    forall t | t in s.hashtagPosts && s.hashtagPosts[t] != {} && t !in Tags(r)
      ensures |r| == TrendingSize && forall e :: e in r ==> e.count >= |s.hashtagPosts[t]|
    {
      var e := HashtagCount(t, |s.hashtagPosts[t]|);
      assert e !in r;
    }
  }

  /** In a consistent store the index entry of a tag is the set of live posts that
      carry it. */
  lemma TagEntryIsLivePosts(s: State, t: string)
    requires TagIndexOk(s) && t in s.hashtagPosts
    ensures s.hashtagPosts[t] == set p | p in s.posts && t in s.posts[p].hashtags
  {
  }

  /** In a consistent store each trending count is the number of live posts that
      carry the tag. */
  lemma TrendingCountsLivePosts(s: State)
    requires TagIndexOk(s) && OrderOk(s)
    ensures forall e :: e in Trending(s) ==>
      e.count == |set p | p in s.posts && e.tag in s.posts[p].hashtags|
  {
    TrendingSpec(s);
    forall e | e in Trending(s)
      ensures e.count == |set p | p in s.posts && e.tag in s.posts[p].hashtags|
    {
      TagEntryIsLivePosts(s, e.tag);
    }
  }

  // ---------------------------------------------------------------------------
  // explore_by_hashtag

  /** `pid in post_ids` */
  function Tagged(ids: set<PostId>): Post -> bool {
    (p: Post) => p.id in ids
  }

  /** The live posts indexed under the lowercased tag, newest first. */
  function ByTagPosts(s: State, tag: string): seq<Post> {
    var ids := Builtins.Get(s.hashtagPosts, Hashtags.Lower(tag), {});
    SortDesc(Filter(PostValues(s), Tagged(ids)), CreatedAt)
  }

  /** `explore_by_hashtag` */
  function ByTag(s: State, tag: string): seq<PostOut> {
    Outs(s, ByTagPosts(s, tag))
  }

  /** The tag is lowercased before the lookup, so every case variant of a tag gives
      the same answer. */
  lemma ByTagIgnoresCase(s: State, tag: string, variant: string)
    requires Hashtags.Lower(variant) == Hashtags.Lower(tag)
    ensures ByTag(s, variant) == ByTag(s, tag)
    ensures ByTag(s, Hashtags.Lower(tag)) == ByTag(s, tag)
  {
    Hashtags.LowerIdempotent(tag);
  }

  /** A tag nobody used gives an empty list, not an error. */
  lemma ByTagUnknown(s: State, tag: string)
    requires Hashtags.Lower(tag) !in s.hashtagPosts
    ensures ByTag(s, tag) == []
  {
    var none: set<PostId> := {};
    FilterNone(PostValues(s), Tagged(none));
  }

  /** `explore_by_hashtag` shows, newest first and each once, exactly the live posts
      whose hashtags include the lowercased tag. */
  lemma ByTagSpec(s: State, tag: string)
    requires PostsOk(s) && TagIndexOk(s) && OrderOk(s)
    ensures var q := ByTagPosts(s, tag);
      && ByTag(s, tag) == Outs(s, q)
      && (forall p :: p in q <==>
            p.id in s.posts && s.posts[p.id] == p && Hashtags.Lower(tag) in p.hashtags)
      && SortedDesc(q, CreatedAt)
      && Distinct(q)
  {
    var t := Hashtags.Lower(tag);
    var ids := Builtins.Get(s.hashtagPosts, t, {});
    PostValuesLive(s);
    SortFilterMembers(PostValues(s), Tagged(ids), CreatedAt);
    forall p: Post | p.id in s.posts && s.posts[p.id] == p
      ensures p.id in ids <==> t in p.hashtags
    {
    }
  }
}
