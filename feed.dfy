/** `routers/feed.py`: the personalised feed, the posts of the users someone follows,
    newest first. Read-only. */
module Feed {
  import opened Results
  import opened Models
  import opened Builtins
  import opened Storage
  import opened Posts
  import Follows

  /** `p["user_id"] in following_ids` */
  function ByFollowed(following: set<UserId>): Post -> bool {
    (p: Post) => p.userId in following
  }

  /** The posts of the followed users in `posts.values()` order, then sorted newest
      first by Python's stable sort. */
  function FeedPosts(s: State, following: set<UserId>): seq<Post> {
    SortDesc(Filter(PostValues(s), ByFollowed(following)), CreatedAt)
  }

  /** `get_feed` */
  function GetFeed(s: State, uid: UserId): Result<seq<PostOut>> {
    if uid !in s.users then Err(UserNotFound)
    else
      var following := Builtins.Get(s.follows, uid, {});
      if following == {} then Ok([])
      else Ok(Outs(s, FeedPosts(s, following)))
  }

  /** The posts a feed is made of: those whose author `uid` follows. */
  lemma FeedPostsMembers(s: State, uid: UserId)
    requires PostsOk(s) && OrderOk(s) && uid in s.follows
    ensures var q := FeedPosts(s, s.follows[uid]);
      && Distinct(q)
      && SortedDesc(q, CreatedAt)
      && (forall p :: p in q <==>
            p.id in s.posts && s.posts[p.id] == p && Follows.Edge(s, uid, p.userId))
  {
    PostValuesLive(s);
    SortFilterMembers(PostValues(s), ByFollowed(s.follows[uid]), CreatedAt);
  }

  /** Following nobody selects no post. */
  lemma NobodyFollowedNoPosts(s: State)
    ensures FeedPosts(s, {}) == [] && Outs(s, FeedPosts(s, {})) == []
  {
    var nobody: set<UserId> := {};
    FilterNone(PostValues(s), ByFollowed(nobody));
  }

  /** `get_feed` fails exactly for an unknown user. Otherwise it shows, newest first
      and each once, exactly the live posts whose author the user follows, with their
      live counts; a user following nobody gets an empty feed. */
  lemma FeedSpec(s: State, uid: UserId)
    requires Invariant(s)
    ensures GetFeed(s, uid).Err? <==> uid !in s.users
    ensures GetFeed(s, uid).Err? ==> GetFeed(s, uid).error == UserNotFound
    ensures uid in s.users && s.follows[uid] == {} ==> GetFeed(s, uid) == Ok([])
    ensures GetFeed(s, uid).Ok? ==>
      var q := FeedPosts(s, s.follows[uid]);
      && GetFeed(s, uid).value == Outs(s, q)
      && (forall p :: p in q <==>
            p.id in s.posts && s.posts[p.id] == p && Follows.Edge(s, uid, p.userId))
      && SortedDesc(q, CreatedAt)
      && Distinct(q)
  {
    if uid in s.users {
      var q := FeedPosts(s, s.follows[uid]);
      FeedPostsMembers(s, uid);
      if s.follows[uid] == {} {
        NobodyFollowedNoPosts(s);
      }
    }
  }

  /** Posts not written by `uid` give records not written by `uid`. */
  lemma OutsAuthors(s: State, q: seq<Post>, uid: UserId)
    requires forall p :: p in q ==> p.userId != uid
    ensures forall o :: o in Outs(s, q) ==> o.userId != uid
  {
    forall o | o in Outs(s, q) ensures o.userId != uid {
      var i :| 0 <= i < |q| && Outs(s, q)[i] == o;
      assert q[i] in q;
    }
  }

  /** A user's own posts never reach their feed, whatever their timestamps: nobody
      follows themselves. */
  lemma FeedExcludesOwnPosts(s: State, uid: UserId)
    requires Invariant(s) && GetFeed(s, uid).Ok?
    ensures forall o :: o in GetFeed(s, uid).value ==> o.userId != uid
  {
    FeedSpec(s, uid);
    assert uid !in s.follows[uid];
    if s.follows[uid] != {} {
      OutsAuthors(s, FeedPosts(s, s.follows[uid]), uid);
    }
  }
}
