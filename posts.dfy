/** `routers/posts.py`: creating a post (which indexes its hashtags), reading one,
    listing a user's posts newest first, and deleting a post with everything that
    hangs off it. */
module Posts {
  import opened Results
  import opened Models
  import opened Builtins
  import opened Storage
  import opened Users
  import Hashtags

  /** `_build_post_out`: the stored post plus its like and comment counts. */
  function BuildPostOut(s: State, p: Post): PostOut {
    PostOut(p.id, p.userId, p.mediaUrl, p.mediaType, p.caption, p.hashtags, p.createdAt,
            |Builtins.Get(s.likes, p.id, {})|, |Builtins.Get(s.postComments, p.id, [])|)
  }

  /** `[_build_post_out(p) for p in ps]` */
  function Outs(s: State, ps: seq<Post>): seq<PostOut>
  {
    seq(|ps|, i requires 0 <= i < |ps| => BuildPostOut(s, ps[i]))
  }

  // ---------------------------------------------------------------------------
  // The hashtag index

  /** `hashtag_posts` together with its key order. */
  datatype TagIndex = TagIndex(sets: map<string, set<PostId>>, order: seq<string>)

  function TagIndexOf(s: State): TagIndex {
    TagIndex(s.hashtagPosts, s.tagOrder)
  }

  /** One pass of the indexing loop: `hashtag_posts.setdefault(tag, set()).add(pid)`;
      a new key goes to the end of the key order. */
  function IndexTag(ix: TagIndex, t: string, pid: PostId): TagIndex {
    if t in ix.sets then ix.(sets := ix.sets[t := ix.sets[t] + {pid}])
    else TagIndex(ix.sets[t := {pid}], ix.order + [t])
  }

  /** The indexing loop over `tags`, first tag first. */
  function IndexTags(ix: TagIndex, tags: seq<string>, pid: PostId): TagIndex
    decreases |tags|
  {
    if tags == [] then ix
    else IndexTag(IndexTags(ix, tags[..|tags| - 1], pid), tags[|tags| - 1], pid)
  }

  /** One pass of the unindexing loop: `tag_set = hashtag_posts.get(tag)`, and when it
      is a non-empty set, `tag_set.discard(pid)`. */
  function UnindexTag(sets: map<string, set<PostId>>, t: string, pid: PostId): map<string, set<PostId>> {
    if t in sets && sets[t] != {} then sets[t := sets[t] - {pid}] else sets
  }

  /** The unindexing loop over `tags`, first tag first. */
  function UnindexTags(sets: map<string, set<PostId>>, tags: seq<string>, pid: PostId): map<string, set<PostId>>
    decreases |tags|
  {
    if tags == [] then sets
    else UnindexTag(UnindexTags(sets, tags[..|tags| - 1], pid), tags[|tags| - 1], pid)
  }

  /** Indexing creates a set for each tag of `tags` that had none. */
  lemma {:induction false} IndexTagsKeys(ix: TagIndex, tags: seq<string>, pid: PostId)
    ensures forall t :: t in IndexTags(ix, tags, pid).sets <==> t in ix.sets || t in tags
    decreases |tags|
  {
    if tags != [] {
      var init, last := tags[..|tags| - 1], tags[|tags| - 1];
      assert forall t :: t in tags <==> t in init || t == last;
      IndexTagsKeys(ix, init, pid);
    }
  }

  /** Indexing adds `pid` to the set of every tag in `tags` and to no other set. */
  lemma {:induction false} IndexTagsSets(ix: TagIndex, tags: seq<string>, pid: PostId)
    ensures var ix' := IndexTags(ix, tags, pid);
      forall t :: t in ix'.sets ==>
        ix'.sets[t] == if t in tags then Builtins.Get(ix.sets, t, {}) + {pid}
                       else Builtins.Get(ix.sets, t, {})
    decreases |tags|
  {
    if tags != [] {
      var init, last := tags[..|tags| - 1], tags[|tags| - 1];
      assert forall t :: t in tags <==> t in init || t == last;
      IndexTagsSets(ix, init, pid);
      IndexTagsKeys(ix, init, pid);
      var m := IndexTags(ix, init, pid);
      var ix' := IndexTag(m, last, pid);
      forall t | t in ix'.sets
        ensures ix'.sets[t] == if t in tags then Builtins.Get(ix.sets, t, {}) + {pid}
                               else Builtins.Get(ix.sets, t, {})
      {
        if t == last && t in init {
          assert ix'.sets[t] == m.sets[t] + {pid};
        }
      }
    }
  }

  /** A tag seen for the first time is appended to the key order, so the order keeps
      listing every key exactly once and earlier keys keep their places. */
  lemma {:induction false} IndexTagsOrder(ix: TagIndex, tags: seq<string>, pid: PostId)
    requires KeyOrder(ix.order, ix.sets)
    ensures var ix' := IndexTags(ix, tags, pid);
      KeyOrder(ix'.order, ix'.sets) && ix.order <= ix'.order
    decreases |tags|
  {
    if tags != [] {
      IndexTagsOrder(ix, tags[..|tags| - 1], pid);
    }
  }

  /** Unindexing takes `pid` out of the set of every tag in `tags`; no key is added or
      removed, so emptied sets stay behind. */
  lemma {:induction false} UnindexTagsSets(sets: map<string, set<PostId>>, tags: seq<string>, pid: PostId)
    ensures var sets' := UnindexTags(sets, tags, pid);
      && sets'.Keys == sets.Keys
      && (forall t :: t in sets' ==> sets'[t] == if t in tags then sets[t] - {pid} else sets[t])
    decreases |tags|
  {
    if tags != [] {
      var init, last := tags[..|tags| - 1], tags[|tags| - 1];
      assert tags == init + [last];
      UnindexTagsSets(sets, init, pid);
      var m := UnindexTags(sets, init, pid);
      var sets' := UnindexTag(m, last, pid);
      forall t | t in sets'
        ensures sets'[t] == if t in tags then sets[t] - {pid} else sets[t]
      {
        if t == last && m[t] == {} {
          assert sets[t] - {pid} == {};
        }
      }
    }
  }

  // ---------------------------------------------------------------------------
  // create_post

  /** The record `create_post` stores, stamped with the current time. */
  function NewPost(s: State, pid: PostId, req: PostCreate): Post {
    Post(pid, req.userId, req.mediaUrl, req.mediaType, req.caption,
         Hashtags.ExtractHashtags(req.caption), s.clock)
  }

  /** `posts[pid] = post` with `likes.setdefault(pid, set())` and
      `post_comments.setdefault(pid, [])`: the store before the tags are indexed. */
  function StorePost(s: State, post: Post): State {
    s.(posts := s.posts[post.id := post],
       postOrder := if post.id in s.posts then s.postOrder else s.postOrder + [post.id],
       likes := SetDefault(s.likes, post.id, {}),
       postComments := SetDefault(s.postComments, post.id, []),
       clock := s.clock + 1)
  }

  /** The stored post with its tags indexed. */
  function AddPost(s: State, post: Post): State {
    var ix := IndexTags(TagIndexOf(s), post.hashtags, post.id);
    StorePost(s, post).(hashtagPosts := ix.sets, tagOrder := ix.order)
  }

  /** `create_post` with `pid` the fresh id and `s.clock` the creation time. */
  function Create(s: State, pid: PostId, req: PostCreate): Outcome<PostOut> {
    if req.userId !in s.users then Outcome(s, Err(UserNotFound))
    else
      var post := NewPost(s, pid, req);
      var s' := AddPost(s, post);
      Outcome(s', Ok(BuildPostOut(s', post)))
  }

  /** `create_post` fails exactly for an unknown author, and then changes nothing. */
  lemma CreateRejectsUnknownAuthor(s: State, pid: PostId, req: PostCreate)
    ensures Create(s, pid, req).result.Err? <==> req.userId !in s.users
    ensures Create(s, pid, req).result.Err? ==> Create(s, pid, req) == Outcome(s, Err(UserNotFound))
  {
  }

  /** Otherwise `create_post` stores the post with the lowercase tags of its caption,
      appends it to the key order, gives it no likes and no comments, and adds it to
      the set of each of its tags; users, follows and comments stay as they were, and
      the response shows zero likes and comments. */
  lemma CreateAddsPost(s: State, pid: PostId, req: PostCreate)
    requires PostsOk(s) && pid !in s.posts && req.userId in s.users
    ensures var o := Create(s, pid, req);
      var post := Post(pid, req.userId, req.mediaUrl, req.mediaType, req.caption,
                       Hashtags.ExtractHashtags(req.caption), s.clock);
      && o.result == Ok(PostOut(pid, req.userId, req.mediaUrl, req.mediaType, req.caption,
                                post.hashtags, s.clock, 0, 0))
      && o.state == s.(posts := s.posts[pid := post], postOrder := s.postOrder + [pid],
                       likes := s.likes[pid := {}], postComments := s.postComments[pid := []],
                       hashtagPosts := o.state.hashtagPosts, tagOrder := o.state.tagOrder,
                       clock := s.clock + 1)
      && (forall t :: t in o.state.hashtagPosts <==> t in s.hashtagPosts || t in post.hashtags)
      && (forall t :: t in o.state.hashtagPosts ==>
            o.state.hashtagPosts[t] == if t in post.hashtags
                                       then Builtins.Get(s.hashtagPosts, t, {}) + {pid}
                                       else s.hashtagPosts[t])
  {
    var post := NewPost(s, pid, req);
    assert pid !in s.likes && pid !in s.postComments;
    IndexTagsKeys(TagIndexOf(s), post.hashtags, pid);
    IndexTagsSets(TagIndexOf(s), post.hashtags, pid);
  }

  lemma StorePostKeepsUsersAndFollows(s: State, post: Post)
    requires UsersOk(s) && FollowsOk(s)
    ensures UsersOk(StorePost(s, post)) && FollowsOk(StorePost(s, post))
  {
    var s' := StorePost(s, post);
    forall u | u in s'.users ensures UserOk(s', u) {
      assert UserOk(s, u);
    }
  }

  lemma StorePostKeepsPosts(s: State, pid: PostId, req: PostCreate)
    requires PostsOk(s) && pid !in s.posts && req.userId in s.users
    ensures PostsOk(StorePost(s, NewPost(s, pid, req)))
  {
    var s' := StorePost(s, NewPost(s, pid, req));
    assert pid !in s.likes && pid !in s.postComments;
    forall p | p in s'.posts ensures PostOk(s', p) {
      if p != pid {
        assert PostOk(s, p);
      }
    }
  }

  lemma StorePostKeepsCommentOk(s: State, pid: PostId, req: PostCreate)
    requires CommentsOk(s)
    ensures var s' := StorePost(s, NewPost(s, pid, req));
      forall c :: c in s'.comments ==> CommentOk(s', c)
  {
    var s' := StorePost(s, NewPost(s, pid, req));
    forall c | c in s'.comments ensures CommentOk(s', c) {
      assert CommentOk(s, c);
    }
  }

  lemma StorePostKeepsComments(s: State, pid: PostId, req: PostCreate)
    requires PostsOk(s) && CommentsOk(s) && pid !in s.posts
    ensures CommentsOk(StorePost(s, NewPost(s, pid, req)))
  {
    var s' := StorePost(s, NewPost(s, pid, req));
    assert pid !in s.postComments;
    StorePostKeepsCommentOk(s, pid, req);
    forall p | p in s'.postComments ensures ListedOldestFirst(s', p) {
      if p != pid {
        assert ListedOldestFirst(s, p);
      }
    }
  }

  lemma StorePostKeepsOrder(s: State, post: Post)
    requires KeyOrder(s.postOrder, s.posts) && KeyOrder(s.tagOrder, s.hashtagPosts)
    ensures KeyOrder(StorePost(s, post).postOrder, StorePost(s, post).posts)
    ensures KeyOrder(StorePost(s, post).tagOrder, StorePost(s, post).hashtagPosts)
  {
  }

  /** After the post is added, every indexed post is live and carries the tag it is
      indexed under, and every key is a tag. */
  lemma NewIndexPointsToPosts(s: State, pid: PostId, req: PostCreate)
    requires TagIndexOk(s) && pid !in s.posts
    ensures var s2 := AddPost(s, NewPost(s, pid, req));
      && (forall t :: t in s2.hashtagPosts ==> Hashtags.IsTag(t))
      && (forall t, p :: t in s2.hashtagPosts && p in s2.hashtagPosts[t] ==>
            p in s2.posts && t in s2.posts[p].hashtags)
  {
    var post := NewPost(s, pid, req);
    var s2 := AddPost(s, post);
    IndexTagsKeys(TagIndexOf(s), post.hashtags, pid);
    IndexTagsSets(TagIndexOf(s), post.hashtags, pid);
    forall t, p | t in s2.hashtagPosts && p in s2.hashtagPosts[t]
      ensures p in s2.posts && t in s2.posts[p].hashtags
    {
      if p != pid {
        assert t in s.hashtagPosts && p in s.hashtagPosts[t];
      }
    }
  }

  /** After the post is added, every tag of every live post, the new one included,
      leads back to it through the index. */
  lemma PostsReachNewIndex(s: State, pid: PostId, req: PostCreate)
    requires TagIndexOk(s) && pid !in s.posts
    ensures var s2 := AddPost(s, NewPost(s, pid, req));
      forall p, t :: p in s2.posts && t in s2.posts[p].hashtags ==>
        t in s2.hashtagPosts && p in s2.hashtagPosts[t]
  {
    var post := NewPost(s, pid, req);
    var s2 := AddPost(s, post);
    IndexTagsKeys(TagIndexOf(s), post.hashtags, pid);
    IndexTagsSets(TagIndexOf(s), post.hashtags, pid);
    forall p, t | p in s2.posts && t in s2.posts[p].hashtags
      ensures t in s2.hashtagPosts && p in s2.hashtagPosts[t]
    {
      if p != pid {
        assert t in s.hashtagPosts && p in s.hashtagPosts[t];
      }
    }
  }

  lemma NewPostTagIndexOk(s: State, pid: PostId, req: PostCreate)
    requires TagIndexOk(s) && pid !in s.posts
    ensures TagIndexOk(AddPost(s, NewPost(s, pid, req)))
  {
    NewIndexPointsToPosts(s, pid, req);
    PostsReachNewIndex(s, pid, req);
  }

  /** `create_post` keeps the store consistent; in particular every tag of the new
      post leads back to it through the hashtag index. */
  lemma CreateKeepsInvariant(s: State, pid: PostId, req: PostCreate)
    requires Invariant(s) && pid !in s.posts
    ensures Invariant(Create(s, pid, req).state)
  {
    if req.userId in s.users {
      var post := NewPost(s, pid, req);
      var s1 := StorePost(s, post);
      var s2 := AddPost(s, post);
      assert Create(s, pid, req).state == s2;
      assert s2 == s1.(hashtagPosts := s2.hashtagPosts, tagOrder := s2.tagOrder);
      StorePostKeepsUsersAndFollows(s, post);
      StorePostKeepsPosts(s, pid, req);
      StorePostKeepsComments(s, pid, req);
      TagsOnlyFrame(s1, s2.hashtagPosts, s2.tagOrder);
      NewPostTagIndexOk(s, pid, req);
      var ix := IndexTags(TagIndexOf(s), post.hashtags, pid);
      assert s2.hashtagPosts == ix.sets && s2.tagOrder == ix.order;
      IndexTagsOrder(TagIndexOf(s), post.hashtags, pid);
      StorePostKeepsOrder(s, post);
      assert KeyOrder(s2.tagOrder, s2.hashtagPosts) && KeyOrder(s2.postOrder, s2.posts);
      assert UsersOk(s2) && FollowsOk(s2);
      assert PostsOk(s2) && CommentsOk(s2) && TagIndexOk(s2) && OrderOk(s2);
    }
  }

  // ---------------------------------------------------------------------------
  // delete_post

  /** The cascade of `delete_post`: the post leaves every tag set it is in, its
      comments and its comment list go, its like set goes, and the post itself. */
  function RemovePost(s: State, pid: PostId): State
    requires pid in s.posts
  {
    var cids := Builtins.Get(s.postComments, pid, []);
    s.(hashtagPosts := UnindexTags(s.hashtagPosts, s.posts[pid].hashtags, pid),
       comments := s.comments - Elems(cids),
       postComments := s.postComments - {pid},
       likes := s.likes - {pid},
       posts := s.posts - {pid},
       postOrder := Without(s.postOrder, pid))
  }

  /** `delete_post` */
  function Delete(s: State, pid: PostId): Outcome<string> {
    if pid !in s.posts then Outcome(s, Err(PostNotFound))
    else Outcome(RemovePost(s, pid), Ok("Post deleted"))
  }

  /** `delete_post` fails exactly for an unknown post, and then changes nothing. */
  lemma DeleteRejectsUnknownPost(s: State, pid: PostId)
    ensures Delete(s, pid).result.Err? <==> pid !in s.posts
    ensures Delete(s, pid).result.Err? ==> Delete(s, pid) == Outcome(s, Err(PostNotFound))
  {
  }

  /** Otherwise the post, its like set and its comment list are gone, and so is every
      comment on it and nothing else; users, follows and the clock stay. */
  lemma DeleteRemovesPost(s: State, pid: PostId)
    requires CommentsOk(s) && pid in s.posts
    ensures var o := Delete(s, pid);
      && o.result == Ok("Post deleted")
      && o.state == s.(posts := s.posts - {pid}, postOrder := Without(s.postOrder, pid),
                       likes := s.likes - {pid}, postComments := s.postComments - {pid},
                       comments := o.state.comments, hashtagPosts := o.state.hashtagPosts)
      && (forall c :: c in o.state.comments <==> c in s.comments && s.comments[c].postId != pid)
      && (forall c :: c in o.state.comments ==> o.state.comments[c] == s.comments[c])
  {
    var cids := Builtins.Get(s.postComments, pid, []);
    forall c | c in s.comments
      ensures c in cids <==> s.comments[c].postId == pid
    {
      assert CommentOk(s, c);
      if c in cids {
        assert ListedOldestFirst(s, pid);
      }
    }
  }

  /** The post leaves the set of each of its tags; the other sets never held it, so
      every set loses `pid` and no key disappears. */
  lemma DeleteUnindexesPost(s: State, pid: PostId)
    requires TagIndexOk(s) && pid in s.posts
    ensures var sets := Delete(s, pid).state.hashtagPosts;
      && sets.Keys == s.hashtagPosts.Keys
      && (forall t :: t in sets ==> sets[t] == s.hashtagPosts[t] - {pid})
      && (forall t :: t in sets ==> pid !in sets[t])
  {
    var tags := s.posts[pid].hashtags;
    UnindexTagsSets(s.hashtagPosts, tags, pid);
    forall t | t in s.hashtagPosts && t !in tags ensures s.hashtagPosts[t] - {pid} == s.hashtagPosts[t] {
      assert pid !in s.hashtagPosts[t];
    }
  }

  lemma RemovePostKeepsUsersAndFollows(s: State, pid: PostId)
    requires UsersOk(s) && FollowsOk(s) && pid in s.posts
    ensures UsersOk(RemovePost(s, pid)) && FollowsOk(RemovePost(s, pid))
  {
    var s' := RemovePost(s, pid);
    forall u | u in s'.users ensures UserOk(s', u) {
      assert UserOk(s, u);
    }
  }

  lemma RemovePostKeepsPosts(s: State, pid: PostId)
    requires PostsOk(s) && pid in s.posts
    ensures PostsOk(RemovePost(s, pid))
  {
    var s' := RemovePost(s, pid);
    forall p | p in s'.posts ensures PostOk(s', p) {
      assert PostOk(s, p);
    }
  }

  /** The comments that survive the cascade are exactly those on other posts. */
  lemma RemovePostComments(s: State, pid: PostId)
    requires CommentsOk(s) && pid in s.posts
    ensures forall c :: c in RemovePost(s, pid).comments <==> c in s.comments && s.comments[c].postId != pid
    ensures forall c :: c in RemovePost(s, pid).comments ==> RemovePost(s, pid).comments[c] == s.comments[c]
  {
    DeleteRemovesPost(s, pid);
  }

  /** A comment on another post survives the cascade intact. */
  lemma RemovePostKeepsOneComment(s: State, pid: PostId, c: CommentId)
    requires pid in s.posts && pid in s.postComments && c !in s.postComments[pid]
    requires c in s.comments && CommentOk(s, c)
    ensures c in RemovePost(s, pid).comments && CommentOk(RemovePost(s, pid), c)
  {
  }

  lemma RemovePostKeepsCommentOk(s: State, pid: PostId)
    requires PostsOk(s) && CommentsOk(s) && pid in s.posts
    ensures forall c :: c in RemovePost(s, pid).comments ==> CommentOk(RemovePost(s, pid), c)
  {
    var s' := RemovePost(s, pid);
    RemovePostComments(s, pid);
    assert ListedOldestFirst(s, pid);
    forall c | c in s'.comments ensures CommentOk(s', c) {
      assert CommentOk(s, c);
      assert s.comments[c].postId != pid;
      RemovePostKeepsOneComment(s, pid, c);
    }
  }

  lemma RemovePostKeepsLists(s: State, pid: PostId)
    requires PostsOk(s) && CommentsOk(s) && pid in s.posts
    ensures forall p :: p in RemovePost(s, pid).postComments ==> ListedOldestFirst(RemovePost(s, pid), p)
  {
    var s' := RemovePost(s, pid);
    RemovePostComments(s, pid);
    forall p | p in s'.postComments ensures ListedOldestFirst(s', p) {
      assert ListedOldestFirst(s, p);
      var ids := s.postComments[p];
      forall i | 0 <= i < |ids| ensures ids[i] in s'.comments {
        assert s.comments[ids[i]].postId == p;
      }
    }
  }

  lemma RemovePostKeepsComments(s: State, pid: PostId)
    requires PostsOk(s) && CommentsOk(s) && pid in s.posts
    ensures CommentsOk(RemovePost(s, pid))
  {
    RemovePostKeepsCommentOk(s, pid);
    RemovePostKeepsLists(s, pid);
  }

  lemma RemovePostKeepsTags(s: State, pid: PostId)
    requires TagIndexOk(s) && pid in s.posts
    ensures TagIndexOk(RemovePost(s, pid))
  {
    var s' := RemovePost(s, pid);
    var sets := s'.hashtagPosts;
    assert Delete(s, pid).state == s';
    DeleteUnindexesPost(s, pid);
    forall t | t in sets ensures Hashtags.IsTag(t) {
      assert t in s.hashtagPosts;
    }
    forall t, p | t in sets && p in sets[t] ensures p in s'.posts && t in s'.posts[p].hashtags {
      assert p in s.hashtagPosts[t] && p != pid;
    }
    forall p, t | p in s'.posts && t in s'.posts[p].hashtags ensures t in sets && p in sets[t] {
      assert t in s.hashtagPosts && p in s.hashtagPosts[t];
    }
  }

  lemma RemovePostKeepsOrder(s: State, pid: PostId)
    requires TagIndexOk(s) && OrderOk(s) && pid in s.posts
    ensures OrderOk(RemovePost(s, pid))
  {
    var s' := RemovePost(s, pid);
    assert Delete(s, pid).state == s';
    DeleteUnindexesPost(s, pid);
    assert KeyOrder(s'.postOrder, s'.posts);
    assert KeyOrder(s'.tagOrder, s'.hashtagPosts);
  }

  /** `delete_post` keeps the store consistent: no like, comment, comment list or tag
      entry is left pointing at the deleted post. */
  lemma DeleteKeepsInvariant(s: State, pid: PostId)
    requires Invariant(s)
    ensures Invariant(Delete(s, pid).state)
  {
    if pid in s.posts {
      var s' := RemovePost(s, pid);
      RemovePostKeepsUsersAndFollows(s, pid);
      RemovePostKeepsPosts(s, pid);
      RemovePostKeepsComments(s, pid);
      RemovePostKeepsTags(s, pid);
      RemovePostKeepsOrder(s, pid);
      assert UsersOk(s') && FollowsOk(s');
      assert PostsOk(s') && CommentsOk(s') && TagIndexOk(s') && OrderOk(s');
    }
  }

  // ---------------------------------------------------------------------------
  // get_post and get_user_posts

  /** `get_post`: a stored post record is never empty, so `not post` means missing. */
  function Get(s: State, pid: PostId): (r: Result<PostOut>)
    ensures r.Err? <==> pid !in s.posts
    ensures r.Err? ==> r.error == PostNotFound
    ensures r.Ok? ==> r.value == BuildPostOut(s, s.posts[pid])
  {
    if pid !in s.posts then Err(PostNotFound) else Ok(BuildPostOut(s, s.posts[pid]))
  }

  /** In a consistent store `get_post` answers the stored post, the number of users who
      like it and the number of comments on it. */
  lemma GetShowsPost(s: State, pid: PostId)
    requires PostsOk(s) && CommentsOk(s) && pid in s.posts
    ensures var p, r := s.posts[pid], Get(s, pid).value;
      && r.id == pid && r.userId == p.userId && r.mediaUrl == p.mediaUrl
      && r.mediaType == p.mediaType && r.caption == p.caption && r.hashtags == p.hashtags
      && r.createdAt == p.createdAt
      && r.likeCount == |set u | u in s.users && u in s.likes[pid]|
      && r.commentCount == |set c | c in s.comments && s.comments[c].postId == pid|
  {
    assert PostOk(s, pid);
    assert s.likes[pid] == set u | u in s.users && u in s.likes[pid];
    var ids := s.postComments[pid];
    assert ListedOldestFirst(s, pid);
    assert Distinct(ids);
    var onPost := set c | c in s.comments && s.comments[c].postId == pid;
    forall c | c in onPost ensures c in ids {
      assert CommentOk(s, c);
    }
    EnumerationCard(ids, onPost);
  }

  /** Reading a post right after creating it gives back what `create_post` answered. */
  lemma GetAfterCreate(s: State, pid: PostId, req: PostCreate)
    requires PostsOk(s) && pid !in s.posts && req.userId in s.users
    ensures Get(Create(s, pid, req).state, pid) == Create(s, pid, req).result
  {
  }

  /** A deleted post can no longer be read, and the other posts read as before apart
      from their counts, which `delete_post` never touches either. */
  lemma GetAfterDelete(s: State, pid: PostId, other: PostId)
    requires PostsOk(s) && Delete(s, pid).result.Ok? && other != pid
    ensures Get(Delete(s, pid).state, pid) == Err(PostNotFound)
    ensures Get(Delete(s, pid).state, other) == Get(s, other)
  {
    if other in s.posts {
      assert PostOk(s, other);
    }
  }

  /** `p["user_id"] == uid` */
  function IsAuthor(uid: UserId): Post -> bool {
    (p: Post) => p.userId == uid
  }

  /** The sort key of the newest-first listings. */
  function CreatedAt(p: Post): int {
    p.createdAt
  }

  /** The posts of `uid` in `posts.values()` order, then sorted newest first by
      Python's stable sort. */
  function NewestFirst(s: State, uid: UserId): seq<Post> {
    SortDesc(Filter(PostValues(s), IsAuthor(uid)), CreatedAt)
  }

  /** `get_user_posts` */
  function UserPosts(s: State, uid: UserId): Result<seq<PostOut>> {
    if uid !in s.users then Err(UserNotFound) else Ok(Outs(s, NewestFirst(s, uid)))
  }

  /** Keeping the posts of `uid` keeps as many posts as `Authored` counts. */
  lemma {:induction false} FilterCountsAuthored(ps: seq<Post>, uid: UserId)
    ensures |Filter(ps, IsAuthor(uid))| == Authored(ps, uid)
  {
    if ps != [] {
      FilterCountsAuthored(ps[1..], uid);
    }
  }

  /** The listing holds exactly the live posts of `uid`, each once. */
  lemma NewestFirstMembers(s: State, uid: UserId)
    requires PostsOk(s) && KeyOrder(s.postOrder, s.posts)
    ensures var q := NewestFirst(s, uid);
      && Distinct(q)
      && (forall p :: p in q <==> p.id in s.posts && s.posts[p.id] == p && p.userId == uid)
  {
    PostValuesLive(s);
    SortFilterMembers(PostValues(s), IsAuthor(uid), CreatedAt);
  }

  /** `get_user_posts` fails exactly for an unknown user; otherwise it shows, newest
      first, every live post of the user once with its live counts, as many posts as
      the profile's `post_count`. */
  lemma UserPostsLists(s: State, uid: UserId)
    requires PostsOk(s) && OrderOk(s)
    ensures UserPosts(s, uid).Err? <==> uid !in s.users
    ensures UserPosts(s, uid).Err? ==> UserPosts(s, uid).error == UserNotFound
    ensures UserPosts(s, uid).Ok? ==>
      var q := NewestFirst(s, uid);
      && UserPosts(s, uid).value == Outs(s, q)
      && |q| == PostCount(s, uid)
      && (forall p :: p in q ==> p.id in s.posts && s.posts[p.id] == p && p.userId == uid)
      && (forall p :: p in s.posts && s.posts[p].userId == uid ==> s.posts[p] in q)
      && SortedDesc(q, CreatedAt)
      && Distinct(q)
  {
    FilterCountsAuthored(PostValues(s), uid);
    NewestFirstMembers(s, uid);
    var q := NewestFirst(s, uid);
    forall p | p in s.posts && s.posts[p].userId == uid ensures s.posts[p] in q {
      assert PostOk(s, p);
    }
  }

  /** `post_count` is the number of stored posts whose author is `uid`. */
  lemma PostCountIsAuthored(s: State, uid: UserId)
    requires PostsOk(s) && KeyOrder(s.postOrder, s.posts)
    ensures PostCount(s, uid) == |set p | p in s.posts.Values && p.userId == uid|
  {
    FilterCountsAuthored(PostValues(s), uid);
    NewestFirstMembers(s, uid);
    var q := NewestFirst(s, uid);
    var authored := set p | p in s.posts.Values && p.userId == uid;
    forall i | 0 <= i < |q| ensures q[i] in authored {
      assert q[i] in q;
    }
    forall p | p in authored ensures p in q {
      var k :| k in s.posts && s.posts[k] == p;
      assert PostOk(s, k);
    }
    EnumerationCard(q, authored);
  }

  // ---------------------------------------------------------------------------
  // The handlers on the shared store

  /** The indexing loop of `create_post`, one `setdefault(tag, set()).add(pid)` per tag. */
  method IndexLoop(ix: TagIndex, tags: seq<string>, pid: PostId) returns (ix': TagIndex)
    ensures ix' == IndexTags(ix, tags, pid)
  {
    var sets, order := ix.sets, ix.order;
    var i := 0;
    while i < |tags|
      invariant 0 <= i <= |tags|
      invariant TagIndex(sets, order) == IndexTags(ix, tags[..i], pid)
    {
      var tag := tags[i];
      ghost var before := TagIndex(sets, order);
      if tag !in sets {
        sets := sets[tag := {}];
        order := order + [tag];
      }
      sets := sets[tag := sets[tag] + {pid}];
      if tag !in before.sets {
        assert sets == before.sets[tag := {pid}] by {
          assert sets[tag] == {pid};
        }
      }
      assert TagIndex(sets, order) == IndexTag(before, tag, pid);
      assert tags[..i + 1][..i] == tags[..i];
      i := i + 1;
    }
    assert tags[..i] == tags;
    ix' := TagIndex(sets, order);
  }

  /** The unindexing loop of `delete_post`: a tag whose set is missing or empty is
      skipped. */
  method UnindexLoop(sets: map<string, set<PostId>>, tags: seq<string>, pid: PostId)
    returns (sets': map<string, set<PostId>>)
    ensures sets' == UnindexTags(sets, tags, pid)
  {
    sets' := sets;
    var i := 0;
    while i < |tags|
      invariant 0 <= i <= |tags|
      invariant sets' == UnindexTags(sets, tags[..i], pid)
    {
      var tag := tags[i];
      if tag in sets' && sets'[tag] != {} {
        sets' := sets'[tag := sets'[tag] - {pid}];
      }
      assert tags[..i + 1][..i] == tags[..i];
      i := i + 1;
    }
    assert tags[..i] == tags;
  }

  /** The comment cascade of `delete_post`: `comments.pop(cid, None)` for each id. */
  method PopComments(comments: map<CommentId, Comment>, cids: seq<CommentId>)
    returns (comments': map<CommentId, Comment>)
    ensures comments' == comments - Elems(cids)
  {
    comments' := comments;
    var j := 0;
    while j < |cids|
      invariant 0 <= j <= |cids|
      invariant comments' == comments - Elems(cids[..j])
    {
      assert Elems(cids[..j + 1]) == Elems(cids[..j]) + {cids[j]} by {
        assert cids[..j + 1] == cids[..j] + [cids[j]];
      }
      comments' := comments' - {cids[j]};
      j := j + 1;
    }
    assert cids[..j] == cids;
  }

  /** The writes of `create_post` before the tag loop: the post itself, its empty
      like set and comment list, and the advanced clock. */
  method PutPost(st: Store, post: Post)
    modifies st
    ensures st.Model() == StorePost(old(st.Model()), post)
  {
    if post.id !in st.posts {
      st.postOrder := st.postOrder + [post.id];
    }
    st.posts := st.posts[post.id := post];
    st.likes := SetDefault(st.likes, post.id, {});
    st.postComments := SetDefault(st.postComments, post.id, []);
    st.clock := st.clock + 1;
  }

  /** The writes of `create_post` once the author is known, given the hashtag index
      the tag loop built. */
  method StoreNewPost(st: Store, post: Post, ix: TagIndex)
    requires ix == IndexTags(TagIndex(st.hashtagPosts, st.tagOrder), post.hashtags, post.id)
    modifies st
    ensures st.Model() == AddPost(old(st.Model()), post)
  {
    PutPost(st, post);
    st.hashtagPosts, st.tagOrder := ix.sets, ix.order;
  }

  /** The cascade of `delete_post` once the post is known to exist. */
  method DropPost(st: Store, pid: PostId)
    requires pid in st.posts
    modifies st
    ensures st.Model() == RemovePost(old(st.Model()), pid)
  {
    var sets := UnindexLoop(st.hashtagPosts, st.posts[pid].hashtags, pid);
    var comments := PopComments(st.comments, Builtins.Get(st.postComments, pid, []));
    var postOrder := Without(st.postOrder, pid);
    st.hashtagPosts, st.postComments, st.comments := sets, st.postComments - {pid}, comments;
    st.likes, st.posts, st.postOrder := st.likes - {pid}, st.posts - {pid}, postOrder;
  }

  /** `create_post` on the shared store; `pid` is the fresh id. */
  method CreatePost(st: Store, pid: PostId, req: PostCreate) returns (r: Result<PostOut>)
    requires st.Valid() && pid !in st.posts
    modifies st
    ensures st.Valid()
    ensures Outcome(st.Model(), r) == Create(old(st.Model()), pid, req)
  {
    ghost var s0 := st.Model();
    if req.userId !in st.users {
      return Err(UserNotFound);
    }
    var hashtags := Hashtags.ExtractHashtags(req.caption);
    var post := Post(pid, req.userId, req.mediaUrl, req.mediaType, req.caption, hashtags, st.clock);
    var ix := IndexLoop(TagIndex(st.hashtagPosts, st.tagOrder), hashtags, pid);
    StoreNewPost(st, post, ix);
    r := Ok(BuildPostOut(st.Model(), post));
    CreateKeepsInvariant(s0, pid, req);
  }

  /** `delete_post` on the shared store. */
  method DeletePost(st: Store, pid: PostId) returns (r: Result<string>)
    requires st.Valid()
    modifies st
    ensures st.Valid()
    ensures Outcome(st.Model(), r) == Delete(old(st.Model()), pid)
  {
    ghost var s0 := st.Model();
    if pid !in st.posts {
      return Err(PostNotFound);
    }
    DropPost(st, pid);
    r := Ok("Post deleted");
    DeleteKeepsInvariant(s0, pid);
  }
}
