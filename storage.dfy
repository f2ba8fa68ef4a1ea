/** The in-memory store: the eight collections every router shares, the records they
    hold, and the cross-index invariant that every operation keeps.

    Two facts of the Python runtime the routers rely on are made explicit:
    a dict iterates in insertion order, so `postOrder` and `tagOrder` record the key
    order of `posts` and `hashtag_posts` (the only dicts whose iteration order reaches
    a response); and `datetime.utcnow()` becomes `clock`, a counter each create reads
    and advances. */
module Storage {
  import opened Models
  import opened Builtins
  import Hashtags

  datatype User = User(
    id: UserId,
    username: string,
    displayName: string,
    bio: string,
    profilePicUrl: string,
    createdAt: Timestamp)

  datatype Post = Post(
    id: PostId,
    userId: UserId,
    mediaUrl: string,
    mediaType: MediaType,
    caption: string,
    hashtags: seq<string>,
    createdAt: Timestamp)

  datatype Comment = Comment(
    id: CommentId,
    userId: UserId,
    postId: PostId,
    text: string,
    createdAt: Timestamp)

  /** The whole store as one value. */
  datatype State = State(
    users: map<UserId, User>,
    posts: map<PostId, Post>,
    follows: map<UserId, set<UserId>>,         // user -> the users they follow
    followers: map<UserId, set<UserId>>,       // user -> the users following them
    likes: map<PostId, set<UserId>>,           // post -> the users who liked it
    comments: map<CommentId, Comment>,
    postComments: map<PostId, seq<CommentId>>, // post -> its comment ids, oldest first
    hashtagPosts: map<string, set<PostId>>,    // lowercase tag -> posts carrying it
    postOrder: seq<PostId>,                    // key order of `posts`
    tagOrder: seq<string>,                     // key order of `hashtagPosts`
    clock: Timestamp)

  /** What an operation leaves behind and what it answers. */
  datatype Outcome<+T> = Outcome(state: State, result: Results.Result<T>)

  /** `posts.values()`: the stored posts in the dict's insertion order. */
  function PostValues(s: State): seq<Post> {
    Resolve(s.postOrder, s.posts)
  }

  /** All eight collections empty; time keeps running. */
  function Empty(clock: Timestamp): State {
    State(map[], map[], map[], map[], map[], map[], map[], map[], [], [], clock)
  }

  /** User `u` is stored under its own id, has a non-empty handle and was created in
      the past. */
  ghost predicate UserOk(s: State, u: UserId)
    requires u in s.users
  {
    s.users[u].id == u && |s.users[u].username| > 0 && s.users[u].createdAt < s.clock
  }

  /** Every user is well formed and no two users share a handle. */
  ghost predicate UsersOk(s: State) {
    && (forall u :: u in s.users ==> UserOk(s, u))
    && (forall u, v :: u in s.users && v in s.users && s.users[u].username == s.users[v].username ==> u == v)
  }

  /** `follows` and `followers` are one relation between existing users, indexed both
      ways, with no self-edges. */
  ghost predicate FollowsOk(s: State) {
    && s.follows.Keys == s.users.Keys
    && s.followers.Keys == s.users.Keys
    && (forall u :: u in s.follows ==> s.follows[u] <= s.users.Keys && u !in s.follows[u])
    && (forall u :: u in s.followers ==> s.followers[u] <= s.users.Keys)
    && (forall u, v :: u in s.follows && v in s.followers ==>
          (v in s.follows[u] <==> u in s.followers[v]))
  }

  /** Post `p` is stored under its own id, has an existing author, a non-empty media
      URL, a creation time in the past and the tags extracted from its caption. */
  ghost predicate PostOk(s: State, p: PostId)
    requires p in s.posts
  {
    && s.posts[p].id == p
    && s.posts[p].userId in s.users
    && |s.posts[p].mediaUrl| > 0
    && s.posts[p].createdAt < s.clock
    && s.posts[p].hashtags == Hashtags.ExtractHashtags(s.posts[p].caption)
  }

  /** Every post is well formed; `likes` and `post_comments` are keyed exactly by the
      live posts, and only existing users like a post. */
  ghost predicate PostsOk(s: State) {
    && (forall p :: p in s.posts ==> PostOk(s, p))
    && s.likes.Keys == s.posts.Keys
    && (forall p :: p in s.likes ==> s.likes[p] <= s.users.Keys)
    && s.postComments.Keys == s.posts.Keys
  }

  /** The comment list of post `p` names live comments of `p`, strictly oldest first
      (hence each at most once). */
  ghost predicate ListedOldestFirst(s: State, p: PostId)
    requires p in s.postComments
  {
    var ids := s.postComments[p];
    && (forall i :: 0 <= i < |ids| ==> ids[i] in s.comments && s.comments[ids[i]].postId == p)
    && (forall i, j :: 0 <= i < j < |ids| ==> s.comments[ids[i]].createdAt < s.comments[ids[j]].createdAt)
  }

  /** Comment `c` is stored under its own id, belongs to a live post and an existing
      user, has non-blank text, was created in the past and is listed under its post. */
  ghost predicate CommentOk(s: State, c: CommentId)
    requires c in s.comments
  {
    && s.comments[c].id == c
    && s.comments[c].postId in s.posts
    && s.comments[c].userId in s.users
    && !IsBlank(s.comments[c].text)
    && s.comments[c].createdAt < s.clock
    && s.comments[c].postId in s.postComments
    && c in s.postComments[s.comments[c].postId]
  }

  ghost predicate CommentsOk(s: State) {
    && (forall c :: c in s.comments ==> CommentOk(s, c))
    && (forall p :: p in s.postComments ==> ListedOldestFirst(s, p))
  }

  /** Keys of `hashtag_posts` are lowercase tags without `#`, and
      `p in hashtag_posts[t]` iff `p` is live and `t` is one of its tags. */
  ghost predicate TagIndexOk(s: State) {
    && (forall t :: t in s.hashtagPosts ==> Hashtags.IsTag(t))
    && (forall t, p :: t in s.hashtagPosts && p in s.hashtagPosts[t] ==>
          p in s.posts && t in s.posts[p].hashtags)
    && (forall p, t :: p in s.posts && t in s.posts[p].hashtags ==>
          t in s.hashtagPosts && p in s.hashtagPosts[t])
  }

  /** The recorded key orders list each key of their dict exactly once. */
  ghost predicate OrderOk(s: State) {
    KeyOrder(s.postOrder, s.posts) && KeyOrder(s.tagOrder, s.hashtagPosts)
  }

  ghost predicate Invariant(s: State) {
    UsersOk(s) && FollowsOk(s) && PostsOk(s) && CommentsOk(s) && TagIndexOk(s) && OrderOk(s)
  }

  /** When every post is stored under its own id, `posts.values()` holds each live
      post exactly once. */
  lemma PostValuesById(s: State)
    requires forall p :: p in s.posts ==> s.posts[p].id == p
    requires KeyOrder(s.postOrder, s.posts)
    ensures forall p :: p in PostValues(s) <==> p.id in s.posts && s.posts[p.id] == p
    ensures Distinct(PostValues(s))
  {
    var ps := PostValues(s);
    ResolveAll(s.postOrder, s.posts);
    assert forall i :: 0 <= i < |ps| ==> ps[i].id == s.postOrder[i];
    forall p: Post | p.id in s.posts && s.posts[p.id] == p ensures p in ps {
      var i :| 0 <= i < |s.postOrder| && s.postOrder[i] == p.id;
      assert ps[i] == p;
    }
  }

  /** In a consistent store `posts.values()` holds each live post exactly once. */
  lemma PostValuesLive(s: State)
    requires PostsOk(s) && KeyOrder(s.postOrder, s.posts)
    ensures forall p :: p in PostValues(s) <==> p.id in s.posts && s.posts[p.id] == p
    ensures Distinct(PostValues(s))
  {
    forall p | p in s.posts ensures s.posts[p].id == p {
      assert PostOk(s, p);
    }
    PostValuesById(s);
  }

  lemma EmptyIsValid(clock: Timestamp)
    ensures Invariant(Empty(clock))
  {
  }

  lemma PostsFrame(s: State, users: map<UserId, User>, follows: map<UserId, set<UserId>>,
                   followers: map<UserId, set<UserId>>, clock: Timestamp)
    requires PostsOk(s) && s.users.Keys <= users.Keys && s.clock <= clock
    ensures PostsOk(s.(users := users, follows := follows, followers := followers, clock := clock))
  {
  }

  lemma CommentsFrame(s: State, users: map<UserId, User>, follows: map<UserId, set<UserId>>,
                      followers: map<UserId, set<UserId>>, clock: Timestamp)
    requires CommentsOk(s) && s.users.Keys <= users.Keys && s.clock <= clock
    ensures CommentsOk(s.(users := users, follows := follows, followers := followers, clock := clock))
  {
    var s' := s.(users := users, follows := follows, followers := followers, clock := clock);
    assert forall p :: p in s.postComments ==> (ListedOldestFirst(s, p) <==> ListedOldestFirst(s', p));
  }

  lemma TagsFrame(s: State, users: map<UserId, User>, follows: map<UserId, set<UserId>>,
                  followers: map<UserId, set<UserId>>, clock: Timestamp)
    requires TagIndexOk(s) && OrderOk(s)
    ensures var s' := s.(users := users, follows := follows, followers := followers, clock := clock);
            TagIndexOk(s') && OrderOk(s')
  {
  }

  /** Adding users, editing them, editing follow edges or advancing the clock keeps
      every fact about posts, comments, tags and key orders. */
  lemma ContentFrame(s: State, users: map<UserId, User>, follows: map<UserId, set<UserId>>,
                     followers: map<UserId, set<UserId>>, clock: Timestamp)
    requires PostsOk(s) && CommentsOk(s) && TagIndexOk(s) && OrderOk(s)
    requires s.users.Keys <= users.Keys && s.clock <= clock
    ensures var s' := s.(users := users, follows := follows, followers := followers, clock := clock);
            PostsOk(s') && CommentsOk(s') && TagIndexOk(s') && OrderOk(s')
  {
    PostsFrame(s, users, follows, followers, clock);
    CommentsFrame(s, users, follows, followers, clock);
    TagsFrame(s, users, follows, followers, clock);
  }

  lemma TagsOnlyKeepsUsers(s: State, hashtagPosts: map<string, set<PostId>>, tagOrder: seq<string>)
    requires UsersOk(s)
    ensures UsersOk(s.(hashtagPosts := hashtagPosts, tagOrder := tagOrder))
  {
    var s' := s.(hashtagPosts := hashtagPosts, tagOrder := tagOrder);
    forall u | u in s'.users ensures UserOk(s', u) {
      assert UserOk(s, u);
    }
  }

  lemma TagsOnlyKeepsPosts(s: State, hashtagPosts: map<string, set<PostId>>, tagOrder: seq<string>)
    requires PostsOk(s)
    ensures PostsOk(s.(hashtagPosts := hashtagPosts, tagOrder := tagOrder))
  {
    var s' := s.(hashtagPosts := hashtagPosts, tagOrder := tagOrder);
    forall p | p in s'.posts ensures PostOk(s', p) {
      assert PostOk(s, p);
    }
  }

  lemma TagsOnlyKeepsComments(s: State, hashtagPosts: map<string, set<PostId>>, tagOrder: seq<string>)
    requires CommentsOk(s)
    ensures CommentsOk(s.(hashtagPosts := hashtagPosts, tagOrder := tagOrder))
  {
    var s' := s.(hashtagPosts := hashtagPosts, tagOrder := tagOrder);
    forall c | c in s'.comments ensures CommentOk(s', c) {
      assert CommentOk(s, c);
    }
    forall p | p in s'.postComments ensures ListedOldestFirst(s', p) {
      assert ListedOldestFirst(s, p);
    }
  }

  /** Changing only the hashtag index and its key order keeps every fact about users,
      follows, posts and comments. */
  lemma TagsOnlyFrame(s: State, hashtagPosts: map<string, set<PostId>>, tagOrder: seq<string>)
    requires UsersOk(s) && FollowsOk(s) && PostsOk(s) && CommentsOk(s)
    ensures var s' := s.(hashtagPosts := hashtagPosts, tagOrder := tagOrder);
            UsersOk(s') && FollowsOk(s') && PostsOk(s') && CommentsOk(s')
  {
    TagsOnlyKeepsUsers(s, hashtagPosts, tagOrder);
    TagsOnlyKeepsPosts(s, hashtagPosts, tagOrder);
    TagsOnlyKeepsComments(s, hashtagPosts, tagOrder);
  }

  lemma LikesKeepUsersAndFollows(s: State, likes: map<PostId, set<UserId>>)
    requires UsersOk(s) && FollowsOk(s)
    ensures UsersOk(s.(likes := likes)) && FollowsOk(s.(likes := likes))
  {
  }

  lemma LikesKeepPosts(s: State, pid: PostId, likers: set<UserId>)
    requires PostsOk(s) && pid in s.posts && likers <= s.users.Keys
    ensures PostsOk(s.(likes := s.likes[pid := likers]))
  {
  }

  lemma LikesKeepComments(s: State, likes: map<PostId, set<UserId>>)
    requires CommentsOk(s)
    ensures CommentsOk(s.(likes := likes))
  {
    var s' := s.(likes := likes);
    assert forall p :: p in s.postComments ==> (ListedOldestFirst(s, p) <==> ListedOldestFirst(s', p));
  }

  lemma LikesKeepTags(s: State, likes: map<PostId, set<UserId>>)
    requires TagIndexOk(s) && OrderOk(s)
    ensures TagIndexOk(s.(likes := likes)) && OrderOk(s.(likes := likes))
  {
  }

  /** Replacing the likers of a live post by registered users keeps every part of the
      invariant. */
  lemma LikesFrame(s: State, pid: PostId, likers: set<UserId>)
    requires Invariant(s) && pid in s.posts && likers <= s.users.Keys
    ensures Invariant(s.(likes := s.likes[pid := likers]))
  {
    var s' := s.(likes := s.likes[pid := likers]);
    LikesKeepUsersAndFollows(s, s'.likes);
    LikesKeepPosts(s, pid, likers);
    LikesKeepComments(s, s'.likes);
    LikesKeepTags(s, s'.likes);
    assert UsersOk(s') && FollowsOk(s');
    assert PostsOk(s') && CommentsOk(s') && TagIndexOk(s') && OrderOk(s');
  }

  /** `storage.py`: the module-level collections, shared by reference by every router. */
  class Store {
    var users: map<UserId, User>
    var posts: map<PostId, Post>
    var follows: map<UserId, set<UserId>>
    var followers: map<UserId, set<UserId>>
    var likes: map<PostId, set<UserId>>
    var comments: map<CommentId, Comment>
    var postComments: map<PostId, seq<CommentId>>
    var hashtagPosts: map<string, set<PostId>>
    var postOrder: seq<PostId>
    var tagOrder: seq<string>
    var clock: Timestamp

    function Model(): State
      reads this
    {
      State(users, posts, follows, followers, likes, comments, postComments, hashtagPosts,
            postOrder, tagOrder, clock)
    }

    ghost predicate Valid()
      reads this
    {
      Invariant(Model())
    }

    constructor ()
      ensures Model() == Empty(0) && Valid()
    {
      users, posts, follows, followers := map[], map[], map[], map[];
      likes, comments, postComments, hashtagPosts := map[], map[], map[], map[];
      postOrder, tagOrder, clock := [], [], 0;
    }

    /** `reset_storage()`: clears every collection in place. */
    method Reset()
      modifies this
      ensures clock == old(clock)
      ensures Model() == Empty(clock) && Valid()
    {
      users, posts, follows, followers, likes, comments, postComments, hashtagPosts, postOrder, tagOrder
        := map[], map[], map[], map[], map[], map[], map[], map[], [], [];
      EmptyIsValid(clock);
    }
  }
}
