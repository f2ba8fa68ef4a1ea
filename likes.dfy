/** `routers/likes.py`: liking and unliking a post, and listing who liked it. */
module Likes {
  import opened Results
  import opened Models
  import opened Builtins
  import opened Storage
  import opened Users

  /** `uid` likes post `pid`, as the `likes` index records it. */
  predicate Liked(s: State, pid: PostId, uid: UserId) {
    pid in s.likes && uid in s.likes[pid]
  }

  /** The registered users who like post `pid`. */
  ghost function LikersOf(s: State, pid: PostId): set<UserId> {
    set u | u in s.users && Liked(s, pid, u)
  }

  /** `like_post`: the post is checked before the user; `likes.setdefault` happens
      before the duplicate check. */
  function Like(s: State, pid: PostId, uid: UserId): Outcome<string> {
    if pid !in s.posts then Outcome(s, Err(PostNotFound))
    else if uid !in s.users then Outcome(s, Err(UserNotFound))
    else
      var likes := SetDefault(s.likes, pid, {});
      if uid in likes[pid] then Outcome(s.(likes := likes), Err(AlreadyLiked))
      else Outcome(s.(likes := likes[pid := likes[pid] + {uid}]), Ok("Post liked"))
  }

  /** `unlike_post`: the user id comes from the query string and is not looked up;
      only the like itself must exist. */
  function Unlike(s: State, pid: PostId, uid: UserId): Outcome<string> {
    if pid !in s.posts then Outcome(s, Err(PostNotFound))
    else if uid !in Builtins.Get(s.likes, pid, {}) then Outcome(s, Err(LikeNotFound))
    else Outcome(s.(likes := s.likes[pid := s.likes[pid] - {uid}]), Ok("Post unliked"))
  }

  /** In a consistent store the `likes` index of a post lists exactly its likers. */
  lemma LikeIndex(s: State, pid: PostId)
    requires PostsOk(s) && pid in s.posts
    ensures s.likes[pid] == LikersOf(s, pid)
  {
  }

  /** `like_post` fails with the first check that does not hold and then leaves the
      store as it was. */
  lemma LikeErrors(s: State, pid: PostId, uid: UserId)
    requires PostsOk(s)
    ensures var o := Like(s, pid, uid);
      && (o.result.Err? ==> o.state == s)
      && (o.result == Err(PostNotFound) <==> pid !in s.posts)
      && (o.result == Err(UserNotFound) <==> pid in s.posts && uid !in s.users)
      && (o.result == Err(AlreadyLiked) <==> pid in s.posts && uid in s.users && Liked(s, pid, uid))
  {
    if pid in s.posts {
      assert SetDefault(s.likes, pid, {}) == s.likes;
    }
  }

  /** Otherwise `like_post` adds `uid` to the likers of `pid`, whose like count grows
      by one, and nothing else changes. */
  lemma LikeAddsLiker(s: State, pid: PostId, uid: UserId)
    requires PostsOk(s) && Like(s, pid, uid).result.Ok?
    ensures pid in s.posts && uid in s.users && !Liked(s, pid, uid)
    ensures Like(s, pid, uid).state == s.(likes := s.likes[pid := s.likes[pid] + {uid}])
    ensures |Like(s, pid, uid).state.likes[pid]| == |s.likes[pid]| + 1
  {
    assert SetDefault(s.likes, pid, {}) == s.likes;
  }

  /** `unlike_post` fails with the first check that does not hold and then leaves the
      store as it was. */
  lemma UnlikeErrors(s: State, pid: PostId, uid: UserId)
    ensures var o := Unlike(s, pid, uid);
      && (o.result.Err? ==> o.state == s)
      && (o.result == Err(PostNotFound) <==> pid !in s.posts)
      && (o.result == Err(LikeNotFound) <==> pid in s.posts && !Liked(s, pid, uid))
  {
  }

  /** Otherwise `unlike_post` removes `uid` from the likers of `pid`, whose like count
      shrinks by one, and nothing else changes. */
  lemma UnlikeRemovesLiker(s: State, pid: PostId, uid: UserId)
    requires Unlike(s, pid, uid).result.Ok?
    ensures pid in s.posts && Liked(s, pid, uid)
    ensures Unlike(s, pid, uid).state == s.(likes := s.likes[pid := s.likes[pid] - {uid}])
    ensures |Unlike(s, pid, uid).state.likes[pid]| == |s.likes[pid]| - 1
  {
  }

  /** Although `unlike_post` never looks the user up, an unknown user is still turned
      away: in a consistent store only registered users like posts. */
  lemma UnlikeByUnknownUser(s: State, pid: PostId, uid: UserId)
    requires PostsOk(s) && pid in s.posts && uid !in s.users
    ensures Unlike(s, pid, uid) == Outcome(s, Err(LikeNotFound))
  {
  }

  /** `like_post` keeps the store consistent: only registered users like live posts. */
  lemma LikeKeepsInvariant(s: State, pid: PostId, uid: UserId)
    requires Invariant(s)
    ensures Invariant(Like(s, pid, uid).state)
  {
    LikeErrors(s, pid, uid);
    if Like(s, pid, uid).result.Ok? {
      LikeAddsLiker(s, pid, uid);
      LikesFrame(s, pid, s.likes[pid] + {uid});
    }
  }

  /** `unlike_post` keeps the store consistent. */
  lemma UnlikeKeepsInvariant(s: State, pid: PostId, uid: UserId)
    requires Invariant(s)
    ensures Invariant(Unlike(s, pid, uid).state)
  {
    UnlikeErrors(s, pid, uid);
    if Unlike(s, pid, uid).result.Ok? {
      UnlikeRemovesLiker(s, pid, uid);
      LikesFrame(s, pid, s.likes[pid] - {uid});
    }
  }

  /** Unliking right after a successful like restores the store exactly. */
  lemma LikeThenUnlike(s: State, pid: PostId, uid: UserId)
    requires PostsOk(s) && Like(s, pid, uid).result.Ok?
    ensures Unlike(Like(s, pid, uid).state, pid, uid) == Outcome(s, Ok("Post unliked"))
  {
    LikeAddsLiker(s, pid, uid);
    AddThenRemove(s.likes, pid, uid);
  }

  /** Liking again right after a successful unlike by a registered user restores the
      store exactly. */
  lemma UnlikeThenLike(s: State, pid: PostId, uid: UserId)
    requires PostsOk(s) && uid in s.users && Unlike(s, pid, uid).result.Ok?
    ensures Like(Unlike(s, pid, uid).state, pid, uid) == Outcome(s, Ok("Post liked"))
  {
    var s1 := Unlike(s, pid, uid).state;
    UnlikeRemovesLiker(s, pid, uid);
    assert SetDefault(s1.likes, pid, {}) == s1.likes;
    RemoveThenAdd(s.likes, pid, uid);
  }

  /** A like that succeeded cannot be repeated: the second one is a conflict. */
  lemma LikeTwiceConflicts(s: State, pid: PostId, uid: UserId)
    requires PostsOk(s) && Like(s, pid, uid).result.Ok?
    ensures Like(Like(s, pid, uid).state, pid, uid).result == Err(AlreadyLiked)
  {
    LikeAddsLiker(s, pid, uid);
  }

  /** `like_post` on the shared store. */
  method LikePost(st: Store, pid: PostId, uid: UserId) returns (r: Result<string>)
    requires st.Valid()
    modifies st
    ensures st.Valid()
    ensures Outcome(st.Model(), r) == Like(old(st.Model()), pid, uid)
  {
    ghost var s0 := st.Model();
    if pid !in st.posts {
      return Err(PostNotFound);
    }
    if uid !in st.users {
      return Err(UserNotFound);
    }
    st.likes := SetDefault(st.likes, pid, {});
    var likedBy := st.likes[pid];
    if uid in likedBy {
      assert st.Model() == s0;
      return Err(AlreadyLiked);
    }
    st.likes := st.likes[pid := likedBy + {uid}];
    r := Ok("Post liked");
    assert st.Model() == Like(s0, pid, uid).state;
    LikeKeepsInvariant(s0, pid, uid);
  }

  /** `unlike_post` on the shared store. */
  method UnlikePost(st: Store, pid: PostId, uid: UserId) returns (r: Result<string>)
    requires st.Valid()
    modifies st
    ensures st.Valid()
    ensures Outcome(st.Model(), r) == Unlike(old(st.Model()), pid, uid)
  {
    ghost var s0 := st.Model();
    if pid !in st.posts {
      return Err(PostNotFound);
    }
    var likedBy := Builtins.Get(st.likes, pid, {});
    if uid !in likedBy {
      return Err(LikeNotFound);
    }
    st.likes := st.likes[pid := likedBy - {uid}];
    r := Ok("Post unliked");
    assert st.Model() == Unlike(s0, pid, uid).state;
    UnlikeKeepsInvariant(s0, pid, uid);
  }

  /** `get_post_likes`: the profiles of exactly the users who like post `pid`. */
  method GetPostLikes(st: Store, pid: PostId) returns (r: Result<seq<UserOut>>)
    requires st.Valid()
    ensures r.Err? <==> pid !in st.posts
    ensures r.Err? ==> r.error == PostNotFound
    ensures r.Ok? ==> ProfilesOf(st.Model(), LikersOf(st.Model(), pid), r.value)
  {
    if pid !in st.posts {
      return Err(PostNotFound);
    }
    LikeIndex(st.Model(), pid);
    var out := ListProfiles(st.Model(), Builtins.Get(st.likes, pid, {}));
    return Ok(out);
  }
}
