/** The application as a whole: any sequence of requests the routers accept, run one
    after another against one store from `reset_storage`, keeps every cross-index
    rule; and the repository's trending scenario for mixed-case tags. */
module Service {
  import opened Models
  import opened Storage
  import Users
  import Posts
  import Follows
  import Likes
  import Comments
  import Explore
  import Hashtags

  /** One request to a mutating route, with the id `uuid4()` would have drawn. */
  datatype Command =
    | CreateUser(uid: UserId, user: UserCreate)
    | UpdateUser(uid: UserId, update: UserUpdate)
    | CreatePost(pid: PostId, post: PostCreate)
    | DeletePost(pid: PostId)
    | Follow(follower: UserId, target: UserId)
    | Unfollow(follower: UserId, target: UserId)
    | Like(likedPost: PostId, liker: UserId)
    | Unlike(unlikedPost: PostId, unliker: UserId)
    | AddComment(commentedPost: PostId, cid: CommentId, comment: CommentCreate)
    | DeleteComment(deleted: CommentId)

  /** The store after one request, whether it succeeded or failed. */
  function Step(s: State, c: Command): State {
    match c
    case CreateUser(uid, req) => Users.Create(s, uid, req).state
    case UpdateUser(uid, upd) => Users.Update(s, uid, upd).state
    case CreatePost(pid, req) => Posts.Create(s, pid, req).state
    case DeletePost(pid) => Posts.Delete(s, pid).state
    case Follow(uid, target) => Follows.Follow(s, uid, target).state
    case Unfollow(uid, target) => Follows.Unfollow(s, uid, target).state
    case Like(pid, uid) => Likes.Like(s, pid, uid).state
    case Unlike(pid, uid) => Likes.Unlike(s, pid, uid).state
    case AddComment(pid, cid, req) => Comments.Add(s, pid, cid, req).state
    case DeleteComment(cid) => Comments.Delete(s, cid).state
  }

  /** The store after a sequence of requests, first request first. */
  function Run(s: State, cmds: seq<Command>): State
    decreases |cmds|
  {
    if cmds == [] then s else Run(Step(s, cmds[0]), cmds[1..])
  }

  /** The id a creating request draws is not yet a key of the collection it goes
      into, as a fresh `uuid4()` is not. */
  predicate FreshIn(s: State, c: Command) {
    match c
    case CreateUser(uid, _) => uid !in s.users
    case CreatePost(pid, _) => pid !in s.posts
    case AddComment(_, cid, _) => cid !in s.comments
    case _ => true
  }

  /** Every request of the sequence draws a fresh id when it runs. */
  predicate FreshRun(s: State, cmds: seq<Command>)
    decreases |cmds|
  {
    cmds == [] || (FreshIn(s, cmds[0]) && FreshRun(Step(s, cmds[0]), cmds[1..]))
  }

  /** Every mutating route keeps the store consistent, whether it succeeds or fails. */
  lemma StepKeepsInvariant(s: State, c: Command)
    requires Invariant(s) && FreshIn(s, c)
    ensures Invariant(Step(s, c))
  {
    match c
    case CreateUser(uid, req) => Users.CreateKeepsInvariant(s, uid, req);
    case UpdateUser(uid, upd) => Users.UpdateKeepsInvariant(s, uid, upd);
    case CreatePost(pid, req) => Posts.CreateKeepsInvariant(s, pid, req);
    case DeletePost(pid) => Posts.DeleteKeepsInvariant(s, pid);
    case Follow(uid, target) => Follows.FollowKeepsInvariant(s, uid, target);
    case Unfollow(uid, target) => Follows.UnfollowKeepsInvariant(s, uid, target);
    case Like(pid, uid) => Likes.LikeKeepsInvariant(s, pid, uid);
    case Unlike(pid, uid) => Likes.UnlikeKeepsInvariant(s, pid, uid);
    case AddComment(pid, cid, req) => Comments.AddKeepsInvariant(s, pid, cid, req);
    case DeleteComment(cid) => Comments.DeleteKeepsInvariant(s, cid);
  }

  /** Any sequence of requests keeps the store consistent. */
  lemma {:induction false} RunKeepsInvariant(s: State, cmds: seq<Command>)
    requires Invariant(s) && FreshRun(s, cmds)
    ensures Invariant(Run(s, cmds))
    decreases |cmds|
  {
    if cmds != [] {
      StepKeepsInvariant(s, cmds[0]);
      RunKeepsInvariant(Step(s, cmds[0]), cmds[1..]);
    }
  }

  /** From a freshly reset store, whatever requests follow, no two users share a
      username, nobody follows themselves, and the follow indexes agree. */
  lemma UsernamesStayDistinct(clock: Timestamp, cmds: seq<Command>)
    requires FreshRun(Empty(clock), cmds)
    ensures var s := Run(Empty(clock), cmds);
      && (forall u, v :: u in s.users && v in s.users && s.users[u].username == s.users[v].username ==> u == v)
      && (forall u :: u in s.follows ==> u !in s.follows[u])
      && (forall u, v :: Follows.Edge(s, u, v) <==> v in s.followers && u in s.followers[v])
  {
    EmptyIsValid(clock);
    RunKeepsInvariant(Empty(clock), cmds);
    var s := Run(Empty(clock), cmds);
    forall u, v ensures Follows.Edge(s, u, v) <==> v in s.followers && u in s.followers[v] {
    }
  }

  // ---------------------------------------------------------------------------
  // Mixed-case tags in the trending list

  /** A caption that is one tag and nothing else gives that tag, lowercased. */
  lemma OneTagCaption(w: string)
    requires Hashtags.IsWord(w)
    ensures Hashtags.ExtractHashtags("#" + w) == [Hashtags.Lower(w)]
  {
    Hashtags.MatchThenRest(w, "");
    assert "#" + w + "" == "#" + w;
    assert Hashtags.FindAll("") == [];
  }

  /** `#Python`, `#PYTHON` and `#python` all give the one tag `python`. */
  lemma PythonCaption(w: string)
    requires w == "Python" || w == "PYTHON" || w == "python"
    ensures Hashtags.ExtractHashtags("#" + w) == ["python"]
  {
    assert Hashtags.IsWord(w);
    OneTagCaption(w);
    if w == "Python" {
      assert Hashtags.Lower(w) == "python";
    } else if w == "PYTHON" {
      assert Hashtags.Lower(w) == "python";
    } else {
      assert Hashtags.Lower(w) == "python";
    }
  }

  /** A created post counts once more toward every tag of its caption: its fresh id
      was in no tag set before. */
  lemma CreateCountsTagOnce(s: State, pid: PostId, req: PostCreate, t: string)
    requires PostsOk(s) && TagIndexOk(s) && pid !in s.posts && req.userId in s.users
    requires t in Hashtags.ExtractHashtags(req.caption)
    ensures var s' := Posts.Create(s, pid, req).state;
      t in s'.hashtagPosts && |s'.hashtagPosts[t]| == |Builtins.Get(s.hashtagPosts, t, {})| + 1
  {
    Posts.CreateAddsPost(s, pid, req);
    assert pid !in Builtins.Get(s.hashtagPosts, t, {});
  }

  /** A store whose index has one tag, with posts, trends that tag alone. */
  lemma OneTagTrends(s: State, t: string)
    requires s.tagOrder == [t] && s.hashtagPosts.Keys == {t} && s.hashtagPosts[t] != {}
    ensures Explore.Trending(s) == [HashtagCount(t, |s.hashtagPosts[t]|)]
  {
    var e := HashtagCount(t, |s.hashtagPosts[t]|);
    assert Explore.TagCounts([t], s.hashtagPosts) == [e];
    assert Builtins.SortDesc([e], Explore.Count) == [e];
  }
}
