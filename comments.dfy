/** `routers/comments.py`: adding a comment to a post, listing a post's comments
    oldest first, and deleting a comment. */
module Comments {
  import opened Results
  import opened Models
  import opened Builtins
  import opened Storage

  /** `_build_comment_out` */
  function BuildCommentOut(c: Comment): CommentOut {
    CommentOut(c.id, c.userId, c.postId, c.text, c.createdAt)
  }

  /** `[_build_comment_out(c) for c in cs]` */
  function CommentOuts(cs: seq<Comment>): seq<CommentOut>
  {
    seq(|cs|, i requires 0 <= i < |cs| => BuildCommentOut(cs[i]))
  }

  // ---------------------------------------------------------------------------
  // add_comment

  /** `comments[cid] = comment` and `post_comments.setdefault(pid, []).append(cid)`,
      with the clock advanced past the comment's creation time. */
  function StoreComment(s: State, c: Comment): State {
    var lists := SetDefault(s.postComments, c.postId, []);
    s.(comments := s.comments[c.id := c],
       postComments := lists[c.postId := lists[c.postId] + [c.id]],
       clock := s.clock + 1)
  }

  /** `add_comment` with `cid` the fresh id and `s.clock` the creation time; the
      post is checked before the user, and blank text never gets here. */
  function Add(s: State, pid: PostId, cid: CommentId, req: CommentCreate): Outcome<CommentOut> {
    if pid !in s.posts then Outcome(s, Err(PostNotFound))
    else if req.userId !in s.users then Outcome(s, Err(UserNotFound))
    else
      var c := Comment(cid, req.userId, pid, req.text, s.clock);
      Outcome(StoreComment(s, c), Ok(BuildCommentOut(c)))
  }

  /** `add_comment` fails with the first check that does not hold, and then changes
      nothing. */
  lemma AddErrors(s: State, pid: PostId, cid: CommentId, req: CommentCreate)
    ensures var o := Add(s, pid, cid, req);
      && (o.result.Err? ==> o.state == s)
      && (o.result == Err(PostNotFound) <==> pid !in s.posts)
      && (o.result == Err(UserNotFound) <==> pid in s.posts && req.userId !in s.users)
  {
  }

  /** Otherwise the comment is stored with the current time and appended to the
      post's list, so the post's comment count grows by one; nothing else changes. */
  lemma AddAppendsComment(s: State, pid: PostId, cid: CommentId, req: CommentCreate)
    requires PostsOk(s) && Add(s, pid, cid, req).result.Ok?
    ensures pid in s.posts && req.userId in s.users && pid in s.postComments
    ensures var c := Comment(cid, req.userId, pid, req.text, s.clock);
      && Add(s, pid, cid, req).result == Ok(CommentOut(cid, req.userId, pid, req.text, s.clock))
      && Add(s, pid, cid, req).state
           == s.(comments := s.comments[cid := c],
                 postComments := s.postComments[pid := s.postComments[pid] + [cid]],
                 clock := s.clock + 1)
      && |Add(s, pid, cid, req).state.postComments[pid]| == |s.postComments[pid]| + 1
  {
  }

  lemma StoreCommentKeepsUsersAndFollows(s: State, c: Comment)
    requires UsersOk(s) && FollowsOk(s)
    ensures UsersOk(StoreComment(s, c)) && FollowsOk(StoreComment(s, c))
  {
    var s' := StoreComment(s, c);
    forall u | u in s'.users ensures UserOk(s', u) {
      assert UserOk(s, u);
    }
  }

  lemma StoreCommentKeepsPosts(s: State, c: Comment)
    requires PostsOk(s) && c.postId in s.posts
    ensures PostsOk(StoreComment(s, c))
  {
    var s' := StoreComment(s, c);
    forall p | p in s'.posts ensures PostOk(s', p) {
      assert PostOk(s, p);
    }
  }

  lemma StoreCommentKeepsCommentOk(s: State, pid: PostId, cid: CommentId, req: CommentCreate)
    requires PostsOk(s) && CommentsOk(s) && cid !in s.comments
    requires pid in s.posts && req.userId in s.users
    ensures var s' := StoreComment(s, Comment(cid, req.userId, pid, req.text, s.clock));
      forall d :: d in s'.comments ==> CommentOk(s', d)
  {
    var c := Comment(cid, req.userId, pid, req.text, s.clock);
    var s' := StoreComment(s, c);
    assert s'.postComments == s.postComments[pid := s.postComments[pid] + [cid]];
    forall d | d in s'.comments ensures CommentOk(s', d) {
      if d != cid {
        assert CommentOk(s, d);
      }
    }
  }

  /** The new comment is the newest one, so appending it keeps its post's list
      oldest first; the other lists are untouched. */
  lemma StoreCommentKeepsList(s: State, c: Comment, p: PostId)
    requires CommentsOk(s) && c.id !in s.comments && c.createdAt == s.clock
    requires c.postId in s.postComments && p in s.postComments
    ensures p in StoreComment(s, c).postComments && ListedOldestFirst(StoreComment(s, c), p)
  {
    var s' := StoreComment(s, c);
    assert s'.postComments == s.postComments[c.postId := s.postComments[c.postId] + [c.id]];
    assert ListedOldestFirst(s, p);
    var ids := s.postComments[p];
    forall i | 0 <= i < |ids| ensures ids[i] != c.id && s.comments[ids[i]].createdAt < s.clock {
      assert CommentOk(s, ids[i]);
    }
    if p == c.postId {
      var ids' := ids + [c.id];
      forall i, j | 0 <= i < j < |ids'|
        ensures s'.comments[ids'[i]].createdAt < s'.comments[ids'[j]].createdAt
      {
        assert ids'[i] == ids[i];
        if j < |ids| {
          assert ids'[j] == ids[j];
        }
      }
    }
  }

  lemma StoreCommentKeepsListed(s: State, pid: PostId, cid: CommentId, req: CommentCreate)
    requires PostsOk(s) && CommentsOk(s) && cid !in s.comments && pid in s.posts
    ensures var s' := StoreComment(s, Comment(cid, req.userId, pid, req.text, s.clock));
      forall p :: p in s'.postComments ==> ListedOldestFirst(s', p)
  {
    var c := Comment(cid, req.userId, pid, req.text, s.clock);
    var s' := StoreComment(s, c);
    assert s'.postComments.Keys == s.postComments.Keys;
    forall p | p in s'.postComments ensures ListedOldestFirst(s', p) {
      StoreCommentKeepsList(s, c, p);
    }
  }

  lemma StoreCommentKeepsComments(s: State, pid: PostId, cid: CommentId, req: CommentCreate)
    requires PostsOk(s) && CommentsOk(s) && cid !in s.comments
    requires pid in s.posts && req.userId in s.users
    ensures CommentsOk(StoreComment(s, Comment(cid, req.userId, pid, req.text, s.clock)))
  {
    StoreCommentKeepsCommentOk(s, pid, cid, req);
    StoreCommentKeepsListed(s, pid, cid, req);
  }

  lemma StoreCommentKeepsTags(s: State, c: Comment)
    requires TagIndexOk(s) && OrderOk(s)
    ensures TagIndexOk(StoreComment(s, c)) && OrderOk(StoreComment(s, c))
  {
  }

  /** `add_comment` keeps the store consistent; `cid` is fresh. */
  lemma AddKeepsInvariant(s: State, pid: PostId, cid: CommentId, req: CommentCreate)
    requires Invariant(s) && cid !in s.comments
    ensures Invariant(Add(s, pid, cid, req).state)
  {
    AddErrors(s, pid, cid, req);
    if Add(s, pid, cid, req).result.Ok? {
      var c := Comment(cid, req.userId, pid, req.text, s.clock);
      var s' := StoreComment(s, c);
      StoreCommentKeepsUsersAndFollows(s, c);
      StoreCommentKeepsPosts(s, c);
      StoreCommentKeepsComments(s, pid, cid, req);
      StoreCommentKeepsTags(s, c);
      assert UsersOk(s') && FollowsOk(s');
      assert PostsOk(s') && CommentsOk(s') && TagIndexOk(s') && OrderOk(s');
    }
  }

  // ---------------------------------------------------------------------------
  // get_comments

  /** `get_comments`: the post's listed ids looked up in `comments`, skipping any id
      that is no longer there. */
  function List(s: State, pid: PostId): Result<seq<CommentOut>> {
    if pid !in s.posts then Err(PostNotFound)
    else Ok(CommentOuts(Resolve(Builtins.Get(s.postComments, pid, []), s.comments)))
  }

  /** `get_comments` fails exactly for an unknown post; otherwise it shows every
      comment on the post once, strictly oldest first, as many as the post's
      `comment_count`. */
  lemma ListShowsComments(s: State, pid: PostId)
    requires PostsOk(s) && CommentsOk(s)
    ensures List(s, pid).Err? <==> pid !in s.posts
    ensures List(s, pid).Err? ==> List(s, pid).error == PostNotFound
    ensures List(s, pid).Ok? ==> var r := List(s, pid).value;
      && |r| == |s.postComments[pid]|
      && (forall i :: 0 <= i < |r| ==>
            r[i].id in s.comments && r[i] == BuildCommentOut(s.comments[r[i].id]) && r[i].postId == pid)
      && (forall c :: c in s.comments && s.comments[c].postId == pid ==>
            exists i :: 0 <= i < |r| && r[i].id == c)
      && (forall i, j :: 0 <= i < j < |r| ==> r[i].createdAt < r[j].createdAt)
  {
    if pid in s.posts {
      var ids := s.postComments[pid];
      assert ListedOldestFirst(s, pid);
      forall i | 0 <= i < |ids| ensures s.comments[ids[i]].id == ids[i] {
        assert CommentOk(s, ids[i]);
      }
      ListLooksUp(s, pid);
      ListComplete(s, pid);
    }
  }

  /** The listed ids are looked up in place: none of them is missing. */
  lemma ListLooksUp(s: State, pid: PostId)
    requires pid in s.posts && pid in s.postComments && ListedOldestFirst(s, pid)
    ensures var r, ids := List(s, pid).value, s.postComments[pid];
      |r| == |ids| && forall i :: 0 <= i < |ids| ==> r[i] == BuildCommentOut(s.comments[ids[i]])
  {
    ResolveAll(s.postComments[pid], s.comments);
  }

  /** Every comment on the post is among the listed ids. */
  lemma ListComplete(s: State, pid: PostId)
    requires CommentsOk(s)
    ensures forall c :: c in s.comments && s.comments[c].postId == pid ==>
      pid in s.postComments && c in s.postComments[pid]
  {
    forall c | c in s.comments && s.comments[c].postId == pid
      ensures pid in s.postComments && c in s.postComments[pid]
    {
      assert CommentOk(s, c);
    }
  }

  /** A comment that was just added shows up last in its post's list. */
  lemma ListAfterAdd(s: State, pid: PostId, cid: CommentId, req: CommentCreate)
    requires PostsOk(s) && CommentsOk(s) && cid !in s.comments
    requires Add(s, pid, cid, req).result.Ok?
    ensures List(Add(s, pid, cid, req).state, pid)
            == Ok(List(s, pid).value + [Add(s, pid, cid, req).result.value])
  {
    AddAppendsComment(s, pid, cid, req);
    var c := Comment(cid, req.userId, pid, req.text, s.clock);
    var ids := s.postComments[pid];
    assert ListedOldestFirst(s, pid);
    assert cid !in ids;
    ResolveSnoc(ids, cid, s.comments[cid := c]);
    ResolveOtherKey(ids, s.comments, cid, c);
    var before := Resolve(ids, s.comments);
    assert CommentOuts(before + [c]) == CommentOuts(before) + [BuildCommentOut(c)];
  }

  // ---------------------------------------------------------------------------
  // delete_comment

  /** What `delete_comment` leaves: the id leaves its post's list when it is there
      (the post may already be gone), and the comment is dropped. */
  function DropComment(s: State, cid: CommentId): State
    requires cid in s.comments
  {
    var pid := s.comments[cid].postId;
    var ids := Builtins.Get(s.postComments, pid, []);
    s.(postComments := if cid in ids then s.postComments[pid := RemoveFirst(ids, cid)] else s.postComments,
       comments := s.comments - {cid})
  }

  /** `delete_comment`: a stored comment record is never empty, so `not comment`
      means missing. */
  function Delete(s: State, cid: CommentId): Outcome<string> {
    if cid !in s.comments then Outcome(s, Err(CommentNotFound))
    else Outcome(DropComment(s, cid), Ok("Comment deleted"))
  }

  /** `delete_comment` fails exactly for an unknown comment, and then changes
      nothing. */
  lemma DeleteRejectsUnknownComment(s: State, cid: CommentId)
    ensures Delete(s, cid).result.Err? <==> cid !in s.comments
    ensures Delete(s, cid).result.Err? ==> Delete(s, cid) == Outcome(s, Err(CommentNotFound))
  {
  }

  /** In a consistent store the comment is always listed under its post, so deleting
      it drops its first (and only) occurrence there, and the comment itself. */
  lemma DeleteUnlistsComment(s: State, cid: CommentId)
    requires CommentsOk(s) && cid in s.comments
    ensures var pid := s.comments[cid].postId;
      && pid in s.postComments && cid in s.postComments[pid]
      && Delete(s, cid) == Outcome(s.(postComments := s.postComments[pid := RemoveFirst(s.postComments[pid], cid)],
                                      comments := s.comments - {cid}),
                                   Ok("Comment deleted"))
      && |Delete(s, cid).state.postComments[pid]| == |s.postComments[pid]| - 1
  {
    assert CommentOk(s, cid);
  }

  lemma DropCommentKeepsUsersAndFollows(s: State, cid: CommentId)
    requires UsersOk(s) && FollowsOk(s) && cid in s.comments
    ensures UsersOk(DropComment(s, cid)) && FollowsOk(DropComment(s, cid))
  {
    var s' := DropComment(s, cid);
    forall u | u in s'.users ensures UserOk(s', u) {
      assert UserOk(s, u);
    }
  }

  lemma DropCommentKeepsPosts(s: State, cid: CommentId)
    requires PostsOk(s) && cid in s.comments
    ensures PostsOk(DropComment(s, cid))
  {
    var s' := DropComment(s, cid);
    forall p | p in s'.posts ensures PostOk(s', p) {
      assert PostOk(s, p);
    }
  }

  /** Removing one element of a list that is strictly oldest first keeps the rest in
      order; since the list has no repeats, the removed id is not left behind. */
  lemma RemoveKeepsOldestFirst(ids: seq<CommentId>, comments: map<CommentId, Comment>, cid: CommentId, pid: PostId)
    requires cid in ids
    requires forall i :: 0 <= i < |ids| ==> ids[i] in comments && comments[ids[i]].postId == pid
    requires forall i, j :: 0 <= i < j < |ids| ==> comments[ids[i]].createdAt < comments[ids[j]].createdAt
    ensures var r, rest := RemoveFirst(ids, cid), comments - {cid};
      && (forall i :: 0 <= i < |r| ==> r[i] in rest && rest[r[i]].postId == pid)
      && (forall i, j :: 0 <= i < j < |r| ==> rest[r[i]].createdAt < rest[r[j]].createdAt)
  {
    var k := IndexOf(ids, cid);
    var r := RemoveFirst(ids, cid);
    forall j | 0 <= j < |r| ensures r[j] != cid {
      var jj := if j < k then j else j + 1;
      assert r[j] == ids[jj] && jj != k;
      assert comments[ids[jj]].createdAt != comments[ids[k]].createdAt;
    }
    forall i, j | 0 <= i < j < |r| ensures comments[r[i]].createdAt < comments[r[j]].createdAt {
      var ii := if i < k then i else i + 1;
      var jj := if j < k then j else j + 1;
      assert r[i] == ids[ii] && r[j] == ids[jj] && ii < jj;
    }
  }

  lemma DropCommentKeepsList(s: State, cid: CommentId)
    requires cid in s.comments && CommentOk(s, cid)
    requires ListedOldestFirst(s, s.comments[cid].postId)
    ensures var s' := DropComment(s, cid);
      var pid := s.comments[cid].postId;
      pid in s'.postComments && ListedOldestFirst(s', pid)
  {
    var pid := s.comments[cid].postId;
    RemoveKeepsOldestFirst(s.postComments[pid], s.comments, cid, pid);
  }

  /** Every other comment stays listed under its post. */
  lemma DropCommentKeepsOneOk(s: State, cid: CommentId, d: CommentId)
    requires cid in s.comments && CommentOk(s, cid)
    requires d in s.comments && d != cid && CommentOk(s, d)
    ensures d in DropComment(s, cid).comments && CommentOk(DropComment(s, cid), d)
  {
    var pid := s.comments[cid].postId;
    var ids := s.postComments[pid];
    if s.comments[d].postId == pid {
      assert d in multiset(RemoveFirst(ids, cid));
    }
  }

  lemma DropCommentKeepsCommentOk(s: State, cid: CommentId)
    requires CommentsOk(s) && cid in s.comments
    ensures var s' := DropComment(s, cid);
      forall d :: d in s'.comments ==> CommentOk(s', d)
  {
    var s' := DropComment(s, cid);
    forall d | d in s'.comments ensures CommentOk(s', d) {
      DropCommentKeepsOneOk(s, cid, d);
    }
  }

  lemma DropCommentKeepsComments(s: State, cid: CommentId)
    requires CommentsOk(s) && cid in s.comments
    ensures CommentsOk(DropComment(s, cid))
  {
    var s' := DropComment(s, cid);
    var pid := s.comments[cid].postId;
    assert CommentOk(s, cid) && ListedOldestFirst(s, pid);
    DropCommentKeepsCommentOk(s, cid);
    DropCommentKeepsList(s, cid);
    forall p | p in s'.postComments && p != pid ensures ListedOldestFirst(s', p) {
      assert ListedOldestFirst(s, p);
    }
  }

  lemma DropCommentKeepsTags(s: State, cid: CommentId)
    requires TagIndexOk(s) && OrderOk(s) && cid in s.comments
    ensures TagIndexOk(DropComment(s, cid)) && OrderOk(DropComment(s, cid))
  {
  }

  /** `delete_comment` keeps the store consistent. */
  lemma DeleteKeepsInvariant(s: State, cid: CommentId)
    requires Invariant(s)
    ensures Invariant(Delete(s, cid).state)
  {
    if cid in s.comments {
      var s' := DropComment(s, cid);
      DropCommentKeepsUsersAndFollows(s, cid);
      DropCommentKeepsPosts(s, cid);
      DropCommentKeepsComments(s, cid);
      DropCommentKeepsTags(s, cid);
      assert UsersOk(s') && FollowsOk(s');
      assert PostsOk(s') && CommentsOk(s') && TagIndexOk(s') && OrderOk(s');
    }
  }

  /** Dropping a comment that was just stored, and is listed nowhere else, undoes the
      store except for the clock. */
  lemma DropStoredComment(s: State, c: Comment)
    requires c.id !in s.comments && c.postId in s.postComments && c.id !in s.postComments[c.postId]
    ensures DropComment(StoreComment(s, c), c.id) == s.(clock := s.clock + 1)
  {
    var ids := s.postComments[c.postId];
    var s1 := StoreComment(s, c);
    assert s1.postComments == s.postComments[c.postId := ids + [c.id]];
    RemoveAppended(ids, c.id);
    assert s.postComments[c.postId := ids + [c.id]][c.postId := ids] == s.postComments;
    PutThenPop(s.comments, c.id, c);
  }

  /** Deleting a comment right after adding it restores the store, except that time
      has moved on. */
  lemma AddThenDelete(s: State, pid: PostId, cid: CommentId, req: CommentCreate)
    requires PostsOk(s) && CommentsOk(s) && cid !in s.comments
    requires Add(s, pid, cid, req).result.Ok?
    ensures Delete(Add(s, pid, cid, req).state, cid) == Outcome(s.(clock := s.clock + 1), Ok("Comment deleted"))
  {
    var c := Comment(cid, req.userId, pid, req.text, s.clock);
    assert pid in s.posts && pid in s.postComments;
    assert Add(s, pid, cid, req).state == StoreComment(s, c);
    assert ListedOldestFirst(s, pid);
    DropStoredComment(s, c);
  }

  // ---------------------------------------------------------------------------
  // The handlers on the shared store

  /** The writes of `add_comment` once the post and the user are known. */
  method PutComment(st: Store, c: Comment)
    modifies st
    ensures st.Model() == StoreComment(old(st.Model()), c)
  {
    var lists := SetDefault(st.postComments, c.postId, []);
    st.comments := st.comments[c.id := c];
    st.postComments := lists[c.postId := lists[c.postId] + [c.id]];
    st.clock := st.clock + 1;
  }

  /** `add_comment` on the shared store; `cid` is the fresh id. */
  method AddComment(st: Store, pid: PostId, cid: CommentId, req: CommentCreate) returns (r: Result<CommentOut>)
    requires st.Valid() && cid !in st.comments
    modifies st
    ensures st.Valid()
    ensures Outcome(st.Model(), r) == Add(old(st.Model()), pid, cid, req)
  {
    ghost var s0 := st.Model();
    if pid !in st.posts {
      return Err(PostNotFound);
    }
    if req.userId !in st.users {
      return Err(UserNotFound);
    }
    var c := Comment(cid, req.userId, pid, req.text, st.clock);
    PutComment(st, c);
    r := Ok(BuildCommentOut(c));
    AddKeepsInvariant(s0, pid, cid, req);
  }

  /** The loop of `get_comments`: each listed id that is still stored contributes its
      comment, in list order. */
  method GetComments(st: Store, pid: PostId) returns (r: Result<seq<CommentOut>>)
    ensures r == List(st.Model(), pid)
  {
    if pid !in st.posts {
      return Err(PostNotFound);
    }
    var ids := Builtins.Get(st.postComments, pid, []);
    var result: seq<CommentOut> := [];
    var i := 0;
    while i < |ids|
      invariant 0 <= i <= |ids|
      invariant result == CommentOuts(Resolve(ids[..i], st.comments))
    {
      var cid := ids[i];
      assert ids[..i + 1] == ids[..i] + [cid];
      ResolveSnoc(ids[..i], cid, st.comments);
      if cid in st.comments {
        result := result + [BuildCommentOut(st.comments[cid])];
      }
      i := i + 1;
    }
    assert ids[..i] == ids;
    return Ok(result);
  }

  /** `comment_list.remove(cid)` when listed, then `del comments[cid]`. */
  method RemoveComment(st: Store, cid: CommentId)
    requires cid in st.comments
    modifies st
    ensures st.Model() == DropComment(old(st.Model()), cid)
  {
    var pid := st.comments[cid].postId;
    var ids := Builtins.Get(st.postComments, pid, []);
    if cid in ids {
      st.postComments := st.postComments[pid := RemoveFirst(ids, cid)];
    }
    st.comments := st.comments - {cid};
  }

  /** `delete_comment` on the shared store. */
  method DeleteComment(st: Store, cid: CommentId) returns (r: Result<string>)
    requires st.Valid()
    modifies st
    ensures st.Valid()
    ensures Outcome(st.Model(), r) == Delete(old(st.Model()), cid)
  {
    ghost var s0 := st.Model();
    if cid !in st.comments {
      return Err(CommentNotFound);
    }
    RemoveComment(st, cid);
    r := Ok("Comment deleted");
    DeleteKeepsInvariant(s0, cid);
  }
}
