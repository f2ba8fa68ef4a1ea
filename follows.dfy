/** `routers/follows.py`: following and unfollowing, which write both follow indexes,
    and the follower / following listings. */
module Follows {
  import opened Results
  import opened Models
  import opened Builtins
  import opened Storage
  import opened Users

  /** `a` follows `b`, as the `follows` index records it. */
  predicate Edge(s: State, a: UserId, b: UserId) {
    a in s.follows && b in s.follows[a]
  }

  /** The registered users who follow `u`. */
  ghost function FollowersOf(s: State, u: UserId): set<UserId> {
    set v | v in s.users && Edge(s, v, u)
  }

  /** The registered users `u` follows. */
  ghost function FollowingOf(s: State, u: UserId): set<UserId> {
    set v | v in s.users && Edge(s, u, v)
  }

  /** `follow_user`: the checks run in the router's order; `follows.setdefault` happens
      before the duplicate check. */
  function Follow(s: State, uid: UserId, target: UserId): Outcome<string> {
    if uid == target then Outcome(s, Err(SelfFollow))
    else if uid !in s.users then Outcome(s, Err(UserNotFound))
    else if target !in s.users then Outcome(s, Err(TargetNotFound))
    else
      var follows := SetDefault(s.follows, uid, {});
      if target in follows[uid] then Outcome(s.(follows := follows), Err(AlreadyFollowing))
      else
        var followers := SetDefault(s.followers, target, {});
        Outcome(s.(follows := follows[uid := follows[uid] + {target}],
                   followers := followers[target := followers[target] + {uid}]),
                Ok("Followed successfully"))
  }

  /** `unfollow_user`: a missing follower set of the target is a throw-away set, so
      the store is then left as it is. */
  function Unfollow(s: State, uid: UserId, target: UserId): Outcome<string> {
    if uid !in s.users then Outcome(s, Err(UserNotFound))
    else if target !in s.users then Outcome(s, Err(TargetNotFound))
    else if target !in Builtins.Get(s.follows, uid, {}) then Outcome(s, Err(NotFollowing))
    else
      var followers := if target in s.followers
                       then s.followers[target := s.followers[target] - {uid}]
                       else s.followers;
      Outcome(s.(follows := s.follows[uid := s.follows[uid] - {target}], followers := followers),
              Ok("Unfollowed successfully"))
  }

  /** In a consistent store the `followers` index lists exactly the followers. */
  lemma FollowerIndex(s: State, u: UserId)
    requires Invariant(s) && u in s.users
    ensures s.followers[u] == FollowersOf(s, u)
    ensures s.follows[u] == FollowingOf(s, u)
  {
  }

  /** `follow_user` fails with the first check that does not hold and then leaves the
      store as it was. */
  lemma FollowErrors(s: State, uid: UserId, target: UserId)
    requires FollowsOk(s)
    ensures var o := Follow(s, uid, target);
      && (o.result.Err? ==> o.state == s)
      && (o.result == Err(SelfFollow) <==> uid == target)
      && (o.result == Err(UserNotFound) <==> uid != target && uid !in s.users)
      && (o.result == Err(TargetNotFound) <==> uid != target && uid in s.users && target !in s.users)
      && (o.result == Err(AlreadyFollowing) <==>
            uid != target && uid in s.users && target in s.users && Edge(s, uid, target))
  {
    if uid != target && uid in s.users && target in s.users {
      assert SetDefault(s.follows, uid, {}) == s.follows;
    }
  }

  /** Otherwise `follow_user` adds `target` to the followees of `uid` and `uid` to the
      followers of `target`, and nothing else changes. */
  lemma FollowAddsEdge(s: State, uid: UserId, target: UserId)
    requires FollowsOk(s) && Follow(s, uid, target).result.Ok?
    ensures uid != target && uid in s.users && target in s.users && !Edge(s, uid, target)
    ensures Follow(s, uid, target).state
            == s.(follows := s.follows[uid := s.follows[uid] + {target}],
                  followers := s.followers[target := s.followers[target] + {uid}])
  {
    assert SetDefault(s.follows, uid, {}) == s.follows;
    assert SetDefault(s.followers, target, {}) == s.followers;
  }

  /** The follow relation gains exactly the edge `uid -> target`, and the follower
      count of `target` and the following count of `uid` each grow by one. */
  lemma FollowRelation(s: State, uid: UserId, target: UserId)
    requires FollowsOk(s) && Follow(s, uid, target).result.Ok?
    ensures var s' := Follow(s, uid, target).state;
      && (forall a, b :: Edge(s', a, b) <==> Edge(s, a, b) || (a == uid && b == target))
      && |s'.followers[target]| == |s.followers[target]| + 1
      && |s'.follows[uid]| == |s.follows[uid]| + 1
  {
    FollowAddsEdge(s, uid, target);
    assert uid !in s.followers[target];
  }

  /** `unfollow_user` fails with the first check that does not hold and then leaves
      the store as it was. */
  lemma UnfollowErrors(s: State, uid: UserId, target: UserId)
    requires FollowsOk(s)
    ensures var o := Unfollow(s, uid, target);
      && (o.result.Err? ==> o.state == s)
      && (o.result == Err(UserNotFound) <==> uid !in s.users)
      && (o.result == Err(TargetNotFound) <==> uid in s.users && target !in s.users)
      && (o.result == Err(NotFollowing) <==>
            uid in s.users && target in s.users && !Edge(s, uid, target))
  {
  }

  /** Otherwise `unfollow_user` removes `target` from the followees of `uid` and `uid`
      from the followers of `target`, and nothing else changes. */
  lemma UnfollowRemovesEdge(s: State, uid: UserId, target: UserId)
    requires FollowsOk(s) && Unfollow(s, uid, target).result.Ok?
    ensures uid in s.users && target in s.users && Edge(s, uid, target)
    ensures Unfollow(s, uid, target).state
            == s.(follows := s.follows[uid := s.follows[uid] - {target}],
                  followers := s.followers[target := s.followers[target] - {uid}])
  {
  }

  /** The follow relation loses exactly the edge `uid -> target`, and both counts
      shrink by one. */
  lemma UnfollowRelation(s: State, uid: UserId, target: UserId)
    requires FollowsOk(s) && Unfollow(s, uid, target).result.Ok?
    ensures var s' := Unfollow(s, uid, target).state;
      && (forall a, b :: Edge(s', a, b) <==> Edge(s, a, b) && !(a == uid && b == target))
      && |s'.followers[target]| == |s.followers[target]| - 1
      && |s'.follows[uid]| == |s.follows[uid]| - 1
  {
    UnfollowRemovesEdge(s, uid, target);
    assert uid in s.followers[target];
  }

  /** Adding an edge between two distinct registered users to both indexes keeps
      them one symmetric relation without self-edges. */
  lemma AddEdgeKeepsFollows(s: State, uid: UserId, target: UserId)
    requires FollowsOk(s) && uid in s.users && target in s.users && uid != target
    ensures FollowsOk(s.(follows := s.follows[uid := s.follows[uid] + {target}],
                         followers := s.followers[target := s.followers[target] + {uid}]))
  {
    var s' := s.(follows := s.follows[uid := s.follows[uid] + {target}],
                 followers := s.followers[target := s.followers[target] + {uid}]);
    forall u, v | u in s'.follows && v in s'.followers
      ensures v in s'.follows[u] <==> u in s'.followers[v]
    {
      assert v in s.follows[u] <==> u in s.followers[v];
    }
  }

  /** `follow_user` keeps the store consistent: in particular the two indexes stay one
      symmetric relation and nobody comes to follow themselves. */
  lemma FollowKeepsInvariant(s: State, uid: UserId, target: UserId)
    requires Invariant(s)
    ensures Invariant(Follow(s, uid, target).state)
  {
    var s' := Follow(s, uid, target).state;
    if uid != target && uid in s.users && target in s.users {
      var follows := s.follows[uid := s.follows[uid] + {target}];
      var followers := s.followers[target := s.followers[target] + {uid}];
      assert SetDefault(s.follows, uid, {}) == s.follows;
      assert SetDefault(s.followers, target, {}) == s.followers;
      if target in s.follows[uid] {
        assert s' == s;
      } else {
        assert s' == s.(users := s.users, follows := follows, followers := followers, clock := s.clock);
        ContentFrame(s, s.users, follows, followers, s.clock);
        AddEdgeKeepsFollows(s, uid, target);
        assert UsersOk(s') && FollowsOk(s');
        assert PostsOk(s') && CommentsOk(s') && TagIndexOk(s') && OrderOk(s');
      }
    }
  }

  /** Removing an edge from both indexes keeps them one symmetric relation. */
  lemma RemoveEdgeKeepsFollows(s: State, uid: UserId, target: UserId)
    requires FollowsOk(s) && uid in s.users && target in s.users
    ensures FollowsOk(s.(follows := s.follows[uid := s.follows[uid] - {target}],
                         followers := s.followers[target := s.followers[target] - {uid}]))
  {
    var s' := s.(follows := s.follows[uid := s.follows[uid] - {target}],
                 followers := s.followers[target := s.followers[target] - {uid}]);
    forall u, v | u in s'.follows && v in s'.followers
      ensures v in s'.follows[u] <==> u in s'.followers[v]
    {
      assert v in s.follows[u] <==> u in s.followers[v];
    }
  }

  /** `unfollow_user` keeps the store consistent. */
  lemma UnfollowKeepsInvariant(s: State, uid: UserId, target: UserId)
    requires Invariant(s)
    ensures Invariant(Unfollow(s, uid, target).state)
  {
    var s' := Unfollow(s, uid, target).state;
    if uid in s.users && target in s.users && Edge(s, uid, target) {
      var follows := s.follows[uid := s.follows[uid] - {target}];
      var followers := s.followers[target := s.followers[target] - {uid}];
      assert s' == s.(users := s.users, follows := follows, followers := followers, clock := s.clock);
      ContentFrame(s, s.users, follows, followers, s.clock);
      RemoveEdgeKeepsFollows(s, uid, target);
      assert UsersOk(s') && FollowsOk(s');
      assert PostsOk(s') && CommentsOk(s') && TagIndexOk(s') && OrderOk(s');
    }
  }

  /** Unfollowing right after a successful follow restores the store exactly. */
  lemma FollowThenUnfollow(s: State, uid: UserId, target: UserId)
    requires FollowsOk(s) && Follow(s, uid, target).result.Ok?
    ensures Unfollow(Follow(s, uid, target).state, uid, target) == Outcome(s, Ok("Unfollowed successfully"))
  {
    FollowAddsEdge(s, uid, target);
    assert uid !in s.followers[target];
    AddThenRemove(s.follows, uid, target);
    AddThenRemove(s.followers, target, uid);
  }

  /** Following again right after a successful unfollow restores the store exactly. */
  lemma UnfollowThenFollow(s: State, uid: UserId, target: UserId)
    requires FollowsOk(s) && Unfollow(s, uid, target).result.Ok?
    ensures Follow(Unfollow(s, uid, target).state, uid, target) == Outcome(s, Ok("Followed successfully"))
  {
    var s1 := Unfollow(s, uid, target).state;
    UnfollowRemovesEdge(s, uid, target);
    assert uid in s.followers[target];
    assert SetDefault(s1.follows, uid, {}) == s1.follows;
    assert SetDefault(s1.followers, target, {}) == s1.followers;
    RemoveThenAdd(s.follows, uid, target);
    RemoveThenAdd(s.followers, target, uid);
  }

  /** A follow that succeeded cannot be repeated: the second one is a conflict. */
  lemma FollowTwiceConflicts(s: State, uid: UserId, target: UserId)
    requires FollowsOk(s) && Follow(s, uid, target).result.Ok?
    ensures Follow(Follow(s, uid, target).state, uid, target).result == Err(AlreadyFollowing)
  {
    FollowAddsEdge(s, uid, target);
  }

  /** `follow_user` on the shared store. */
  method FollowUser(st: Store, uid: UserId, target: UserId) returns (r: Result<string>)
    requires st.Valid()
    modifies st
    ensures st.Valid()
    ensures Outcome(st.Model(), r) == Follow(old(st.Model()), uid, target)
  {
    ghost var s0 := st.Model();
    if uid == target {
      return Err(SelfFollow);
    }
    if uid !in st.users {
      return Err(UserNotFound);
    }
    if target !in st.users {
      return Err(TargetNotFound);
    }
    st.follows := SetDefault(st.follows, uid, {});
    var followingSet := st.follows[uid];
    if target in followingSet {
      assert st.Model() == s0;
      return Err(AlreadyFollowing);
    }
    st.follows := st.follows[uid := followingSet + {target}];
    st.followers := SetDefault(st.followers, target, {});
    st.followers := st.followers[target := st.followers[target] + {uid}];
    r := Ok("Followed successfully");
    assert st.Model() == Follow(s0, uid, target).state;
    FollowKeepsInvariant(s0, uid, target);
  }

  /** `unfollow_user` on the shared store. */
  method UnfollowUser(st: Store, uid: UserId, target: UserId) returns (r: Result<string>)
    requires st.Valid()
    modifies st
    ensures st.Valid()
    ensures Outcome(st.Model(), r) == Unfollow(old(st.Model()), uid, target)
  {
    ghost var s0 := st.Model();
    if uid !in st.users {
      return Err(UserNotFound);
    }
    if target !in st.users {
      return Err(TargetNotFound);
    }
    var followingSet := Builtins.Get(st.follows, uid, {});
    if target !in followingSet {
      return Err(NotFollowing);
    }
    st.follows := st.follows[uid := followingSet - {target}];
    if target in st.followers {
      st.followers := st.followers[target := st.followers[target] - {uid}];
    }
    r := Ok("Unfollowed successfully");
    assert st.Model() == Unfollow(s0, uid, target).state;
    UnfollowKeepsInvariant(s0, uid, target);
  }

  /** `get_followers`: the profiles of exactly the users who follow `uid`. */
  method GetFollowers(st: Store, uid: UserId) returns (r: Result<seq<UserOut>>)
    requires st.Valid()
    ensures r.Err? <==> uid !in st.users
    ensures r.Err? ==> r.error == UserNotFound
    ensures r.Ok? ==> ProfilesOf(st.Model(), FollowersOf(st.Model(), uid), r.value)
  {
    if uid !in st.users {
      return Err(UserNotFound);
    }
    FollowerIndex(st.Model(), uid);
    var out := ListProfiles(st.Model(), Builtins.Get(st.followers, uid, {}));
    return Ok(out);
  }

  /** `get_following`: the profiles of exactly the users `uid` follows. */
  method GetFollowing(st: Store, uid: UserId) returns (r: Result<seq<UserOut>>)
    requires st.Valid()
    ensures r.Err? <==> uid !in st.users
    ensures r.Err? ==> r.error == UserNotFound
    ensures r.Ok? ==> ProfilesOf(st.Model(), FollowingOf(st.Model(), uid), r.value)
  {
    if uid !in st.users {
      return Err(UserNotFound);
    }
    FollowerIndex(st.Model(), uid);
    var out := ListProfiles(st.Model(), Builtins.Get(st.follows, uid, {}));
    return Ok(out);
  }
}
