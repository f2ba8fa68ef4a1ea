/** `routers/users.py`: registering, reading and editing profiles, and the profile
    record with its derived counts that every user listing returns. */
module Users {
  import opened Results
  import opened Models
  import opened Builtins
  import opened Storage

  /** `sum(1 for p in ps if p["user_id"] == uid)` */
  function Authored(ps: seq<Post>, uid: UserId): nat {
    if ps == [] then 0
    else (if ps[0].userId == uid then 1 else 0) + Authored(ps[1..], uid)
  }

  lemma {:induction false} NoneAuthored(ps: seq<Post>, uid: UserId)
    requires forall i :: 0 <= i < |ps| ==> ps[i].userId != uid
    ensures Authored(ps, uid) == 0
  {
    if ps != [] {
      NoneAuthored(ps[1..], uid);
    }
  }

  /** `post_count`: how many of the stored posts `uid` authored. */
  function PostCount(s: State, uid: UserId): nat {
    Authored(PostValues(s), uid)
  }

  /** `_build_user_out`: the stored profile plus counts read from the indexes. */
  function BuildUserOut(s: State, u: User): UserOut {
    UserOut(u.id, u.username, u.displayName, u.bio, u.profilePicUrl, u.createdAt,
            |Builtins.Get(s.followers, u.id, {})|, |Builtins.Get(s.follows, u.id, {})|,
            PostCount(s, u.id))
  }

  /** In a consistent store the follower count is the number of users who follow
      `uid`, and the following count the number of users `uid` follows. */
  lemma UserOutCounts(s: State, uid: UserId)
    requires Invariant(s) && uid in s.users
    ensures BuildUserOut(s, s.users[uid]).followerCount
            == |set v | v in s.users && uid in s.follows[v]|
    ensures BuildUserOut(s, s.users[uid]).followingCount
            == |set v | v in s.users && v in s.follows[uid]|
  {
    assert s.followers[uid] == set v | v in s.users && uid in s.follows[v];
    assert s.follows[uid] == set v | v in s.users && v in s.follows[uid];
  }

  /** Some registered user already has handle `name`. */
  predicate HandleTaken(s: State, name: string) {
    exists u :: u in s.users && s.users[u].username == name
  }

  /** `create_user` with `uid` the fresh id and `s.clock` the creation time. */
  function Create(s: State, uid: UserId, req: UserCreate): Outcome<UserOut> {
    if HandleTaken(s, req.username) then Outcome(s, Err(UsernameTaken))
    else
      var user := User(uid, req.username, req.displayName, req.bio, req.profilePicUrl, s.clock);
      var s' := s.(users := s.users[uid := user],
                   follows := SetDefault(s.follows, uid, {}),
                   followers := SetDefault(s.followers, uid, {}),
                   clock := s.clock + 1);
      Outcome(s', Ok(BuildUserOut(s', user)))
  }

  /** `get_user` */
  function Get(s: State, uid: UserId): (r: Result<UserOut>)
    ensures r.Err? <==> uid !in s.users
    ensures r.Err? ==> r.error == UserNotFound
    ensures r.Ok? ==> r.value.id == s.users[uid].id && r.value.username == s.users[uid].username
    ensures r.Ok? ==> r.value == BuildUserOut(s, s.users[uid])
  {
    if uid !in s.users then Err(UserNotFound) else Ok(BuildUserOut(s, s.users[uid]))
  }

  /** In a consistent store `get_user` answers the stored profile fields, the number of
      users following `uid`, the number of users `uid` follows, and `post_count`. */
  lemma GetShowsProfile(s: State, uid: UserId)
    requires Invariant(s) && uid in s.users
    ensures var u, r := s.users[uid], Get(s, uid).value;
      && r.id == uid && r.username == u.username && r.displayName == u.displayName
      && r.bio == u.bio && r.profilePicUrl == u.profilePicUrl && r.createdAt == u.createdAt
      && r.followerCount == |set v | v in s.users && uid in s.follows[v]|
      && r.followingCount == |set v | v in s.users && v in s.follows[uid]|
      && r.postCount == PostCount(s, uid)
  {
    assert UserOk(s, uid);
    UserOutCounts(s, uid);
  }

  /** `update_user`: each field given in the payload overwrites the stored one. */
  function Update(s: State, uid: UserId, upd: UserUpdate): Outcome<UserOut> {
    if uid !in s.users then Outcome(s, Err(UserNotFound))
    else
      var u := s.users[uid];
      var u' := u.(displayName := upd.displayName.GetOr(u.displayName),
                   bio := upd.bio.GetOr(u.bio),
                   profilePicUrl := upd.profilePicUrl.GetOr(u.profilePicUrl));
      var s' := s.(users := s.users[uid := u']);
      Outcome(s', Ok(BuildUserOut(s', u')))
  }

  /** A new user's id maps to no post, no follower and no followee. */
  lemma FreshUserHasNoEdges(s: State, uid: UserId)
    requires Invariant(s) && uid !in s.users
    ensures PostCount(s, uid) == 0
    ensures uid !in s.follows && uid !in s.followers
    ensures forall v :: v in s.follows ==> uid !in s.follows[v]
    ensures forall v :: v in s.followers ==> uid !in s.followers[v]
  {
    ResolveAll(s.postOrder, s.posts);
    forall i | 0 <= i < |PostValues(s)| ensures PostValues(s)[i].userId != uid {
      assert PostOk(s, s.postOrder[i]);
    }
    NoneAuthored(PostValues(s), uid);
  }

  /** `create_user` fails exactly when the handle is taken, and then changes nothing. */
  lemma CreateRejectsTakenHandle(s: State, uid: UserId, req: UserCreate)
    ensures Create(s, uid, req).result.Err? <==> HandleTaken(s, req.username)
    ensures Create(s, uid, req).result.Err? ==>
              Create(s, uid, req) == Outcome(s, Err(UsernameTaken))
  {
  }

  /** Otherwise `create_user` adds one user with the requested fields and empty follow
      sets, whose counts are all zero and whom `get_user` then returns; no other user,
      post, like, comment or tag changes. */
  lemma CreateAddsUser(s: State, uid: UserId, req: UserCreate)
    requires Invariant(s) && uid !in s.users && !HandleTaken(s, req.username)
    ensures var o := Create(s, uid, req);
      && o.result.Ok?
      && o.state.users.Keys == s.users.Keys + {uid}
      && (forall v :: v in s.users ==> o.state.users[v] == s.users[v])
      && o.state.follows == s.follows[uid := {}]
      && o.state.followers == s.followers[uid := {}]
      && o.state == s.(users := o.state.users, follows := o.state.follows,
                       followers := o.state.followers, clock := s.clock + 1)
      && o.result.value == UserOut(uid, req.username, req.displayName, req.bio,
                                   req.profilePicUrl, s.clock, 0, 0, 0)
      && Get(o.state, uid) == o.result
  {
    var user := User(uid, req.username, req.displayName, req.bio, req.profilePicUrl, s.clock);
    var s' := s.(users := s.users[uid := user], follows := s.follows[uid := {}],
                 followers := s.followers[uid := {}], clock := s.clock + 1);
    assert Create(s, uid, req) == Outcome(s', Ok(BuildUserOut(s', user)));
    FreshUserHasNoEdges(s, uid);
    assert PostValues(s') == PostValues(s);
  }

  lemma CreateKeepsUsers(s: State, uid: UserId, req: UserCreate)
    requires UsersOk(s) && uid !in s.users
    ensures UsersOk(Create(s, uid, req).state)
  {
  }

  lemma CreateKeepsFollows(s: State, uid: UserId, req: UserCreate)
    requires FollowsOk(s) && uid !in s.users
    ensures FollowsOk(Create(s, uid, req).state)
  {
  }

  /** `create_user` keeps the store consistent; in particular handles stay pairwise
      distinct and the follow indexes stay one symmetric relation. */
  lemma CreateKeepsInvariant(s: State, uid: UserId, req: UserCreate)
    requires Invariant(s) && uid !in s.users
    ensures Invariant(Create(s, uid, req).state)
  {
    var s' := Create(s, uid, req).state;
    if !HandleTaken(s, req.username) {
      var user := User(uid, req.username, req.displayName, req.bio, req.profilePicUrl, s.clock);
      assert s' == s.(users := s.users[uid := user], follows := SetDefault(s.follows, uid, {}),
                      followers := SetDefault(s.followers, uid, {}), clock := s.clock + 1);
      ContentFrame(s, s.users[uid := user], SetDefault(s.follows, uid, {}),
                   SetDefault(s.followers, uid, {}), s.clock + 1);
      CreateKeepsUsers(s, uid, req);
      CreateKeepsFollows(s, uid, req);
      assert UsersOk(s') && FollowsOk(s');
      assert PostsOk(s') && CommentsOk(s') && TagIndexOk(s') && OrderOk(s');
    }
  }

  /** `update_user` fails exactly for an unknown id, and then changes nothing.
      Otherwise it overwrites exactly the fields the payload carries, keeps the handle,
      id and creation time, leaves every other user and every index alone, and
      `get_user` returns the updated profile. */
  lemma UpdateSpec(s: State, uid: UserId, upd: UserUpdate)
    ensures var o := Update(s, uid, upd);
      && (o.result.Err? <==> uid !in s.users)
      && (o.result.Err? ==> o.result == Err(UserNotFound) && o.state == s)
      && (o.result.Ok? ==>
            var u, u' := s.users[uid], o.state.users[uid];
            && o.state == s.(users := s.users[uid := u'])
            && u'.id == u.id && u'.username == u.username && u'.createdAt == u.createdAt
            && u'.displayName == (if upd.displayName.Some? then upd.displayName.value else u.displayName)
            && u'.bio == (if upd.bio.Some? then upd.bio.value else u.bio)
            && u'.profilePicUrl == (if upd.profilePicUrl.Some? then upd.profilePicUrl.value else u.profilePicUrl)
            && Get(o.state, uid) == o.result)
  {
    var o := Update(s, uid, upd);
    if o.result.Ok? {
      assert PostCount(o.state, uid) == PostCount(s, uid);
    }
  }

  lemma UpdateKeepsUsers(s: State, uid: UserId, upd: UserUpdate)
    requires UsersOk(s)
    ensures UsersOk(Update(s, uid, upd).state)
  {
    var s' := Update(s, uid, upd).state;
    forall u | u in s'.users ensures UserOk(s', u) {
      assert UserOk(s, u);
    }
  }

  lemma UpdateKeepsInvariant(s: State, uid: UserId, upd: UserUpdate)
    requires Invariant(s)
    ensures Invariant(Update(s, uid, upd).state)
  {
    var s' := Update(s, uid, upd).state;
    if uid in s.users {
      var u := s.users[uid];
      var u' := u.(displayName := upd.displayName.GetOr(u.displayName),
                   bio := upd.bio.GetOr(u.bio),
                   profilePicUrl := upd.profilePicUrl.GetOr(u.profilePicUrl));
      assert s' == s.(users := s.users[uid := u'], follows := s.follows,
                      followers := s.followers, clock := s.clock);
      ContentFrame(s, s.users[uid := u'], s.follows, s.followers, s.clock);
      UpdateKeepsUsers(s, uid, upd);
      assert UsersOk(s') && FollowsOk(s');
      assert PostsOk(s') && CommentsOk(s') && TagIndexOk(s') && OrderOk(s');
    }
  }

  /** Applying the same update twice is the same as applying it once. */
  lemma UpdateIdempotent(s: State, uid: UserId, upd: UserUpdate)
    ensures Update(Update(s, uid, upd).state, uid, upd) == Update(s, uid, upd)
  {
    if uid in s.users {
      var s1 := Update(s, uid, upd).state;
      assert s1.users[uid := s1.users[uid]] == s1.users;
    }
  }

  /** A payload with no field set changes nothing. */
  lemma EmptyUpdateKeepsState(s: State, uid: UserId)
    ensures Update(s, uid, UserUpdate(None, None, None)).state == s
  {
    if uid in s.users {
      assert s.users[uid := s.users[uid]] == s.users;
    }
  }

  /** `create_user` on the shared store. */
  method CreateUser(st: Store, uid: UserId, payload: UserCreate) returns (r: Result<UserOut>)
    requires st.Valid() && uid !in st.users
    modifies st
    ensures st.Valid()
    ensures Outcome(st.Model(), r) == Create(old(st.Model()), uid, payload)
  {
    ghost var s0 := st.Model();
    if HandleTaken(st.Model(), payload.username) {
      return Err(UsernameTaken);
    }
    var now := st.clock;
    st.clock := st.clock + 1;
    var user := User(uid, payload.username, payload.displayName, payload.bio,
                     payload.profilePicUrl, now);
    st.users := st.users[uid := user];
    st.follows := SetDefault(st.follows, uid, {});
    st.followers := SetDefault(st.followers, uid, {});
    r := Ok(BuildUserOut(st.Model(), user));
    assert st.Model() == Create(s0, uid, payload).state;
    CreateKeepsInvariant(s0, uid, payload);
  }

  /** `update_user` on the shared store: the stored record is edited field by field. */
  method UpdateUser(st: Store, uid: UserId, payload: UserUpdate) returns (r: Result<UserOut>)
    requires st.Valid()
    modifies st
    ensures st.Valid()
    ensures Outcome(st.Model(), r) == Update(old(st.Model()), uid, payload)
  {
    ghost var s0 := st.Model();
    if uid !in st.users {
      return Err(UserNotFound);
    }
    var user := st.users[uid];
    if payload.displayName.Some? {
      user := user.(displayName := payload.displayName.value);
    }
    if payload.bio.Some? {
      user := user.(bio := payload.bio.value);
    }
    if payload.profilePicUrl.Some? {
      user := user.(profilePicUrl := payload.profilePicUrl.value);
    }
    st.users := st.users[uid := user];
    r := Ok(BuildUserOut(st.Model(), user));
    assert st.Model() == Update(s0, uid, payload).state;
    UpdateKeepsInvariant(s0, uid, payload);
  }

  /** `found` lists the records of the registered users among `ids`, each once. */
  ghost predicate RecordsOf(s: State, ids: set<UserId>, found: seq<User>) {
    && |found| <= |ids|
    && (ids <= s.users.Keys ==> |found| == |ids|)
    && (forall i :: 0 <= i < |found| ==>
          found[i].id in ids && found[i].id in s.users && found[i] == s.users[found[i].id])
    && (forall v :: v in ids && v in s.users ==> exists i :: 0 <= i < |found| && found[i].id == v)
    && (forall i, j :: 0 <= i < j < |found| ==> found[i].id != found[j].id)
  }

  /** What the listing loop knows when it ends gives `RecordsOf`. */
  lemma LoopEndGivesRecords(s: State, ids: set<UserId>, found: seq<User>, listed: seq<UserId>)
    requires forall u :: u in s.users ==> s.users[u].id == u
    requires |listed| == |found| && Distinct(listed)
    requires forall i :: 0 <= i < |found| ==>
               listed[i] in ids && listed[i] in s.users && found[i] == s.users[listed[i]]
    requires forall v :: v in ids && v in s.users ==> v in listed
    ensures RecordsOf(s, ids, found)
  {
    EnumerationCard(listed, ids);
    forall v | v in ids && v in s.users ensures exists i :: 0 <= i < |found| && found[i].id == v {
      var i :| 0 <= i < |listed| && listed[i] == v;
      assert found[i].id == v;
    }
  }

  /** The loop shared by the follower, following and liker listings: the records of
      the ids of `ids` that are registered users, in the set's iteration order (which
      is not modelled). */
  method FindUsers(s: State, ids: set<UserId>) returns (found: seq<User>)
    requires forall u :: u in s.users ==> s.users[u].id == u
    ensures RecordsOf(s, ids, found)
  {
    var remaining := ids;
    ghost var seen: set<UserId> := {};
    ghost var listed: seq<UserId> := [];
    found := [];
    while remaining != {}
      invariant remaining + seen == ids && remaining !! seen
      invariant |listed| == |found|
      invariant forall i :: 0 <= i < |found| ==>
                  listed[i] in seen && listed[i] in s.users && found[i] == s.users[listed[i]]
      invariant forall v :: v in seen && v in s.users ==> v in listed
      invariant Distinct(listed)
      decreases remaining
    {
      var fid :| fid in remaining;
      remaining := remaining - {fid};
      seen := seen + {fid};
      if fid in s.users {
        found := found + [s.users[fid]];
        listed := listed + [fid];
      }
    }
    LoopEndGivesRecords(s, ids, found, listed);
  }

  /** `[_build_user_out(u) for u in us]` */
  function Profiles(s: State, us: seq<User>): seq<UserOut>
  {
    seq(|us|, i requires 0 <= i < |us| => BuildUserOut(s, us[i]))
  }

  /** `out` holds the profile of every registered user among `ids`, each once and
      nothing else. */
  ghost predicate ProfilesOf(s: State, ids: set<UserId>, out: seq<UserOut>) {
    && (ids <= s.users.Keys ==> |out| == |ids|)
    && (forall i :: 0 <= i < |out| ==>
          out[i].id in ids && out[i].id in s.users && out[i] == BuildUserOut(s, s.users[out[i].id]))
    && (forall v :: v in ids && v in s.users ==> exists i :: 0 <= i < |out| && out[i].id == v)
    && (forall i, j :: 0 <= i < j < |out| ==> out[i].id != out[j].id)
  }

  lemma RecordsGiveProfiles(s: State, ids: set<UserId>, found: seq<User>)
    requires RecordsOf(s, ids, found)
    ensures ProfilesOf(s, ids, Profiles(s, found))
  {
    var out := Profiles(s, found);
    forall v | v in ids && v in s.users ensures exists i :: 0 <= i < |out| && out[i].id == v {
      var i :| 0 <= i < |found| && found[i].id == v;
      assert out[i].id == v;
    }
  }

  /** `for fid in ids: user = users.get(fid); if user: result.append(_build_user_out(user))` */
  method ListProfiles(s: State, ids: set<UserId>) returns (out: seq<UserOut>)
    requires forall u :: u in s.users ==> s.users[u].id == u
    ensures ProfilesOf(s, ids, out)
  {
    var found := FindUsers(s, ids);
    out := Profiles(s, found);
    RecordsGiveProfiles(s, ids, found);
  }
}
