# Instagram clone store, modelled in Dafny

The system is a small photo-sharing API. It registers users, who create posts
(media plus a caption whose `#tags` are indexed), follow one another, like
posts and comment on them. It serves a personal feed, the most recent posts,
the trending tags and the posts of one tag. All data lives in eight module-level
collections in `storage.py`, shared by every router:

- `users`, `posts`, `comments`: records by id;
- `follows` and `followers`: a two-sided index of the follow relation;
- `likes`: post to likers;
- `post_comments`: post to its comment ids, oldest first;
- `hashtag_posts`: lowercase tag to the posts that carry it.

The model has one module per source file:

- `Results`: error kinds, `Result` and `Option`.
- `Builtins`: `dict.get`, `setdefault`, `list.remove`, filtering, Python's stable
  `sorted(..., reverse=True)` and slicing.
- `Models`: payloads as subset types, the blank-text validator and the decoders.
- `Hashtags`: `re.findall(r"#(\w+)")` followed by `lower()`.
- `Storage`: the records, the whole store as one `State` value, the invariant
  tying the collections together, and the class `Store` with the eight collections
  as fields.
- `Users`, `Posts`, `Follows`, `Likes`, `Comments`, `Feed`, `Explore`: one module per
  router.
- `Service`: any sequence of requests.

Each mutating route is modelled twice:

- as a pure function from a `State` to an `Outcome` (the new state and the response
  or error), about which the lemmas are proved;
- as a method on `Store` that updates its fields in place, proved to end in the
  state the function describes and to keep the invariant. The writes follow the
  handler's steps, except that `Posts.CreatePost` builds the new tag index before it
  stores the post, where `create_post` stores the post first; the final state is the
  same.

The invariant `Storage.Invariant` says:

- every stored id is its record's key;
- `follows` and `followers` are mirror images, with no self-edges and only
  registered users;
- every post has a registered author, a like set of registered users and a comment list;
- every comment is listed exactly under its post, oldest first;
- `hashtag_posts[t]` is exactly the set of live posts carrying `t`;
- the key-order sequences enumerate the dict keys.

## Model

| member | source | states |
|---|---|---|
| `Models.BlankIffAllSpace` | models.py:77-83 | a string is blank exactly when every character is whitespace |
| `Models.TrimLeftEmptyIffBlank` | models.py:81 | stripping the left end leaves nothing exactly for a blank string |
| `Models.TrimRightEmptyIffBlank` | models.py:81 | stripping the right end leaves nothing exactly for a blank string |
| `Models.TrimLeftStartsWithNonSpace` | models.py:81 | what left-stripping leaves is empty or starts with a non-space |
| `Models.StripEmptyIffBlank` | models.py:81-82 | `v.strip()` is empty, so the text is refused, exactly when the text is blank |
| `Models.ValidateCommentText` | models.py:77-83 | the validator accepts exactly a text with a non-space character, returns it unchanged, and otherwise reports the `text` field |
| `Models.DecodeCommentCreate` | models.py:71-83 | a comment payload decodes exactly when its text is not blank, and keeps the text and user id |
| `Models.MediaTypeRoundTrip` | models.py:51 | `media_type` accepts exactly "image" and "video"; name and parse are inverse |
| `Models.UserCreateDecoding` | models.py:13-19 | a user payload decodes exactly when username and display name are non-empty; bio and picture default to ""; encoding a payload and decoding it gives it back |
| `Models.PostCreateDecoding` | models.py:46-52 | a post payload decodes exactly when the media URL is non-empty and the type is image or video; caption defaults to ""; round trip |
| `Hashtags.WordRun` | routers/posts.py:25 | `\w+` consumes the longest run of word characters and stops at the first non-word character |
| `Hashtags.FindAll` | routers/posts.py:25 | every match of `#(\w+)` is a non-empty word |
| `Hashtags.ExtractHashtags` | routers/posts.py:58 | one tag per match, each a non-empty lowercase word |
| `Hashtags.NoHashNoTags` | routers/posts.py:58 | a caption without `#` has no tags |
| `Hashtags.WordRunOfWordThenBreak` | routers/posts.py:25 | after a word followed by a non-word character the match ends exactly at the word |
| `Hashtags.MatchThenRest` | routers/posts.py:58 | `#word` then a break gives the lowercased word, then the tags of the rest |
| `Hashtags.SkipNonMatch` | routers/posts.py:58 | a character that cannot start a match is skipped |
| `Hashtags.SkipCharsThenMatch` | routers/posts.py:58 | text without `#` before a `#word` adds nothing |
| `Hashtags.LowerCharFacts` | routers/posts.py:58 | lowercasing a character keeps word-ness and `#`, is idempotent and leaves no capital |
| `Hashtags.WordRunLower` | routers/posts.py:58 | lowercasing does not move match boundaries |
| `Hashtags.LowerIdempotent` | routers/explore.py:63 | lowercasing twice equals lowercasing once |
| `Hashtags.FindAllLower` | routers/posts.py:58 | the matches of the lowercased caption are the lowercased matches |
| `Hashtags.ExtractIgnoresCase` | routers/posts.py:58 | the tags of a caption do not depend on its letter case |
| `Hashtags.LowerOfLowercase` | routers/posts.py:58 | lowercasing leaves text without capitals unchanged |
| `Hashtags.HelloWorldExample` | routers/posts.py:58 | the one caption "Hello #world" gives ["world"] |
| `Hashtags.NoTagsExample` | routers/posts.py:58 | the one caption "Just a regular caption with no tags" gives []; `NoHashNoTags` is the general case |
| `Storage.PostValuesLive` | storage.py:20 | `posts.values()` holds each stored post exactly once |
| `Storage.EmptyIsValid` | storage.py:46-55 | the empty store satisfies every cross-index rule |
| `Storage.LikesFrame` | storage.py:31-32 | replacing one post's like set by registered users keeps the invariant |
| `Storage.Store.constructor` | storage.py:16-43 | a fresh store has all collections empty and is consistent |
| `Storage.Store.Reset` | storage.py:46-55 | `reset_storage` empties every collection in place; the clock keeps running; the store is consistent |
| `Users.BuildUserOut` | routers/users.py:22-35 | `_build_user_out`: the stored profile fields, the size of `followers.get(id, set())`, the size of `follows.get(id, set())`, and the number of posts in `posts.values()` whose author is the user |
| `Users.UserOutCounts` | routers/users.py:32-33 | follower and following counts equal the number of users following, and followed by, the user |
| `Users.FreshUserHasNoEdges` | routers/users.py:32-34 | an unregistered id has authored no post, is no key of either follow index and appears in no follow set |
| `Users.Create` | routers/users.py:38-62 | `create_user`: a taken username gives username-taken and no change; otherwise the user is stored with the clock as creation time, `setdefault` gives it empty follow and follower sets, the clock advances, and the answer is `_build_user_out` of the new user |
| `Users.CreateRejectsTakenHandle` | routers/users.py:45-46 | `create_user` fails exactly when some user has the username, and then changes nothing |
| `Users.CreateAddsUser` | routers/users.py:48-61 | otherwise one user is added with the payload's fields, empty follow sets and zero counts; nothing else changes and `get_user` returns the new profile |
| `Users.CreateKeepsInvariant` | routers/users.py:38-62 | `create_user` keeps the store consistent |
| `Users.Get` | routers/users.py:65-74 | `get_user` fails exactly for an unknown id; otherwise it returns `_build_user_out` of that user |
| `Users.GetShowsProfile` | routers/users.py:22-35 | in a consistent store the profile carries the stored fields, the number of users following the user, the number the user follows, and `post_count` |
| `Users.Update` | routers/users.py:77-95 | `update_user`: an unknown id gives user-not-found and no change; otherwise each field present in the payload overwrites the stored one, the others stay, and the answer is `_build_user_out` of the updated user |
| `Users.UpdateSpec` | routers/users.py:77-95 | `update_user` fails exactly for an unknown id and then changes nothing; otherwise it overwrites exactly the given fields and keeps id, username and creation time |
| `Users.UpdateKeepsInvariant` | routers/users.py:77-95 | `update_user` keeps the store consistent |
| `Users.UpdateIdempotent` | routers/users.py:88-93 | applying the same update twice equals applying it once |
| `Users.EmptyUpdateKeepsState` | routers/users.py:88-93 | an update with no field set changes nothing |
| `Users.CreateUser` | routers/users.py:38-62 | the in-place handler ends in the state and response of `Create` and keeps the store consistent |
| `Users.UpdateUser` | routers/users.py:77-95 | the in-place handler ends in the state and response of `Update` and keeps the store consistent |
| `Users.FindUsers` | routers/follows.py:85-89 | the listing loop yields the record of every registered user of the set, each once and nothing else |
| `Users.ListProfiles` | routers/follows.py:85-89 | the profiles of every registered user of the set, each once and nothing else |
| `Posts.BuildPostOut` | routers/posts.py:28-41 | `_build_post_out`: the stored post fields, the size of `likes.get(id, set())` and the length of `post_comments.get(id, [])` |
| `Posts.IndexTagsKeys` | routers/posts.py:69-71 | indexing adds exactly the post's tags as keys |
| `Posts.IndexTagsSets` | routers/posts.py:69-71 | indexing adds the post to the set of each of its tags and nothing else |
| `Posts.UnindexTagsSets` | routers/posts.py:123-127 | unindexing removes the post from the set of each of its tags and nothing else |
| `Posts.Create` | routers/posts.py:44-79 | `create_post`: an unknown author gives user-not-found and no change; otherwise the post is stored with the caption's extracted tags and the clock as creation time, its like set and comment list are set up with `setdefault`, each tag is indexed with `setdefault(tag, set()).add(pid)`, the clock advances, and the answer is `_build_post_out` of the new post |
| `Posts.CreateRejectsUnknownAuthor` | routers/posts.py:52-53 | `create_post` fails exactly for an unknown author, and then changes nothing |
| `Posts.CreateAddsPost` | routers/posts.py:44-79 | otherwise the post is stored with its extracted tags, empty likes and comments, indexed under each tag; nothing else changes |
| `Posts.CreateKeepsInvariant` | routers/posts.py:44-79 | `create_post` keeps the store consistent |
| `Posts.Delete` | routers/posts.py:108-139 | `delete_post`: an unknown post gives post-not-found and no change; otherwise the post is discarded from the set of each of its tags (keys stay), each comment on its list is popped, then its comment list, its like set and the post itself are removed |
| `Posts.DeleteRejectsUnknownPost` | routers/posts.py:119-121 | `delete_post` fails exactly for an unknown post, and then changes nothing |
| `Posts.DeleteRemovesPost` | routers/posts.py:123-137 | otherwise the post, its likes, its comment list and exactly its comments go; other comments stay as they were |
| `Posts.DeleteUnindexesPost` | routers/posts.py:123-127 | after deletion no tag set holds the post and every key stays |
| `Posts.DeleteKeepsInvariant` | routers/posts.py:108-139 | `delete_post` keeps the store consistent |
| `Posts.Get` | routers/posts.py:82-91 | `get_post` fails exactly for an unknown post; otherwise it returns `_build_post_out` of that post |
| `Posts.GetShowsPost` | routers/posts.py:28-41 | in a consistent store the record carries the stored post, the number of users who like it and the number of comments on it |
| `Posts.PostCountIsAuthored` | routers/users.py:34 | `post_count` is the number of stored posts the user wrote |
| `Posts.GetAfterCreate` | routers/posts.py:82-91 | `get_post` of a just-created post returns what `create_post` returned |
| `Posts.GetAfterDelete` | routers/posts.py:82-91 | after deletion the post is not found and every other post reads as before |
| `Posts.FilterCountsAuthored` | routers/users.py:34 | the author filter keeps as many posts as `post_count` counts |
| `Posts.NewestFirstMembers` | routers/posts.py:101-105 | the user's post list holds exactly that user's live posts, each once |
| `Posts.UserPosts` | routers/posts.py:94-105 | `get_user_posts`: an unknown user gives user-not-found; otherwise the user's posts in `posts.values()` order, stably sorted newest first, each as `_build_post_out` |
| `Posts.UserPostsLists` | routers/posts.py:94-105 | `get_user_posts` fails exactly for an unknown user; otherwise it lists every live post of the user once, newest first, as many as `post_count` |
| `Posts.IndexLoop` | routers/posts.py:69-71 | the indexing loop computes the tag index of `IndexTags` |
| `Posts.UnindexLoop` | routers/posts.py:123-127 | the unindexing loop computes `UnindexTags` |
| `Posts.PopComments` | routers/posts.py:129-131 | the loop removes exactly the listed comment ids |
| `Posts.CreatePost` | routers/posts.py:44-79 | the in-place handler ends in the state and response of `Create` and keeps the store consistent |
| `Posts.DeletePost` | routers/posts.py:108-139 | the in-place handler ends in the state and response of `Delete` and keeps the store consistent |
| `Follows.FollowerIndex` | storage.py:7-10 | `followers[u]` is the set of users following `u`, and `follows[u]` the set `u` follows |
| `Follows.Follow` | routers/follows.py:23-47 | `follow_user`: checks self-follow, then the user, then the target; then `follows.setdefault(user)` runs before the duplicate check (so an already-following error still keeps that write); otherwise the edge is written into both indexes, the follower side through `setdefault` |
| `Follows.FollowErrors` | routers/follows.py:32-41 | `follow_user` fails with self-follow, unknown user, unknown target or already-following, exactly when each first check fails, and then changes nothing |
| `Follows.FollowAddsEdge` | routers/follows.py:43-45 | otherwise both sides of the index gain the edge and nothing else changes |
| `Follows.FollowRelation` | routers/follows.py:43-45 | the relation gains exactly the new edge; both counts grow by one |
| `Follows.FollowKeepsInvariant` | routers/follows.py:23-47 | `follow_user` keeps the store consistent |
| `Follows.Unfollow` | routers/follows.py:50-71 | `unfollow_user`: checks the user, then the target, then that the edge exists in `follows.get(user, set())`; otherwise the edge is discarded from both indexes, a missing follower set of the target being a throw-away set |
| `Follows.UnfollowErrors` | routers/follows.py:58-65 | `unfollow_user` fails with unknown user, unknown target or not-following, exactly when each first check fails, and then changes nothing |
| `Follows.UnfollowRemovesEdge` | routers/follows.py:67-69 | otherwise both sides lose the edge and nothing else changes |
| `Follows.UnfollowRelation` | routers/follows.py:67-69 | the relation loses exactly that edge; both counts shrink by one |
| `Follows.UnfollowKeepsInvariant` | routers/follows.py:50-71 | `unfollow_user` keeps the store consistent |
| `Follows.FollowThenUnfollow` | routers/follows.py:50-71 | a successful follow, then unfollow, restores the store |
| `Follows.UnfollowThenFollow` | routers/follows.py:23-47 | a successful unfollow, then follow, restores the store |
| `Follows.FollowTwiceConflicts` | routers/follows.py:39-41 | following twice gives already-following |
| `Follows.FollowUser` | routers/follows.py:23-47 | the in-place handler ends in the state and response of `Follow` and keeps the store consistent |
| `Follows.UnfollowUser` | routers/follows.py:50-71 | the in-place handler ends in the state and response of `Unfollow` and keeps the store consistent |
| `Follows.GetFollowers` | routers/follows.py:74-89 | fails exactly for an unknown user; otherwise lists the profile of every follower, each once |
| `Follows.GetFollowing` | routers/follows.py:92-107 | fails exactly for an unknown user; otherwise lists the profile of every followed user, each once |
| `Likes.LikeIndex` | storage.py:31-32 | `likes[p]` is the set of users who liked `p` |
| `Likes.Like` | routers/likes.py:22-40 | `like_post`: checks the post, then the user; then `likes.setdefault(post)` runs before the already-liked check; otherwise the user is added to the post's likers |
| `Likes.LikeErrors` | routers/likes.py:30-37 | `like_post` fails with unknown post, unknown user or already-liked, exactly when each first check fails, and then changes nothing |
| `Likes.LikeAddsLiker` | routers/likes.py:39 | otherwise the user joins the post's likers, whose count grows by one; nothing else changes |
| `Likes.LikeKeepsInvariant` | routers/likes.py:22-40 | `like_post` keeps the store consistent |
| `Likes.Unlike` | routers/likes.py:43-61 | `unlike_post`: checks the post, then that the user is in `likes.get(post, set())` (the user id is not looked up); otherwise the user is discarded from the likers |
| `Likes.UnlikeErrors` | routers/likes.py:53-58 | `unlike_post` fails with unknown post or not-liked, exactly when each check fails, and then changes nothing |
| `Likes.UnlikeRemovesLiker` | routers/likes.py:60 | otherwise the user leaves the likers, whose count shrinks by one; nothing else changes |
| `Likes.UnlikeByUnknownUser` | routers/likes.py:53-58 | an unknown user's unlike of a live post reports like-not-found, not user-not-found |
| `Likes.UnlikeKeepsInvariant` | routers/likes.py:43-61 | `unlike_post` keeps the store consistent |
| `Likes.LikeThenUnlike` | routers/likes.py:43-61 | a successful like, then unlike, restores the store |
| `Likes.UnlikeThenLike` | routers/likes.py:22-40 | a successful unlike by a registered user, then like, restores the store |
| `Likes.LikeTwiceConflicts` | routers/likes.py:36-37 | liking twice gives already-liked |
| `Likes.LikePost` | routers/likes.py:22-40 | the in-place handler ends in the state and response of `Like` and keeps the store consistent |
| `Likes.UnlikePost` | routers/likes.py:43-61 | the in-place handler ends in the state and response of `Unlike` and keeps the store consistent |
| `Likes.GetPostLikes` | routers/likes.py:64-79 | fails exactly for an unknown post; otherwise lists the profile of every liker, each once |
| `Comments.Add` | routers/comments.py:34-59 | `add_comment`: checks the post, then the user; otherwise the comment is stored with the clock as creation time, its id is appended to `post_comments.setdefault(post, [])`, the clock advances, and the answer is the comment record |
| `Comments.AddErrors` | routers/comments.py:42-45 | `add_comment` fails with unknown post or unknown user, exactly when each check fails, and then changes nothing |
| `Comments.AddAppendsComment` | routers/comments.py:49-57 | otherwise the comment is stored with the current time and appended to its post's list, which grows by one |
| `Comments.AddKeepsInvariant` | routers/comments.py:34-59 | `add_comment` keeps the store consistent |
| `Comments.List` | routers/comments.py:62-77 | `get_comments`: an unknown post gives post-not-found; otherwise the comments named by `post_comments.get(post, [])`, in list order, skipping ids no longer stored |
| `Comments.ListShowsComments` | routers/comments.py:62-77 | `get_comments` fails exactly for an unknown post; otherwise it lists every comment of the post once, oldest first |
| `Comments.ListAfterAdd` | routers/comments.py:62-77 | a comment just added is listed last |
| `Comments.Delete` | routers/comments.py:80-99 | `delete_comment`: an unknown comment gives comment-not-found and no change; otherwise the first occurrence of its id is removed from its post's list when it is there, and the comment is deleted |
| `Comments.DeleteRejectsUnknownComment` | routers/comments.py:88-90 | `delete_comment` fails exactly for an unknown comment, and then changes nothing |
| `Comments.DeleteUnlistsComment` | routers/comments.py:92-98 | otherwise the id leaves its post's list, which shrinks by one, and the comment goes |
| `Comments.RemoveKeepsOldestFirst` | routers/comments.py:92-96 | removing an id from an oldest-first list keeps it oldest first |
| `Comments.DeleteKeepsInvariant` | routers/comments.py:80-99 | `delete_comment` keeps the store consistent |
| `Comments.AddThenDelete` | routers/comments.py:80-99 | adding a comment and deleting it restores the store, apart from the clock |
| `Comments.AddComment` | routers/comments.py:34-59 | the in-place handler ends in the state and response of `Add` and keeps the store consistent |
| `Comments.GetComments` | routers/comments.py:62-77 | the handler returns what `List` describes |
| `Comments.DeleteComment` | routers/comments.py:80-99 | the in-place handler ends in the state and response of `Delete` and keeps the store consistent |
| `Feed.GetFeed` | routers/feed.py:20-41 | `get_feed`: an unknown user gives user-not-found; an empty `follows.get(user, set())` gives []; otherwise the posts in `posts.values()` order whose author is followed, stably sorted newest first |
| `Feed.FeedPostsMembers` | routers/feed.py:36-40 | the feed holds exactly the live posts of followed users, each once, newest first |
| `Feed.FeedSpec` | routers/feed.py:20-41 | `get_feed` fails exactly for an unknown user; following nobody gives an empty feed; otherwise exactly the followed users' live posts, newest first, each once |
| `Feed.FeedExcludesOwnPosts` | routers/feed.py:32-39 | a user's own posts never reach their feed |
| `Explore.Recent` | routers/explore.py:25-34 | `explore_recent`: `posts.values()` stably sorted newest first, the first `limit` of them |
| `Explore.RecentSpec` | routers/explore.py:25-34 | `explore_recent` shows min(limit, number of posts) live posts, newest first, each once; any post left out is no newer than those shown |
| `Explore.RecentDefault` | routers/explore.py:27 | with the default limit, at most 20 posts |
| `Explore.Trending` | routers/explore.py:37-52 | `explore_trending`: one entry per key of `hashtag_posts` in key order whose set is non-empty, with its size, stably sorted by count descending, the first ten |
| `Explore.TagCountsMembers` | routers/explore.py:46-50 | one entry per key with a non-empty set, counting that set |
| `Explore.TrendingSpec` | routers/explore.py:37-52 | at most ten tags, ranked by count, each once, each an indexed lowercase tag with its exact positive count; a tag left out means the list is full and the tag has no more posts than any shown |
| `Explore.TrendingCountsLivePosts` | routers/explore.py:46-50 | each trending count is the number of live posts carrying the tag |
| `Explore.ByTag` | routers/explore.py:55-67 | `explore_by_hashtag`: the tag is lowercased before the lookup in `hashtag_posts` (a missing key means no posts); the live posts with those ids, stably sorted newest first |
| `Explore.ByTagIgnoresCase` | routers/explore.py:63 | every case variant of a tag gives the same answer |
| `Explore.ByTagUnknown` | routers/explore.py:64 | an unused tag gives an empty list, not an error |
| `Explore.ByTagSpec` | routers/explore.py:55-67 | exactly the live posts whose tags include the lowercased tag, newest first, each once |
| `Service.StepKeepsInvariant` | storage.py:7-10 | every mutating route keeps the store consistent, whether it succeeds or fails |
| `Service.RunKeepsInvariant` | storage.py:1-10 | any sequence of requests keeps the store consistent |
| `Service.UsernamesStayDistinct` | routers/users.py:45-46 | from an empty store, usernames stay unique, nobody follows themselves, and the two follow indexes agree |
| `Service.OneTagCaption` | routers/posts.py:58 | a caption that is one `#word` gives that word lowercased |
| `Service.PythonCaption` | tests/test_regression.py:120-134 | `#Python`, `#PYTHON` and `#python` all give the single tag `python` |
| `Service.CreateCountsTagOnce` | routers/posts.py:69-71 | creating a post counts it once more toward each of its tags |
| `Service.OneTagTrends` | routers/explore.py:46-52 | a store whose index has one non-empty tag trends that tag alone, with its count |

## Left out

- HTTP: routing, status codes, `HTTPException` and `response_model` are left out.
  Each error is a value of `Results.Error`, one per `detail` the handlers raise.
- `main.py` (application wiring) is left out.
- Pydantic itself is left out. Payload constraints are subset types and small decoders
  in `Models`. The `limit` query bound of `explore_recent` (1 to 100) is the subset
  type `Explore.Limit`.
- `uuid4()` is left out. The id a creating request draws is a parameter that is not yet
  a key (`requires uid !in st.users`, and likewise for posts and comments).
- `datetime.utcnow().isoformat()` becomes the store's `clock`. It is a natural number
  that every create reads and advances. Timestamps therefore compare as numbers, not as
  ISO-8601 strings, and two creates never share one.
- `\w`, `str.lower()` and `str.strip()` are modelled over ASCII. Unicode word
  characters, Unicode case mapping and Unicode whitespace beyond the ASCII
  separators are left out.
- Python set iteration order is left out:
  - the profile listings (`get_followers`, `get_following`, `get_post_likes`) are
    proved to list each member once, in an unspecified order;
  - `explore_by_hashtag` walks `posts.values()` in dict order and keeps the tagged ids,
    while the source walks the tag's set. After the stable sort the two orders agree
    except among posts with equal timestamps. Each create stamps a new clock reading,
    but the invariant does not record that stamps are distinct, so the model does not
    prove that such ties never occur.
- Service.OneTagTrends: the regression scenario (three posts tagged `#Python`,
  `#PYTHON`, `#python` trend as one `python` entry of count 3) is stated in parts.
  `PythonCaption` gives the one tag, and `CreateCountsTagOnce` gives each create's
  increment. `OneTagTrends` gives the trending list of a single-tag index. The
  three-create chain itself is not one lemma.
- The test files under `tests/` are not modelled. They were read for the properties
  they check.
