/** Request payloads and response records of the API, with the field constraints
    the request layer enforces before any store operation runs: a payload that
    reaches the store is one of the types below, so its constraints hold by type. */
module Models {
  import opened Results

  type UserId = string
  type PostId = string
  type CommentId = string

  /** Creation timestamps: the store's clock reading (ISO-8601 text in the API). */
  type Timestamp = nat

  type NonEmptyString = s: string | |s| > 0 witness "?"

  /** ASCII whitespace as Python's `str.isspace` sees it:
      tab, line feed, vertical tab, form feed, carriage return, 0x1C-0x1F and space. */
  predicate IsSpace(c: char) {
    c == ' ' || 9 <= c as int <= 13 || 28 <= c as int <= 31
  }

  /** Every character is whitespace (the empty string included). */
  predicate IsBlank(s: string) {
    s == [] || (IsSpace(s[0]) && IsBlank(s[1..]))
  }

  lemma {:induction false} BlankIffAllSpace(s: string)
    ensures IsBlank(s) <==> forall i :: 0 <= i < |s| ==> IsSpace(s[i])
  {
    if s != [] {
      BlankIffAllSpace(s[1..]);
      assert forall i :: 1 <= i < |s| ==> s[i] == s[1..][i - 1];
    }
  }

  function TrimLeft(s: string): string {
    if s != [] && IsSpace(s[0]) then TrimLeft(s[1..]) else s
  }

  function TrimRight(s: string): string {
    if s != [] && IsSpace(s[|s| - 1]) then TrimRight(s[..|s| - 1]) else s
  }

  /** `s.strip()` */
  function Strip(s: string): string {
    TrimRight(TrimLeft(s))
  }

  lemma {:induction false} TrimLeftEmptyIffBlank(s: string)
    ensures TrimLeft(s) == [] <==> IsBlank(s)
  {
    if s != [] && IsSpace(s[0]) {
      TrimLeftEmptyIffBlank(s[1..]);
    }
  }

  lemma {:induction false} TrimRightEmptyIffBlank(s: string)
    ensures TrimRight(s) == [] <==> IsBlank(s)
  {
    BlankIffAllSpace(s);
    if s != [] && IsSpace(s[|s| - 1]) {
      var init := s[..|s| - 1];
      TrimRightEmptyIffBlank(init);
      BlankIffAllSpace(init);
      assert forall i :: 0 <= i < |init| ==> s[i] == init[i];
    }
  }

  lemma {:induction false} TrimLeftStartsWithNonSpace(s: string)
    ensures TrimLeft(s) == [] || !IsSpace(TrimLeft(s)[0])
  {
    if s != [] && IsSpace(s[0]) {
      TrimLeftStartsWithNonSpace(s[1..]);
    }
  }

  /** `not s.strip()` holds exactly for strings made only of whitespace. */
  lemma StripEmptyIffBlank(s: string)
    ensures Strip(s) == [] <==> IsBlank(s)
  {
    TrimLeftEmptyIffBlank(s);
    TrimRightEmptyIffBlank(TrimLeft(s));
    TrimLeftStartsWithNonSpace(s);
  }

  /** Comment text that survives `CommentCreate.text_must_not_be_blank`. */
  type CommentText = s: string | !IsBlank(s) witness "x"

  /** `CommentCreate.text_must_not_be_blank`: rejects text whose `strip()` is empty and
      returns accepted text unchanged (not trimmed). */
  function ValidateCommentText(text: string): (r: Result<CommentText>)
    ensures r.Ok? <==> exists i :: 0 <= i < |text| && !IsSpace(text[i])
    ensures r.Ok? ==> r.value == text
    ensures r.Err? ==> r.error == Invalid("text")
  {
    StripEmptyIffBlank(text);
    BlankIffAllSpace(text);
    if Strip(text) == [] then Err(Invalid("text")) else Ok(text)
  }

  /** `media_type: Literal["image", "video"]` */
  datatype MediaType = Image | Video

  function MediaTypeName(m: MediaType): string {
    match m
    case Image => "image"
    case Video => "video"
  }

  function ParseMediaType(s: string): Option<MediaType> {
    if s == "image" then Some(Image)
    else if s == "video" then Some(Video)
    else None
  }

  /** The literal admits exactly the two names, and each parses back to its kind. */
  lemma MediaTypeRoundTrip(s: string, m: MediaType)
    ensures ParseMediaType(MediaTypeName(m)) == Some(m)
    ensures ParseMediaType(s).Some? <==> s == "image" || s == "video"
    ensures ParseMediaType(s).Some? ==> MediaTypeName(ParseMediaType(s).value) == s
  {
  }

  /** `UserCreate`: username and display_name have `min_length=1`; bio and
      profile_pic_url default to "". */
  datatype UserCreate = UserCreate(
    username: NonEmptyString,
    displayName: NonEmptyString,
    bio: string,
    profilePicUrl: string)

  /** `UserUpdate`: every field optional; there is no username field. */
  datatype UserUpdate = UserUpdate(
    displayName: Option<string>,
    bio: Option<string>,
    profilePicUrl: Option<string>)

  /** `PostCreate`: media_url has `min_length=1`; caption defaults to "". */
  datatype PostCreate = PostCreate(
    userId: UserId,
    mediaUrl: NonEmptyString,
    mediaType: MediaType,
    caption: string)

  /** `CommentCreate` after its validator. */
  datatype CommentCreate = CommentCreate(userId: UserId, text: CommentText)

  /** Decoding a `UserCreate` body; an omitted optional field is `None`. */
  function DecodeUserCreate(username: string, displayName: string, bio: Option<string>,
                            profilePicUrl: Option<string>): Result<UserCreate>
  {
    if |username| == 0 then Err(Invalid("username"))
    else if |displayName| == 0 then Err(Invalid("display_name"))
    else Ok(UserCreate(username, displayName, bio.GetOr(""), profilePicUrl.GetOr("")))
  }

  /** A body is accepted iff both required names are non-empty; omitted optional
      fields become "", and every payload decodes back from its own fields. */
  lemma UserCreateDecoding(username: string, displayName: string, bio: Option<string>,
                           profilePicUrl: Option<string>, x: UserCreate)
    ensures DecodeUserCreate(username, displayName, bio, profilePicUrl).Ok?
            <==> |username| > 0 && |displayName| > 0
    ensures DecodeUserCreate(username, displayName, None, None).Ok? ==>
              DecodeUserCreate(username, displayName, None, None).value.bio == "" &&
              DecodeUserCreate(username, displayName, None, None).value.profilePicUrl == ""
    ensures DecodeUserCreate(x.username, x.displayName, Some(x.bio), Some(x.profilePicUrl)) == Ok(x)
  {
  }

  /** Decoding a `PostCreate` body; the media type arrives as text. */
  function DecodePostCreate(userId: UserId, mediaUrl: string, mediaType: string,
                            caption: Option<string>): Result<PostCreate>
  {
    if |mediaUrl| == 0 then Err(Invalid("media_url"))
    else match ParseMediaType(mediaType)
      case None => Err(Invalid("media_type"))
      case Some(m) => Ok(PostCreate(userId, mediaUrl, m, caption.GetOr("")))
  }

  /** A body is accepted iff media_url is non-empty and media_type is "image" or
      "video"; an omitted caption becomes "", and every payload decodes back. */
  lemma PostCreateDecoding(userId: UserId, mediaUrl: string, mediaType: string,
                           caption: Option<string>, x: PostCreate)
    ensures DecodePostCreate(userId, mediaUrl, mediaType, caption).Ok?
            <==> |mediaUrl| > 0 && (mediaType == "image" || mediaType == "video")
    ensures DecodePostCreate(userId, mediaUrl, mediaType, None).Ok? ==>
              DecodePostCreate(userId, mediaUrl, mediaType, None).value.caption == ""
    ensures DecodePostCreate(x.userId, x.mediaUrl, MediaTypeName(x.mediaType), Some(x.caption)) == Ok(x)
  {
    MediaTypeRoundTrip(mediaType, x.mediaType);
  }

  /** Decoding a `CommentCreate` body: only the text validator can fail. */
  function DecodeCommentCreate(userId: UserId, text: string): (r: Result<CommentCreate>)
    ensures r.Ok? <==> !IsBlank(text)
    ensures r.Ok? ==> r.value.text == text && r.value.userId == userId
  {
    BlankIffAllSpace(text);
    match ValidateCommentText(text)
    case Err(e) => Err(e)
    case Ok(t) => Ok(CommentCreate(userId, t))
  }

  /** `UserOut`: the stored profile plus the counts derived on every read. */
  datatype UserOut = UserOut(
    id: UserId,
    username: string,
    displayName: string,
    bio: string,
    profilePicUrl: string,
    createdAt: Timestamp,
    followerCount: nat,
    followingCount: nat,
    postCount: nat)

  /** `PostOut`: the stored post plus its like and comment counts. */
  datatype PostOut = PostOut(
    id: PostId,
    userId: UserId,
    mediaUrl: string,
    mediaType: MediaType,
    caption: string,
    hashtags: seq<string>,
    createdAt: Timestamp,
    likeCount: nat,
    commentCount: nat)

  /** `CommentOut`: a stored comment as the API returns it. */
  datatype CommentOut = CommentOut(
    id: CommentId,
    userId: UserId,
    postId: PostId,
    text: string,
    createdAt: Timestamp)

  /** `HashtagCount`: one trending entry. */
  datatype HashtagCount = HashtagCount(tag: string, count: nat)
}
