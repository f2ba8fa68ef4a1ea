/** Outcome types shared by every operation of the service.
    Each HTTP error the routers raise becomes one constructor of `Error`;
    the HTTP status it maps to is given beside it. */
module Results {

  datatype Option<+T> = None | Some(value: T) {
    function GetOr(default: T): T {
      match this
      case Some(v) => v
      case None => default
    }
  }

  datatype Error =
    | UserNotFound        // 404 "User not found"
    | TargetNotFound      // 404 "Target user not found"
    | PostNotFound        // 404 "Post not found"
    | CommentNotFound     // 404 "Comment not found"
    | LikeNotFound        // 404 "Like not found"
    | NotFollowing        // 404 "Not following this user"
    | UsernameTaken       // 409 "Username already taken"
    | AlreadyFollowing    // 409 "Already following this user"
    | AlreadyLiked        // 409 "Post already liked by this user"
    | SelfFollow          // 400 "Cannot follow yourself"
    | Invalid(field: string)  // 422, a payload field that fails validation

  datatype Result<+T> = Ok(value: T) | Err(error: Error)
}
