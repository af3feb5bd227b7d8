/**
 * The feedback buttons of components/chat/MessageBubble.tsx: thumbs up and
 * thumbs down toggle, and pressing one clears the other.
 */
module MessageBubble {

  class Feedback {
    var liked: bool
    var disliked: bool

    /** A message is never both liked and disliked. */
    predicate Valid()
      reads this
    {
      !(liked && disliked)
    }

    /** Both start off. */
    constructor ()
      ensures Valid() && !liked && !disliked
    {
      liked := false;
      disliked := false;
    }

    /** `handleLike`: flip the like, and drop a dislike if there was one. */
    method HandleLike()
      modifies this
      ensures Valid()
      ensures liked == !old(liked) && !disliked
    {
      liked := !liked;
      if disliked {
        disliked := false;
      }
    }

    /** `handleDislike`: flip the dislike, and drop a like if there was one. */
    method HandleDislike()
      modifies this
      ensures Valid()
      ensures disliked == !old(disliked) && !liked
    {
      disliked := !disliked;
      if liked {
        liked := false;
      }
    }
  }

  /**
   * Liking twice from neutral is neutral again; liking and then disliking
   * leaves only the dislike; disliking a liked message and disliking again
   * leaves neither.
   */
  method PressSequences()
    returns (afterLikeLike: (bool, bool), afterLikeDislike: (bool, bool), afterLikeDislikeDislike: (bool, bool))
    ensures afterLikeLike == (false, false)
    ensures afterLikeDislike == (false, true)
    ensures afterLikeDislikeDislike == (false, false)
  {
    var f := new Feedback();
    f.HandleLike();
    f.HandleLike();
    afterLikeLike := (f.liked, f.disliked);
    f.HandleLike();
    f.HandleDislike();
    afterLikeDislike := (f.liked, f.disliked);
    f.HandleDislike();
    afterLikeDislikeDislike := (f.liked, f.disliked);
  }
}
