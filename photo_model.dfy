/**
 * A photo document: its owner and picture, and the users who liked it,
 * with the like count stored beside the list.
 */
module PhotoModel {
  import opened Common
  import opened Domain

  /** A photo read with `.lean()`: a plain value, detached from the document. */
  datatype PhotoDoc = PhotoDoc(id: string, owner: UserId, imageUrl: string, caption: string, createdAt: int, likes: seq<UserId>, likesCount: int)

  class Photo {
    const id: string
    const owner: UserId
    const imageUrl: string
    const caption: string
    const createdAt: int
    var likes: seq<UserId>
    var likesCount: int

    /** A new photo: nobody has liked it yet and the count starts at its default, 0. */
    constructor (id: string, owner: UserId, imageUrl: string, caption: string, createdAt: int)
      ensures this.id == id && this.owner == owner && this.imageUrl == imageUrl && this.caption == caption && this.createdAt == createdAt
      ensures likes == [] && likesCount == 0
      ensures Valid()
    {
      this.id := id;
      this.owner := owner;
      this.imageUrl := imageUrl;
      this.caption := caption;
      this.createdAt := createdAt;
      likes := [];
      likesCount := 0;
    }

    /** The stored count agrees with the list, and nobody is in the list twice. */
    predicate Valid()
      reads this
    {
      likesCount == |likes| && NoDups(likes)
    }

    /** The virtual `isLiked`, and the `likes.some(...)` the controllers compute. */
    predicate IsLikedBy(userId: UserId)
      reads this
    {
      userId in likes
    }

    function Doc(): (d: PhotoDoc)
      reads this
      ensures d.id == id && d.owner == owner && d.likes == likes && d.likesCount == likesCount
    {
      PhotoDoc(id, owner, imageUrl, caption, createdAt, likes, likesCount)
    }

    /**
     * `addLike`: the user is appended only when absent, and the count is
     * refreshed only then.
     */
    method AddLike(userId: UserId)
      modifies this`likes, this`likesCount
      ensures likes == AddIfAbsent(old(likes), userId)
      ensures likesCount == (if userId in old(likes) then old(likesCount) else |likes|)
      ensures IsLikedBy(userId)
      ensures old(Valid()) ==> Valid()
    {
      if userId !in likes {
        likes := likes + [userId];
        likesCount := |likes|;
      }
    }

    /** `removeLike`: every entry for the user is dropped and the count is refreshed. */
    method RemoveLike(userId: UserId)
      modifies this`likes, this`likesCount
      ensures likes == RemoveAll(old(likes), userId)
      ensures likesCount == |likes| && !IsLikedBy(userId)
      ensures NoDups(old(likes)) ==> Valid()
      ensures userId !in old(likes) ==> likes == old(likes)
    {
      if NoDups(likes) {
        RemoveAllNoDups(likes, userId);
      }
      if userId !in likes {
        RemoveAbsent(likes, userId);
      }
      likes := RemoveAll(likes, userId);
      likesCount := |likes|;
    }
  }
}
