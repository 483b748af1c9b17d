/**
 * The photo endpoints: upload with a capped caption, the paged feed of the
 * user's and their friends' photos, liking, unliking, deleting one's own
 * photo, and reading one photo. Each change is announced as a notice.
 */
module PhotoController {
  import opened Common
  import opened Domain
  import opened PhotoModel

  const DefaultPage := 1
  const DefaultLimit := 20
  const CaptionLimit := 300
  const NoPhotoFile := "No photo file uploaded"
  const PhotoNotFound := "Photo not found"
  const NotAuthorized := "Not authorized to delete this photo"
  const InternalError := "Internal server error"

  // ---------------------------------------------------------------------
  // Pure parts

  /** `parseInt(x) || d`: `parsed` is none when `parseInt` gave NaN; NaN and 0 both fall back. */
  function ParsedOr(parsed: Option<int>, d: int): (r: int)
    ensures parsed.None? || parsed.value == 0 ==> r == d
    ensures parsed.Some? && parsed.value != 0 ==> r == parsed.value
  {
    if parsed.None? || parsed.value == 0 then d else parsed.value
  }

  /** `caption.trim().substring(0, 300)` */
  function CaptionOf(caption: string): (r: string)
    ensures |r| <= CaptionLimit
    ensures |r| <= |Trim(caption)| && r == Trim(caption)[..|r|]
    ensures |Trim(caption)| <= CaptionLimit ==> r == Trim(caption)
    ensures |Trim(caption)| > CaptionLimit ==> |r| == CaptionLimit
  {
    var t := Trim(caption);
    if |t| <= CaptionLimit then t else t[..CaptionLimit]
  }

  /** `Math.ceil(total / limit)` for a non-zero integer limit. */
  function CeilDiv(total: nat, limit: int): (r: int)
    requires limit != 0
    ensures limit > 0 ==> (r - 1) * limit < total <= r * limit
    ensures limit < 0 ==> r <= 0
  {
    if limit > 0 then (total + limit - 1) / limit else -(total / -limit)
  }

  /** The ids of the user's friends (`User.find({ email: { $in: friends } })`), none for an unknown user. */
  function FriendIds(users: seq<User>, userId: UserId): (r: seq<UserId>)
    ensures FindUser(users, userId).None? ==> r == []
    ensures FindUser(users, userId).Some? ==>
      forall u :: u in users && u.email in users[FindUser(users, userId).value].friends ==> u.id in r
    ensures forall id :: id in r ==> FriendOf(users, userId, id)
  {
    var friends := match FindUser(users, userId) case None => [] case Some(i) => users[i].friends;
    var kept := Keep(users, (u: User) => u.email in friends);
    var r := Ids(kept);
    assert forall id :: id in r ==> FriendOf(users, userId, id) by {
      forall id | id in r
        ensures FriendOf(users, userId, id)
      {
        var k :| 0 <= k < |r| && r[k] == id;
        assert kept[k] in kept;
      }
    }
    r
  }

  /** Some user with this id has an e-mail among the requester's friends. */
  predicate FriendOf(users: seq<User>, userId: UserId, id: UserId) {
    FindUser(users, userId).Some? &&
    exists u :: u in users && u.id == id && u.email in users[FindUser(users, userId).value].friends
  }

  /** The feed holds exactly the photos owned by the requester or by a user among the requester's friends. */
  lemma FeedIsOwnOrFriends(docs: seq<PhotoDoc>, users: seq<User>, userId: UserId)
    ensures forall d :: d in Feed(docs, users, userId) <==>
      d in docs && (d.owner == userId || FriendOf(users, userId, d.owner))
  {
    forall d | d in docs && FriendOf(users, userId, d.owner)
      ensures d.owner in FriendIds(users, userId)
    {
      var u :| u in users && u.id == d.owner && u.email in users[FindUser(users, userId).value].friends;
    }
  }

  /**
   * The feed's photos, newest first: those owned by the user or a friend.
   * The collection is kept in creation order, so newest first is the
   * reverse of it.
   */
  function Feed(docs: seq<PhotoDoc>, users: seq<User>, userId: UserId): (r: seq<PhotoDoc>)
    ensures forall d :: d in r <==> d in docs && (d.owner == userId || d.owner in FriendIds(users, userId))
  {
    var owners := FriendIds(users, userId) + [userId];
    var r := Reverse(Keep(docs, (d: PhotoDoc) => d.owner in owners));
    assert forall d :: d in r <==> d in Keep(docs, (d: PhotoDoc) => d.owner in owners) by {
      var kept := Keep(docs, (d: PhotoDoc) => d.owner in owners);
      forall d
        ensures d in r <==> d in kept
      {
        if d in kept {
          var k :| 0 <= k < |kept| && kept[k] == d;
          assert r[|kept| - 1 - k] == d;
        }
      }
    }
    r
  }

  /** `skip(skip).limit(limit)` on the feed, for a skip MongoDB accepts. */
  function Window(feed: seq<PhotoDoc>, skip: nat, limit: int): (r: seq<PhotoDoc>)
    ensures skip >= |feed| ==> r == []
    ensures skip < |feed| ==> |r| == LimitCount(limit, |feed| - skip) && r == feed[skip..skip + |r|]
  {
    if skip >= |feed| then [] else feed[skip..][..LimitCount(limit, |feed| - skip)]
  }

  /** A feed entry: the photo and whether the requester likes it. */
  datatype FeedItem = FeedItem(photo: PhotoDoc, isLiked: bool)

  function WithLikeStatus(docs: seq<PhotoDoc>, userId: UserId): (r: seq<FeedItem>)
    ensures |r| == |docs|
    ensures forall k :: 0 <= k < |docs| ==> r[k].photo == docs[k] && (r[k].isLiked <==> userId in docs[k].likes)
  {
    if docs == [] then [] else [FeedItem(docs[0], userId in docs[0].likes)] + WithLikeStatus(docs[1..], userId)
  }

  /** `getPhotoFeed`'s answer; a negative skip is refused by the database and answered with a server error. */
  datatype FeedReply =
    | FeedError
    | FeedPage(items: seq<FeedItem>, currentPage: int, totalPages: int, totalPhotos: nat, hasMore: bool)

  /** The page of an already selected feed that the query parameters ask for. */
  function Paginate(feed: seq<PhotoDoc>, userId: UserId, pageParam: Option<int>, limitParam: Option<int>): (r: FeedReply)
    ensures var page := ParsedOr(pageParam, DefaultPage);
      var limit := ParsedOr(limitParam, DefaultLimit);
      (r.FeedError? <==> (page - 1) * limit < 0) &&
      (r.FeedPage? ==>
         r.currentPage == page && r.totalPhotos == |feed| && |r.items| <= |feed|)
  {
    var page := ParsedOr(pageParam, DefaultPage);
    var limit := ParsedOr(limitParam, DefaultLimit);
    var skip := (page - 1) * limit;
    if skip < 0 then FeedError
    else
      var shown := Window(feed, skip, limit);
      FeedPage(WithLikeStatus(shown, userId), page, CeilDiv(|feed|, limit), |feed|, skip + |shown| < |feed|)
  }

  /** Every photo a page shows comes from the feed it pages. */
  lemma PageItemsFromFeed(feed: seq<PhotoDoc>, userId: UserId, pageParam: Option<int>, limitParam: Option<int>)
    ensures var r := Paginate(feed, userId, pageParam, limitParam);
      r.FeedPage? ==> forall k :: 0 <= k < |r.items| ==> r.items[k].photo in feed
  {
    var page := ParsedOr(pageParam, DefaultPage);
    var limit := ParsedOr(limitParam, DefaultLimit);
    var skip := (page - 1) * limit;
    if skip >= 0 {
      var shown := Window(feed, skip, limit);
      forall k | 0 <= k < |shown|
        ensures shown[k] in feed
      {
        assert shown[k] == feed[skip + k];
      }
    }
  }

  /** `getPhotoFeed` on a snapshot of the photo and user collections. */
  function PhotoFeed(docs: seq<PhotoDoc>, users: seq<User>, userId: UserId, pageParam: Option<int>, limitParam: Option<int>): (r: FeedReply)
    ensures r.FeedPage? ==> forall k :: 0 <= k < |r.items| ==>
      r.items[k].photo in docs && (r.items[k].photo.owner == userId || FriendOf(users, userId, r.items[k].photo.owner))
  {
    FeedIsOwnOrFriends(docs, users, userId);
    PageItemsFromFeed(Feed(docs, users, userId), userId, pageParam, limitParam);
    Paginate(Feed(docs, users, userId), userId, pageParam, limitParam)
  }

  /**
   * With positive page and limit, the feed page is the slice of the
   * requester's feed that the page names, and shows only photos of the
   * requester or of friends.
   */
  lemma PhotoFeedIsPageOfFeed(docs: seq<PhotoDoc>, users: seq<User>, userId: UserId, page: int, limit: int)
    requires page >= 1 && limit >= 1
    ensures var feed := Feed(docs, users, userId);
      var r := PhotoFeed(docs, users, userId, Some(page), Some(limit));
      var lo := (page - 1) * limit;
      var hi := if lo + limit < |feed| then lo + limit else |feed|;
      r.FeedPage? && r.totalPhotos == |feed| && |r.items| == (if lo < hi then hi - lo else 0) &&
      forall k :: 0 <= k < |r.items| ==> 0 <= lo + k < |feed| && r.items[k].photo == feed[lo + k]
  {
    PhotoFeedPaginatesFeed(docs, users, userId, Some(page), Some(limit));
    PageIsSlice(Feed(docs, users, userId), userId, page, limit);
  }

  /** `PhotoFeed` pages the requester's feed. */
  lemma PhotoFeedPaginatesFeed(docs: seq<PhotoDoc>, users: seq<User>, userId: UserId, pageParam: Option<int>, limitParam: Option<int>)
    ensures PhotoFeed(docs, users, userId, pageParam, limitParam) == Paginate(Feed(docs, users, userId), userId, pageParam, limitParam)
  {
  }

  /** With positive page and limit, the window of a page is the slice of the feed it names, cut at the end of the feed. */
  lemma PageWindow(feed: seq<PhotoDoc>, page: int, limit: int)
    requires page >= 1 && limit >= 1
    ensures var lo := (page - 1) * limit;
      var hi := if page * limit < |feed| then page * limit else |feed|;
      var w := Window(feed, lo, limit);
      |w| == (if lo < hi then hi - lo else 0) && forall k :: 0 <= k < |w| ==> w[k] == feed[lo + k]
  {
    MulMonotone(1, page, limit);
    assert page * limit == (page - 1) * limit + limit;
  }

  /** A page shows the slice of the feed it names, each photo with the requester's like status. */
  lemma PageIsSlice(feed: seq<PhotoDoc>, userId: UserId, page: int, limit: int)
    requires page >= 1 && limit >= 1
    ensures var r := Paginate(feed, userId, Some(page), Some(limit));
      var lo := (page - 1) * limit;
      var hi := if lo + limit < |feed| then lo + limit else |feed|;
      r.FeedPage? && r.totalPhotos == |feed| && |r.items| == (if lo < hi then hi - lo else 0) &&
      forall k :: 0 <= k < |r.items| ==>
        0 <= lo + k < |feed| && r.items[k].photo == feed[lo + k] && (r.items[k].isLiked <==> userId in feed[lo + k].likes)
  {
    MulMonotone(1, page, limit);
    MulMonotone(0, page - 1, limit);
    PageWindow(feed, page, limit);
  }

  /** With positive page and limit, `hasMore` holds exactly when a later page exists. */
  lemma HasMoreIffNotLastPage(feed: seq<PhotoDoc>, userId: UserId, page: int, limit: int)
    requires page >= 1 && limit >= 1
    ensures var r := Paginate(feed, userId, Some(page), Some(limit));
      r.FeedPage? && (r.hasMore <==> page < r.totalPages)
  {
    var total := |feed|;
    var t := CeilDiv(total, limit);
    assert page * limit == (page - 1) * limit + limit;
    if page < t {
      assert page <= t - 1;
      MulMonotone(page, t - 1, limit);
    } else {
      MulMonotone(t, page, limit);
    }
  }

  lemma MulMonotone(a: int, b: int, c: int)
    requires a <= b && c >= 0
    ensures a * c <= b * c
  {
    assert b * c - a * c == (b - a) * c;
  }

  // ---------------------------------------------------------------------
  // The photo collection

  /** What the photo endpoints announce to the realtime layer. */
  datatype PhotoNotice =
    | NewPhotoUploaded(photoId: string, friendIds: seq<UserId>)
    | PhotoLiked(photoId: string, likesCount: int, ownerId: UserId, likerId: UserId)
    | PhotoUnliked(photoId: string, likesCount: int, ownerId: UserId, unlikerId: UserId)
    | PhotoDeleted(photoId: string, friendIds: seq<UserId>)

  /** Index of the photo with this id (`findById`). */
  function FindPhoto(photos: seq<Photo>, id: string): (r: Option<nat>)
    ensures r.Some? ==> r.value < |photos| && photos[r.value].id == id
    ensures r.None? ==> forall k :: 0 <= k < |photos| ==> photos[k].id != id
  {
    FirstIndex(photos, (p: Photo) => p.id == id)
  }

  class PhotoStore {
    var photos: seq<Photo>
    var users: seq<User>
    var notices: seq<PhotoNotice>

    constructor (users: seq<User>)
      ensures this.users == users && photos == [] && notices == []
    {
      this.users := users;
      photos := [];
      notices := [];
    }

    /** The collection as plain values. */
    function Docs(): (r: seq<PhotoDoc>)
      reads this, photos
      ensures |r| == |photos|
      ensures forall k :: 0 <= k < |photos| ==> r[k] == photos[k].Doc()
    {
      DocsOf(photos)
    }

    static function DocsOf(ps: seq<Photo>): (r: seq<PhotoDoc>)
      reads ps
      ensures |r| == |ps|
      ensures forall k :: 0 <= k < |ps| ==> r[k] == ps[k].Doc()
    {
      if ps == [] then [] else [ps[0].Doc()] + DocsOf(ps[1..])
    }

    /** `getPhotoFeed`: a page showing only stored photos of the requester or of friends. */
    function GetPhotoFeed(userId: UserId, pageParam: Option<int>, limitParam: Option<int>): (r: FeedReply)
      reads this, photos
      ensures r.FeedPage? ==> forall k :: 0 <= k < |r.items| ==>
        r.items[k].photo in Docs() && (r.items[k].photo.owner == userId || FriendOf(users, userId, r.items[k].photo.owner))
    {
      PhotoFeed(Docs(), users, userId, pageParam, limitParam)
    }

    /** `getPhotoById`: the photo with the requester's like status, none when there is no such photo. */
    function GetPhotoById(photoId: string, userId: UserId): (r: Option<FeedItem>)
      reads this, photos
      ensures r.None? <==> FindPhoto(photos, photoId).None?
      ensures r.Some? ==> r.value.photo.id == photoId && (r.value.isLiked <==> photos[FindPhoto(photos, photoId).value].IsLikedBy(userId))
    {
      match FindPhoto(photos, photoId)
      case None => None
      case Some(i) => Some(FeedItem(photos[i].Doc(), userId in photos[i].likes))
    }

    /**
     * `uploadPhoto`: without a file, a 400; otherwise a new photo with the
     * trimmed, capped caption, announced with the owner's friends' ids.
     */
    method UploadPhoto(userId: UserId, hasFile: bool, caption: string, imageUrl: string, photoId: string, now: int)
      returns (reply: Reply, created: Option<Photo>)
      modifies this`photos, this`notices
      ensures !hasFile ==> reply == Reply(400, NoPhotoFile) && created.None? && photos == old(photos) && notices == old(notices)
      ensures hasFile ==>
        reply == Reply(201, "") && created.Some? && fresh(created.value) &&
        photos == old(photos) + [created.value] &&
        created.value.Doc() == PhotoDoc(photoId, userId, imageUrl, CaptionOf(caption), now, [], 0) &&
        notices == old(notices) + [NewPhotoUploaded(photoId, FriendIds(users, userId))]
    {
      if !hasFile {
        return Reply(400, NoPhotoFile), None;
      }
      var p := new Photo(photoId, userId, imageUrl, CaptionOf(caption), now);
      photos := photos + [p];
      notices := notices + [NewPhotoUploaded(photoId, FriendIds(users, userId))];
      return Reply(201, ""), Some(p);
    }

    /** `likePhoto`: 404 for an unknown photo; otherwise `addLike` on it and a notice with the new count. */
    method LikePhoto(userId: UserId, photoId: string) returns (reply: Reply, likesCount: int)
      modifies photos, this`notices
      ensures FindPhoto(photos, photoId).None? ==>
        reply == Reply(404, PhotoNotFound) && notices == old(notices) && forall p :: p in photos ==> unchanged(p)
      ensures FindPhoto(photos, photoId).Some? ==>
        var p := photos[FindPhoto(photos, photoId).value];
        reply == Reply(200, "") && p.likes == AddIfAbsent(old(p.likes), userId) &&
        (old(p.Valid()) ==> p.Valid()) && likesCount == p.likesCount &&
        notices == old(notices) + [PhotoLiked(photoId, p.likesCount, p.owner, userId)] &&
        forall q :: q in photos && q != p ==> unchanged(q)
    {
      var i := FindPhoto(photos, photoId);
      if i.None? {
        return Reply(404, PhotoNotFound), 0;
      }
      var p := photos[i.value];
      p.AddLike(userId);
      notices := notices + [PhotoLiked(photoId, p.likesCount, p.owner, userId)];
      return Reply(200, ""), p.likesCount;
    }

    /** `unlikePhoto`: 404 for an unknown photo; otherwise `removeLike` on it and a notice with the new count. */
    method UnlikePhoto(userId: UserId, photoId: string) returns (reply: Reply, likesCount: int)
      modifies photos, this`notices
      ensures FindPhoto(photos, photoId).None? ==>
        reply == Reply(404, PhotoNotFound) && notices == old(notices) && forall p :: p in photos ==> unchanged(p)
      ensures FindPhoto(photos, photoId).Some? ==>
        var p := photos[FindPhoto(photos, photoId).value];
        reply == Reply(200, "") && p.likes == RemoveAll(old(p.likes), userId) &&
        likesCount == p.likesCount == |p.likes| &&
        notices == old(notices) + [PhotoUnliked(photoId, p.likesCount, p.owner, userId)] &&
        forall q :: q in photos && q != p ==> unchanged(q)
    {
      var i := FindPhoto(photos, photoId);
      if i.None? {
        return Reply(404, PhotoNotFound), 0;
      }
      var p := photos[i.value];
      p.RemoveLike(userId);
      notices := notices + [PhotoUnliked(photoId, p.likesCount, p.owner, userId)];
      return Reply(200, ""), p.likesCount;
    }

    /** `deletePhoto`: 404 for an unknown photo, 403 for someone else's; otherwise it leaves the collection. */
    method DeletePhoto(userId: UserId, photoId: string) returns (reply: Reply)
      modifies this`photos, this`notices
      ensures var i := FindPhoto(old(photos), photoId);
        if i.None? then
          reply == Reply(404, PhotoNotFound) && photos == old(photos) && notices == old(notices)
        else if old(photos)[i.value].owner != userId then
          reply == Reply(403, NotAuthorized) && photos == old(photos) && notices == old(notices)
        else
          reply == Reply(200, "") && photos == old(photos)[..i.value] + old(photos)[i.value + 1..] &&
          notices == old(notices) + [PhotoDeleted(photoId, FriendIds(users, userId))]
    {
      var i := FindPhoto(photos, photoId);
      if i.None? {
        return Reply(404, PhotoNotFound);
      }
      if photos[i.value].owner != userId {
        return Reply(403, NotAuthorized);
      }
      photos := photos[..i.value] + photos[i.value + 1..];
      notices := notices + [PhotoDeleted(photoId, FriendIds(users, userId))];
      return Reply(200, "");
    }
  }
}
