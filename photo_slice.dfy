/**
 * The client's photo feed store: the photos shown (newest first), the page
 * reached, whether more pages exist, and the loading and error flags. The
 * server's answers are parameters; a request that throws is `Thrown`.
 */
module PhotoSlice {
  import opened Common

  const FailedToLike := "Failed to like photo"
  const FailedToUnlike := "Failed to unlike photo"
  const FailedToUpload := "Failed to upload photo"
  const FailedToDelete := "Failed to delete photo"
  const FailedToLoad := "Failed to load photos"

  /** A `createdAt` value that `new Date(...)` either understands (milliseconds) or not. */
  datatype DateValue = ValidDate(ms: int) | InvalidDate

  /** `toTimestamp`: a missing or unparsable date counts as time 0. */
  function ToTimestamp(v: Option<DateValue>): (t: int)
    ensures v.None? || v == Some(InvalidDate) ==> t == 0
    ensures v.Some? && v.value.ValidDate? ==> t == v.value.ms
  {
    match v
    case None => 0
    case Some(InvalidDate) => 0
    case Some(ValidDate(ms)) => ms
  }

  /** A photo as the client keeps it; `id == ""` is a photo without `_id`. */
  datatype FeedPhoto = FeedPhoto(id: string, owner: string, createdAt: Option<DateValue>, caption: string,
                                 likesCount: Option<int>, isLiked: Option<bool>)

  function Stamp(p: FeedPhoto): int {
    ToTimestamp(p.createdAt)
  }

  predicate NewestFirst(s: seq<FeedPhoto>) {
    forall i, j :: 0 <= i < j < |s| ==> Stamp(s[j]) <= Stamp(s[i])
  }

  predicate DistinctIds(s: seq<FeedPhoto>) {
    forall i, j :: 0 <= i < j < |s| ==> s[i].id != s[j].id
  }

  // ---------------------------------------------------------------------
  // mergeAndSortPhotos

  /** All lists, one after the other. */
  function Flatten(lists: seq<seq<FeedPhoto>>): seq<FeedPhoto> {
    if lists == [] then [] else Flatten(lists[..|lists| - 1]) + lists[|lists| - 1]
  }

  /** A JavaScript `Map` from id to photo: its keys in insertion order and its entries. */
  datatype PhotoMap = PhotoMap(keys: seq<string>, entries: map<string, FeedPhoto>)

  /** `photoMap.set(photo._id, photo)` for a photo with an id; a new key goes last, a known key keeps its place. */
  function Put(pm: PhotoMap, p: FeedPhoto): PhotoMap {
    if p.id == "" then pm
    else PhotoMap(if p.id in pm.entries then pm.keys else pm.keys + [p.id], pm.entries[p.id := p])
  }

  /** The map after visiting `ps` in order. */
  function Fill(ps: seq<FeedPhoto>): PhotoMap {
    if ps == [] then PhotoMap([], map[]) else Put(Fill(ps[..|ps| - 1]), ps[|ps| - 1])
  }

  /** The last photo of `ps` with this id. */
  function LastWithId(ps: seq<FeedPhoto>, id: string): (r: Option<FeedPhoto>)
    ensures r.Some? ==> r.value in ps && r.value.id == id
  {
    if ps == [] then None
    else if ps[|ps| - 1].id == id then Some(ps[|ps| - 1])
    else LastWithId(ps[..|ps| - 1], id)
  }

  lemma {:induction false} LastWithIdOfMember(ps: seq<FeedPhoto>, p: FeedPhoto)
    requires p in ps
    ensures LastWithId(ps, p.id).Some?
  {
    if ps[|ps| - 1] != p {
      assert p in ps[..|ps| - 1] by {
        var k :| 0 <= k < |ps| && ps[k] == p;
        assert ps[..|ps| - 1][k] == p;
      }
      LastWithIdOfMember(ps[..|ps| - 1], p);
    }
  }

  /** The map's shape: each key once, exactly the keys that have entries, each entry filed under its own id. */
  ghost predicate WellFormed(pm: PhotoMap) {
    NoDups(pm.keys) &&
    (forall k :: k in pm.entries <==> k in pm.keys) &&
    (forall k :: k in pm.entries ==> pm.entries[k].id == k)
  }

  /** After the visit, the map holds exactly the ids that occur, and under each the photo that came last. */
  lemma {:induction false} FillIsLastWins(ps: seq<FeedPhoto>)
    ensures WellFormed(Fill(ps))
    ensures "" !in Fill(ps).entries
    ensures forall k :: k != "" ==> (k in Fill(ps).entries <==> LastWithId(ps, k).Some?)
    ensures forall k :: k in Fill(ps).entries ==> LastWithId(ps, k) == Some(Fill(ps).entries[k])
  {
    if ps != [] {
      var init := ps[..|ps| - 1];
      var p := ps[|ps| - 1];
      FillIsLastWins(init);
      var before := Fill(init);
      if p.id != "" && p.id !in before.entries {
        AppendNoDups(before.keys, p.id);
      }
    }
  }

  /** The map's values in key order (`Array.from(photoMap.values())`). */
  function Values(keys: seq<string>, entries: map<string, FeedPhoto>): (r: seq<FeedPhoto>)
    requires forall k :: k in keys ==> k in entries
    ensures |r| == |keys|
    ensures forall i :: 0 <= i < |keys| ==> r[i] == entries[keys[i]]
  {
    if keys == [] then [] else [entries[keys[0]]] + Values(keys[1..], entries)
  }

  /** Stable insertion: `x` goes after every photo at least as new. */
  function Insert(s: seq<FeedPhoto>, x: FeedPhoto): (r: seq<FeedPhoto>)
    ensures multiset(r) == multiset(s) + multiset{x}
  {
    if s == [] then [x]
    else if Stamp(s[0]) < Stamp(x) then [x] + s
    else
      assert s == [s[0]] + s[1..];
      [s[0]] + Insert(s[1..], x)
  }

  /** The `sort` by `toTimestamp(b.createdAt) - toTimestamp(a.createdAt)`, stable. */
  function SortNewestFirst(s: seq<FeedPhoto>): (r: seq<FeedPhoto>)
    ensures multiset(r) == multiset(s)
  {
    if s == [] then []
    else
      assert s == s[..|s| - 1] + [s[|s| - 1]];
      Insert(SortNewestFirst(s[..|s| - 1]), s[|s| - 1])
  }

  lemma {:induction false} InsertKeepsOrder(s: seq<FeedPhoto>, x: FeedPhoto)
    requires NewestFirst(s)
    ensures NewestFirst(Insert(s, x))
  {
    if s != [] && Stamp(s[0]) >= Stamp(x) {
      InsertKeepsOrder(s[1..], x);
      var t := Insert(s[1..], x);
      forall k | 0 <= k < |t| ensures Stamp(t[k]) <= Stamp(s[0]) {
        assert t[k] in multiset(t);
        if t[k] != x {
          assert t[k] in multiset(s[1..]);
          var m :| 0 <= m < |s[1..]| && s[1..][m] == t[k];
          assert s[m + 1] == t[k];
        }
      }
    }
  }

  lemma {:induction false} SortIsNewestFirst(s: seq<FeedPhoto>)
    ensures NewestFirst(SortNewestFirst(s))
  {
    if s != [] {
      SortIsNewestFirst(s[..|s| - 1]);
      InsertKeepsOrder(SortNewestFirst(s[..|s| - 1]), s[|s| - 1]);
    }
  }

  lemma {:induction false} DistinctIdsCountOne(a: seq<FeedPhoto>, x: FeedPhoto)
    requires DistinctIds(a)
    ensures multiset(a)[x] <= 1
  {
    if a != [] {
      assert a == [a[0]] + a[1..];
      DistinctIdsCountOne(a[1..], x);
      if a[0] == x {
        forall m | 0 <= m < |a[1..]| ensures a[1..][m] != x {
          assert a[1..][m] == a[m + 1];
        }
        assert x !in a[1..];
      }
    }
  }

  /** Reordering a list of photos with distinct ids keeps them distinct. */
  lemma PermutationKeepsIdsDistinct(a: seq<FeedPhoto>, b: seq<FeedPhoto>)
    requires multiset(a) == multiset(b) && DistinctIds(a)
    ensures DistinctIds(b)
  {
    forall i, j | 0 <= i < j < |b| ensures b[i].id != b[j].id {
      if b[i] == b[j] {
        assert b == b[..j] + [b[j]] + b[j + 1..];
        assert b[i] in b[..j];
        assert multiset(b)[b[i]] >= 2;
        DistinctIdsCountOne(a, b[i]);
      } else {
        assert b[i] in multiset(a) && b[j] in multiset(a);
        var p :| 0 <= p < |a| && a[p] == b[i];
        var q :| 0 <= q < |a| && a[q] == b[j];
        assert p != q;
      }
    }
  }

  /** `mergeAndSortPhotos(...lists)` */
  function MergeAndSort(lists: seq<seq<FeedPhoto>>): seq<FeedPhoto> {
    var pm := Fill(Flatten(lists));
    FillIsLastWins(Flatten(lists));
    SortNewestFirst(Values(pm.keys, pm.entries))
  }

  /** The values of the filled map, before sorting. */
  function Unsorted(lists: seq<seq<FeedPhoto>>): (vs: seq<FeedPhoto>)
    ensures MergeAndSort(lists) == SortNewestFirst(vs)
  {
    var pm := Fill(Flatten(lists));
    FillIsLastWins(Flatten(lists));
    Values(pm.keys, pm.entries)
  }

  /** The merged feed is ordered newest first. */
  lemma MergedIsNewestFirst(lists: seq<seq<FeedPhoto>>)
    ensures NewestFirst(MergeAndSort(lists))
  {
    SortIsNewestFirst(Unsorted(lists));
  }

  /** A well-formed map's values carry distinct ids, since each is filed under its own id and keys do not repeat. */
  lemma ValuesDistinct(pm: PhotoMap)
    requires WellFormed(pm)
    ensures DistinctIds(Values(pm.keys, pm.entries))
  {
    var vs := Values(pm.keys, pm.entries);
    forall i, j | 0 <= i < j < |vs| ensures vs[i].id != vs[j].id {
      assert pm.keys[i] != pm.keys[j];
    }
  }

  /** The merged feed holds each id once. */
  lemma MergedIdsDistinct(lists: seq<seq<FeedPhoto>>)
    ensures DistinctIds(MergeAndSort(lists))
  {
    var pm := Fill(Flatten(lists));
    FillIsLastWins(Flatten(lists));
    ValuesDistinct(pm);
    PermutationKeepsIdsDistinct(Unsorted(lists), MergeAndSort(lists));
  }

  /** Every photo of the merged feed has an id and is the last photo with that id in the inputs: later lists win. */
  lemma MergedIsLastWins(lists: seq<seq<FeedPhoto>>)
    ensures var r := MergeAndSort(lists);
      forall k :: 0 <= k < |r| ==> r[k].id != "" && LastWithId(Flatten(lists), r[k].id) == Some(r[k])
  {
    var flat := Flatten(lists);
    var pm := Fill(flat);
    FillIsLastWins(flat);
    var vs := Unsorted(lists);
    var r := MergeAndSort(lists);
    forall k | 0 <= k < |r| ensures r[k].id != "" && LastWithId(flat, r[k].id) == Some(r[k]) {
      assert r[k] in multiset(vs);
      var i :| 0 <= i < |vs| && vs[i] == r[k];
      assert pm.keys[i] in pm.entries;
    }
  }

  /** Every id of the inputs appears in the merged feed. */
  lemma MergedCoversInputs(lists: seq<seq<FeedPhoto>>)
    ensures var r := MergeAndSort(lists);
      forall p :: p in Flatten(lists) && p.id != "" ==> exists k :: 0 <= k < |r| && r[k].id == p.id
  {
    var flat := Flatten(lists);
    var pm := Fill(flat);
    FillIsLastWins(flat);
    var vs := Unsorted(lists);
    var r := MergeAndSort(lists);
    forall p | p in flat && p.id != "" ensures exists k :: 0 <= k < |r| && r[k].id == p.id {
      LastWithIdOfMember(flat, p);
      var i :| 0 <= i < |pm.keys| && pm.keys[i] == p.id;
      assert vs[i] in multiset(r);
      var k :| 0 <= k < |r| && r[k] == vs[i];
      assert r[k].id == p.id;
    }
  }

  lemma FillSnoc(ps: seq<FeedPhoto>, p: FeedPhoto)
    ensures Fill(ps + [p]) == Put(Fill(ps), p)
  {
    assert (ps + [p])[..|ps|] == ps;
  }

  lemma FlattenSnoc(lists: seq<seq<FeedPhoto>>, i: nat)
    requires i < |lists|
    ensures Flatten(lists[..i + 1]) == Flatten(lists[..i]) + lists[i]
  {
    assert lists[..i + 1][..i] == lists[..i];
  }

  lemma PrefixStep(done: seq<FeedPhoto>, list: seq<FeedPhoto>, j: nat)
    requires j < |list|
    ensures done + list[..j + 1] == (done + list[..j]) + [list[j]]
  {
    assert list[..j + 1] == list[..j] + [list[j]];
  }

  /** `mergeAndSortPhotos`: the map is filled list by list, photo by photo, then sorted. */
  method MergeAndSortPhotos(lists: seq<seq<FeedPhoto>>) returns (r: seq<FeedPhoto>)
    ensures r == MergeAndSort(lists)
  {
    var keys: seq<string> := [];
    var entries: map<string, FeedPhoto> := map[];
    var i := 0;
    while i < |lists|
      invariant 0 <= i <= |lists|
      invariant PhotoMap(keys, entries) == Fill(Flatten(lists[..i]))
    {
      var list := lists[i];
      ghost var done := Flatten(lists[..i]);
      var j := 0;
      assert done + list[..j] == done;
      while j < |list|
        invariant 0 <= j <= |list|
        invariant PhotoMap(keys, entries) == Fill(done + list[..j])
      {
        var photo := list[j];
        FillSnoc(done + list[..j], photo);
        PrefixStep(done, list, j);
        if photo.id != "" {
          if photo.id !in entries {
            keys := keys + [photo.id];
          }
          entries := entries[photo.id := photo];
        }
        j := j + 1;
      }
      assert list[..j] == list;
      FlattenSnoc(lists, i);
      i := i + 1;
    }
    assert lists[..i] == lists;
    r := SortNewestFirst(Unsorted(lists));
  }

  // ---------------------------------------------------------------------
  // deriveHasMore

  /** The server's `pagination` object; a field of another type is `None`. */
  datatype Pagination = Pagination(totalPages: Option<int>, hasMore: Option<bool>)

  /** `deriveHasMore`: no pagination means no more; a numeric page count decides; otherwise the server's flag. */
  function DeriveHasMore(currentPage: int, pagination: Option<Pagination>): (r: bool)
    ensures pagination.None? ==> !r
    ensures pagination.Some? && pagination.value.totalPages.Some? ==> (r <==> currentPage < pagination.value.totalPages.value)
    ensures pagination.Some? && pagination.value.totalPages.None? ==>
      (r <==> pagination.value.hasMore == Some(true))
  {
    match pagination
    case None => false
    case Some(p) =>
      if p.totalPages.Some? then currentPage < p.totalPages.value
      else if p.hasMore.Some? then p.hasMore.value
      else false
  }

  // ---------------------------------------------------------------------
  // Single-photo updates

  predicate HasPhoto(ps: seq<FeedPhoto>, id: string) {
    exists k :: 0 <= k < |ps| && ps[k].id == id
  }

  /** `addPhoto`: a photo is put first only when no photo has its id. */
  function WithPhoto(ps: seq<FeedPhoto>, p: FeedPhoto): (r: seq<FeedPhoto>)
    ensures HasPhoto(ps, p.id) ==> r == ps
    ensures !HasPhoto(ps, p.id) ==> r == [p] + ps
  {
    if HasPhoto(ps, p.id) then ps else [p] + ps
  }

  /** The `{ likesCount, isLiked }` every caller of `updatePhoto` passes. */
  datatype LikeUpdate = LikeUpdate(likesCount: Option<int>, isLiked: Option<bool>)

  /** `updatePhoto`: the photos with that id take the new like state; all others are unchanged. */
  function UpdatePhotos(ps: seq<FeedPhoto>, photoId: string, u: LikeUpdate): (r: seq<FeedPhoto>)
    ensures |r| == |ps|
    ensures forall k :: 0 <= k < |ps| && ps[k].id == photoId ==> r[k] == ps[k].(likesCount := u.likesCount, isLiked := u.isLiked)
    ensures forall k :: 0 <= k < |ps| && ps[k].id != photoId ==> r[k] == ps[k]
  {
    if ps == [] then []
    else [if ps[0].id == photoId then ps[0].(likesCount := u.likesCount, isLiked := u.isLiked) else ps[0]]
         + UpdatePhotos(ps[1..], photoId, u)
  }

  /** An update changes no id and no order, so the feed keeps its shape. */
  lemma UpdateKeepsFeedShape(ps: seq<FeedPhoto>, photoId: string, u: LikeUpdate)
    ensures NewestFirst(ps) ==> NewestFirst(UpdatePhotos(ps, photoId, u))
    ensures DistinctIds(ps) ==> DistinctIds(UpdatePhotos(ps, photoId, u))
  {
    var r := UpdatePhotos(ps, photoId, u);
    assert forall k :: 0 <= k < |ps| ==> r[k].id == ps[k].id && Stamp(r[k]) == Stamp(ps[k]);
  }

  /** `removePhoto`: every photo with that id goes; the rest keep their order. */
  function RemovePhotos(ps: seq<FeedPhoto>, photoId: string): (r: seq<FeedPhoto>)
    ensures !HasPhoto(r, photoId)
    ensures forall p :: p in r <==> p in ps && p.id != photoId
    ensures IsSubsequence(r, ps)
  {
    if ps == [] then []
    else if ps[0].id == photoId then
      SubsequenceExtend(RemovePhotos(ps[1..], photoId), ps);
      RemovePhotos(ps[1..], photoId)
    else
      assert ([ps[0]] + RemovePhotos(ps[1..], photoId))[1..] == RemovePhotos(ps[1..], photoId);
      [ps[0]] + RemovePhotos(ps[1..], photoId)
  }

  /** Removing a photo that was just added restores the feed. */
  lemma {:induction false} RemoveUndoesAdd(ps: seq<FeedPhoto>, p: FeedPhoto)
    requires !HasPhoto(ps, p.id)
    ensures RemovePhotos(WithPhoto(ps, p), p.id) == ps
  {
    RemoveAbsentPhoto(ps, p.id);
    assert ([p] + ps)[1..] == ps;
  }

  lemma {:induction false} RemoveAbsentPhoto(ps: seq<FeedPhoto>, photoId: string)
    requires !HasPhoto(ps, photoId)
    ensures RemovePhotos(ps, photoId) == ps
  {
    if ps != [] {
      forall k | 0 <= k < |ps[1..]| ensures ps[1..][k].id != photoId {
        assert ps[1..][k] == ps[k + 1];
      }
      RemoveAbsentPhoto(ps[1..], photoId);
      assert ps[0].id != photoId;
    }
  }

  // ---------------------------------------------------------------------
  // The store

  /** What a request gave back: an answer with a status and a body, or a thrown error with the server's message if any. */
  datatype Response<T> = Answered(status: int, body: T) | Thrown(message: Option<string>)

  function ErrorText(message: Option<string>, fallback: string): (r: string)
    ensures message.Some? ==> r == message.value
    ensures message.None? ==> r == fallback
  {
    if message.Some? then message.value else fallback
  }

  /** The body of a feed page. */
  datatype FeedBody = FeedBody(photos: seq<FeedPhoto>, pagination: Option<Pagination>)

  class PhotoFeedStore {
    var photos: seq<FeedPhoto>
    var loading: bool
    var error: Option<string>
    var hasMore: bool
    var currentPage: int
    var shouldRefetch: bool
    var isInitialized: bool

    constructor ()
      ensures photos == [] && !loading && error.None? && hasMore && currentPage == 1 && !shouldRefetch && !isInitialized
    {
      photos := [];
      loading := false;
      error := None;
      hasMore := true;
      currentPage := 1;
      shouldRefetch := false;
      isInitialized := false;
    }

    method MarkFeedDirty()
      modifies this`shouldRefetch
      ensures shouldRefetch
    {
      shouldRefetch := true;
    }

    method AddPhoto(p: FeedPhoto)
      modifies this`photos
      ensures photos == WithPhoto(old(photos), p)
    {
      photos := WithPhoto(photos, p);
    }

    method UpdatePhoto(photoId: string, u: LikeUpdate)
      modifies this`photos
      ensures photos == UpdatePhotos(old(photos), photoId, u)
    {
      photos := UpdatePhotos(photos, photoId, u);
    }

    method RemovePhoto(photoId: string)
      modifies this`photos
      ensures photos == RemovePhotos(old(photos), photoId)
    {
      photos := RemovePhotos(photos, photoId);
    }

    /**
     * `likePhoto` (`liked`) and `unlikePhoto` (`!liked`): a 200 stores the
     * server's count and the new like state and yields true; a thrown
     * request records the error and yields false; any other answer yields
     * nothing (`None`) and changes nothing.
     */
    method SetLiked(photoId: string, liked: bool, resp: Response<Option<int>>) returns (ok: Option<bool>)
      modifies this`photos, this`error
      ensures resp.Answered? && resp.status == 200 ==>
        ok == Some(true) && photos == UpdatePhotos(old(photos), photoId, LikeUpdate(resp.body, Some(liked))) && error == old(error)
      ensures resp.Answered? && resp.status != 200 ==> ok.None? && photos == old(photos) && error == old(error)
      ensures resp.Thrown? ==>
        ok == Some(false) && photos == old(photos) &&
        error == Some(ErrorText(resp.message, if liked then FailedToLike else FailedToUnlike))
    {
      match resp
      case Answered(status, likesCount) =>
        if status == 200 {
          UpdatePhoto(photoId, LikeUpdate(likesCount, Some(liked)));
          return Some(true);
        }
        return None;
      case Thrown(message) =>
        error := Some(ErrorText(message, if liked then FailedToLike else FailedToUnlike));
        return Some(false);
    }

    /**
     * `uploadPhoto`: loading is raised and the error cleared; a 201 adds the
     * new photo and lowers loading; a thrown request lowers loading and
     * records the error; any other answer leaves loading raised.
     */
    method UploadPhoto(resp: Response<FeedPhoto>) returns (created: Option<FeedPhoto>)
      modifies this`photos, this`loading, this`error
      ensures resp.Answered? && resp.status == 201 ==>
        created == Some(resp.body) && photos == WithPhoto(old(photos), resp.body) && !loading && error.None?
      ensures resp.Answered? && resp.status != 201 ==> created.None? && photos == old(photos) && loading && error.None?
      ensures resp.Thrown? ==>
        created.None? && photos == old(photos) && !loading && error == Some(ErrorText(resp.message, FailedToUpload))
    {
      loading := true;
      error := None;
      match resp
      case Answered(status, photo) =>
        if status == 201 {
          AddPhoto(photo);
          loading := false;
          return Some(photo);
        }
        return None;
      case Thrown(message) =>
        loading := false;
        error := Some(ErrorText(message, FailedToUpload));
        return None;
    }

    /** `deletePhoto`: a 200 removes the photo and yields true; a thrown request records the error and yields false. */
    method DeletePhoto(photoId: string, resp: Response<()>) returns (ok: Option<bool>)
      modifies this`photos, this`error
      ensures resp.Answered? && resp.status == 200 ==> ok == Some(true) && photos == RemovePhotos(old(photos), photoId) && error == old(error)
      ensures resp.Answered? && resp.status != 200 ==> ok.None? && photos == old(photos) && error == old(error)
      ensures resp.Thrown? ==> ok == Some(false) && photos == old(photos) && error == Some(ErrorText(resp.message, FailedToDelete))
    {
      match resp
      case Answered(status, _) =>
        if status == 200 {
          RemovePhoto(photoId);
          return Some(true);
        }
        return None;
      case Thrown(message) =>
        error := Some(ErrorText(message, FailedToDelete));
        return Some(false);
    }

    /**
     * `loadPhotoFeed(page)`. Page 1 merges into a feed already shown and
     * keeps its page, or replaces an empty or uninitialised feed and sets
     * the page to 1, or to 0 when the page came back empty; a later page
     * merges and becomes the current page.
     */
    method LoadPhotoFeed(page: int, resp: Response<FeedBody>) returns (loaded: seq<FeedPhoto>)
      modifies this
      ensures !loading
      ensures resp.Thrown? ==>
        loaded == [] && error == Some(ErrorText(resp.message, FailedToLoad)) &&
        photos == old(photos) && currentPage == old(currentPage) && hasMore == old(hasMore) &&
        isInitialized == old(isInitialized) && shouldRefetch == old(shouldRefetch)
      ensures resp.Answered? && resp.status != 200 ==>
        loaded == [] && error.None? &&
        photos == old(photos) && currentPage == old(currentPage) && hasMore == old(hasMore) &&
        isInitialized == old(isInitialized) && shouldRefetch == old(shouldRefetch)
      ensures resp.Answered? && resp.status == 200 ==>
        var body := resp.body;
        var existing := old(isInitialized) && |old(photos)| > 0;
        loaded == body.photos && error.None? && isInitialized &&
        hasMore == DeriveHasMore(page, body.pagination) &&
        (if page == 1 then
           photos == (if existing then MergeAndSort([old(photos), body.photos]) else MergeAndSort([body.photos])) &&
           currentPage == (if existing then old(currentPage) else if |body.photos| > 0 then 1 else 0) &&
           !shouldRefetch
         else
           photos == MergeAndSort([old(photos), body.photos]) && currentPage == page &&
           shouldRefetch == old(shouldRefetch))
    {
      loading := true;
      error := None;
      match resp
      case Thrown(message) =>
        loading := false;
        error := Some(ErrorText(message, FailedToLoad));
        return [];
      case Answered(status, body) =>
        if status != 200 {
          loading := false;
          return [];
        }
        ApplyFeedPage(page, body);
        return body.photos;
    }

    /** A page that came back with status 200: merged or installed, the page counters and flags set. */
    method ApplyFeedPage(page: int, body: FeedBody)
      modifies this`photos, this`currentPage, this`hasMore, this`loading, this`isInitialized, this`shouldRefetch
      ensures !loading && isInitialized && hasMore == DeriveHasMore(page, body.pagination)
      ensures var existing := old(isInitialized) && |old(photos)| > 0;
        if page == 1 then
          photos == (if existing then MergeAndSort([old(photos), body.photos]) else MergeAndSort([body.photos])) &&
          currentPage == (if existing then old(currentPage) else if |body.photos| > 0 then 1 else 0) &&
          !shouldRefetch
        else
          photos == MergeAndSort([old(photos), body.photos]) && currentPage == page &&
          shouldRefetch == old(shouldRefetch)
    {
      var nextHasMore := DeriveHasMore(page, body.pagination);
      if page == 1 {
        var hasExistingFeed := isInitialized && |photos| > 0;
        var nextPhotos;
        if hasExistingFeed {
          nextPhotos := MergeAndSortPhotos([photos, body.photos]);
        } else {
          nextPhotos := MergeAndSortPhotos([body.photos]);
        }
        var nextCurrentPage := if hasExistingFeed then currentPage else if |body.photos| > 0 then page else 0;
        photos := nextPhotos;
        currentPage := nextCurrentPage;
        hasMore := nextHasMore;
        loading := false;
        isInitialized := true;
        shouldRefetch := false;
      } else {
        var nextPhotos := MergeAndSortPhotos([photos, body.photos]);
        photos := nextPhotos;
        currentPage := page;
        hasMore := nextHasMore;
        loading := false;
        isInitialized := true;
      }
    }

    /**
     * `loadMorePhotos`: nothing happens when no page is left or a load is
     * running; otherwise page `currentPage + 1` loads as `loadPhotoFeed`
     * loads it. From page 0 that is page 1, which merges into a feed already
     * shown and keeps its page.
     */
    method LoadMorePhotos(resp: Response<FeedBody>)
      modifies this
      ensures !old(hasMore) || old(loading) ==>
        photos == old(photos) && currentPage == old(currentPage) && hasMore == old(hasMore) &&
        loading == old(loading) && error == old(error) &&
        isInitialized == old(isInitialized) && shouldRefetch == old(shouldRefetch)
      ensures old(hasMore) && !old(loading) ==> !loading
      ensures old(hasMore) && !old(loading) && resp.Thrown? ==>
        error == Some(ErrorText(resp.message, FailedToLoad)) &&
        photos == old(photos) && currentPage == old(currentPage) && hasMore == old(hasMore) &&
        isInitialized == old(isInitialized) && shouldRefetch == old(shouldRefetch)
      ensures old(hasMore) && !old(loading) && resp.Answered? && resp.status != 200 ==>
        error.None? &&
        photos == old(photos) && currentPage == old(currentPage) && hasMore == old(hasMore) &&
        isInitialized == old(isInitialized) && shouldRefetch == old(shouldRefetch)
      ensures old(hasMore) && !old(loading) && resp.Answered? && resp.status == 200 ==>
        var page := old(currentPage) + 1;
        var body := resp.body;
        var existing := old(isInitialized) && |old(photos)| > 0;
        error.None? && isInitialized && hasMore == DeriveHasMore(page, body.pagination) &&
        (if page == 1 then
           photos == (if existing then MergeAndSort([old(photos), body.photos]) else MergeAndSort([body.photos])) &&
           currentPage == (if existing then old(currentPage) else if |body.photos| > 0 then 1 else 0) &&
           !shouldRefetch
         else
           photos == MergeAndSort([old(photos), body.photos]) && currentPage == page &&
           shouldRefetch == old(shouldRefetch))
    {
      if !hasMore || loading {
        return;
      }
      var _ := LoadPhotoFeed(currentPage + 1, resp);
    }
  }
}
