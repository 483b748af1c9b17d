/**
 * Blocking rules for groups: whether two users may be in the same group, the
 * first conflicting pair among a member list, and the first conflict between
 * candidates and the existing members of a group.
 */
module GroupPermissions {
  import opened Common
  import opened Domain

  const YouBlockedThem := "You have blocked this user. You cannot invite them to a group."
  const TheyBlockedYou := "You have been blocked by this user. You cannot invite them to a group."
  const MembersConflictMessage := "These users have blocked each other and cannot be in the same group."
  const BetweenSetsConflictMessage := "This user has a blocking conflict with an existing group member."

  /** Each user id → the ids that user has blocked. */
  type BlockedMap = map<UserId, set<UserId>>

  /** The blocked map of a list of user documents; a later document with the same id replaces an earlier one. */
  function BlockedMapOf(users: seq<User>): (bm: BlockedMap)
    ensures forall u :: u in bm <==> exists k :: 0 <= k < |users| && users[k].id == u
  {
    if users == [] then map[]
    else
      var init := users[..|users| - 1];
      var last := users[|users| - 1];
      var bm := BlockedMapOf(init);
      assert forall k :: 0 <= k < |init| ==> init[k] == users[k];
      bm[last.id := set x | x in last.blockedUsers]
  }

  /** `buildBlockedMap`: fills the map one document at a time. */
  method BuildBlockedMap(users: seq<User>) returns (bm: BlockedMap)
    ensures bm == BlockedMapOf(users)
  {
    bm := map[];
    var i := 0;
    while i < |users|
      invariant 0 <= i <= |users|
      invariant bm == BlockedMapOf(users[..i])
    {
      assert users[..i + 1][..i] == users[..i];
      bm := bm[users[i].id := set x | x in users[i].blockedUsers];
      i := i + 1;
    }
    assert users[..|users|] == users;
  }

  /** The documents `User.find({ _id: { $in: ids } })` returns, in storage order. */
  function Selected(users: seq<User>, ids: seq<UserId>): (r: seq<User>)
    ensures forall u :: u in r <==> u in users && u.id in ids
    ensures |r| <= |users|
  {
    if users == [] then []
    else (if users[0].id in ids then [users[0]] else []) + Selected(users[1..], ids)
  }

  /**
   * The `blocked` field of `hasBlockingConflict`'s result. The object
   * literal `{ blocked: true, blocker, blocked: id }` names `blocked`
   * twice, so the second value wins: a found block leaves the blocked
   * user's id there, not `true`.
   */
  datatype BlockFlag = NotBlocked | BlockedId(id: UserId)

  datatype BlockCheck = BlockCheck(blocked: BlockFlag, blocker: Option<UserId>)

  /** JavaScript truthiness of the `blocked` field. */
  predicate Truthy(f: BlockFlag) {
    f.BlockedId? && f.id != ""
  }

  predicate HasBlocked(bm: BlockedMap, who: UserId, whom: UserId) {
    who in bm && whom in bm[who]
  }

  /** `hasBlockingConflict`: a block in either direction; the first id's block is reported in preference. */
  function HasBlockingConflict(bm: BlockedMap, first: UserId, second: UserId): (r: BlockCheck)
    ensures first == "" || second == "" ==> r == BlockCheck(NotBlocked, None)
    ensures Truthy(r.blocked) <==> first != "" && second != "" && (HasBlocked(bm, first, second) || HasBlocked(bm, second, first))
    ensures first != "" && second != "" && HasBlocked(bm, first, second) ==> r == BlockCheck(BlockedId(second), Some(first))
    ensures first != "" && second != "" && !HasBlocked(bm, first, second) && HasBlocked(bm, second, first) ==>
      r == BlockCheck(BlockedId(first), Some(second))
  {
    if first == "" || second == "" then BlockCheck(NotBlocked, None)
    else if HasBlocked(bm, first, second) then BlockCheck(BlockedId(second), Some(first))
    else if HasBlocked(bm, second, first) then BlockCheck(BlockedId(first), Some(second))
    else BlockCheck(NotBlocked, None)
  }

  /** A missing id never yields a block. */
  lemma MissingIdNeverBlocks(bm: BlockedMap, first: UserId, second: UserId)
    requires first == "" || second == ""
    ensures !Truthy(HasBlockingConflict(bm, first, second).blocked)
  {
  }

  /** Whether two users may not share a group. */
  predicate Blocks(bm: BlockedMap, a: UserId, b: UserId) {
    Truthy(HasBlockingConflict(bm, a, b).blocked)
  }

  /** Conflict detection is symmetric as to WHETHER there is a conflict, though not as to who is reported as blocker. */
  lemma BlocksSymmetric(bm: BlockedMap, a: UserId, b: UserId)
    ensures Blocks(bm, a, b) <==> Blocks(bm, b, a)
  {
  }

  /** The outcome of a conflict check. */
  datatype Verdict =
    | NoConflict
    | Conflict(pair: (UserId, UserId), blocker: UserId, blockedUser: UserId, message: string)

  /** The message for a conflict, from the requester's point of view. */
  function ConflictMessage(c: BlockCheck, requester: UserId, generic: string): (msg: string)
    ensures c.blocker == Some(requester) ==> msg == YouBlockedThem
    ensures c.blocker != Some(requester) && c.blocked == BlockedId(requester) ==> msg == TheyBlockedYou
    ensures c.blocker != Some(requester) && c.blocked != BlockedId(requester) ==> msg == generic
  {
    if c.blocker == Some(requester) then YouBlockedThem
    else if c.blocked == BlockedId(requester) then TheyBlockedYou
    else generic
  }

  /** The verdict for a blocked pair, reported as `pair`. */
  function VerdictFor(c: BlockCheck, pair: (UserId, UserId), requester: UserId, generic: string): Verdict
    requires Truthy(c.blocked) && c.blocker.Some?
  {
    Conflict(pair, c.blocker.value, c.blocked.id, ConflictMessage(c, requester, generic))
  }

  // ---------------------------------------------------------------------
  // Scanning for the first conflict

  /** The first column index `j >= from` whose id differs from `a` and conflicts with it. */
  function FirstInRow(bm: BlockedMap, a: UserId, cols: seq<UserId>, from: nat): (r: Option<nat>)
    decreases |cols| - from
    ensures r.Some? ==> from <= r.value < |cols| && cols[r.value] != a && Blocks(bm, a, cols[r.value])
    ensures r.Some? ==> forall j :: from <= j < r.value ==> cols[j] == a || !Blocks(bm, a, cols[j])
    ensures r.None? ==> forall j :: from <= j < |cols| ==> cols[j] == a || !Blocks(bm, a, cols[j])
  {
    if from >= |cols| then None
    else if cols[from] != a && Blocks(bm, a, cols[from]) then Some(from)
    else FirstInRow(bm, a, cols, from + 1)
  }

  /** The first pair `i < j` of `ids`, in the order of the nested loops, that conflicts. */
  function FirstPair(bm: BlockedMap, ids: seq<UserId>, from: nat): (r: Option<(nat, nat)>)
    decreases |ids| - from
    ensures r.Some? ==> from <= r.value.0 < r.value.1 < |ids|
    ensures r.Some? ==> ids[r.value.1] != ids[r.value.0] && Blocks(bm, ids[r.value.0], ids[r.value.1])
    ensures r.Some? ==> forall i, j :: from <= i < r.value.0 && i < j < |ids| ==> ids[j] == ids[i] || !Blocks(bm, ids[i], ids[j])
    ensures r.Some? ==> forall j :: r.value.0 < j < r.value.1 ==> ids[j] == ids[r.value.0] || !Blocks(bm, ids[r.value.0], ids[j])
    ensures r.None? ==> forall i, j :: from <= i < j < |ids| ==> ids[j] == ids[i] || !Blocks(bm, ids[i], ids[j])
  {
    if from >= |ids| then None
    else match FirstInRow(bm, ids[from], ids, from + 1)
      case Some(j) => Some((from, j))
      case None => FirstPair(bm, ids, from + 1)
  }

  /** The first (candidate, existing) pair, candidates outer, that conflicts; equal ids are skipped. */
  function FirstCross(bm: BlockedMap, candidates: seq<UserId>, existing: seq<UserId>, from: nat): (r: Option<(nat, nat)>)
    decreases |candidates| - from
    ensures r.Some? ==> from <= r.value.0 < |candidates| && r.value.1 < |existing|
    ensures r.Some? ==> existing[r.value.1] != candidates[r.value.0] && Blocks(bm, candidates[r.value.0], existing[r.value.1])
    ensures r.Some? ==> forall i, j :: from <= i < r.value.0 && 0 <= j < |existing| ==>
      existing[j] == candidates[i] || !Blocks(bm, candidates[i], existing[j])
    ensures r.None? ==> forall i, j :: from <= i < |candidates| && 0 <= j < |existing| ==>
      existing[j] == candidates[i] || !Blocks(bm, candidates[i], existing[j])
  {
    if from >= |candidates| then None
    else match FirstInRow(bm, candidates[from], existing, 0)
      case Some(j) => Some((from, j))
      case None => FirstCross(bm, candidates, existing, from + 1)
  }

  /** The verdict of `detectBlockingConflictForMembers` for `memberIds`, given the user documents. */
  function MembersVerdict(users: seq<User>, memberIds: seq<UserId>, requester: UserId): Verdict {
    if memberIds == [] then NoConflict
    else
      var ids := Dedupe(memberIds);
      var bm := BlockedMapOf(Selected(users, ids));
      match FirstPair(bm, ids, 0)
      case None => NoConflict
      case Some((i, j)) =>
        VerdictFor(HasBlockingConflict(bm, ids[i], ids[j]), (ids[i], ids[j]), requester, MembersConflictMessage)
  }

  /** The verdict of `detectBlockingConflictBetweenSets`. */
  function BetweenSetsVerdict(users: seq<User>, existingIds: seq<UserId>, candidateIds: seq<UserId>, requester: UserId): Verdict {
    if candidateIds == [] then NoConflict
    else
      var existing := Dedupe(existingIds);
      var candidates := Dedupe(candidateIds);
      var bm := BlockedMapOf(Selected(users, Dedupe(existing + candidates)));
      match FirstCross(bm, candidates, existing, 0)
      case None => NoConflict
      case Some((i, j)) =>
        VerdictFor(HasBlockingConflict(bm, candidates[i], existing[j]), (existing[j], candidates[i]), requester, BetweenSetsConflictMessage)
  }

  /** `detectBlockingConflictForMembers`: deduplicate, then check every pair `i < j` in order and stop at the first conflict. */
  method DetectBlockingConflictForMembers(users: seq<User>, memberIds: seq<UserId>, requester: UserId) returns (r: Verdict)
    ensures r == MembersVerdict(users, memberIds, requester)
  {
    if |memberIds| == 0 {
      return NoConflict;
    }
    var ids := Dedupe(memberIds);
    var bm := BuildBlockedMap(Selected(users, ids));
    var i := 0;
    while i < |ids|
      invariant 0 <= i <= |ids|
      invariant FirstPair(bm, ids, 0) == FirstPair(bm, ids, i)
    {
      var j := i + 1;
      while j < |ids|
        invariant i + 1 <= j <= |ids|
        invariant FirstInRow(bm, ids[i], ids, i + 1) == FirstInRow(bm, ids[i], ids, j)
      {
        var check := HasBlockingConflict(bm, ids[i], ids[j]);
        if Truthy(check.blocked) {
          assert ids[j] != ids[i];
          var message := ConflictMessage(check, requester, MembersConflictMessage);
          return Conflict((ids[i], ids[j]), check.blocker.value, check.blocked.id, message);
        }
        j := j + 1;
      }
      i := i + 1;
    }
    return NoConflict;
  }

  /** `detectBlockingConflictBetweenSets`: candidates outer, existing members inner, equal ids skipped; pair is reported as (existing, candidate). */
  method DetectBlockingConflictBetweenSets(users: seq<User>, existingIds: seq<UserId>, candidateIds: seq<UserId>, requester: UserId)
    returns (r: Verdict)
    ensures r == BetweenSetsVerdict(users, existingIds, candidateIds, requester)
  {
    if |candidateIds| == 0 {
      return NoConflict;
    }
    var existing := Dedupe(existingIds);
    var candidates := Dedupe(candidateIds);
    var bm := BuildBlockedMap(Selected(users, Dedupe(existing + candidates)));
    var i := 0;
    while i < |candidates|
      invariant 0 <= i <= |candidates|
      invariant FirstCross(bm, candidates, existing, 0) == FirstCross(bm, candidates, existing, i)
    {
      var j := 0;
      while j < |existing|
        invariant 0 <= j <= |existing|
        invariant FirstInRow(bm, candidates[i], existing, 0) == FirstInRow(bm, candidates[i], existing, j)
      {
        if candidates[i] != existing[j] {
          var check := HasBlockingConflict(bm, candidates[i], existing[j]);
          if Truthy(check.blocked) {
            var message := ConflictMessage(check, requester, BetweenSetsConflictMessage);
            return Conflict((existing[j], candidates[i]), check.blocker.value, check.blocked.id, message);
          }
        }
        j := j + 1;
      }
      i := i + 1;
    }
    return NoConflict;
  }

  // ---------------------------------------------------------------------
  // What the verdicts mean

  /** An empty member list, or an empty candidate list, never conflicts. */
  lemma EmptyListsNeverConflict(users: seq<User>, existingIds: seq<UserId>, requester: UserId)
    ensures MembersVerdict(users, [], requester) == NoConflict
    ensures BetweenSetsVerdict(users, existingIds, [], requester) == NoConflict
  {
  }

  /** No conflicting pair in the scan means no two different listed ids conflict, in either order. */
  lemma NoFirstPairMeansNoBlock(bm: BlockedMap, ids: seq<UserId>)
    requires FirstPair(bm, ids, 0).None?
    ensures forall a, b :: a in ids && b in ids && a != b ==> !Blocks(bm, a, b)
  {
    forall a, b | a in ids && b in ids && a != b ensures !Blocks(bm, a, b) {
      var i :| 0 <= i < |ids| && ids[i] == a;
      var j :| 0 <= j < |ids| && ids[j] == b;
      if i < j {
        assert !Blocks(bm, ids[i], ids[j]);
      } else {
        assert !Blocks(bm, ids[j], ids[i]);
        BlocksSymmetric(bm, a, b);
      }
    }
  }

  /** No conflict is reported exactly when no two distinct listed users block each other. */
  lemma MembersNoConflictMeaning(users: seq<User>, memberIds: seq<UserId>, requester: UserId)
    requires memberIds != []
    ensures MembersVerdict(users, memberIds, requester).NoConflict? ==>
      forall a, b :: a in memberIds && b in memberIds && a != b ==>
        !Blocks(BlockedMapOf(Selected(users, Dedupe(memberIds))), a, b)
    ensures MembersVerdict(users, memberIds, requester).Conflict? ==>
      exists a, b :: a in memberIds && b in memberIds && a != b &&
        Blocks(BlockedMapOf(Selected(users, Dedupe(memberIds))), a, b)
  {
    var ids := Dedupe(memberIds);
    var bm := BlockedMapOf(Selected(users, ids));
    var r := FirstPair(bm, ids, 0);
    if r.None? {
      assert MembersVerdict(users, memberIds, requester).NoConflict?;
      NoFirstPairMeansNoBlock(bm, ids);
      forall a, b | a in memberIds && b in memberIds && a != b ensures !Blocks(bm, a, b) {
        assert a in ids && b in ids;
      }
    } else {
      var i, j := r.value.0, r.value.1;
      assert MembersVerdict(users, memberIds, requester).Conflict?;
      assert ids[i] in memberIds && ids[j] in memberIds && ids[i] != ids[j] && Blocks(bm, ids[i], ids[j]);
    }
  }

  /** A reported member conflict names two distinct listed users with a block between them. */
  lemma MembersConflictMeaning(users: seq<User>, memberIds: seq<UserId>, requester: UserId)
    requires MembersVerdict(users, memberIds, requester).Conflict?
    ensures var v := MembersVerdict(users, memberIds, requester);
      v.pair.0 in memberIds && v.pair.1 in memberIds && v.pair.0 != v.pair.1 &&
      Blocks(BlockedMapOf(Selected(users, Dedupe(memberIds))), v.pair.0, v.pair.1)
  {
    var ids := Dedupe(memberIds);
    var bm := BlockedMapOf(Selected(users, ids));
    var i, j := FirstPair(bm, ids, 0).value.0, FirstPair(bm, ids, 0).value.1;
    assert ids[i] in memberIds && ids[j] in memberIds;
  }

  /**
   * In a member conflict the blocker is one of the pair and the blocked
   * user the other; when the first of the pair has blocked the second, the
   * first is reported as blocker.
   */
  lemma MembersBlockerPriority(users: seq<User>, memberIds: seq<UserId>, requester: UserId)
    requires MembersVerdict(users, memberIds, requester).Conflict?
    ensures var v := MembersVerdict(users, memberIds, requester);
      var bm := BlockedMapOf(Selected(users, Dedupe(memberIds)));
      (v.blocker == v.pair.0 && v.blockedUser == v.pair.1 && HasBlocked(bm, v.pair.0, v.pair.1))
      || (v.blocker == v.pair.1 && v.blockedUser == v.pair.0 && !HasBlocked(bm, v.pair.0, v.pair.1) && HasBlocked(bm, v.pair.1, v.pair.0))
  {
  }

  /** A between-sets conflict pairs an existing member with a different candidate, reported existing first. */
  lemma BetweenSetsPairMeaning(users: seq<User>, existingIds: seq<UserId>, candidateIds: seq<UserId>, requester: UserId)
    requires BetweenSetsVerdict(users, existingIds, candidateIds, requester).Conflict?
    ensures var v := BetweenSetsVerdict(users, existingIds, candidateIds, requester);
      v.pair.0 in existingIds && v.pair.1 in candidateIds && v.pair.0 != v.pair.1
  {
    var existing := Dedupe(existingIds);
    var candidates := Dedupe(candidateIds);
    var bm := BlockedMapOf(Selected(users, Dedupe(existing + candidates)));
    var (i, j) := FirstCross(bm, candidates, existing, 0).value;
    assert existing[j] in existingIds && candidates[i] in candidateIds;
  }

  /** No between-sets conflict means no candidate blocks, or is blocked by, a different existing member. */
  lemma {:induction false} BetweenSetsNoConflictMeaning(users: seq<User>, existingIds: seq<UserId>, candidateIds: seq<UserId>, requester: UserId)
    requires candidateIds != [] && BetweenSetsVerdict(users, existingIds, candidateIds, requester).NoConflict?
    ensures var existing := Dedupe(existingIds);
      var bm := BlockedMapOf(Selected(users, Dedupe(existing + Dedupe(candidateIds))));
      forall c, e :: c in candidateIds && e in existingIds && c != e ==> !Blocks(bm, c, e)
  {
    var existing := Dedupe(existingIds);
    var candidates := Dedupe(candidateIds);
    var bm := BlockedMapOf(Selected(users, Dedupe(existing + candidates)));
    forall c, e | c in candidateIds && e in existingIds && c != e ensures !Blocks(bm, c, e) {
      var i :| 0 <= i < |candidates| && candidates[i] == c;
      var j :| 0 <= j < |existing| && existing[j] == e;
      assert existing[j] == candidates[i] || !Blocks(bm, candidates[i], existing[j]);
    }
  }
}
