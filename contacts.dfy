/**
 * Contacts: escaping a search term before it becomes a regular expression,
 * narrowing the client's direct-message list to the contacts the search
 * found, keeping only friends in the direct-message list, and unfriending.
 */
module Contacts {
  import opened Common
  import opened Domain
  import FriendRequests

  const FriendIdRequired := "Friend ID is required to unfriend"
  const UserNotFound := "User not found"
  const SearchArgsRequired := "searchTerm and directMessagesContacts are required"

  /** The characters the escaping pattern `/[.*+?^${}()|[\]\\]/g` matches. */
  predicate IsRegexMeta(c: char) {
    c in {'.', '*', '+', '?', '^', '$', '{', '}', '(', ')', '|', '[', ']', '\\'}
  }

  /** `term.replace(/[.*+?^${}()|[\]\\]/g, "\\$&")`: a backslash goes in front of every metacharacter. */
  function EscapeRegex(term: string): (r: string)
    ensures |term| <= |r| <= 2 * |term|
  {
    if term == [] then []
    else (if IsRegexMeta(term[0]) then ['\\', term[0]] else [term[0]]) + EscapeRegex(term[1..])
  }

  /** Reading an escaped pattern back: a backslash stands for the character after it. */
  function Unescape(r: string): string
    decreases |r|
  {
    if r == [] then []
    else if r[0] == '\\' && |r| >= 2 then [r[1]] + Unescape(r[2..])
    else [r[0]] + Unescape(r[1..])
  }

  /** Every metacharacter of the pattern is preceded by a backslash, so the pattern matches the term literally. */
  predicate NoBareMeta(r: string)
    decreases |r|
  {
    r == [] ||
    (r[0] == '\\' && |r| >= 2 && NoBareMeta(r[2..])) ||
    (!IsRegexMeta(r[0]) && NoBareMeta(r[1..]))
  }

  lemma {:induction false} EscapeRegexRoundTrip(term: string)
    ensures Unescape(EscapeRegex(term)) == term
  {
    if term != [] {
      EscapeRegexRoundTrip(term[1..]);
      var rest := EscapeRegex(term[1..]);
      if IsRegexMeta(term[0]) {
        assert EscapeRegex(term) == ['\\', term[0]] + rest;
        assert (['\\', term[0]] + rest)[2..] == rest;
      } else {
        assert EscapeRegex(term) == [term[0]] + rest;
        assert ([term[0]] + rest)[1..] == rest;
      }
    }
  }

  lemma {:induction false} EscapeRegexHasNoBareMeta(term: string)
    ensures NoBareMeta(EscapeRegex(term))
  {
    if term != [] {
      EscapeRegexHasNoBareMeta(term[1..]);
      var rest := EscapeRegex(term[1..]);
      if IsRegexMeta(term[0]) {
        assert (['\\', term[0]] + rest)[2..] == rest;
      } else {
        assert ([term[0]] + rest)[1..] == rest;
      }
    }
  }

  /** A term without metacharacters is left as it is. */
  lemma {:induction false} EscapePlainTerm(term: string)
    requires forall k :: 0 <= k < |term| ==> !IsRegexMeta(term[k])
    ensures EscapeRegex(term) == term
  {
    if term != [] {
      EscapePlainTerm(term[1..]);
      assert term == [term[0]] + term[1..];
    }
  }

  /** A contact entry as the client sends it or the direct-message aggregation returns it. */
  datatype Contact = Contact(id: UserId, email: string)

  /**
   * `searchDMContacts`: `found` is the set of ids the user collection
   * matched; the answer keeps the client's entries with those ids, in the
   * client's order. A missing term or list is a 400.
   */
  function SearchDMContacts(searchTerm: Option<string>, dmContacts: Option<seq<Contact>>, found: set<UserId>): (r: Option<seq<Contact>>)
    ensures r.None? <==> searchTerm.None? || dmContacts.None?
    ensures r.Some? ==> forall c :: c in r.value <==> c in dmContacts.value && c.id in found
  {
    if searchTerm.None? || dmContacts.None? then None
    else Some(Keep(dmContacts.value, (c: Contact) => c.id in found))
  }

  /** The search never reorders or invents entries: its answer is a sub-list of the client's list. */
  lemma SearchKeepsClientOrder(searchTerm: string, dmContacts: seq<Contact>, found: set<UserId>)
    ensures IsSubsequence(SearchDMContacts(Some(searchTerm), Some(dmContacts), found).value, dmContacts)
  {
    KeepIsSubsequence(dmContacts, (c: Contact) => c.id in found);
  }

  /** `getContactsForDMList`: conversation partners, most recent first, narrowed to the user's friends. */
  function DMList(conversations: seq<Contact>, friends: seq<string>): (r: seq<Contact>)
    ensures forall c :: c in r <==> c in conversations && c.email in friends
  {
    Keep(conversations, (c: Contact) => c.email in friends)
  }

  lemma DMListKeepsOrder(conversations: seq<Contact>, friends: seq<string>)
    ensures IsSubsequence(DMList(conversations, friends), conversations)
  {
    KeepIsSubsequence(conversations, (c: Contact) => c.email in friends);
  }

  /** A user's document with one address dropped from both friends and pending requests. */
  function Unfriended(u: User, email: string): (r: User)
    ensures r.id == u.id && r.email == u.email && r.blockedUsers == u.blockedUsers
    ensures email !in r.friends && email !in r.friendRequests
    ensures forall e :: e in r.friends <==> e in u.friends && e != email
    ensures forall e :: e in r.friendRequests <==> e in u.friendRequests && e != email
  {
    u.(friends := RemoveAll(u.friends, email), friendRequests := RemoveAll(u.friendRequests, email))
  }

  /** `unfriendContact`: both sides forget each other as friend and as pending request. */
  method UnfriendContact(dir: UserDirectory, userId: UserId, friendId: UserId) returns (reply: Reply)
    modifies dir
    ensures friendId == "" ==> reply == Reply(400, FriendIdRequired) && dir.users == old(dir.users)
    ensures friendId != "" ==>
      var i := FindUser(old(dir.users), userId);
      var j := FindUser(old(dir.users), friendId);
      if i.None? || j.None? then reply == Reply(404, UserNotFound) && dir.users == old(dir.users)
      else
        var me := old(dir.users)[i.value];
        var friend := old(dir.users)[j.value];
        reply == Reply(200, "") &&
        dir.users == old(dir.users)[i.value := Unfriended(me, friend.email)][j.value := Unfriended(friend, me.email)]
  {
    if friendId == "" {
      return Reply(400, FriendIdRequired);
    }
    var i := FindUser(dir.users, userId);
    var j := FindUser(dir.users, friendId);
    if i.None? || j.None? {
      return Reply(404, UserNotFound);
    }
    var me := dir.users[i.value];
    var friend := dir.users[j.value];
    dir.users := dir.users[i.value := Unfriended(me, friend.email)];
    dir.users := dir.users[j.value := Unfriended(friend, me.email)];
    return Reply(200, "");
  }

  /** After unfriending, neither user lists the other, and nobody else's document changes. */
  lemma UnfriendIsMutual(users: seq<User>, i: nat, j: nat)
    requires i < |users| && j < |users| && i != j
    ensures var after := users[i := Unfriended(users[i], users[j].email)][j := Unfriended(users[j], users[i].email)];
      users[j].email !in after[i].friends && users[i].email !in after[j].friends &&
      users[j].email !in after[i].friendRequests && users[i].email !in after[j].friendRequests &&
      forall k :: 0 <= k < |users| && k != i && k != j ==> after[k] == users[k]
  {
  }

  /** Unfriending right after accepting a request between two strangers restores both friend lists. */
  lemma UnfriendUndoesAccept(users: seq<User>, i: nat, j: nat, friendEmail: string)
    requires i < |users| && j < |users| && i != j && users[j].email == friendEmail
    requires friendEmail !in users[i].friends && users[i].email !in users[j].friends
    ensures var after := FriendRequests.AfterAccept(users, i, j, friendEmail);
      var undone := after[i := Unfriended(after[i], after[j].email)][j := Unfriended(after[j], after[i].email)];
      undone[i].friends == users[i].friends && undone[j].friends == users[j].friends
  {
    RemoveAllUndoesAddIfAbsent(users[i].friends, friendEmail);
    RemoveAllUndoesAddIfAbsent(users[j].friends, users[i].email);
  }
}
