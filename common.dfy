/**
 * Sequence and string helpers shared by the whole model: the JavaScript
 * idioms `xs.filter(x => x !== v)`, `[...new Set(xs)]`, `xs.includes(v)`,
 * `s.trim()`, `s.toLowerCase()` and `s.includes(t)`.
 *
 * A falsy JavaScript string (`undefined`, `null`, `""`) is modelled as "".
 */
module Common {

  datatype Option<T> = None | Some(value: T)

  /** The index of the first element satisfying `p`, if there is one (`findIndex`). */
  function FirstIndex<T>(s: seq<T>, p: T -> bool): (r: Option<nat>)
    ensures r.Some? ==> r.value < |s| && p(s[r.value])
    ensures r.Some? ==> forall k :: 0 <= k < r.value ==> !p(s[k])
    ensures r.None? ==> forall k :: 0 <= k < |s| ==> !p(s[k])
  {
    if s == [] then None
    else if p(s[0]) then Some(0)
    else match FirstIndex(s[1..], p)
      case None => None
      case Some(k) => Some(k + 1)
  }

  /** No element occurs twice. */
  predicate NoDups<T(==)>(s: seq<T>) {
    forall i, j :: 0 <= i < j < |s| ==> s[i] != s[j]
  }

  /** `s.filter(x => x !== v)`: every occurrence of `v` is dropped, the rest keep their order. */
  function RemoveAll<T(==,!new)>(s: seq<T>, v: T): (r: seq<T>)
    ensures v !in r
    ensures forall x :: x in r <==> x in s && x != v
    ensures |r| <= |s|
  {
    if s == [] then []
    else if s[0] == v then RemoveAll(s[1..], v)
    else [s[0]] + RemoveAll(s[1..], v)
  }

  lemma {:induction false} RemoveAbsent<T(!new)>(s: seq<T>, v: T)
    requires v !in s
    ensures RemoveAll(s, v) == s
  {
    if s != [] {
      assert s == [s[0]] + s[1..];
      RemoveAbsent(s[1..], v);
    }
  }

  lemma {:induction false} RemoveAllAppend<T(!new)>(s: seq<T>, x: T, v: T)
    ensures RemoveAll(s + [x], v) == RemoveAll(s, v) + (if x == v then [] else [x])
  {
    if s == [] {
      assert [x][1..] == [];
    } else {
      assert (s + [x])[1..] == s[1..] + [x];
      RemoveAllAppend(s[1..], x, v);
    }
  }

  /** Filtering out `v` removes all its copies and keeps the count of every other value. */
  lemma {:induction false} RemoveAllMultiset<T(!new)>(s: seq<T>, v: T)
    ensures multiset(RemoveAll(s, v)) == multiset(s)[v := 0]
  {
    if s != [] {
      assert s == [s[0]] + s[1..];
      RemoveAllMultiset(s[1..], v);
    }
  }

  lemma {:induction false} RemovePresentShrinks<T(!new)>(s: seq<T>, v: T)
    requires v in s
    ensures |RemoveAll(s, v)| < |s|
  {
    if s[0] != v {
      RemovePresentShrinks(s[1..], v);
    }
  }

  lemma {:induction false} RemoveAllNoDups<T(!new)>(s: seq<T>, v: T)
    requires NoDups(s)
    ensures NoDups(RemoveAll(s, v))
  {
    if s != [] {
      assert NoDups(s[1..]) by {
        forall i, j | 0 <= i < j < |s[1..]| ensures s[1..][i] != s[1..][j] {
          assert s[1..][i] == s[i + 1] && s[1..][j] == s[j + 1];
        }
      }
      RemoveAllNoDups(s[1..], v);
      if s[0] != v {
        var t := RemoveAll(s[1..], v);
        PrependNoDups(s[0], t);
      }
    }
  }

  lemma PrependNoDups<T>(x: T, t: seq<T>)
    requires NoDups(t) && x !in t
    ensures NoDups([x] + t)
  {
    forall i, j | 0 <= i < j < |[x] + t| ensures ([x] + t)[i] != ([x] + t)[j] {
      if i == 0 {
        assert ([x] + t)[j] == t[j - 1];
      } else {
        assert ([x] + t)[i] == t[i - 1] && ([x] + t)[j] == t[j - 1];
      }
    }
  }

  lemma AppendNoDups<T>(t: seq<T>, x: T)
    requires NoDups(t) && x !in t
    ensures NoDups(t + [x])
  {
    forall i, j | 0 <= i < j < |t + [x]| ensures (t + [x])[i] != (t + [x])[j] {
      if j == |t| {
        assert (t + [x])[i] == t[i];
      } else {
        assert (t + [x])[i] == t[i] && (t + [x])[j] == t[j];
      }
    }
  }

  /** `if (!s.includes(x)) s.push(x)`, and MongoDB's `$addToSet`: `x` is appended only when absent. */
  function AddIfAbsent<T(==,!new)>(s: seq<T>, x: T): (r: seq<T>)
    ensures x in r
    ensures forall y :: y in r <==> y in s || y == x
    ensures x in s ==> r == s
    ensures x !in s ==> |r| == |s| + 1 && r[..|s|] == s
    ensures NoDups(s) ==> NoDups(r)
  {
    if x in s then s
    else
      assert NoDups(s) ==> NoDups(s + [x]) by {
        if NoDups(s) {
          AppendNoDups(s, x);
        }
      }
      s + [x]
  }

  /** Adding keeps a value at most once: its count never exceeds one if it did not before. */
  lemma AddIfAbsentOnce<T(!new)>(s: seq<T>, x: T)
    requires multiset(s)[x] <= 1
    ensures multiset(AddIfAbsent(s, x))[x] == 1
  {
    if x !in s {
      assert multiset(s)[x] == 0;
    }
  }

  /** Filtering a value out undoes adding it to a list that did not hold it. */
  lemma RemoveAllUndoesAddIfAbsent<T(!new)>(s: seq<T>, x: T)
    requires x !in s
    ensures RemoveAll(AddIfAbsent(s, x), x) == s
  {
    RemoveAllAppend(s, x, x);
    RemoveAbsent(s, x);
  }

  /** `a || b` on strings: the empty string is falsy. */
  function OrElse(a: string, b: string): (r: string)
    ensures a != "" ==> r == a
    ensures a == "" ==> r == b
  {
    if a != "" then a else b
  }

  /** The elements in the opposite order. */
  function Reverse<T>(s: seq<T>): (r: seq<T>)
    ensures |r| == |s|
    ensures forall k :: 0 <= k < |s| ==> r[k] == s[|s| - 1 - k]
  {
    seq(|s|, k requires 0 <= k < |s| => s[|s| - 1 - k])
  }

  /** Taking the first `n` of the reversed sequence and reversing back gives the last `n`, in their order. */
  lemma ReverseOfReversedPrefix<T>(s: seq<T>, n: nat)
    requires n <= |s|
    ensures Reverse(Reverse(s)[..n]) == s[|s| - n..]
  {
    var cut := Reverse(s)[..n];
    var h := Reverse(cut);
    var tail := s[|s| - n..];
    forall k | 0 <= k < n
      ensures h[k] == tail[k]
    {
      assert h[k] == cut[n - 1 - k];
    }
  }

  /** How many documents MongoDB's `limit(n)` lets through: 0 means no limit and a negative limit counts as its magnitude. */
  function LimitCount(limit: int, available: nat): (r: nat)
    ensures r <= available
    ensures limit == 0 ==> r == available
  {
    var n := if limit < 0 then -limit else limit;
    if limit == 0 || n > available then available else n
  }

  /** `s.filter(p)`: the elements satisfying `p`, in their original order. */
  function Keep<T(!new)>(s: seq<T>, p: T -> bool): (r: seq<T>)
    ensures |r| <= |s|
    ensures forall x :: x in r <==> x in s && p(x)
  {
    if s == [] then []
    else (if p(s[0]) then [s[0]] else []) + Keep(s[1..], p)
  }

  /** `r` can be obtained from `s` by deleting elements. */
  predicate IsSubsequence<T(==)>(r: seq<T>, s: seq<T>)
    decreases |s|
  {
    if r == [] then true
    else if s == [] then false
    else if r[0] == s[0] then IsSubsequence(r[1..], s[1..])
    else IsSubsequence(r, s[1..])
  }

  /** Filtering keeps the original order. */
  lemma {:induction false} KeepIsSubsequence<T(!new)>(s: seq<T>, p: T -> bool)
    ensures IsSubsequence(Keep(s, p), s)
  {
    if s != [] {
      KeepIsSubsequence(s[1..], p);
      if p(s[0]) {
        assert Keep(s, p) == [s[0]] + Keep(s[1..], p);
        assert Keep(s, p)[1..] == Keep(s[1..], p);
      } else {
        assert Keep(s, p) == Keep(s[1..], p);
        SubsequenceExtend(Keep(s, p), s);
      }
    }
  }

  /** A subsequence of `s` with its head removed is still a subsequence of `s`. */
  lemma {:induction false} SubsequenceDropHead<T>(r: seq<T>, s: seq<T>)
    requires r != [] && IsSubsequence(r, s)
    ensures IsSubsequence(r[1..], s)
    decreases |s|, 1
  {
    if r[0] == s[0] {
      SubsequenceExtend(r[1..], s);
    } else {
      SubsequenceDropHead(r, s[1..]);
      SubsequenceExtend(r[1..], s);
    }
  }

  /** A subsequence of the tail is a subsequence of the whole. */
  lemma {:induction false} SubsequenceExtend<T>(t: seq<T>, s: seq<T>)
    requires s != [] && IsSubsequence(t, s[1..])
    ensures IsSubsequence(t, s)
    decreases |s|, 0
  {
    if t != [] && t[0] == s[0] {
      SubsequenceDropHead(t, s[1..]);
    }
  }

  /**
   * `[...new Set(s)]`: duplicates dropped, each value kept at its FIRST
   * occurrence (a JavaScript Set iterates in insertion order).
   */
  function Dedupe<T(==,!new)>(s: seq<T>): (r: seq<T>)
    ensures NoDups(r)
    ensures forall x :: x in r <==> x in s
    ensures |r| <= |s|
  {
    if s == [] then []
    else
      var d := Dedupe(s[..|s| - 1]);
      var last := s[|s| - 1];
      assert forall x :: x in s <==> x in s[..|s| - 1] || x == last by {
        assert s == s[..|s| - 1] + [last];
      }
      if last in d then d
      else
        AppendNoDups(d, last);
        d + [last]
  }

  /** Deduplicating one more element keeps the earlier result and adds the element only if it is new. */
  lemma DedupeSnoc<T(!new)>(s: seq<T>, x: T)
    ensures Dedupe(s + [x]) == if x in Dedupe(s) then Dedupe(s) else Dedupe(s) + [x]
  {
    assert (s + [x])[..|s + [x]| - 1] == s;
  }

  /** A list that is already free of duplicates is left as it is. */
  lemma {:induction false} DedupeOfDistinct<T(!new)>(s: seq<T>)
    requires NoDups(s)
    ensures Dedupe(s) == s
  {
    if s != [] {
      var init := s[..|s| - 1];
      assert NoDups(init) by {
        forall i, j | 0 <= i < j < |init| ensures init[i] != init[j] {
          assert init[i] == s[i] && init[j] == s[j];
        }
      }
      DedupeOfDistinct(init);
      assert s == init + [s[|s| - 1]];
    }
  }

  /** Deduplication keeps the first element of the list in front. */
  lemma {:induction false} DedupeKeepsHead<T(!new)>(s: seq<T>)
    requires |s| > 0
    ensures |Dedupe(s)| > 0 && Dedupe(s)[0] == s[0]
  {
    if |s| > 1 {
      var init := s[..|s| - 1];
      DedupeKeepsHead(init);
      assert init[0] == s[0];
    }
  }

  /** `t` sits in `s` starting at index `i`. */
  predicate PieceAt(s: string, t: string, i: int) {
    0 <= i <= |s| - |t| && s[i..i + |t|] == t
  }

  /** `s.includes(t)` for strings: `t` occurs as a contiguous piece of `s`. */
  predicate Contains(s: string, t: string) {
    exists i :: 0 <= i <= |s| - |t| && PieceAt(s, t, i)
  }

  // ---------------------------------------------------------------------
  // Characters

  /** The characters ECMAScript treats as white space or line terminators. */
  predicate IsSpace(c: char) {
    c == ' ' || c == '\t' || c == '\n' || c == '\r' || c == '\U{000B}' || c == '\U{000C}'
    || c == '\U{00A0}' || c == '\U{1680}' || ('\U{2000}' <= c <= '\U{200A}')
    || c == '\U{2028}' || c == '\U{2029}' || c == '\U{202F}' || c == '\U{205F}'
    || c == '\U{3000}' || c == '\U{FEFF}'
  }

  predicate IsDigit(c: char) { '0' <= c <= '9' }

  /** `toLowerCase` on ASCII letters; every other character is kept. */
  function LowerChar(c: char): (r: char)
    ensures !('A' <= r <= 'Z')
    ensures 'a' <= c <= 'z' ==> r == c
  {
    if 'A' <= c <= 'Z' then (c as int + 32) as char else c
  }

  function ToLower(s: string): (r: string)
    ensures |r| == |s|
    ensures forall i :: 0 <= i < |s| ==> r[i] == LowerChar(s[i])
  {
    seq(|s|, i requires 0 <= i < |s| => LowerChar(s[i]))
  }

  // ---------------------------------------------------------------------
  // String.prototype.trim

  function TrimStart(s: string): (r: string)
    ensures |r| <= |s| && r == s[|s| - |r|..]
    ensures r == [] || !IsSpace(r[0])
    ensures forall i :: 0 <= i < |s| - |r| ==> IsSpace(s[i])
  {
    if s != [] && IsSpace(s[0]) then TrimStart(s[1..]) else s
  }

  function TrimEnd(s: string): (r: string)
    ensures |r| <= |s| && r == s[..|r|]
    ensures r == [] || !IsSpace(r[|r| - 1])
    ensures forall i :: |r| <= i < |s| ==> IsSpace(s[i])
  {
    if s != [] && IsSpace(s[|s| - 1]) then TrimEnd(s[..|s| - 1]) else s
  }

  /** `s.trim()`: the longest piece of `s` that neither starts nor ends with white space. */
  function Trim(s: string): (r: string)
    ensures |r| <= |s|
    ensures r == [] || (!IsSpace(r[0]) && !IsSpace(r[|r| - 1]))
    ensures Contains(s, r)
  {
    var a := TrimStart(s);
    var r := TrimEnd(a);
    assert PieceAt(s, r, |s| - |a|);
    r
  }

  /** A string without surrounding white space is its own trim. */
  lemma TrimOfTrimmed(s: string)
    requires s == [] || (!IsSpace(s[0]) && !IsSpace(s[|s| - 1]))
    ensures Trim(s) == s
  {
    if s != [] {
      assert TrimStart(s) == s;
      assert TrimEnd(s) == s;
    }
  }

  /** One trailing white-space character after a trimmed text is cut off by `trim()`. */
  lemma TrimDropsTrailingSpace(s: string, c: char)
    requires s != [] && !IsSpace(s[0]) && !IsSpace(s[|s| - 1]) && IsSpace(c)
    ensures Trim(s + [c]) == s
  {
    var t := s + [c];
    assert TrimStart(t) == t;
    assert t[..|t| - 1] == s;
    assert TrimEnd(t) == TrimEnd(s);
    assert TrimEnd(s) == s;
  }

  /** Trimming twice is the same as trimming once. */
  lemma TrimIdempotent(s: string)
    ensures Trim(Trim(s)) == Trim(s)
  {
    var t := Trim(s);
    if t != [] {
      assert TrimStart(t) == t;
      assert TrimEnd(t) == t;
    }
  }

  // ---------------------------------------------------------------------
  // Splitting on one character

  /** `s.split(c)[0]`: everything before the first `c`. */
  function BeforeFirst(s: string, c: char): (r: string)
    ensures c !in r
    ensures |r| <= |s| && r == s[..|r|]
    ensures |r| < |s| ==> s[|r|] == c
  {
    if s == [] || s[0] == c then [] else [s[0]] + BeforeFirst(s[1..], c)
  }

  /** A character absent from a text is absent from every suffix of it. */
  lemma AbsentFromSuffix(s: string, n: nat, c: char)
    requires n <= |s| && c !in s
    ensures c !in s[|s| - n..]
  {
    var t := s[|s| - n..];
    forall k | 0 <= k < |t| ensures t[k] != c {
      assert t[k] == s[|s| - n + k];
    }
  }

  /** `s.split(c).pop()`: everything after the last `c`. */
  function AfterLast(s: string, c: char): (r: string)
    ensures c !in r
    ensures |r| <= |s| && r == s[|s| - |r|..]
    ensures |r| < |s| ==> s[|s| - |r| - 1] == c
  {
    if s == [] || s[|s| - 1] == c then [] else AfterLast(s[..|s| - 1], c) + [s[|s| - 1]]
  }

  /** Cutting at a `c` that follows a piece free of `c` gives back that piece. */
  lemma {:induction false} BeforeFirstAt(a: string, b: string, c: char)
    requires c !in a && (b == [] || b[0] == c)
    ensures BeforeFirst(a + b, c) == a
  {
    if a != [] {
      assert (a + b)[1..] == a[1..] + b;
      BeforeFirstAt(a[1..], b, c);
    } else {
      assert a + b == b;
    }
  }

  /** Everything after a final `c` is what follows it. */
  lemma {:induction false} AfterLastAt(a: string, b: string, c: char)
    requires c !in b
    ensures AfterLast(a + [c] + b, c) == b
  {
    if b != [] {
      var s := a + [c] + b;
      assert s[..|s| - 1] == a + [c] + b[..|b| - 1];
      AfterLastAt(a, b[..|b| - 1], c);
      assert b == b[..|b| - 1] + [b[|b| - 1]];
    } else {
      assert (a + [c] + b)[|a + [c] + b| - 1] == c;
    }
  }

  /** `s.startsWith(t)` */
  predicate StartsWith(s: string, t: string) {
    |t| <= |s| && s[..|t|] == t
  }

  /** Lower-casing works piece by piece. */
  lemma ToLowerAppend(a: string, b: string)
    ensures ToLower(a + b) == ToLower(a) + ToLower(b)
  {
    var l := ToLower(a + b);
    var r := ToLower(a) + ToLower(b);
    forall i | 0 <= i < |l| ensures l[i] == r[i] {
      if i < |a| { assert (a + b)[i] == a[i]; } else { assert (a + b)[i] == b[i - |a|]; }
    }
  }

  /** `s.endsWith(t)` */
  predicate EndsWith(s: string, t: string) {
    |t| <= |s| && s[|s| - |t|..] == t
  }
}
