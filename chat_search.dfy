/**
 * Searching the open chat: the text messages whose content contains the
 * trimmed, lower-cased term, and the box that steps through them.
 */
module ChatSearch {
  import opened Common
  import opened ChatSlice

  /** One hit: the message id and its content. */
  datatype Match = Match(id: string, content: string)

  /** Whether message `m` is a hit for the lower-cased term `t`. */
  predicate IsHit(m: ClientMessage, t: string) {
    m.messageType == "text" && Contains(ToLower(m.content), t)
  }

  /** The hits among `msgs` for the lower-cased term `t`, in message order. */
  function HitsOf(msgs: seq<ClientMessage>, t: string): (r: seq<Match>)
    ensures |r| <= |msgs|
    ensures forall x :: x in r ==> exists m :: m in msgs && IsHit(m, t) && x == Match(m.id, m.content)
    ensures forall m :: m in msgs && IsHit(m, t) ==> Match(m.id, m.content) in r
  {
    if msgs == [] then []
    else
      var rest := HitsOf(msgs[1..], t);
      assert forall m :: m in msgs[1..] ==> m in msgs;
      if IsHit(msgs[0], t) then [Match(msgs[0].id, msgs[0].content)] + rest else rest
  }

  /** The search term as compared: trimmed and lower-cased. */
  function Needle(term: string): (r: string)
    ensures |r| <= |term|
  {
    ToLower(Trim(term))
  }

  /** `matches`: no hits for a blank term; otherwise the hits for its needle. */
  function Matches(msgs: seq<ClientMessage>, term: string): (r: seq<Match>)
    ensures Needle(term) == "" ==> r == []
    ensures Needle(term) != "" ==> r == HitsOf(msgs, Needle(term))
  {
    if Needle(term) == "" then [] else HitsOf(msgs, Needle(term))
  }

  /** Hits are found in message order: adding a message can only add a hit at the end. */
  lemma {:induction false} HitsOfAppend(msgs: seq<ClientMessage>, m: ClientMessage, t: string)
    ensures HitsOf(msgs + [m], t) == HitsOf(msgs, t) + (if IsHit(m, t) then [Match(m.id, m.content)] else [])
  {
    if msgs == [] {
      assert msgs + [m] == [m];
      assert [m][1..] == [];
    } else {
      assert (msgs + [m])[1..] == msgs[1..] + [m];
      HitsOfAppend(msgs[1..], m, t);
    }
  }

  /** `(i + 1) % n`, or 0 without hits. */
  function NextIndex(i: nat, n: nat): (r: nat)
    ensures n == 0 ==> r == 0
    ensures n > 0 ==> r < n
    ensures i + 1 < n ==> r == i + 1
    ensures i + 1 == n ==> r == 0
  {
    if n > 0 then (i + 1) % n else 0
  }

  /** `(i - 1 + n) % n`, or 0 without hits. */
  function PrevIndex(i: nat, n: nat): (r: nat)
    ensures n == 0 ==> r == 0
    ensures n > 0 ==> r < n
    ensures 0 < i <= n ==> r == i - 1
    ensures n > 0 && i == 0 ==> r == n - 1
  {
    if n > 0 then (i - 1 + n) % n else 0
  }

  /** Prev undoes Next and Next undoes Prev on a valid position. */
  lemma PrevNextInverse(i: nat, n: nat)
    requires i < n
    ensures PrevIndex(NextIndex(i, n), n) == i
    ensures NextIndex(PrevIndex(i, n), n) == i
  {
  }

  /** Pressing Next steps through the hits in order and, after `n` presses, comes back to the first. */
  lemma {:induction false} NextCycles(n: nat, k: nat)
    requires k <= n
    ensures k < n ==> StepsFromFirst(k, n) == k
    ensures k == n ==> StepsFromFirst(k, n) == 0
  {
    if k > 0 {
      NextCycles(n, k - 1);
    }
  }

  /** The position after `k` presses of Next from the first hit. */
  function StepsFromFirst(k: nat, n: nat): nat {
    if k == 0 then 0 else NextIndex(StepsFromFirst(k - 1, n), n)
  }

  /** The counter: "position/total", or 0/0 without hits. */
  datatype Counter = Counter(shown: nat, total: nat)

  function CounterOf(i: nat, n: nat): (r: Counter)
    ensures n == 0 ==> r == Counter(0, 0)
    ensures n > 0 ==> r.total == n && r.shown == i + 1
  {
    if n > 0 then Counter(i + 1, n) else Counter(0, 0)
  }

  /** The search box: its term and the position of the highlighted hit. */
  class ChatSearchBox {
    var term: string
    var idx: nat

    constructor ()
      ensures term == "" && idx == 0
    {
      term := "";
      idx := 0;
    }

    /** Typing a term sends the highlight back to the first hit. */
    method SetTerm(t: string)
      modifies this
      ensures term == t && idx == 0
    {
      term := t;
      idx := 0;
    }

    /** The Next button, over the `n` current hits. */
    method Next(n: nat)
      modifies this`idx
      ensures idx == NextIndex(old(idx), n)
    {
      idx := NextIndex(idx, n);
    }

    /** The Prev button, over the `n` current hits. */
    method Prev(n: nat)
      modifies this`idx
      ensures idx == PrevIndex(old(idx), n)
    {
      idx := PrevIndex(idx, n);
    }

    /** The hit highlighted, if the position is within the hits. */
    function Current(msgs: seq<ClientMessage>): (r: Option<Match>)
      reads this
      ensures r.Some? ==> r.value in Matches(msgs, term) && idx < |Matches(msgs, term)|
      ensures r.None? <==> idx >= |Matches(msgs, term)|
    {
      var ms := Matches(msgs, term);
      if idx < |ms| then Some(ms[idx]) else None
    }
  }
}
