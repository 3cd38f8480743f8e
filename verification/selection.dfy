/**
 Picking a card by score the way ai/durak_ai.py does it: sort the scored
 candidates with Python's stable sort and take the head. A stable sort keeps
 equal scores in input order, so the pick is the first best-scoring candidate.
 */
module Selection {
  import opened Wrappers

  /** Position `i` holds a greatest score, and no earlier position holds an equal one. */
  predicate FirstGreatest(s: seq<real>, i: nat)
  {
    && i < |s|
    && (forall j | 0 <= j < |s| :: s[j] <= s[i])
    && (forall j | 0 <= j < i :: s[j] < s[i])
  }

  /**
   Position `i` is eligible and holds a least score among the eligible
   positions, and no earlier eligible position holds an equal one.
   */
  predicate FirstLeast(s: seq<real>, eligible: seq<bool>, i: nat)
    requires |s| == |eligible|
  {
    && i < |s|
    && eligible[i]
    && (forall j | 0 <= j < |s| && eligible[j] :: s[i] <= s[j])
    && (forall j | 0 <= j < i && eligible[j] :: s[i] < s[j])
  }

  /**
   The head of the scores sorted in descending order (`reverse=True` is still
   stable): a greatest score, and the earliest one among equals.
   */
  function FirstMax(s: seq<real>): (i: nat)
    requires |s| > 0
    ensures FirstGreatest(s, i)
  {
    if |s| == 1 then 0
    else
      var k := 1 + FirstMax(s[1..]);
      assert forall j | 1 <= j < |s| :: s[j] == s[1..][j - 1];
      if s[0] >= s[k] then 0 else k
  }

  /**
   The head of the eligible scores sorted in ascending order: a least score
   among the eligible positions, the earliest one among equals; None when no
   position is eligible.
   */
  function FirstMin(s: seq<real>, eligible: seq<bool>): (r: Option<nat>)
    requires |s| == |eligible|
    ensures r.None? <==> forall j | 0 <= j < |s| :: !eligible[j]
    ensures r.Some? ==> FirstLeast(s, eligible, r.value)
  {
    if |s| == 0 then None
    else
      assert forall j | 1 <= j < |s| :: s[j] == s[1..][j - 1] && eligible[j] == eligible[1..][j - 1];
      match FirstMin(s[1..], eligible[1..])
      case None => if eligible[0] then Some(0) else None
      case Some(k) =>
        if eligible[0] && s[0] <= s[1 + k] then Some(0) else Some(1 + k)
  }
}
