/** The plain scan: match_at at every position in turn.  It is what every faster search has to agree with. */
module Scan {
  import opened Common
  import opened Tree
  import opened Semantics
  import opened Correctness

  /** match_at at s finds something. */
  predicate MatchesAt(n: Node, t: Subject, s: nat) { Meaning(n, t, Initial(s, s - 1)) != [] }

  /** No match starts in [from, to). */
  ghost predicate NoMatchIn(n: Node, t: Subject, from: nat, to: nat) {
    forall q: nat :: from <= q < to ==> !MatchesAt(n, t, q)
  }

  /** The plain scan: match_at at every position in turn, the end of the text included. */
  function FirstStart(n: Node, t: Subject, s: nat): (r: int)
    ensures r == -1 ==> forall q: nat :: s <= q <= t.End() ==> !MatchesAt(n, t, q)
    ensures r != -1 ==> s <= r <= t.End() && MatchesAt(n, t, r) && forall q: nat :: s <= q < r ==> !MatchesAt(n, t, q)
    decreases t.End() - s
  {
    if s > t.End() then -1 else if MatchesAt(n, t, s) then s else FirstStart(n, t, s + 1)
  }

  lemma StartIs(n: Node, t: Subject, start: nat, s: nat)
    requires start <= s <= t.End() && NoMatchIn(n, t, start, s) && MatchesAt(n, t, s)
    ensures FirstStart(n, t, start) == s
  {
    hide MatchesAt;
  }

  lemma NoStart(n: Node, t: Subject, start: nat)
    requires NoMatchIn(n, t, start, t.End() + 1)
    ensures FirstStart(n, t, start) == -1
  {
    hide MatchesAt;
  }
}
