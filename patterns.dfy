/**
 * The one regular-expression shape the core uses: a run of decimal digits,
 * optionally followed by whitespace, followed by one of a few literal tags
 * (`(\d+)br`, `(\d+)ft`, `(\d+)\s*(?:br|bed|bd)`), searched leftmost-first
 * as Python's `re.search` does, with group 1 read by `int()`.
 *
 * Every tag starts with a letter, so backtracking can never help: a shorter
 * digit run leaves a digit where the tag must start, and a shorter
 * whitespace run leaves whitespace there. A match at position p therefore
 * exists exactly when the maximal digit run starting at p, followed by the
 * maximal whitespace run (when allowed), is followed by a tag.
 */
module Patterns {
  import opened Wrappers
  import opened Text

  /** End of the maximal digit run starting at p. */
  function RunEnd(t: string, p: nat): (e: nat)
    requires p <= |t|
    ensures p <= e <= |t|
    ensures forall i :: p <= i < e ==> IsDigit(t[i])
    ensures e < |t| ==> !IsDigit(t[e])
  {
    var n := DigitPrefix(t[p..]);
    assert forall i :: p <= i < p + n ==> t[i] == t[p..][i - p];
    p + n
  }

  /** Position after the whitespace following e, when the pattern allows `\s*` there. */
  function SkipGap(t: string, e: nat, gap: bool): (g: nat)
    requires e <= |t|
    ensures e <= g <= |t|
  {
    if gap then |t| - |TrimStart(t[e..])| else e
  }

  predicate TagAt(t: string, g: nat, tags: seq<string>)
    requires g <= |t|
  {
    exists k :: 0 <= k < |tags| && tags[k] <= t[g..]
  }

  /** The pattern matches with its digit group starting at p. */
  predicate MatchAt(t: string, p: nat, tags: seq<string>, gap: bool) {
    p < |t| && IsDigit(t[p]) && TagAt(t, SkipGap(t, RunEnd(t, p), gap), tags)
  }

  /** The value of the digit group of a match at p. */
  function GroupValue(t: string, p: nat): nat
    requires p <= |t|
  {
    DigitsValue(t[p..RunEnd(t, p)])
  }

  /** `re.search` from position p: the group value of the leftmost match, or None. */
  function SearchFrom(t: string, p: nat, tags: seq<string>, gap: bool): (r: Option<nat>)
    requires p <= |t|
    ensures r.None? <==> forall q :: p <= q < |t| ==> !MatchAt(t, q, tags, gap)
    ensures r.Some? ==> exists q :: p <= q < |t| && MatchAt(t, q, tags, gap)
                          && (forall q' :: p <= q' < q ==> !MatchAt(t, q', tags, gap))
                          && r.value == GroupValue(t, q)
    decreases |t| - p
  {
    if p == |t| then None
    else if MatchAt(t, p, tags, gap) then Some(GroupValue(t, p))
    else SearchFrom(t, p + 1, tags, gap)
  }

  function Search(t: string, tags: seq<string>, gap: bool): Option<nat> {
    SearchFrom(t, 0, tags, gap)
  }

  /** The search reads the group of the leftmost match. */
  lemma SearchFindsLeftmost(t: string, q: nat, tags: seq<string>, gap: bool)
    requires MatchAt(t, q, tags, gap)
    requires forall r :: 0 <= r < q ==> !MatchAt(t, r, tags, gap)
    ensures Search(t, tags, gap) == Some(GroupValue(t, q))
  {
    var found := SearchFrom(t, 0, tags, gap);
    assert found.Some?;
    var q' :| 0 <= q' < |t| && MatchAt(t, q', tags, gap)
              && (forall r :: 0 <= r < q' ==> !MatchAt(t, r, tags, gap))
              && found.value == GroupValue(t, q');
    assert q' == q;
  }

  /** A match inside a digit run is also a match at the digit before it. */
  lemma MatchExtendsLeft(t: string, q: nat, tags: seq<string>, gap: bool)
    requires 0 < q && MatchAt(t, q, tags, gap) && IsDigit(t[q - 1])
    ensures MatchAt(t, q - 1, tags, gap)
  {
    assert RunEnd(t, q - 1) == RunEnd(t, q);
  }

  /** The leftmost match starts a digit run, so group 1 is the whole run of digits. */
  lemma SearchReadsWholeRun(t: string, tags: seq<string>, gap: bool)
    requires Search(t, tags, gap).Some?
    ensures exists q :: 0 <= q < |t| && MatchAt(t, q, tags, gap) && (q == 0 || !IsDigit(t[q - 1]))
                        && Search(t, tags, gap).value == GroupValue(t, q)
  {
    var q :| 0 <= q < |t| && MatchAt(t, q, tags, gap)
             && (forall q' :: 0 <= q' < q ==> !MatchAt(t, q', tags, gap))
             && Search(t, tags, gap).value == GroupValue(t, q);
    if q > 0 && IsDigit(t[q - 1]) {
      MatchExtendsLeft(t, q, tags, gap);
    }
  }
}
