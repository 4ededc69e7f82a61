/**
 * The `useInteractivity` React hook: a background colour taken from a fixed
 * five-entry palette and a click counter, each held in a state cell, with one
 * transition per cell. The next-state computations are pure functions; the
 * hook's state is a class whose two methods write them into the cells.
 */
module Interactivity {

  /** The palette, in order. */
  const Colors: seq<string> := ["#f4f4f4", "#e8f5e8", "#fff2e8", "#f0e8ff", "#e8f4fd"]

  /** JavaScript's `Array.prototype.indexOf` with strict equality: the first
      index holding `x`, or -1 when there is none. */
  function IndexOf(s: seq<string>, x: string): (r: int)
    ensures -1 <= r < |s|
    ensures r == -1 <==> x !in s
    ensures 0 <= r ==> s[r] == x && x !in s[..r]
  {
    if s == [] then -1
    else if s[0] == x then 0
    else
      var k := IndexOf(s[1..], x);
      if k == -1 then -1
      else
        assert s[..k + 1] == [s[0]] + s[1..][..k];
        k + 1
  }

  /** `(currentIndex + 1) % colors.length` for an index `indexOf` can return:
      one past `i`, wrapping from the last entry to the first. */
  function NextIndex(i: int, len: nat): (r: nat)
    requires len > 0 && -1 <= i < len
    ensures r < len
  {
    if i + 1 == len then 0 else i + 1
  }

  /** For the palette's length the wrap-around is JavaScript's `%`: the
      dividend `currentIndex + 1` is never negative, so JavaScript's remainder
      and Dafny's agree. */
  lemma NextIndexIsRemainder(i: int)
    requires -1 <= i < |Colors|
    ensures NextIndex(i, |Colors|) == (i + 1) % 5
  {
  }

  /** The colour `changeBackgroundColor` moves to from `current` in palette
      `p`: the entry after the current one's first occurrence, wrapping at the
      end; since `indexOf` of an unknown colour is -1, that is entry 0 for any
      colour outside the palette. */
  function Cycle(p: seq<string>, current: string): (r: string)
    requires p != []
    ensures current !in p ==> r == p[0]
  {
    p[NextIndex(IndexOf(p, current), |p|)]
  }

  /** The colour after `k` successive changes starting at `c`. */
  function CycleTimes(p: seq<string>, c: string, k: nat): string
    requires p != []
  {
    if k == 0 then c else Cycle(p, CycleTimes(p, c, k - 1))
  }

  /** The palette index reached after `k` steps from index `i`. */
  function IndexAfter(i: nat, len: nat, k: nat): (r: nat)
    requires i < len
    ensures r < len
  {
    if k == 0 then i else NextIndex(IndexAfter(i, len, k - 1), len)
  }

  predicate Distinct(p: seq<string>) {
    forall a, b :: 0 <= a < b < |p| ==> p[a] != p[b]
  }

  /** Whatever the current colour, the next one is an entry of the palette. */
  lemma CycleInPalette(p: seq<string>, current: string)
    requires p != []
    ensures Cycle(p, current) in p
  {
  }

  /** In a palette of distinct entries `indexOf` finds each at its own place. */
  lemma IndexOfDistinct(p: seq<string>, i: nat)
    requires Distinct(p) && i < |p|
    ensures IndexOf(p, p[i]) == i
  {
    var k := IndexOf(p, p[i]);
    assert p[k] == p[i];
  }

  /** From entry i the next colour is the entry one further on, cyclically. */
  lemma CycleOfEntry(p: seq<string>, i: nat)
    requires Distinct(p) && i < |p|
    ensures Cycle(p, p[i]) == p[NextIndex(i, |p|)]
  {
    IndexOfDistinct(p, i);
  }

  /** k changes from entry i land on the entry k steps further on. */
  lemma {:induction false} CycleTimesOfEntry(p: seq<string>, i: nat, k: nat)
    requires Distinct(p) && i < |p|
    ensures CycleTimes(p, p[i], k) == p[IndexAfter(i, |p|, k)]
  {
    if k > 0 {
      CycleTimesOfEntry(p, i, k - 1);
      CycleOfEntry(p, IndexAfter(i, |p|, k - 1));
    }
  }

  /** Stepping k times from index i of a five-entry palette lands on
      (i + k) mod 5. */
  lemma {:induction false} IndexAfterClosedForm(i: nat, k: nat)
    requires i < |Colors|
    ensures IndexAfter(i, |Colors|, k) == (i + k) % 5
  {
    if k > 0 {
      IndexAfterClosedForm(i, k - 1);
      NextIndexIsRemainder(IndexAfter(i, |Colors|, k - 1));
    }
  }

  /** The five palette entries are pairwise different. */
  lemma ColorsDistinct()
    ensures Distinct(Colors)
  {
  }

  /** The hook's transition on the background colour: always a palette
      colour, and "#f4f4f4" after a colour the palette does not hold. */
  function NextColor(current: string): (next: string)
    ensures next in Colors
    ensures current !in Colors ==> next == "#f4f4f4"
  {
    CycleInPalette(Colors, current);
    Cycle(Colors, current)
  }

  /** From entry i the next colour is entry (i + 1) mod 5. */
  lemma NextColorOfEntry(i: nat)
    requires i < |Colors|
    ensures NextColor(Colors[i]) == Colors[(i + 1) % 5]
  {
    ColorsDistinct();
    CycleOfEntry(Colors, i);
    NextIndexIsRemainder(i);
  }

  /** The last entry wraps around to the first. */
  lemma NextColorWraps()
    ensures NextColor("#e8f4fd") == "#f4f4f4"
  {
    NextColorOfEntry(4);
  }

  /** Five successive changes from a palette colour return to the colour
      they started from, wherever in the cycle they start: the colour cycle has
      period 5. */
  lemma PeriodFive(i: nat, k: nat)
    requires i < |Colors|
    ensures CycleTimes(Colors, Colors[i], k + 5) == CycleTimes(Colors, Colors[i], k)
  {
    ColorsDistinct();
    CycleTimesOfEntry(Colors, i, k + 5);
    CycleTimesOfEntry(Colors, i, k);
    IndexAfterPeriodic(i, k);
  }

  lemma IndexAfterPeriodic(i: nat, k: nat)
    requires i < |Colors|
    ensures IndexAfter(i, |Colors|, k + 5) == IndexAfter(i, |Colors|, k)
  {
    IndexAfterClosedForm(i, k + 5);
    IndexAfterClosedForm(i, k);
  }

  /** No palette colour comes back in fewer than five changes: the cycle
      visits all five entries. */
  lemma LeastPeriodFive(i: nat, k: nat)
    requires i < |Colors| && 0 < k < 5
    ensures CycleTimes(Colors, Colors[i], k) != Colors[i]
  {
    ColorsDistinct();
    CycleTimesOfEntry(Colors, i, k);
    IndexAfterMoves(i, k);
  }

  /** Fewer than five steps never come back to the starting index. */
  lemma IndexAfterMoves(i: nat, k: nat)
    requires i < |Colors| && 0 < k < 5
    ensures IndexAfter(i, |Colors|, k) != i
  {
    IndexAfterClosedForm(i, k);
  }

  /** The hook's two state cells. The background is always a palette colour
      in the component as written; the model does not require it, since
      `NextColor` is total. */
  class Hook {
    var backgroundColor: string
    var counter: int

    /** `useState("#f4f4f4")` and `useState(0)`. */
    constructor ()
      ensures backgroundColor == Colors[0] == "#f4f4f4"
      ensures counter == 0
    {
      backgroundColor := "#f4f4f4";
      counter := 0;
    }

    /** `changeBackgroundColor`: advance to the next palette entry; the
        counter is untouched. */
    method ChangeBackgroundColor()
      modifies this
      ensures backgroundColor == NextColor(old(backgroundColor))
      ensures backgroundColor in Colors
      ensures counter == old(counter)
    {
      backgroundColor := NextColor(backgroundColor);
    }

    /** `incrementCounter`: the counter goes up by exactly one; the
        background is untouched. */
    method IncrementCounter()
      modifies this
      ensures counter == old(counter) + 1
      ensures backgroundColor == old(backgroundColor)
    {
      counter := counter + 1;
    }
  }
}
