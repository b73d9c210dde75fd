/** `a.splice(start, 1)` following section 23.1.3.31 of ECMA-262 (2023
    edition), `Array.prototype.splice`, on the array it leaves behind. The
    removed elements it returns are not used by the photographer. */
module ArraySplice {

  /** Steps 3 to 6 of the algorithm: where deletion starts. A negative
      `start` counts from the end, clamped at 0; a `start` past the end is
      clamped to the length. */
  function ActualStart(len: nat, start: int): (k: nat)
    ensures k <= len
    ensures k < len <==> 0 < len && start < len
  {
    if start < 0 then (if len + start < 0 then 0 else len + start)
    else if start < len then start
    else len
  }

  /** The array left after `splice(start, 1)`: the delete count 1 is clamped
      to what remains after the actual start (step 10), and that many
      elements are removed there, later elements moving down. */
  function SpliceRemove<T>(s: seq<T>, start: int): (r: seq<T>)
    ensures |r| == if 0 < |s| && start < |s| then |s| - 1 else |s|
    ensures multiset(r) <= multiset(s)
    ensures forall x | x in r :: x in s
  {
    var actualStart := ActualStart(|s|, start);
    var deleteCount := if |s| - actualStart < 1 then |s| - actualStart else 1;
    assert s == s[..actualStart] + s[actualStart..actualStart + deleteCount] + s[actualStart + deleteCount..];
    s[..actualStart] + s[actualStart + deleteCount..]
  }

  /** An index inside the array removes exactly that element; those before
      it keep their places, those after it move down by one. */
  lemma SpliceRemoveInRange<T>(s: seq<T>, i: int)
    requires 0 <= i < |s|
    ensures |SpliceRemove(s, i)| == |s| - 1
    ensures forall j | 0 <= j < i :: SpliceRemove(s, i)[j] == s[j]
    ensures forall j | i <= j < |s| - 1 :: SpliceRemove(s, i)[j] == s[j + 1]
  {
  }

  /** An index at or past the end removes nothing. */
  lemma SpliceRemoveBeyondEnd<T>(s: seq<T>, i: int)
    requires i >= |s|
    ensures SpliceRemove(s, i) == s
  {
  }

  /** A negative index counts from the end: it removes the element at
      `max(|s| + i, 0)` of a non-empty array, and nothing of an empty one. */
  lemma SpliceRemoveFromEnd<T>(s: seq<T>, i: int)
    requires i < 0
    ensures var k := if |s| + i < 0 then 0 else |s| + i;
      |s| > 0 ==> SpliceRemove(s, i) == s[..k] + s[k + 1..]
    ensures |s| == 0 ==> SpliceRemove(s, i) == []
  {
  }

  /** Nothing but the removed element is lost: the result together with
      the element at the actual start is the original multiset. */
  lemma SpliceRemoveLosesOnlyOne<T>(s: seq<T>, i: int)
    requires 0 < |s| && i < |s|
    ensures multiset(SpliceRemove(s, i)) + multiset{s[ActualStart(|s|, i)]} == multiset(s)
  {
    var k := ActualStart(|s|, i);
    assert s == s[..k] + [s[k]] + s[k + 1..];
  }
}
