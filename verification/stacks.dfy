/** LIFO stacks as sequences whose top is the LAST element: pushing appends,
    popping drops the last element. */
module Stacks {

  function Push<T>(st: seq<T>, x: T): seq<T> {
    st + [x]
  }

  function Top<T>(st: seq<T>): T
    requires |st| > 0
  {
    st[|st| - 1]
  }

  function Pop<T>(st: seq<T>): seq<T>
    requires |st| > 0
  {
    st[..|st| - 1]
  }

  /** The elements in the order repeated pops return them. */
  function PopAll<T>(st: seq<T>): (r: seq<T>)
    ensures |r| == |st|
    ensures forall k | 0 <= k < |st| :: r[k] == st[|st| - 1 - k]
  {
    if |st| == 0 then [] else [Top(st)] + PopAll(Pop(st))
  }

  /** Pushing the elements of xs one after the other, as a loop over xs does. */
  function PushAll<T>(st: seq<T>, xs: seq<T>): (r: seq<T>)
    ensures |r| == |st| + |xs|
    ensures r[..|st|] == st
    ensures forall k | 0 <= k < |xs| :: r[|st| + k] == xs[k]
    decreases |xs|
  {
    if |xs| == 0 then st else PushAll(Push(st, xs[0]), xs[1..])
  }

  /** Pushing onto an empty stack builds a stack whose top is the last element
      pushed. */
  lemma PushAllOntoEmpty<T>(xs: seq<T>)
    ensures PushAll([], xs) == xs
  {
    var st := PushAll([], xs);
    forall k | 0 <= k < |xs| ensures st[k] == xs[k] {
      assert st[0 + k] == xs[k];
    }
  }
}
