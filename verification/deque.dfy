/**
  The fixed-capacity history used by the pump controller: a `collections.deque`
  created with `maxlen`. The contents are a sequence, oldest first, whose length
  never exceeds the capacity.
 */
module BoundedDeque {

  /** `d[-1]`: the newest entry. */
  function Last<T>(d: seq<T>): T
    requires |d| > 0
  {
    d[|d| - 1]
  }

  /**
    `d.append(x)` on a deque with `maxlen = cap`. A full deque drops its oldest
    entry; a deque of capacity 0 stays empty.
   */
  function Append<T>(d: seq<T>, cap: nat, x: T): (r: seq<T>)
    requires |d| <= cap
    ensures |r| <= cap
    ensures |r| == if |d| < cap then |d| + 1 else cap
    ensures cap == 0 ==> r == []
    ensures cap > 0 ==> Last(r) == x
  {
    if cap == 0 then d
    else if |d| == cap then d[1..] + [x]
    else d + [x]
  }

  /** The entries kept by `append` are the newest ones of the old deque, in order. */
  lemma AppendKeepsNewest<T>(d: seq<T>, cap: nat, x: T)
    requires 0 < cap && |d| <= cap
    ensures var r := Append(d, cap, x);
      r[..|r| - 1] == d[|d| + 1 - |r|..]
  {
  }

  /** `d[-1] = x`: replaces the newest entry and keeps the others. */
  function SetLast<T>(d: seq<T>, x: T): (r: seq<T>)
    requires |d| > 0
    ensures |r| == |d|
    ensures Last(r) == x
    ensures r[..|r| - 1] == d[..|d| - 1]
  {
    d[|d| - 1 := x]
  }
}
