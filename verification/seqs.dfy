/** Sequence operations the dashboard performs on its arrays: `filter`,
    `slice(-n)` and the fixed-capacity history append. */
module Seqs {

  /** `s.filter(keep)`: the elements that pass, in their original order. */
  function Filter<T>(s: seq<T>, keep: T -> bool): (r: seq<T>)
    ensures |r| <= |s|
    ensures forall i :: 0 <= i < |r| ==> keep(r[i])
  {
    if |s| == 0 then []
    else (if keep(s[0]) then [s[0]] else []) + Filter(s[1..], keep)
  }

  /** The filtered sequence holds exactly the elements that pass. */
  lemma {:induction false} FilterMembers<T>(s: seq<T>, keep: T -> bool)
    ensures forall i :: 0 <= i < |Filter(s, keep)| ==> Filter(s, keep)[i] in s
    ensures forall i :: 0 <= i < |s| && keep(s[i]) ==> s[i] in Filter(s, keep)
  {
    if |s| > 0 {
      FilterMembers(s[1..], keep);
      var r := Filter(s, keep);
      var rest := Filter(s[1..], keep);
      assert r == (if keep(s[0]) then [s[0]] else []) + rest;
      forall i | 0 <= i < |r| ensures r[i] in s {
        if !keep(s[0]) || i > 0 {
          var j := if keep(s[0]) then i - 1 else i;
          assert r[i] == rest[j];
          assert rest[j] in s[1..];
        }
      }
      forall i | 0 <= i < |s| && keep(s[i]) ensures s[i] in r {
        if i > 0 {
          assert s[i] == s[1..][i - 1];
        }
      }
    }
  }

  /** Filtering commutes with concatenation, so it keeps relative order. */
  lemma {:induction false} FilterConcat<T>(a: seq<T>, b: seq<T>, keep: T -> bool)
    ensures Filter(a + b, keep) == Filter(a, keep) + Filter(b, keep)
  {
    if |a| == 0 {
      assert a + b == b;
    } else {
      assert (a + b)[1..] == a[1..] + b;
      FilterConcat(a[1..], b, keep);
    }
  }

  /** A sequence whose every element passes is returned unchanged. */
  lemma {:induction false} FilterKeepsAll<T>(s: seq<T>, keep: T -> bool)
    requires forall i :: 0 <= i < |s| ==> keep(s[i])
    ensures Filter(s, keep) == s
  {
    if |s| > 0 {
      FilterKeepsAll(s[1..], keep);
    }
  }

  /** An element that fails the test is never returned, so a sequence with
      no passing element filters to nothing. */
  lemma {:induction false} FilterDropsAll<T>(s: seq<T>, keep: T -> bool)
    requires forall i :: 0 <= i < |s| ==> !keep(s[i])
    ensures Filter(s, keep) == []
  {
    if |s| > 0 {
      FilterDropsAll(s[1..], keep);
    }
  }

  /** Filtering twice with the same test is filtering once. */
  lemma {:induction false} FilterIdempotent<T>(s: seq<T>, keep: T -> bool)
    ensures Filter(Filter(s, keep), keep) == Filter(s, keep)
  {
    var r := Filter(s, keep);
    FilterKeepsAll(r, keep);
  }

  /** A sequence holding an element that fails the test gets strictly
      shorter. */
  lemma {:induction false} FilterShrinks<T>(s: seq<T>, k: nat, keep: T -> bool)
    requires k < |s| && !keep(s[k])
    ensures |Filter(s, keep)| < |s|
  {
    if k > 0 {
      FilterShrinks(s[1..], k - 1, keep);
    }
  }

  /** A more lenient test keeps at least as many elements. */
  lemma {:induction false} FilterWeaker<T>(s: seq<T>, strict: T -> bool, lenient: T -> bool)
    requires forall i :: 0 <= i < |s| ==> strict(s[i]) ==> lenient(s[i])
    ensures |Filter(s, strict)| <= |Filter(s, lenient)|
  {
    if |s| > 0 {
      FilterWeaker(s[1..], strict, lenient);
    }
  }

  /** Filtering out a single failing element cuts exactly that position. */
  lemma {:induction false} FilterCut<T>(s: seq<T>, k: nat, keep: T -> bool)
    requires k < |s| && !keep(s[k])
    requires forall i :: 0 <= i < |s| && i != k ==> keep(s[i])
    ensures Filter(s, keep) == s[..k] + s[k + 1..]
  {
    if k == 0 {
      FilterKeepsAll(s[1..], keep);
    } else {
      FilterCut(s[1..], k - 1, keep);
      assert s[1..][..k - 1] == s[1..k];
      assert s[1..][k..] == s[k + 1..];
      assert s[..k] == [s[0]] + s[1..k];
    }
  }

  /** `s.slice(-n)` for a positive `n`: the last `n` elements, or all of `s`
      when it is shorter. (`slice(-0)` would return all of `s`; the program
      never asks for it.) */
  function Last<T>(s: seq<T>, n: nat): (r: seq<T>)
    requires n > 0
    ensures |r| == if |s| < n then |s| else n
    ensures r == s[|s| - |r|..]
  {
    if |s| <= n then s else s[|s| - n..]
  }

  /** Number of samples a history buffer holds. */
  const Capacity: nat := 6

  /** `[...buf.slice(-5), x]`: append to a window of `Capacity` samples,
      dropping the oldest when it is full. */
  function Push<T>(buf: seq<T>, x: T): (r: seq<T>)
    ensures |r| == (if |buf| < Capacity - 1 then |buf| else Capacity - 1) + 1
    ensures 1 <= |r| <= Capacity
    ensures r[|r| - 1] == x
    ensures r[..|r| - 1] == buf[|buf| - (|r| - 1)..]
  {
    Last(buf, Capacity - 1) + [x]
  }

  /** Pushing into a full window drops exactly the oldest sample. */
  lemma PushFull<T>(buf: seq<T>, x: T)
    requires |buf| == Capacity
    ensures Push(buf, x) == buf[1..] + [x]
  {
  }

  /** Pushing into a window that is not full drops nothing. */
  lemma PushNotFull<T>(buf: seq<T>, x: T)
    requires |buf| < Capacity
    ensures Push(buf, x) == buf + [x]
  {
  }

  /** The window is the reference "last `Capacity` samples ever appended":
      if it held the tail of the history `h`, after a push it holds the tail
      of `h + [x]`. */
  lemma PushTracksHistory<T>(h: seq<T>, x: T)
    ensures Push(Last(h, Capacity), x) == Last(h + [x], Capacity)
  {
    if |h| < Capacity {
      assert Last(h, Capacity) == h;
      assert Last(h, Capacity - 1) == h[|h| - |Last(h, Capacity - 1)|..];
    } else {
      assert Last(h, Capacity) == h[|h| - Capacity..];
      assert Last(h + [x], Capacity) == h[|h| - (Capacity - 1)..] + [x];
    }
  }

  /** Folding pushes over a list of samples keeps the last `Capacity` of them. */
  function PushAll<T>(buf: seq<T>, xs: seq<T>): seq<T>
    decreases |xs|
  {
    if |xs| == 0 then buf else PushAll(Push(buf, xs[0]), xs[1..])
  }

  /** Starting from the tail of a history, any run of pushes leaves the tail of
      the extended history: the window never forgets a recent sample and never
      keeps an old one. */
  lemma {:induction false} PushAllTracksHistory<T>(h: seq<T>, xs: seq<T>)
    ensures PushAll(Last(h, Capacity), xs) == Last(h + xs, Capacity)
    decreases |xs|
  {
    if |xs| == 0 {
      assert h + xs == h;
    } else {
      PushTracksHistory(h, xs[0]);
      PushAllTracksHistory(h + [xs[0]], xs[1..]);
      assert (h + [xs[0]]) + xs[1..] == h + xs;
    }
  }
}
