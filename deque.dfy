/**
 * A bounded double-ended queue, as created by `deque(maxlen=n)`: appending to
 * a full deque silently drops the element at the other (oldest) end.  The
 * deque is modelled by its contents, oldest first.
 */
module BoundedDeque {

  /** The contents after `append(v)` on a deque holding `w`. */
  function Append<T>(w: seq<T>, v: T, maxlen: nat): (r: seq<T>)
    requires |w| <= maxlen && maxlen > 0
    ensures |r| == if |w| < maxlen then |w| + 1 else maxlen
    // the deque keeps exactly the most recent elements ever appended
    ensures r == (w + [v])[|w| + 1 - |r|..]
    ensures r[|r| - 1] == v
  {
    if |w| < maxlen then w + [v] else w[1..] + [v]
  }

  /** The contents after `extend(items)`: one `append` per item, in order. */
  function Extend<T>(w: seq<T>, items: seq<T>, maxlen: nat): (r: seq<T>)
    requires |w| <= maxlen && maxlen > 0
    ensures |r| == if |w| + |items| < maxlen then |w| + |items| else maxlen
    decreases |items|
  {
    if items == [] then w
    else Extend(Append(w, items[0], maxlen), items[1..], maxlen)
  }

  /** After `extend`, the deque holds the most recent `maxlen` elements of `w + items`. */
  lemma {:induction false} ExtendKeepsMostRecent<T>(w: seq<T>, items: seq<T>, maxlen: nat)
    requires |w| <= maxlen && maxlen > 0
    ensures Extend(w, items, maxlen) == (w + items)[|w| + |items| - |Extend(w, items, maxlen)|..]
    decreases |items|
  {
    if items == [] {
      assert w + items == w;
    } else {
      var w' := Append(w, items[0], maxlen);
      var r := Extend(w', items[1..], maxlen);
      var d := |w| + 1 - |w'|;
      var k := |w'| + |items| - 1 - |r|;
      assert r == (w' + items[1..])[k..] by {
        ExtendKeepsMostRecent(w', items[1..], maxlen);
      }
      assert w' + items[1..] == (w + items)[d..] by {
        DropThenAppend(w, items, d);
      }
      assert (w + items)[d..][k..] == (w + items)[d + k..] by {
        DropTwice(w + items, d, k);
      }
    }
  }

  lemma DropThenAppend<T>(w: seq<T>, items: seq<T>, d: nat)
    requires items != [] && d <= |w| + 1
    ensures (w + [items[0]])[d..] + items[1..] == (w + items)[d..]
  {
    assert w + items == (w + [items[0]]) + items[1..];
  }

  lemma DropTwice<T>(s: seq<T>, d: nat, m: nat)
    requires d + m <= |s|
    ensures s[d..][m..] == s[d + m..]
  {
  }

  /** Appending to a full deque evicts exactly the oldest element. */
  lemma AppendToFullEvictsOldest<T>(w: seq<T>, v: T, maxlen: nat)
    requires |w| == maxlen > 0
    ensures Append(w, v, maxlen) == w[1..] + [v]
  {
  }

  /** Filling an empty deque with at most `maxlen` items keeps all of them. */
  lemma ExtendEmpty<T>(items: seq<T>, maxlen: nat)
    requires 0 < |items| <= maxlen
    ensures Extend([], items, maxlen) == items
  {
    ExtendKeepsMostRecent([], items, maxlen);
    assert [] + items == items;
  }
}
