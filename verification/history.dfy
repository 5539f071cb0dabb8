/** The command log shown under "Recent Commands": at most five entries, newest last.
    Each completed dispatch appends `{command, success}` after keeping only the last four
    of the previous entries (`[...prev.slice(-4), entry]`). */
module History {

  datatype HistoryEntry = HistoryEntry(command: string, success: bool)

  /** The most entries the log ever holds. */
  const Capacity: nat := 5

  /** `s.slice(-k)` for `k > 0`: the start index `|s| - k` is clamped to zero. */
  function SliceFromEnd<T>(s: seq<T>, k: nat): (r: seq<T>)
    requires k > 0
    ensures |r| == if |s| < k then |s| else k
    ensures r == s[|s| - |r|..]
  {
    s[if |s| < k then 0 else |s| - k..]
  }

  /** One append to the log. The new entry is last, and before it stand the newest
      `min(|h|, 4)` old entries in their old order, so the log never exceeds five. */
  function Append(h: seq<HistoryEntry>, e: HistoryEntry): (r: seq<HistoryEntry>)
    ensures 1 <= |r| <= Capacity
    ensures |r| == (if |h| < Capacity - 1 then |h| else Capacity - 1) + 1
    ensures r == h[|h| - (|r| - 1)..] + [e]
  {
    SliceFromEnd(h, Capacity - 1) + [e]
  }

  /** Below capacity nothing is evicted: the entry is simply added at the end. */
  lemma {:induction false} AppendBelowCapacity(h: seq<HistoryEntry>, e: HistoryEntry)
    requires |h| < Capacity
    ensures Append(h, e) == h + [e]
  {
  }

  /** Reference policy: while the log is over capacity, evict its oldest entry. */
  function EvictOldest<T>(s: seq<T>, cap: nat): seq<T>
    decreases |s|
  {
    if |s| <= cap then s else EvictOldest(s[1..], cap)
  }

  /** The newest `cap` entries of `s`, in order. */
  function Newest<T>(s: seq<T>, cap: nat): (r: seq<T>)
    ensures |r| <= cap && |r| <= |s|
    ensures r == s[|s| - |r|..]
    ensures |s| <= cap ==> r == s
  {
    if |s| <= cap then s else s[|s| - cap..]
  }

  /** Eviction keeps exactly the newest `cap` entries. */
  lemma {:induction false} EvictOldestKeepsNewest<T>(s: seq<T>, cap: nat)
    ensures EvictOldest(s, cap) == Newest(s, cap)
    decreases |s|
  {
    if |s| > cap {
      EvictOldestKeepsNewest(s[1..], cap);
      assert s[1..][|s| - 1 - cap..] == s[|s| - cap..];
    }
  }

  /** The slice-then-append of the source is first-in-first-out eviction: appending `e`
      and then evicting the oldest entries down to five gives the same log. */
  lemma {:induction false} AppendIsFifoEviction(h: seq<HistoryEntry>, e: HistoryEntry)
    ensures Append(h, e) == EvictOldest(h + [e], Capacity)
  {
    EvictOldestKeepsNewest(h + [e], Capacity);
    var r := Append(h, e);
    if |h| + 1 > Capacity {
      assert r == (h + [e])[|h| + 1 - Capacity..];
    } else {
      assert r == h + [e];
    }
  }

  /** The log after a series of completed dispatches, oldest first. */
  function AppendAll(h: seq<HistoryEntry>, es: seq<HistoryEntry>): seq<HistoryEntry>
    decreases |es|
  {
    if es == [] then h else AppendAll(Append(h, es[0]), es[1..])
  }

  /** Keeping the newest entries in two stages is keeping them once. */
  lemma {:induction false} NewestTwice<T>(a: seq<T>, b: seq<T>, cap: nat)
    ensures Newest(Newest(a, cap) + b, cap) == Newest(a + b, cap)
  {
    var a' := Newest(a, cap);
    var p := a[..|a| - |a'|];
    assert a == p + a';
    var x := a' + b;
    assert a + b == p + x;
    if |x| <= cap {
      if |a| > cap {
        assert b == [] && a + b == a;
      } else {
        assert p == [];
      }
    } else {
      DropPrefixThenSuffix(p, x, |x| - cap);
    }
  }

  /** A suffix of `x` is the same suffix of `p + x`. */
  lemma {:induction false} DropPrefixThenSuffix<T>(p: seq<T>, x: seq<T>, j: nat)
    requires j <= |x|
    ensures (p + x)[|p| + j..] == x[j..]
  {
    assert |(p + x)[|p| + j..]| == |x[j..]|;
    forall i | 0 <= i < |x| - j ensures (p + x)[|p| + j..][i] == x[j..][i] {
      assert (p + x)[|p| + j + i] == x[j + i];
    }
  }

  /** From a log within capacity, any series of appends leaves exactly the newest five
      of all entries seen, in the order they were recorded. */
  lemma {:induction false} AppendAllKeepsNewest(h: seq<HistoryEntry>, es: seq<HistoryEntry>)
    requires |h| <= Capacity
    ensures AppendAll(h, es) == EvictOldest(h + es, Capacity)
    decreases |es|
  {
    if es == [] {
      assert h + es == h;
    } else {
      var e, rest := es[0], es[1..];
      var h' := Append(h, e);
      assert h' == Newest(h + [e], Capacity) by {
        AppendIsFifoEviction(h, e);
        EvictOldestKeepsNewest(h + [e], Capacity);
      }
      assert h + [e] + rest == h + es;
      calc {
        AppendAll(h, es);
        AppendAll(h', rest);
        { AppendAllKeepsNewest(h', rest); }
        EvictOldest(h' + rest, Capacity);
        { EvictOldestKeepsNewest(h' + rest, Capacity); }
        Newest(Newest(h + [e], Capacity) + rest, Capacity);
        { NewestTwice(h + [e], rest, Capacity); }
        Newest(h + es, Capacity);
        { EvictOldestKeepsNewest(h + es, Capacity); }
        EvictOldest(h + es, Capacity);
      }
    }
  }
}
