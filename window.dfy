/** The sliding window of recently seen numbers, as values.

    The controller keeps its window in a `LinkedHashSet<Integer>`: a set that
    remembers insertion order.  Here that set is a sequence with no
    duplicates, oldest member first.  This module defines what one merge does
    to it (`AddAll`, then `Trim`) and proves the properties the window is
    meant to have. */
module SlidingWindow {

  /** A Java `Integer` (the window holds boxed 32-bit ints). */
  newtype int32 = x: int | -0x8000_0000 <= x < 0x8000_0000

  /** Largest Java `int`; the configured window size is one. */
  const INT_MAX: int := 0x7fff_ffff

  /** Range of a Java `long`. */
  const LONG_MIN: int := -0x8000_0000_0000_0000
  const LONG_MAX: int := 0x7fff_ffff_ffff_ffff

  /** No value occurs twice: what makes a sequence a set. */
  predicate Distinct(s: seq<int32>)
  {
    forall i, j :: 0 <= i < j < |s| ==> s[i] != s[j]
  }

  /** Position of the first occurrence of `x` in `s`. */
  function FirstIndex(s: seq<int32>, x: int32): (k: nat)
    requires x in s
    ensures k < |s| && s[k] == x
    ensures x !in s[..k]
  {
    if s[0] == x then 0
    else
      var k := 1 + FirstIndex(s[1..], x);
      assert s[..k] == [s[0]] + s[1..][..k - 1];
      k
  }

  /** `LinkedHashSet.add`: a value already present keeps its place, a new one
      goes to the end. */
  function Add(w: seq<int32>, x: int32): (r: seq<int32>)
    ensures |w| <= |r| <= |w| + 1 && r[..|w|] == w
    ensures x in r
    ensures |r| == |w| + 1 <==> x !in w
  {
    if x in w then w else w + [x]
  }

  /** `LinkedHashSet.addAll(batch)`: `add` of each batch value, in batch order. */
  function AddAll(w: seq<int32>, batch: seq<int32>): (r: seq<int32>)
    ensures |w| <= |r| <= |w| + |batch|
    decreases |batch|
  {
    if batch == [] then w
    else Add(AddAll(w, batch[..|batch| - 1]), batch[|batch| - 1])
  }

  /** Keep only the newest `n` members: when the union is larger than the
      window, rebuild it from its last `n` elements. */
  function Trim(u: seq<int32>, n: nat): (r: seq<int32>)
    ensures |r| <= n
    ensures |u| <= n ==> r == u
    ensures |u| > n ==> |r| == n && u == u[..|u| - n] + r
  {
    if |u| > n then u[|u| - n..] else u
  }

  /** The window after one merge of `batch` into `w` with capacity `n`. */
  function MergeWindow(w: seq<int32>, batch: seq<int32>, n: nat): (r: seq<int32>)
    ensures |r| <= n
    ensures forall x :: x in r ==> x in w || x in batch
  {
    AddAllElements(w, batch);
    Trim(AddAll(w, batch), n)
  }

  // ----- AddAll: what the ordered union is -----

  /** Members already in the window do not move: the old window is a prefix
      of the union. */
  lemma {:induction false} AddAllKeepsPrefix(w: seq<int32>, batch: seq<int32>)
    ensures |w| <= |AddAll(w, batch)|
    ensures AddAll(w, batch)[..|w|] == w
    decreases |batch|
  {
    if batch != [] {
      var init := batch[..|batch| - 1];
      AddAllKeepsPrefix(w, init);
      var u := AddAll(w, init);
      assert (u + [batch[|batch| - 1]])[..|w|] == u[..|w|];
    }
  }

  /** The union holds exactly the old members and the batch values. */
  lemma {:induction false} AddAllElements(w: seq<int32>, batch: seq<int32>)
    ensures forall x :: x in AddAll(w, batch) <==> x in w || x in batch
    decreases |batch|
  {
    if batch != [] {
      var init, x := batch[..|batch| - 1], batch[|batch| - 1];
      var u := AddAll(w, init);
      assert batch == init + [x];
      AddAllElements(w, init);
      if x in u {
        assert AddAll(w, batch) == u;
      } else {
        assert AddAll(w, batch) == u + [x];
      }
    }
  }

  /** Everything past the old prefix is a batch value that was not in the
      window before. */
  lemma {:induction false} AddAllNewValues(w: seq<int32>, batch: seq<int32>)
    ensures |w| <= |AddAll(w, batch)|
    ensures forall i :: |w| <= i < |AddAll(w, batch)| ==>
              AddAll(w, batch)[i] in batch && AddAll(w, batch)[i] !in w
    decreases |batch|
  {
    if batch != [] {
      var init, x := batch[..|batch| - 1], batch[|batch| - 1];
      var u, r := AddAll(w, init), AddAll(w, batch);
      assert batch == init + [x];
      AddAllNewValues(w, init);
      if x in u {
        assert r == u;
      } else {
        assert r == u + [x];
        AddAllElements(w, init);
        assert x !in w;
      }
      forall i | |w| <= i < |r|
        ensures r[i] in batch && r[i] !in w
      {
        if i < |u| {
          assert r[i] == u[i] && u[i] in init;
        }
      }
    }
  }

  /** Adding to a set keeps it a set. */
  lemma {:induction false} AddAllDistinct(w: seq<int32>, batch: seq<int32>)
    requires Distinct(w)
    ensures Distinct(AddAll(w, batch))
    decreases |batch|
  {
    if batch != [] {
      AddAllDistinct(w, batch[..|batch| - 1]);
    }
  }

  /** The new members appear in the order of their first occurrence in the
      batch: repeats later in the batch do not move them. */
  lemma {:induction false} AddAllFirstOccurrenceOrder(w: seq<int32>, batch: seq<int32>)
    ensures |w| <= |AddAll(w, batch)|
    ensures forall i, j :: |w| <= i < j < |AddAll(w, batch)| ==>
              AddAll(w, batch)[i] in batch && AddAll(w, batch)[j] in batch &&
              FirstIndex(batch, AddAll(w, batch)[i]) < FirstIndex(batch, AddAll(w, batch)[j])
    decreases |batch|
  {
    if batch != [] {
      var init := batch[..|batch| - 1];
      var x := batch[|batch| - 1];
      var u := AddAll(w, init);
      var r := AddAll(w, batch);
      AddAllFirstOccurrenceOrder(w, init);
      AddAllNewValues(w, init);
      assert batch == init + [x];
      forall i, j | |w| <= i < j < |r|
        ensures r[i] in batch && r[j] in batch && FirstIndex(batch, r[i]) < FirstIndex(batch, r[j])
      {
        assert r[i] == u[i] && u[i] in init;
        FirstIndexExtend(init, x, u[i]);
        if j < |u| {
          assert r[j] == u[j] && u[j] in init;
          FirstIndexExtend(init, x, u[j]);
        } else {
          assert r == u + [x] && r[j] == x && x !in init by {
            AddAllElements(w, init);
          }
          assert FirstIndex(batch, x) == |init| by {
            assert batch[..|init|] == init;
          }
        }
      }
    }
  }

  /** Appending to a sequence does not change the first occurrence of a value
      already in it. */
  lemma {:induction false} FirstIndexExtend(s: seq<int32>, x: int32, y: int32)
    requires y in s
    ensures FirstIndex(s + [x], y) == FirstIndex(s, y)
    decreases |s|
  {
    if s[0] != y {
      assert (s + [x])[1..] == s[1..] + [x];
      FirstIndexExtend(s[1..], x, y);
    }
  }

  /** The batch's new values, read front to back: each value not yet in the
      window, and not seen earlier in the batch, in the order it comes. */
  function NewValues(w: seq<int32>, batch: seq<int32>): (r: seq<int32>)
    ensures |r| <= |batch|
    decreases |batch|
  {
    if batch == [] then []
    else if batch[0] in w then NewValues(w, batch[1..])
    else [batch[0]] + NewValues(w + [batch[0]], batch[1..])
  }

  /** Adding a batch in two parts is adding the first part, then the second. */
  lemma {:induction false} AddAllConcat(w: seq<int32>, a: seq<int32>, c: seq<int32>)
    ensures AddAll(w, a + c) == AddAll(AddAll(w, a), c)
    decreases |c|
  {
    if c == [] {
      assert a + c == a;
    } else {
      var init := c[..|c| - 1];
      assert (a + c)[..|a + c| - 1] == a + init;
      assert (a + c)[|a + c| - 1] == c[|c| - 1];
      AddAllConcat(w, a, init);
    }
  }

  /** Adding a batch is adding its first value, then the rest. */
  lemma AddAllFirst(w: seq<int32>, batch: seq<int32>)
    requires batch != []
    ensures AddAll(w, batch) == AddAll(Add(w, batch[0]), batch[1..])
  {
    assert batch == [batch[0]] + batch[1..];
    AddAllConcat(w, [batch[0]], batch[1..]);
    assert [batch[0]][..0] == [];
  }

  /** A first value already present changes neither the union nor the new values. */
  lemma AddAllFirstPresent(w: seq<int32>, batch: seq<int32>)
    requires batch != [] && batch[0] in w
    ensures AddAll(w, batch) == AddAll(w, batch[1..])
    ensures NewValues(w, batch) == NewValues(w, batch[1..])
  {
    AddAllFirst(w, batch);
    assert Add(w, batch[0]) == w;
  }

  /** A first value not yet present joins the window and heads the new values. */
  lemma AddAllFirstAbsent(w: seq<int32>, batch: seq<int32>)
    requires batch != [] && batch[0] !in w
    ensures AddAll(w, batch) == AddAll(w + [batch[0]], batch[1..])
    ensures NewValues(w, batch) == [batch[0]] + NewValues(w + [batch[0]], batch[1..])
  {
    AddAllFirst(w, batch);
    assert Add(w, batch[0]) == w + [batch[0]];
  }

  /** The ordered union is the old window followed by the batch's new values,
      in the order of their first occurrence in the batch. */
  lemma {:induction false} AddAllIsWindowThenNewValues(w: seq<int32>, batch: seq<int32>)
    ensures AddAll(w, batch) == w + NewValues(w, batch)
    decreases |batch|
  {
    if batch != [] {
      var x, rest := batch[0], batch[1..];
      if x in w {
        AddAllFirstPresent(w, batch);
        AddAllIsWindowThenNewValues(w, rest);
      } else {
        var w' := w + [x];
        AddAllFirstAbsent(w, batch);
        AddAllIsWindowThenNewValues(w', rest);
        assert w + ([x] + NewValues(w', rest)) == w' + NewValues(w', rest);
      }
    }
  }

  /** A batch of values that are all present (the empty batch included)
      leaves the union equal to the window. */
  lemma {:induction false} AddAllNothingNew(w: seq<int32>, batch: seq<int32>)
    requires forall x :: x in batch ==> x in w
    ensures AddAll(w, batch) == w
    decreases |batch|
  {
    if batch != [] {
      AddAllNothingNew(w, batch[..|batch| - 1]);
      assert batch[|batch| - 1] in batch;
    }
  }

  // ----- MergeWindow: the window's invariants -----

  /** One merge keeps the window a set and within its capacity. */
  lemma MergeKeepsInvariant(w: seq<int32>, batch: seq<int32>, n: nat)
    requires Distinct(w)
    ensures Distinct(MergeWindow(w, batch, n))
    ensures |MergeWindow(w, batch, n)| <= n
  {
    AddAllDistinct(w, batch);
  }

  /** Without overflow the new window is the old one followed by the batch's
      new values; with overflow it is the newest `n` members of that union and
      the members dropped are exactly its oldest `|union| - n`. */
  lemma {:induction false} MergeEvictsOldest(w: seq<int32>, batch: seq<int32>, n: nat)
    ensures |w| <= |AddAll(w, batch)|
    ensures |AddAll(w, batch)| <= n ==>
      MergeWindow(w, batch, n) == AddAll(w, batch) &&
      MergeWindow(w, batch, n)[..|w|] == w
    ensures |AddAll(w, batch)| > n ==>
      |MergeWindow(w, batch, n)| == n &&
      AddAll(w, batch) == AddAll(w, batch)[..|AddAll(w, batch)| - n] + MergeWindow(w, batch, n)
  {
    AddAllKeepsPrefix(w, batch);
  }

  /** Merging a batch whose values are all present (or an empty batch) into a
      valid window changes nothing. */
  lemma MergeNothingNew(w: seq<int32>, batch: seq<int32>, n: nat)
    requires |w| <= n
    requires forall x :: x in batch ==> x in w
    ensures MergeWindow(w, batch, n) == w
  {
    AddAllNothingNew(w, batch);
  }

  // ----- the average of the window -----

  /** Sum of the members, as an unbounded integer. */
  function Sum(s: seq<int32>): (total: int)
    decreases |s|
  {
    if s == [] then 0 else Sum(s[..|s| - 1]) + s[|s| - 1] as int
  }

  /** `IntStream.average()`: empty when there is nothing to average, otherwise
      the sum and the count whose quotient is the double the source reports.
      The controller turns the empty case into 0.0 with `orElse`. */
  datatype Average = NoElements | Quotient(sum: int, count: nat)

  /** The average is empty only for an empty window; it is then reported as
      0.0. */
  function AverageOf(s: seq<int32>): (a: Average)
    ensures a.NoElements? <==> s == []
  {
    if s == [] then NoElements else Quotient(Sum(s), |s|)
  }

  /** A non-empty window has a smallest member, at `lo`, and a largest one,
      at `hi`. */
  lemma {:induction false} MemberBounds(s: seq<int32>) returns (lo: nat, hi: nat)
    requires s != []
    ensures lo < |s| && hi < |s|
    ensures forall k :: 0 <= k < |s| ==> s[lo] <= s[k] <= s[hi]
    decreases |s|
  {
    var n := |s| - 1;
    if n == 0 {
      lo, hi := 0, 0;
    } else {
      var init := s[..n];
      var l, h := MemberBounds(init);
      lo := if s[n] < init[l] then n else l;
      hi := if init[h] < s[n] then n else h;
      forall k | 0 <= k < |s|
        ensures s[lo] <= s[k] <= s[hi]
      {
        if k < n { assert s[k] == init[k]; }
      }
    }
  }

  /** The mean lies between the smallest and the largest member: for a
      non-empty window, count times its smallest member `s[lo]` is at most
      the sum, and the sum is at most count times its largest `s[hi]`. */
  lemma AverageBetweenMembers(s: seq<int32>) returns (lo: nat, hi: nat)
    requires s != []
    ensures AverageOf(s).Quotient? && AverageOf(s).count == |s|
    ensures lo < |s| && hi < |s|
    ensures forall k :: 0 <= k < |s| ==> s[lo] <= s[k] <= s[hi]
    ensures s[lo] as int * AverageOf(s).count <= AverageOf(s).sum <= s[hi] as int * AverageOf(s).count
  {
    lo, hi := MemberBounds(s);
    SumBounds(s, s[lo] as int, s[hi] as int);
  }

  /** Bounds on the members bound the sum. */
  lemma {:induction false} SumBounds(s: seq<int32>, lo: int, hi: int)
    requires forall i :: 0 <= i < |s| ==> lo <= s[i] as int <= hi
    ensures lo * |s| <= Sum(s) <= hi * |s|
    decreases |s|
  {
    if s != [] {
      var init := s[..|s| - 1];
      SumBounds(init, lo, hi);
      assert lo * |s| == lo * |init| + lo;
      assert hi * |s| == hi * |init| + hi;
    }
  }

  /** The reported average lies between the smallest and largest member:
      whenever every member is within [lo, hi], so is sum / count. */
  lemma AverageWithinBounds(s: seq<int32>, lo: int, hi: int)
    requires forall i :: 0 <= i < |s| ==> lo <= s[i] as int <= hi
    ensures AverageOf(s).Quotient? ==>
      lo * AverageOf(s).count <= AverageOf(s).sum <= hi * AverageOf(s).count
  {
    SumBounds(s, lo, hi);
  }

  /** The `long` accumulator of `IntStream.average()` never overflows on a
      window of at most `Integer.MAX_VALUE` ints. */
  lemma SumFitsInLong(s: seq<int32>)
    requires |s| <= INT_MAX
    ensures LONG_MIN <= Sum(s) <= LONG_MAX
  {
    SumBounds(s, -0x8000_0000, 0x7fff_ffff);
  }
}
