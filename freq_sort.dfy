/**
 * The frequency sort of `fetchKanjiByMode`: `Array.prototype.sort` with the
 * comparator `Number(a.freq) - Number(b.freq)`, which is stable. The result
 * is specified by a stable insertion sort on sequences; an in-place insertion
 * sort on an array is proved to leave that same result. The library's own
 * algorithm is not modelled, only the result a stable sort must have.
 */
module FreqSort {
  import opened KanjiRecords

  ghost predicate SortedByFreq(s: seq<Kanji>)
  {
    forall i, j :: 0 <= i < j < |s| ==> s[i].freq <= s[j].freq
  }

  /**
   * Places `x` after the last element whose `freq` is not larger: the step of
   * a stable insertion sort that has already sorted the elements before `x`.
   */
  function InsertByFreq(x: Kanji, s: seq<Kanji>): (r: seq<Kanji>)
    ensures |r| == |s| + 1
    decreases |s|
  {
    if s == [] || s[|s| - 1].freq <= x.freq then s + [x]
    else InsertByFreq(x, s[..|s| - 1]) + [s[|s| - 1]]
  }

  /** Inserting adds `x` and loses nothing. */
  lemma {:induction false} InsertByFreqMultiset(x: Kanji, s: seq<Kanji>)
    ensures multiset(InsertByFreq(x, s)) == multiset(s) + multiset{x}
    decreases |s|
  {
    if s != [] && s[|s| - 1].freq > x.freq {
      assert s == s[..|s| - 1] + [s[|s| - 1]];
      InsertByFreqMultiset(x, s[..|s| - 1]);
    }
  }

  /** Inserting into a sorted list keeps it sorted. */
  lemma {:induction false} InsertByFreqSorted(x: Kanji, s: seq<Kanji>)
    requires SortedByFreq(s)
    ensures SortedByFreq(InsertByFreq(x, s))
    decreases |s|
  {
    if s != [] && s[|s| - 1].freq > x.freq {
      var init := s[..|s| - 1];
      var last := s[|s| - 1];
      var rest := InsertByFreq(x, init);
      assert s == init + [last];
      InsertByFreqSorted(x, init);
      InsertByFreqMultiset(x, init);
      forall k | 0 <= k < |rest| ensures rest[k].freq <= last.freq {
        assert rest[k] in multiset(rest);
        assert rest[k] in init || rest[k] == x;
      }
      assert InsertByFreq(x, s) == rest + [last];
    }
  }

  /**
   * `kanjiArray.sort((a, b) => Number(a.freq) - Number(b.freq))`: ascending by
   * `freq`, keeping kanji of equal `freq` in their original order (the sort is
   * stable). Each element in turn is inserted into the sorted elements before it.
   */
  function SortByFreq(s: seq<Kanji>): (r: seq<Kanji>)
    ensures |r| == |s|
    decreases |s|
  {
    if s == [] then []
    else InsertByFreq(s[|s| - 1], SortByFreq(s[..|s| - 1]))
  }

  /** The sort's result is ascending by `freq` and a reordering of its input. */
  lemma {:induction false} SortByFreqSortsAndPermutes(s: seq<Kanji>)
    ensures SortedByFreq(SortByFreq(s))
    ensures multiset(SortByFreq(s)) == multiset(s)
    decreases |s|
  {
    if s != [] {
      var init := s[..|s| - 1];
      assert s == init + [s[|s| - 1]];
      SortByFreqSortsAndPermutes(init);
      InsertByFreqSorted(s[|s| - 1], SortByFreq(init));
      InsertByFreqMultiset(s[|s| - 1], SortByFreq(init));
    }
  }

  /** The elements whose `freq` is `f`, in their order in `s`. */
  function WithFreq(s: seq<Kanji>, f: int): seq<Kanji>
    decreases |s|
  {
    if s == [] then []
    else WithFreq(s[..|s| - 1], f) + (if s[|s| - 1].freq == f then [s[|s| - 1]] else [])
  }

  /** Appending one element extends the elements of its `freq` and no others. */
  lemma WithFreqSnoc(s: seq<Kanji>, x: Kanji, f: int)
    ensures WithFreq(s + [x], f) == WithFreq(s, f) + (if x.freq == f then [x] else [])
  {
    assert (s + [x])[..|s|] == s;
  }

  /** Inserting `x` puts it after every element of the same `freq`. */
  lemma {:induction false} InsertByFreqStable(x: Kanji, s: seq<Kanji>, f: int)
    ensures WithFreq(InsertByFreq(x, s), f) == WithFreq(s, f) + (if x.freq == f then [x] else [])
    decreases |s|
  {
    if s == [] || s[|s| - 1].freq <= x.freq {
      WithFreqSnoc(s, x, f);
    } else {
      var init := s[..|s| - 1];
      var last := s[|s| - 1];
      assert s == init + [last];
      InsertByFreqStable(x, init, f);
      WithFreqSnoc(InsertByFreq(x, init), last, f);
      WithFreqSnoc(init, last, f);
    }
  }

  /**
   * The sort is stable: for every `freq` value, the kanji with that `freq`
   * come out in the order they went in.
   */
  lemma {:induction false} SortByFreqStable(s: seq<Kanji>, f: int)
    ensures WithFreq(SortByFreq(s), f) == WithFreq(s, f)
    decreases |s|
  {
    if s != [] {
      var init := s[..|s| - 1];
      SortByFreqStable(init, f);
      InsertByFreqStable(s[|s| - 1], SortByFreq(init), f);
    }
  }

  /**
   * Where the insertion puts `x`: after the elements up to `j`, when `j` is
   * the start or follows an element that is not larger, and every element
   * from `j` on is larger.
   */
  lemma {:induction false} InsertByFreqAt(x: Kanji, s: seq<Kanji>, j: nat)
    requires j <= |s|
    requires j == 0 || s[j - 1].freq <= x.freq
    requires forall k :: j <= k < |s| ==> s[k].freq > x.freq
    ensures InsertByFreq(x, s) == s[..j] + [x] + s[j..]
    decreases |s|
  {
    if |s| == j {
      assert s[..j] == s && s[j..] == [];
    } else {
      var init := s[..|s| - 1];
      var last := s[|s| - 1];
      InsertByFreqAt(x, init, j);
      assert init[..j] == s[..j];
      assert init[j..] + [last] == s[j..];
    }
  }

  /**
   * Where `x` goes among `a[..i]`: after the last element that is not larger,
   * found by walking down from `i`.
   */
  method FindSlot(a: array<Kanji>, i: nat, x: Kanji) returns (j: nat)
    requires i <= a.Length
    ensures j <= i
    ensures j == 0 || a[j - 1].freq <= x.freq
    ensures forall k :: j <= k < i ==> a[k].freq > x.freq
  {
    j := i;
    while j > 0 && a[j - 1].freq > x.freq
      invariant j <= i
      invariant forall k :: j <= k < i ==> a[k].freq > x.freq
    {
      j := j - 1;
    }
  }

  /** Moves `a[j..i]` one place up, over `a[i]`; everything else stays. */
  method ShiftUp(a: array<Kanji>, j: nat, i: nat)
    requires j <= i < a.Length
    modifies a
    ensures forall k :: 0 <= k <= j ==> a[k] == old(a[k])
    ensures forall k :: j < k <= i ==> a[k] == old(a[k - 1])
    ensures forall k :: i < k < a.Length ==> a[k] == old(a[k])
  {
    var k := i;
    while k > j
      invariant j <= k <= i
      invariant forall m :: 0 <= m <= k ==> a[m] == old(a[m])
      invariant forall m :: k < m <= i ==> a[m] == old(a[m - 1])
      invariant forall m :: i < m < a.Length ==> a[m] == old(a[m])
    {
      a[k] := a[k - 1];
      k := k - 1;
    }
  }

  /** The array after the insertion, read as a sequence. */
  lemma InsertedShape(a: seq<Kanji>, sorted: seq<Kanji>, x: Kanji, i: nat, j: nat)
    requires |sorted| == i && j <= i < |a|
    requires forall k :: 0 <= k < j ==> a[k] == sorted[k]
    requires a[j] == x
    requires forall k :: j < k <= i ==> a[k] == sorted[k - 1]
    ensures a[..i + 1] == sorted[..j] + [x] + sorted[j..]
  {
  }

  /**
   * Moves `a[i]` down past the larger elements before it and returns where it
   * lands; the rest of the array is untouched.
   */
  method InsertInPlace(a: array<Kanji>, i: nat) returns (j: nat)
    requires i < a.Length
    modifies a
    ensures j <= i
    ensures j == 0 || old(a[j - 1]).freq <= old(a[i]).freq
    ensures forall k :: j <= k < i ==> old(a[k]).freq > old(a[i]).freq
    ensures a[..i + 1] == old(a[..i])[..j] + [old(a[i])] + old(a[..i])[j..]
    ensures a[i + 1..] == old(a[i + 1..])
  {
    var x := a[i];
    ghost var sorted := a[..i];
    ghost var tail := a[i + 1..];
    j := FindSlot(a, i, x);
    ShiftUp(a, j, i);
    a[j] := x;
    InsertedShape(a[..], sorted, x, i, j);
    assert a[..][..i + 1] == a[..i + 1];
    assert a[i + 1..] == tail;
  }

  /** Sorting one more element inserts it into the sorted elements before it. */
  lemma SortByFreqSnoc(s: seq<Kanji>, i: nat)
    requires i < |s|
    ensures SortByFreq(s[..i + 1]) == InsertByFreq(s[i], SortByFreq(s[..i]))
  {
    assert s[..i + 1][..i] == s[..i];
  }

  /** An in-place insertion sort of the array, leaving the stable sort of its contents. */
  method SortByFreqInPlace(a: array<Kanji>)
    modifies a
    ensures a[..] == SortByFreq(old(a[..]))
  {
    ghost var input := a[..];
    var i := 0;
    while i < a.Length
      invariant 0 <= i <= a.Length
      invariant a[..i] == SortByFreq(input[..i])
      invariant a[i..] == input[i..]
    {
      ghost var sorted := a[..i];
      var x := a[i];
      assert x == input[i];
      SortByFreqSnoc(input, i);
      var j := InsertInPlace(a, i);
      InsertByFreqAt(x, sorted, j);
      assert a[..i + 1] == SortByFreq(input[..i + 1]);
      assert a[i + 1..] == input[i + 1..];
      i := i + 1;
    }
    assert a[..] == a[..a.Length];
    assert input == input[..a.Length];
  }
}
