/**
  The five list operations the service protects: bubble sort, the even
  filter, the sum, the maximum and the iterative binary search. Each one
  comes with an independent description of what it computes (sortedness and
  permutation, subsequence and element counts, a recursive sum, membership).
 */
module ListOps {
  import opened Responses

  /** Ascending order over the whole sequence. */
  predicate Sorted(s: seq<int>)
  {
    forall i, j :: 0 <= i < j < |s| ==> s[i] <= s[j]
  }

  /** Ascending order on the slice s[lo..hi]. */
  ghost predicate SortedBetween(s: seq<int>, lo: int, hi: int)
  {
    forall i, j :: 0 <= lo <= i < j < hi <= |s| ==> s[i] <= s[j]
  }

  /** Every element of s[..mid] is at most every element of s[mid..]. */
  ghost predicate Partitioned(s: seq<int>, mid: int)
  {
    forall i, j :: 0 <= i < mid <= j < |s| ==> s[i] <= s[j]
  }

  // ---------------------------------------------------------------- sort

  /**
    One pass of the inner loop, over positions 0..hi: adjacent out-of-order
    pairs are swapped, which carries the largest element of a[..hi+1] up to
    position hi. Only that prefix is permuted; the rest is untouched, and a
    prefix that was no greater than the rest stays so.
   */
  method BubblePass(a: seq<int>, hi: int) returns (b: seq<int>)
    requires 0 <= hi < |a|
    ensures |b| == |a|
    ensures multiset(b) == multiset(a)
    ensures forall k :: hi < k < |a| ==> b[k] == a[k]
    ensures forall k :: 0 <= k <= hi ==> b[k] <= b[hi]
    ensures Partitioned(a, hi + 1) ==> Partitioned(b, hi + 1)
  {
    b := a;
    var j := 0;
    while j < hi
      invariant 0 <= j <= hi
      invariant |b| == |a|
      invariant multiset(b) == multiset(a)
      invariant forall k :: hi < k < |a| ==> b[k] == a[k]
      invariant forall k :: 0 <= k <= j ==> b[k] <= b[j]
      invariant Partitioned(a, hi + 1) ==> Partitioned(b, hi + 1)
    {
      if b[j] > b[j + 1] {
        b := SwapAdjacent(b, j, hi + 1);
      }
      j := j + 1;
    }
  }

  /**
    The swap of the inner loop: neighbours j and j+1 inside s[..mid] trade
    places. The multiset is kept, and so is s[..mid] being no greater than s[mid..].
   */
  function SwapAdjacent(s: seq<int>, j: int, mid: int): (t: seq<int>)
    requires 0 <= j && j + 1 < mid <= |s|
    ensures |t| == |s|
    ensures t[j] == s[j + 1] && t[j + 1] == s[j]
    ensures forall k :: 0 <= k < |s| && k != j && k != j + 1 ==> t[k] == s[k]
    ensures multiset(t) == multiset(s)
    ensures Partitioned(s, mid) ==> Partitioned(t, mid)
  {
    s[j := s[j + 1]][j + 1 := s[j]]
  }

  /**
    The nested loops of the bubble-sort endpoint, on a local copy. After pass
    `i` the last i+1 positions hold the largest elements in their final
    order. Elements move only by adjacent swaps, so the result is a
    permutation of the input.
   */
  method BubbleSort(numbers: seq<int>) returns (sorted: seq<int>)
    ensures Sorted(sorted)
    ensures multiset(sorted) == multiset(numbers)
  {
    var a := numbers;
    var n := |a|;
    var i := 0;
    while i < n
      invariant 0 <= i <= n == |a|
      invariant multiset(a) == multiset(numbers)
      invariant SortedBetween(a, n - i, n)
      invariant Partitioned(a, n - i)
    {
      a := BubblePass(a, n - i - 1);
      i := i + 1;
    }
    sorted := a;
  }

  /** A sorted arrangement of a multiset is unique: any two sorted permutations agree. */
  lemma {:induction false} SortedPermutationUnique(a: seq<int>, b: seq<int>)
    requires Sorted(a) && Sorted(b)
    requires multiset(a) == multiset(b)
    ensures a == b
    decreases |a|
  {
    if |a| == 0 {
      assert |multiset(b)| == 0;
    } else {
      assert |b| == |multiset(b)| == |multiset(a)| == |a|;
      assert a[0] in multiset(b);
      assert b[0] in multiset(a);
      assert a[0] == b[0];
      assert a == [a[0]] + a[1..];
      assert b == [b[0]] + b[1..];
      assert multiset(a[1..]) == multiset(a) - multiset{a[0]};
      assert multiset(b[1..]) == multiset(b) - multiset{b[0]};
      SortedPermutationUnique(a[1..], b[1..]);
    }
  }

  // --------------------------------------------------------------- filter

  /** r is s with some elements dropped and the rest kept in order. */
  ghost predicate IsSubsequence(r: seq<int>, s: seq<int>)
    decreases |s|
  {
    |r| == 0 ||
    (|s| > 0 && ((r[0] == s[0] && IsSubsequence(r[1..], s[1..])) || IsSubsequence(r, s[1..])))
  }

  /** The test of the comprehension; Python's `%` and Dafny's agree on divisor 2. */
  predicate IsEven(x: int)
  {
    x % 2 == 0
  }

  /**
    The even filter `[num for num in numbers if num % 2 == 0]`: an in-order
    subsequence of the input made of even elements only.
   */
  function FilterEven(numbers: seq<int>): (evens: seq<int>)
    ensures IsSubsequence(evens, numbers)
    ensures forall i :: 0 <= i < |evens| ==> IsEven(evens[i])
  {
    if |numbers| == 0 then []
    else if IsEven(numbers[0]) then [numbers[0]] + FilterEven(numbers[1..])
    else FilterEven(numbers[1..])
  }

  /**
    Nothing even is dropped: the filter holds every even value exactly as
    often as the input does, and no odd value. With the subsequence property
    this makes the result exactly the even elements in their original order.
   */
  lemma {:induction false} FilterEvenCounts(numbers: seq<int>)
    ensures forall x :: multiset(FilterEven(numbers))[x] == if IsEven(x) then multiset(numbers)[x] else 0
    decreases |numbers|
  {
    if |numbers| > 0 {
      assert numbers == [numbers[0]] + numbers[1..];
      FilterEvenCounts(numbers[1..]);
    }
  }

  /** What the filter must return: an in-order subsequence holding exactly the even elements, each as often as the input does. */
  ghost predicate IsEvenFilterOf(r: seq<int>, s: seq<int>)
  {
    && IsSubsequence(r, s)
    && (forall i :: 0 <= i < |r| ==> IsEven(r[i]))
    && (forall x :: multiset(r)[x] == if IsEven(x) then multiset(s)[x] else 0)
  }

  /** A subsequence takes each value at most as often as the sequence holds it. */
  lemma {:induction false} SubsequenceMultiset(r: seq<int>, s: seq<int>)
    requires IsSubsequence(r, s)
    ensures multiset(r) <= multiset(s)
    decreases |s|
  {
    if |r| > 0 {
      assert s == [s[0]] + s[1..];
      if r[0] == s[0] && IsSubsequence(r[1..], s[1..]) {
        SubsequenceMultiset(r[1..], s[1..]);
        assert r == [r[0]] + r[1..];
      } else {
        SubsequenceMultiset(r, s[1..]);
      }
    }
  }

  /**
    The filter's specification has one solution: any sequence meeting
    `IsEvenFilterOf` is the comprehension's result.
   */
  lemma {:induction false} EvenFilterUnique(r: seq<int>, s: seq<int>)
    requires IsEvenFilterOf(r, s)
    ensures r == FilterEven(s)
    decreases |s|
  {
    if |s| == 0 {
      assert |r| == 0;
    } else {
      var x, rest := s[0], s[1..];
      assert s == [x] + rest;
      assert multiset(s) == multiset{x} + multiset(rest);
      if IsEven(x) {
        assert multiset(r)[x] == multiset(s)[x] > multiset(rest)[x];
        if !(|r| > 0 && r[0] == x && IsSubsequence(r[1..], rest)) {
          SubsequenceMultiset(r, rest);
          assert false;
        }
        assert r == [x] + r[1..];
        assert multiset(r) == multiset{x} + multiset(r[1..]);
        assert IsEvenFilterOf(r[1..], rest);
        EvenFilterUnique(r[1..], rest);
      } else {
        assert |r| > 0 ==> r[0] != x;
        assert IsEvenFilterOf(r, rest);
        EvenFilterUnique(r, rest);
      }
    }
  }

  // ------------------------------------------------------------------ sum

  /** The arithmetic sum, as a reference: first element plus the sum of the rest. */
  function Sum(s: seq<int>): (total: int)
  {
    if |s| == 0 then 0 else s[0] + Sum(s[1..])
  }

  /** The sum of a concatenation is the sum of its parts. */
  lemma {:induction false} SumAppend(a: seq<int>, b: seq<int>)
    ensures Sum(a + b) == Sum(a) + Sum(b)
    decreases |a|
  {
    if |a| == 0 {
      assert a + b == b;
    } else {
      assert (a + b)[1..] == a[1..] + b;
      SumAppend(a[1..], b);
    }
  }

  /**
    Python's `sum(numbers)`: a left-to-right accumulation starting from 0.
    It equals the arithmetic sum (so 0 for an empty list).
   */
  method SumElements(numbers: seq<int>) returns (total: int)
    ensures total == Sum(numbers)
  {
    total := 0;
    var i := 0;
    while i < |numbers|
      invariant 0 <= i <= |numbers|
      invariant total == Sum(numbers[..i])
    {
      assert numbers[..i + 1] == numbers[..i] + [numbers[i]];
      SumAppend(numbers[..i], [numbers[i]]);
      total := total + numbers[i];
      i := i + 1;
    }
    assert numbers[..i] == numbers;
  }

  // ------------------------------------------------------------------ max

  /**
    Python's `max(numbers)`: a scan keeping the largest element so far. On an
    empty list `max` raises, modelled as None. Otherwise the result is an
    element of the list and no element exceeds it.
   */
  method MaxValue(numbers: seq<int>) returns (m: Option<int>)
    ensures m.None? <==> |numbers| == 0
    ensures m.Some? ==> m.value in numbers
    ensures m.Some? ==> forall k :: 0 <= k < |numbers| ==> numbers[k] <= m.value
  {
    if |numbers| == 0 {
      return None;
    }
    var best := numbers[0];
    var i := 1;
    while i < |numbers|
      invariant 1 <= i <= |numbers|
      invariant best in numbers
      invariant forall k :: 0 <= k < i ==> numbers[k] <= best
    {
      if numbers[i] > best {
        best := numbers[i];
      }
      i := i + 1;
    }
    return Some(best);
  }

  // --------------------------------------------------------------- search

  /**
    The iterative halving search of the binary-search endpoint. Every probe
    `mid` lies inside the list (the loop keeps 0 <= left <= right + 1 <= |numbers|)
    and the window right - left shrinks each round. A hit is a real hit even
    on unsorted input; on sorted input a miss means the target is absent.
    `mid` is `(left + right) // 2`; inside the loop left + right is never
    negative, so Python's floor division and Dafny's `/` agree.
   */
  method BinarySearch(numbers: seq<int>, target: int) returns (found: bool, index: int)
    ensures found ==> 0 <= index < |numbers| && numbers[index] == target
    ensures !found ==> index == -1
    ensures Sorted(numbers) ==> (found <==> target in numbers)
  {
    var left, right := 0, |numbers| - 1;
    while left <= right
      invariant 0 <= left <= right + 1 <= |numbers|
      invariant Sorted(numbers) ==>
                  forall k :: 0 <= k < |numbers| && (k < left || right < k) ==> numbers[k] != target
      decreases right - left
    {
      var mid := (left + right) / 2;
      if numbers[mid] == target {
        return true, mid;
      } else if numbers[mid] < target {
        left := mid + 1;
      } else {
        right := mid - 1;
      }
    }
    return false, -1;
  }
}
