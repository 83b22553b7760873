// The two bit-reversal reorderings, in mlDct.c on a strided range and in fft.c on pairs with indices
// from one. Both step a counter whose bits run backwards; proved is that it always is the reversal
// of the loop index, and that the data end up permuted by that reversal.
module BitReverse {
  function Pow(k: nat): (p: nat)
    ensures p > 0
  {
    if k == 0 then 1 else 2 * Pow(k - 1)
  }

  // The number with the k lowest bits of i in the opposite order.
  function Rev(k: nat, i: nat): (r: nat)
    ensures r < Pow(k)
  {
    if k == 0 then 0 else (if i % 2 == 1 then Pow(k - 1) else 0) + Rev(k - 1, i / 2)
  }

  // s with each element replaced by the one at the reversed index.
  function Reordered<T>(s: seq<T>, k: nat): seq<T>
    requires |s| == Pow(k)
  {
    seq(Pow(k), i requires 0 <= i < Pow(k) => s[Rev(k, i)])
  }

  // The lowest bit of the reversal is the highest bit.
  lemma {:induction false} RevFromTop(k: nat, i: nat)
    requires k > 0 && i < Pow(k)
    ensures Rev(k, i) == if i < Pow(k - 1) then 2 * Rev(k - 1, i) else 2 * Rev(k - 1, i - Pow(k - 1)) + 1
  {
    if k > 1 {
      RevFromTop(k - 1, i / 2);
      if i >= Pow(k - 1) {
        assert (i - Pow(k - 1)) / 2 == i / 2 - Pow(k - 2) && (i - Pow(k - 1)) % 2 == i % 2;
      }
    }
  }

  lemma {:induction false} RevTwice(k: nat, i: nat)
    requires i < Pow(k)
    ensures Rev(k, Rev(k, i)) == i
  {
    if k > 0 {
      RevTwice(k - 1, i / 2);
      RevFromTop(k, Rev(k, i));
    }
  }

  // Reordering twice changes nothing.
  lemma ReorderedTwice<T>(s: seq<T>, k: nat)
    requires |s| == Pow(k)
    ensures Reordered(Reordered(s, k), k) == s
  {
    forall i | 0 <= i < Pow(k) ensures Reordered(Reordered(s, k), k)[i] == s[i] { RevTwice(k, i); }
  }

  lemma {:induction false} RevOfZero(k: nat)
    ensures Rev(k, 0) == 0
  {
    if k > 0 { RevOfZero(k - 1); }
  }

  lemma {:induction false} RevOfLast(k: nat)
    ensures Rev(k, Pow(k) - 1) == Pow(k) - 1
  {
    if k > 0 {
      RevOfLast(k - 1);
      assert (Pow(k) - 1) / 2 == Pow(k - 1) - 1;
    }
  }

  // Bit i of a number.
  function BitOf(n: nat, i: nat): nat
    decreases i
  {
    if i == 0 then n % 2 else BitOf(n / 2, i - 1)
  }

  lemma {:induction false} LowBits(n: nat, b: nat, i: nat)
    requires i < b && n >= Pow(b)
    ensures BitOf(n - Pow(b), i) == BitOf(n, i)
  {
    if i > 0 {
      assert (n - Pow(b)) / 2 == n / 2 - Pow(b - 1);
      LowBits(n / 2, b - 1, i - 1);
    }
  }

  lemma {:induction false} HighBit(n: nat, b: nat)
    requires n < 2 * Pow(b)
    ensures BitOf(n, b) == if n >= Pow(b) then 1 else 0
  {
    if b > 0 { HighBit(n / 2, b - 1); }
  }

  // The reversal has the k lowest bits in the opposite order.
  lemma {:induction false} RevBits(k: nat, n: nat, i: nat)
    requires n < Pow(k) && i < k
    ensures BitOf(Rev(k, n), i) == BitOf(n, k - 1 - i)
  {
    RevFromTop(k, n);
    if i == 0 {
      HighBit(n, k - 1);
    } else if n < Pow(k - 1) {
      RevBits(k - 1, n, i - 1);
    } else {
      RevBits(k - 1, n - Pow(k - 1), i - 1);
      LowBits(n, k - 1, k - 1 - i);
    }
  }

  // ---------------------------------------------------------------- the reversed counter

  // Counting up from the top: bits that are set are cleared, down to the first that is not.
  function Inc(j: nat, b: nat): nat
    requires j < 2 * Pow(b) - 1
  {
    if j < Pow(b) then j + Pow(b) else Inc(j - Pow(b), b - 1)
  }

  lemma {:induction false} IncIsRevOfNext(k: nat, i: nat)
    requires i + 1 < Pow(k)
    ensures k > 0 && Rev(k, i) < 2 * Pow(k - 1) - 1 && Inc(Rev(k, i), k - 1) == Rev(k, i + 1)
  {
    if i % 2 == 0 {
      assert (i + 1) / 2 == i / 2;
      if k == 1 { assert i == 0; }
    } else {
      assert (i + 1) / 2 == i / 2 + 1;
      IncIsRevOfNext(k - 1, i / 2);
    }
  }

  // A single-bit mask of an int, and its test and flip.
  predicate HasBit(j: nat, mask: nat)
    requires mask > 0
  {
    (j / mask) % 2 == 1
  }

  function Flip(j: nat, mask: nat): (r: nat)
    requires mask > 0
  {
    if HasBit(j, mask) then j - mask else j + mask
  }

  lemma QuotientZero(j: nat, mask: nat)
    requires j < mask
    ensures j / mask == 0
  {
  }

  lemma QuotientOne(j: nat, mask: nat)
    requires mask <= j < 2 * mask
    ensures j / mask == 1
  {
  }

  lemma TopBit(j: nat, mask: nat)
    requires mask > 0 && j < 2 * mask
    ensures HasBit(j, mask) <==> j >= mask
  {
    if j < mask { QuotientZero(j, mask); } else { QuotientOne(j, mask); }
  }

  lemma PowDoubles(b: nat)
    ensures b > 0 ==> Pow(b) / 2 == Pow(b - 1)
  {
  }

  // ---------------------------------------------------------------- mlDct.c

  // Where element a of the strided range is.
  function Place(startIdx: int, stride: int, a: nat): int { startIdx + a * stride }

  lemma PlacesDiffer(startIdx: int, stride: int, a: nat, b: nat)
    requires stride != 0 && a != b
    ensures Place(startIdx, stride, a) != Place(startIdx, stride, b)
  {
    assert (a - b) * stride != 0;
  }

  // The elements of the range whose pair has been swapped, before index i.
  ghost predicate SwappedUpTo<T>(v: seq<T>, was: seq<T>, k: nat, i: nat) {
    && |v| == |was| == Pow(k)
    && (forall a :: 0 <= a < Pow(k) ==> v[a] == if a < i || Rev(k, a) < i then was[Rev(k, a)] else was[a])
  }

  // The range as a sequence.
  function Range<T>(y: seq<T>, startIdx: int, stride: int, n: nat): (v: seq<T>)
    requires forall a :: 0 <= a < n ==> 0 <= Place(startIdx, stride, a) < |y|
    ensures |v| == n
  {
    seq(n, a requires 0 <= a < n => y[Place(startIdx, stride, a)])
  }

  lemma SwapNext<T>(v: seq<T>, was: seq<T>, k: nat, i: nat)
    requires SwappedUpTo(v, was, k, i) && i < Pow(k)
    ensures
      var j := Rev(k, i);
      SwappedUpTo(if i < j then v[i := v[j]][j := v[i]] else v, was, k, i + 1)
  {
    hide Rev;
    var j := Rev(k, i);
    RevTwice(k, i);
    forall a | 0 <= a < Pow(k) ensures Rev(k, Rev(k, a)) == a { RevTwice(k, a); }
  }

  // The steps of the reversed counter in the loop of the code.
  method NextReversed(j: nat, k: nat) returns (r: nat)
    requires k > 0 && j < 2 * Pow(k - 1) - 1
    ensures r == Inc(j, k - 1)
  {
    hide HasBit;
    var jIdx := Pow(k) / 2;
    ghost var b: nat := k - 1;
    PowDoubles(k);
    r := Flip(j, jIdx);
    TopBit(j, jIdx);
    FlippedTop(j, jIdx);
    while !HasBit(r, jIdx)
      invariant jIdx == Pow(b) && (HasBit(r, jIdx) <==> r >= jIdx) && r < 2 * jIdx
      invariant if r >= jIdx then r == Inc(j, k - 1)
                else b > 0 && r < 2 * Pow(b - 1) - 1 && Inc(r, b - 1) == Inc(j, k - 1)
      decreases b
    {
      PowDoubles(b);
      jIdx := jIdx / 2;
      b := b - 1;
      TopBit(r, jIdx);
      FlippedTop(r, jIdx);
      r := Flip(r, jIdx);
    }
  }

  lemma FlippedTop(j: nat, mask: nat)
    requires mask > 0 && j < 2 * mask
    ensures Flip(j, mask) == if j >= mask then j - mask else j + mask
    ensures Flip(j, mask) < 2 * mask
    ensures HasBit(Flip(j, mask), mask) <==> Flip(j, mask) >= mask
  {
    hide HasBit;
    TopBit(j, mask);
    TopBit(if j >= mask then j - mask else j + mask, mask);
  }

  // Nothing but the strided range is different.
  ghost predicate SameElsewhere<T(!new)>(y: seq<T>, was: seq<T>, startIdx: int, stride: int, n: nat) {
    && |y| == |was|
    && (forall p :: 0 <= p < |y| && (forall a :: 0 <= a < n ==> p != Place(startIdx, stride, a)) ==> y[p] == was[p])
  }

  lemma SwapIsInside<T(!new)>(y: seq<T>, was: seq<T>, startIdx: int, stride: int, n: nat, i: nat, j: nat)
    requires forall a :: 0 <= a < n ==> 0 <= Place(startIdx, stride, a) < |y|
    requires SameElsewhere(y, was, startIdx, stride, n) && i < n && j < n
    ensures
      var p, q := Place(startIdx, stride, i), Place(startIdx, stride, j);
      SameElsewhere(y[p := y[q]][q := y[p]], was, startIdx, stride, n)
  {
    hide Place;
  }

  lemma JPlace(startIdx: int, stride: int, j: nat)
    ensures startIdx + j * stride == Place(startIdx, stride, j)
  {
  }

  method Swap<T>(y: array<T>, iIdx: int, jIdx: int)
    requires 0 <= iIdx < y.Length && 0 <= jIdx < y.Length
    modifies y
    ensures y[..] == old(y[..])[iIdx := old(y[jIdx])][jIdx := old(y[iIdx])]
  {
    var t := y[iIdx];
    y[iIdx] := y[jIdx];
    y[jIdx] := t;
  }

  // MWDSPCG_BitReverseData_YD, on N == Pow(k) elements
  method BitReverseData<T(!new)>(y: array<T>, k: nat, stride: int, startIdx: int)
    requires forall a :: 0 <= a < Pow(k) ==> 0 <= Place(startIdx, stride, a) < y.Length
    modifies y
    ensures Range(y[..], startIdx, stride, Pow(k)) == Reordered(old(Range(y[..], startIdx, stride, Pow(k))), k)
    ensures SameElsewhere(y[..], old(y[..]), startIdx, stride, Pow(k))
  {
    hide Rev, Inc, SameElsewhere, SwappedUpTo, Range, Reordered, Place;
    var n := Pow(k);
    ghost var was := Range(y[..], startIdx, stride, n);
    var j := 0;
    var iIdx := startIdx;
    RevOfZero(k);
    Unswapped(y[..], was, startIdx, stride, k);
    var i := 0;
    while i < n - 1
      invariant 0 <= i <= n - 1 && j == Rev(k, i) && iIdx == Place(startIdx, stride, i)
      invariant SwappedUpTo(Range(y[..], startIdx, stride, n), was, k, i)
      invariant SameElsewhere(y[..], old(y[..]), startIdx, stride, n)
    {
      SwapNext(Range(y[..], startIdx, stride, n), was, k, i);
      if i < j {
        JPlace(startIdx, stride, j);
        var jIdx := startIdx + j * stride;
        SwapInRange(y[..], startIdx, stride, n, i, j);
        SwapIsInside(y[..], old(y[..]), startIdx, stride, n, i, j);
        Swap(y, iIdx, jIdx);
      }
      IncIsRevOfNext(k, i);
      j := NextReversed(j, k);
      NextPlace(startIdx, stride, i);
      iIdx := iIdx + stride;
      i := i + 1;
    }
    AllSwapped(Range(y[..], startIdx, stride, n), was, k);
  }

  lemma Unswapped<T(!new)>(y: seq<T>, was: seq<T>, startIdx: int, stride: int, k: nat)
    requires |was| == Pow(k)
    ensures SwappedUpTo(was, was, k, 0) && SameElsewhere(y, y, startIdx, stride, Pow(k))
    ensures Place(startIdx, stride, 0) == startIdx
  {
  }

  lemma NextPlace(startIdx: int, stride: int, i: nat)
    ensures Place(startIdx, stride, i + 1) == Place(startIdx, stride, i) + stride
  {
  }

  lemma SwapInRange<T>(y: seq<T>, startIdx: int, stride: int, n: nat, i: nat, j: nat)
    requires forall a :: 0 <= a < n ==> 0 <= Place(startIdx, stride, a) < |y|
    requires i < j < n
    ensures
      var p, q := Place(startIdx, stride, i), Place(startIdx, stride, j);
      var v := Range(y, startIdx, stride, n);
      Range(y[p := y[q]][q := y[p]], startIdx, stride, n) == v[i := v[j]][j := v[i]]
  {
    hide Place;
    var p, q := Place(startIdx, stride, i), Place(startIdx, stride, j);
    forall a | 0 <= a < n && a != i && a != j && stride != 0
      ensures Place(startIdx, stride, a) != p && Place(startIdx, stride, a) != q && p != q
    {
      PlacesDiffer(startIdx, stride, a, i);
      PlacesDiffer(startIdx, stride, a, j);
      PlacesDiffer(startIdx, stride, i, j);
    }
    if stride != 0 { PlacesDiffer(startIdx, stride, i, j); }
    forall a | 0 <= a < n && stride == 0 ensures Place(startIdx, stride, a) == p { NoStride(startIdx, a, i); }
  }

  lemma NoStride(startIdx: int, a: nat, b: nat)
    ensures Place(startIdx, 0, a) == Place(startIdx, 0, b)
  {
  }

  // The last element is its own reversal.
  lemma AllSwapped<T>(v: seq<T>, was: seq<T>, k: nat)
    requires SwappedUpTo(v, was, k, Pow(k) - 1)
    ensures v == Reordered(was, k)
  {
    hide Rev;
    RevOfLast(k);
    forall a | 0 <= a < Pow(k) ensures v[a] == was[Rev(k, a)] { RevTwice(k, a); }
  }

  // ---------------------------------------------------------------- fft.c

  // The complex numbers, each in two elements.
  function Pairs<T>(y: seq<T>, n: nat): (v: seq<(T, T)>)
    requires 2 * n <= |y|
    ensures |v| == n
  {
    seq(n, p requires 0 <= p < n => (y[2 * p], y[2 * p + 1]))
  }

  // The counter, with indices from one: j stands for pair q, and m for the bit m / 2. After the last
  // index the counter is not used any more; the loop ends all the same.
  method NextPaired(j: nat, len: nat, k: nat, ghost q: nat) returns (r: nat)
    requires len == 2 * Pow(k) && j == 2 * q + 1 && q < Pow(k)
    ensures q < Pow(k) - 1 ==> k > 0 && r == 2 * Inc(q, k - 1) + 1
  {
    r := j;
    var m: nat := len / 2;
    ghost var b: int := k - 1;
    ghost var c := q;
    while m >= 2 && r > m
      invariant q < Pow(k) - 1 ==> 0 <= b < k && m == 2 * Pow(b) && r == 2 * c + 1 && c < 2 * Pow(b) - 1
      invariant q < Pow(k) - 1 ==> Inc(c, b) == Inc(q, k - 1)
      decreases m
    {
      r := r - m;
      m := m / 2;
      if q < Pow(k) - 1 {
        c := c - Pow(b);
        b := b - 1;
      }
    }
    r := r + m;
  }

  lemma SwapPairs<T>(y: seq<T>, n: nat, i: nat, j: nat)
    requires 2 * n <= |y| && i < j < n
    ensures
      var v := Pairs(y, n);
      var z := y[2 * j := y[2 * i]][2 * i := y[2 * j]];
      Pairs(z[2 * j + 1 := y[2 * i + 1]][2 * i + 1 := y[2 * j + 1]], n) == v[i := v[j]][j := v[i]]
  {
  }

  // The reordering at the end of fft; the source has `data` point one element before the array.
  method ReorderPairs<T>(data: array<T>, k: nat)
    requires 2 * Pow(k) <= data.Length
    modifies data
    ensures Pairs(data[..], Pow(k)) == Reordered(old(Pairs(data[..], Pow(k))), k)
    ensures data[2 * Pow(k)..] == old(data[2 * Pow(k)..])
  {
    hide Rev, Inc, SwappedUpTo, Pairs, Reordered;
    var len := 2 * Pow(k);
    ghost var was := Pairs(data[..], Pow(k));
    var j := 1;
    var i := 1;
    ghost var p := 0;
    RevOfZero(k);
    UnswappedPairs(was, k);
    while i < len
      invariant 0 <= p <= Pow(k) && i == 2 * p + 1 && (p < Pow(k) ==> j == 2 * Rev(k, p) + 1)
      invariant SwappedUpTo(Pairs(data[..], Pow(k)), was, k, p)
      invariant data[2 * Pow(k)..] == old(data[2 * Pow(k)..])
    {
      SwapNext(Pairs(data[..], Pow(k)), was, k, p);
      if j > i {
        SwapPairs(data[..], Pow(k), p, Rev(k, p));
        SwapTwo(data, j - 1, i - 1, 2 * Pow(k));
      }
      if p + 1 < Pow(k) { IncIsRevOfNext(k, p); }
      j := NextPaired(j, len, k, Rev(k, p));
      i := i + 2;
      p := p + 1;
    }
    PairsSwapped(Pairs(data[..], Pow(k)), was, k);
  }

  method SwapTwo<T>(data: array<T>, j: nat, i: nat, ghost len: nat)
    requires i + 1 < j && j + 1 < len <= data.Length
    modifies data
    ensures
      var y := old(data[..]);
      data[..] == y[j := y[i]][i := y[j]][j + 1 := y[i + 1]][i + 1 := y[j + 1]]
    ensures data[len..] == old(data[len..])
  {
    var tmp := data[j];
    data[j] := data[i];
    data[i] := tmp;
    tmp := data[j + 1];
    data[j + 1] := data[i + 1];
    data[i + 1] := tmp;
  }

  lemma UnswappedPairs<T>(was: seq<T>, k: nat)
    requires |was| == Pow(k)
    ensures SwappedUpTo(was, was, k, 0)
  {
  }

  lemma PairsSwapped<T>(v: seq<T>, was: seq<T>, k: nat)
    requires SwappedUpTo(v, was, k, Pow(k))
    ensures v == Reordered(was, k)
  {
    hide Rev;
  }
}
