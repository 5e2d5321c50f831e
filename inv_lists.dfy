/** The partitioned gather benchmark: a mock inverted-list structure whose
    lists hold a random number of d-dimensional float vectors each, and three
    ways to gather every list, in list order, into one buffer.

    The random list-index draws are the sequence `draws` (each index below
    nlist) and the random float values are the sequence `floats`, consumed
    in the order the constructor fills the lists. Floats are only moved, so
    their type is the type parameter T. */
module InvLists {
  import opened SeqUtil
  import opened StdVector

  /** A pointer that may be null. */
  datatype Option<T> = None | Some(value: T)

  /** sizeof(float) */
  const FloatBytes: nat := 4

  /** A list resized to count * d * sizeof(float) bytes reads back as count
      vectors when its byte size is divided by d * sizeof(float). */
  lemma {:induction false} ByteSizeRoundTrip(count: nat, d: nat)
    requires d > 0
    ensures (count * d * FloatBytes) / (d * FloatBytes) == count
  {
    assert count * d * FloatBytes == count * (d * FloatBytes);
    DivExact(count, d * FloatBytes);
  }

  /** Exact division cancels the multiplication. */
  lemma DivExact(q: nat, m: nat)
    requires m > 0
    ensures (q * m) / m == q
  {
    var p, r := (q * m) / m, (q * m) % m;
    assert q * m == p * m + r;
    if p < q {
      assert q * m - p * m == (q - p) * m;
      MulAtLeast(q - p, m);
    } else if p > q {
      assert p * m - q * m == (p - q) * m;
      MulAtLeast(p - q, m);
    }
  }

  /** A multiple of m leaves no remainder. */
  lemma ModExact(q: nat, m: nat)
    requires m > 0
    ensures (q * m) % m == 0
  {
    DivExact(q, m);
    assert q * m == ((q * m) / m) * m + (q * m) % m;
  }

  /** Multiplication by a positive factor is injective. */
  lemma MulCancel(a: nat, b: nat, m: nat)
    requires m > 0 && a * m == b * m
    ensures a == b
  {
  }

  /** A positive multiple of m is at least m. */
  lemma MulAtLeast(k: nat, m: nat)
    requires k >= 1
    ensures k * m >= m
  {
  }

  /** The size-distribution loop: each draw picks the list that receives one
      more vector. */
  method CountDraws(nlist: nat, draws: seq<nat>) returns (sizes: seq<nat>)
    requires forall i :: 0 <= i < |draws| ==> draws[i] < nlist
    ensures |sizes| == nlist
    ensures forall k :: 0 <= k < nlist ==> sizes[k] == Occurrences(draws, k)
    ensures Sum(sizes) == |draws|
  {
    var counts := new nat[nlist](_ => 0);
    assert Sum(counts[..]) == 0 by {
      var zeros := counts[..];
      forall j | 0 <= j <= nlist ensures Sum(zeros[..j]) == 0 {
        var k := 0;
        while k < j
          invariant k <= j && Sum(zeros[..k]) == 0
        {
          SumPrefixStep(zeros, k);
          k := k + 1;
        }
      }
      assert zeros[..nlist] == zeros;
    }
    for i := 0 to |draws|
      invariant forall k :: 0 <= k < nlist ==> counts[k] == Occurrences(draws[..i], k)
      invariant Sum(counts[..]) == i
    {
      var listIdx := draws[i];
      SumUpdate(counts[..], listIdx, counts[listIdx] + 1);
      counts[listIdx] := counts[listIdx] + 1;
      forall k | 0 <= k < nlist ensures counts[k] == Occurrences(draws[..i + 1], k) {
        OccurrencesPrefixStep(draws, i, k);
      }
    }
    assert draws[..|draws|] == draws;
    sizes := counts[..];
  }

  /** The debug check that adds the list sizes up again. */
  method TotalCheck(sizes: seq<nat>) returns (total: nat)
    ensures total == Sum(sizes)
  {
    total := 0;
    for i := 0 to |sizes|
      invariant total == Sum(sizes[..i])
    {
      SumPrefixStep(sizes, i);
      total := total + sizes[i];
    }
    assert sizes[..|sizes|] == sizes;
  }

  /** The constructor's second loop: list i is resized to sizes[i] vectors of
      d floats and filled with the next sizes[i] * d random values. */
  method FillLists<T>(sizes: seq<nat>, d: nat, floats: seq<T>) returns (lists: seq<seq<T>>)
    requires |floats| == Sum(sizes) * d
    ensures |lists| == |sizes|
    ensures forall j :: 0 <= j < |sizes| ==> |lists[j]| == sizes[j] * d
    ensures Flatten(lists) == floats
  {
    var nlist := |sizes|;
    lists := seq(nlist, _ => []);
    var offset := 0;
    assert sizes[..nlist] == sizes;
    for i := 0 to nlist
      invariant |lists| == nlist
      invariant offset == Sum(sizes[..i]) * d
      invariant forall j :: 0 <= j < i ==> |lists[j]| == sizes[j] * d
      invariant forall j :: i <= j < nlist ==> lists[j] == []
      invariant offset <= |floats| && Flatten(lists[..i]) == floats[..offset]
    {
      PrefixSpan(sizes, i, nlist, d);
      var listSize := sizes[i];
      var next := offset + listSize * d;
      ghost var before := lists;
      lists := lists[i := floats[offset..next]];
      assert lists[..i] == before[..i];
      FlattenPrefixStep(lists, i);
      assert floats[..offset] + floats[offset..next] == floats[..next];
      offset := next;
    }
    assert lists[..nlist] == lists;
  }

  class MockInvList<T> {
    /** The lists, each the float data of its vectors; a list of n vectors
        holds n * d elements, that is n * d * sizeof(float) bytes. */
    var lists: seq<seq<T>>
    var d: nat

    ghost predicate Valid()
      reads this
    {
      d > 0 && forall i :: 0 <= i < |lists| ==> |lists[i]| % d == 0
    }

    constructor (nlist: nat, totalVectors: nat, d: nat, draws: seq<nat>, floats: seq<T>)
      requires d > 0
      requires |draws| == totalVectors
      requires forall i :: 0 <= i < |draws| ==> draws[i] < nlist
      requires |floats| == totalVectors * d
      ensures Valid() && this.d == d && |lists| == nlist
      ensures forall k :: 0 <= k < nlist ==> ListSize(k) == Occurrences(draws, k)
      ensures Sum(Sizes()) == totalVectors
      ensures Flatten(lists) == floats
    {
      var sizes := CountDraws(nlist, draws);
      var totalCheck := TotalCheck(sizes);
      assert totalCheck == totalVectors;

      var ls := FillLists(sizes, d, floats);
      this.d := d;
      lists := ls;
      new;
      forall k | 0 <= k < nlist ensures |lists[k]| % d == 0 {
        ModExact(sizes[k], d);
      }
      forall k | 0 <= k < nlist ensures ListSize(k) == sizes[k] {
        MulCancel(ListSize(k), sizes[k], d);
      }
      assert Sizes() == sizes;
    }

    /** Number of vectors in a list: its byte size over d * sizeof(float). */
    function ListSize(listId: nat): (n: nat)
      reads this
      requires Valid() && listId < |lists|
      ensures n * d == |lists[listId]|
    {
      var count := |lists[listId]| / d;
      assert |lists[listId]| == count * d;
      ByteSizeRoundTrip(count, d);
      (|lists[listId]| * FloatBytes) / (d * FloatBytes)
    }

    /** Pointer to a list's data, null for an empty list. */
    function GetCodes(listId: nat): (codes: Option<seq<T>>)
      reads this
      requires listId < |lists|
      ensures codes.Some? ==> codes.value == lists[listId]
    {
      if lists[listId] == [] then None else Some(lists[listId])
    }

    /** All list sizes, in list order. */
    ghost function Sizes(): seq<nat>
      reads this
      requires Valid()
    {
      seq(|lists|, i reads this requires 0 <= i < |lists| && Valid() => ListSize(i))
    }

    /** get_codes is null exactly for the lists whose list_size is zero. */
    lemma CodesNullIffEmpty(listId: nat)
      requires Valid() && listId < |lists|
      ensures GetCodes(listId).None? <==> ListSize(listId) == 0
    {
    }

    /** The first n lists together hold the sum of their sizes times d elements. */
    lemma {:induction false} GatheredLength(n: nat)
      requires Valid() && n <= |lists|
      ensures |Flatten(lists[..n])| == Sum(Sizes()[..n]) * d
    {
      if n > 0 {
        GatheredLength(n - 1);
        FlattenPrefixStep(lists, n - 1);
        SumPrefixStep(Sizes(), n - 1);
      }
    }

    /** With the offset at the start of list k equal to the sizes before k
        times d, list k's span ends at the next offset, which stays within the
        first n lists' total. */
    lemma OffsetInBounds(k: nat, n: nat)
      requires Valid() && k < n <= |lists|
      ensures Sum(Sizes()[..k]) * d + ListSize(k) * d == Sum(Sizes()[..k + 1]) * d
      ensures Sum(Sizes()[..k + 1]) * d <= Sum(Sizes()[..n]) * d
    {
      PrefixSpan(Sizes(), k, n, d);
    }
  }

  /** method1_reserve_insert: append every non-empty list to an initially
      empty buffer. */
  method GatherReserveInsert<T>(invlists: MockInvList<T>, nlist: nat, ntotal: nat, d: nat)
    returns (allVectors: seq<T>)
    requires invlists.Valid() && invlists.d == d && nlist <= |invlists.lists|
    ensures allVectors == Flatten(invlists.lists[..nlist])
    ensures |allVectors| == Sum(invlists.Sizes()[..nlist]) * d
  {
    var buffer := new Vector<T>();
    buffer.Reserve(ntotal * d);
    for listId := 0 to nlist
      invariant buffer.elems == Flatten(invlists.lists[..listId])
    {
      FlattenPrefixStep(invlists.lists, listId);
      var listSize := invlists.ListSize(listId);
      if listSize > 0 {
        var codes := invlists.GetCodes(listId);
        if codes.None? {
          continue;
        }
        buffer.InsertAtEnd(codes.value[..listSize * d]);
      }
    }
    invlists.GatheredLength(nlist);
    allVectors := buffer.elems;
  }

  /** method2_resize_copy: pre-size the buffer to ntotal * d value-initialised
      slots and std::copy every non-empty list to a running offset. The lists
      fill the front of the buffer in order; slots past their total keep the
      initial value. */
  method GatherResizeCopy<T>(invlists: MockInvList<T>, nlist: nat, ntotal: nat, d: nat, zero: T)
    returns (allVectors: seq<T>)
    requires invlists.Valid() && invlists.d == d && nlist <= |invlists.lists|
    requires Sum(invlists.Sizes()[..nlist]) <= ntotal
    ensures |allVectors| == ntotal * d
    ensures allVectors == Flatten(invlists.lists[..nlist])
                          + seq((ntotal - Sum(invlists.Sizes()[..nlist])) * d, _ => zero)
    ensures Sum(invlists.Sizes()[..nlist]) == ntotal ==> allVectors == Flatten(invlists.lists[..nlist])
  {
    var buffer := new Vector<T>();
    buffer.Resize(ntotal * d, zero);
    var offset := 0;
    for listId := 0 to nlist
      invariant offset == Sum(invlists.Sizes()[..listId]) * d
      invariant offset <= ntotal * d
      invariant buffer.elems == Flatten(invlists.lists[..listId]) + seq(ntotal * d - offset, _ => zero)
    {
      GatherStep(invlists, listId, nlist, ntotal);
      var listSize := invlists.ListSize(listId);
      if listSize > 0 {
        var codes := invlists.GetCodes(listId);
        if codes.None? {
          continue;
        }
        ghost var span := codes.value[..listSize * d];
        assert span == invlists.lists[listId];
        OverwriteAfterPrefix(Flatten(invlists.lists[..listId]), span, ntotal * d - offset, zero);
        buffer.CopyAt(codes.value[..listSize * d], offset);
        offset := offset + listSize * d;
      }
    }
    UnwrittenTail(invlists, nlist, ntotal);
    allVectors := buffer.elems;
  }

  /** method3_resize_memcpy: the same offset bookkeeping as method 2, with a
      memcpy of list_size * d * sizeof(float) bytes per list. */
  method GatherResizeMemcpy<T>(invlists: MockInvList<T>, nlist: nat, ntotal: nat, d: nat, zero: T)
    returns (allVectors: seq<T>)
    requires invlists.Valid() && invlists.d == d && nlist <= |invlists.lists|
    requires Sum(invlists.Sizes()[..nlist]) <= ntotal
    ensures |allVectors| == ntotal * d
    ensures allVectors == Flatten(invlists.lists[..nlist])
                          + seq((ntotal - Sum(invlists.Sizes()[..nlist])) * d, _ => zero)
    ensures Sum(invlists.Sizes()[..nlist]) == ntotal ==> allVectors == Flatten(invlists.lists[..nlist])
  {
    var buffer := new Vector<T>();
    buffer.Resize(ntotal * d, zero);
    var offset := 0;
    for listId := 0 to nlist
      invariant offset == Sum(invlists.Sizes()[..listId]) * d
      invariant offset <= ntotal * d
      invariant buffer.elems == Flatten(invlists.lists[..listId]) + seq(ntotal * d - offset, _ => zero)
    {
      GatherStep(invlists, listId, nlist, ntotal);
      var listSize := invlists.ListSize(listId);
      if listSize > 0 {
        var codes := invlists.GetCodes(listId);
        if codes.None? {
          continue;
        }
        ghost var span := codes.value[..listSize * d];
        assert span == invlists.lists[listId];
        OverwriteAfterPrefix(Flatten(invlists.lists[..listId]), span, ntotal * d - offset, zero);
        var bytes := listSize * d * FloatBytes;
        assert bytes / FloatBytes == listSize * d && bytes % FloatBytes == 0;
        buffer.MemCpy(offset, codes.value, bytes, FloatBytes);
        offset := offset + listSize * d;
      }
    }
    UnwrittenTail(invlists, nlist, ntotal);
    allVectors := buffer.elems;
  }

  /** The cache-warming pass runs the three routines once each on the same
      lists: when the list sizes add up to ntotal they build the same buffer,
      the in-order concatenation of the lists, with every one of the
      ntotal * d slots written. */
  method WarmUp<T>(invlists: MockInvList<T>, nlist: nat, ntotal: nat, d: nat, zero: T)
    returns (byInsert: seq<T>, byCopy: seq<T>, byMemcpy: seq<T>)
    requires invlists.Valid() && invlists.d == d && nlist <= |invlists.lists|
    requires Sum(invlists.Sizes()[..nlist]) == ntotal
    ensures byInsert == byCopy == byMemcpy == Flatten(invlists.lists[..nlist])
    ensures |byInsert| == ntotal * d
  {
    byInsert := GatherReserveInsert(invlists, nlist, ntotal, d);
    byCopy := GatherResizeCopy(invlists, nlist, ntotal, d, zero);
    byMemcpy := GatherResizeMemcpy(invlists, nlist, ntotal, d, zero);
  }

  /** Six vectors of dimension 1 drawn into lists 0, 0, 1, 2, 2, 2, that is
      list sizes 2, 1 and 3: every routine yields the six values in draw order. */
  method SixVectorScenario<T>(a: T, b: T, c: T, e: T, f: T, g: T, zero: T)
    returns (byInsert: seq<T>, byCopy: seq<T>, byMemcpy: seq<T>)
    ensures byInsert == byCopy == byMemcpy == [a, b, c, e, f, g]
  {
    var draws := [0, 0, 1, 2, 2, 2];
    var invlists := new MockInvList(3, 6, 1, draws, [a, b, c, e, f, g]);
    assert invlists.Sizes()[..3] == invlists.Sizes();
    assert invlists.lists[..3] == invlists.lists;
    byInsert, byCopy, byMemcpy := WarmUp(invlists, 3, 6, 1, zero);
  }

  /** One step of the offset bookkeeping: list k starts at the offset reached
      after lists 0..k-1, ends at the next one, and stays inside the buffer. */
  lemma GatherStep<T>(invlists: MockInvList<T>, k: nat, nlist: nat, ntotal: nat)
    requires invlists.Valid() && k < nlist <= |invlists.lists|
    requires Sum(invlists.Sizes()[..nlist]) <= ntotal
    ensures Sum(invlists.Sizes()[..k]) * invlists.d + invlists.ListSize(k) * invlists.d
            == Sum(invlists.Sizes()[..k + 1]) * invlists.d <= ntotal * invlists.d
    ensures Flatten(invlists.lists[..k + 1]) == Flatten(invlists.lists[..k]) + invlists.lists[k]
    ensures |Flatten(invlists.lists[..k])| == Sum(invlists.Sizes()[..k]) * invlists.d
  {
    invlists.OffsetInBounds(k, nlist);
    MulMono(Sum(invlists.Sizes()[..nlist]), ntotal, invlists.d);
    FlattenPrefixStep(invlists.lists, k);
    invlists.GatheredLength(k);
  }

  /** After the last list the offset has consumed exactly the lists' total,
      and what remains of the ntotal * d slots is the unwritten tail. */
  lemma UnwrittenTail<T>(invlists: MockInvList<T>, nlist: nat, ntotal: nat)
    requires invlists.Valid() && nlist <= |invlists.lists|
    requires Sum(invlists.Sizes()[..nlist]) <= ntotal
    ensures ntotal * invlists.d - Sum(invlists.Sizes()[..nlist]) * invlists.d
            == (ntotal - Sum(invlists.Sizes()[..nlist])) * invlists.d
    ensures |Flatten(invlists.lists[..nlist])| == Sum(invlists.Sizes()[..nlist]) * invlists.d
  {
    invlists.GatheredLength(nlist);
  }
}
