/** The part of std::vector that both benchmark programs use: the contents
    after resize, clear, reserve, insert at the end, and the two bulk copies
    into the vector's storage (std::copy element by element, memcpy as one
    block of bytes). Capacity is not modelled; reserve keeps the contents. */
module StdVector {

  /** Contents after resize(n): the first n elements are kept, and any new
      slot is value-initialised to `zero`. */
  function Resized<T>(v: seq<T>, n: nat, zero: T): (r: seq<T>)
    ensures |r| == n
    ensures forall i :: 0 <= i < n && i < |v| ==> r[i] == v[i]
    ensures forall i :: |v| <= i < n ==> r[i] == zero
  {
    if n <= |v| then v[..n] else v + seq(n - |v|, _ => zero)
  }

  /** Contents after writing `src` into `v` starting at position `at`. */
  function Overwrite<T>(v: seq<T>, at: nat, src: seq<T>): (r: seq<T>)
    requires at + |src| <= |v|
    ensures |r| == |v|
    ensures forall i :: 0 <= i < |src| ==> r[at + i] == src[i]
    ensures forall i :: 0 <= i < |v| && (i < at || at + |src| <= i) ==> r[i] == v[i]
  {
    v[..at] + src + v[at + |src|..]
  }

  /** Writing a block right after a filled prefix consumes the same number of
      filler slots: the destination has neither a gap nor an overlap. */
  lemma OverwriteAfterPrefix<T>(prefix: seq<T>, src: seq<T>, m: nat, zero: T)
    requires |src| <= m
    ensures Overwrite(prefix + seq(m, _ => zero), |prefix|, src)
         == (prefix + src) + seq(m - |src|, _ => zero)
  {
  }

  class Vector<T> {
    /** The elements the vector holds, from begin() to end(). */
    var elems: seq<T>

    constructor ()
      ensures elems == []
    {
      elems := [];
    }

    method Resize(n: nat, zero: T)
      modifies this
      ensures elems == Resized(old(elems), n, zero)
    {
      elems := Resized(elems, n, zero);
    }

    /** Reserving capacity has no effect on the contents. */
    method Reserve(n: nat)
      modifies this
      ensures elems == old(elems)
    {
    }

    method Clear()
      modifies this
      ensures elems == []
    {
      elems := [];
    }

    /** insert(end(), first, last). */
    method InsertAtEnd(src: seq<T>)
      modifies this
      ensures elems == old(elems) + src
    {
      elems := elems + src;
    }

    /** std::copy(first, last, data() + at): one element at a time. */
    method CopyAt(src: seq<T>, at: nat)
      requires at + |src| <= |elems|
      modifies this
      ensures elems == Overwrite(old(elems), at, src)
    {
      var k := 0;
      while k < |src|
        invariant k <= |src|
        invariant elems == Overwrite(old(elems), at, src[..k])
      {
        elems := elems[at + k := src[k]];
        k := k + 1;
      }
      assert src[..k] == src;
    }

    /** memcpy(data() + at, src, bytes): moves bytes / elemBytes whole elements
        as one block. */
    method MemCpy(at: nat, src: seq<T>, bytes: nat, elemBytes: nat)
      requires elemBytes > 0 && bytes % elemBytes == 0
      requires bytes / elemBytes <= |src| && at + bytes / elemBytes <= |elems|
      modifies this
      ensures elems == Overwrite(old(elems), at, src[..bytes / elemBytes])
    {
      var n := bytes / elemBytes;
      elems := elems[..at] + src[..n] + elems[at + n..];
    }
  }
}
