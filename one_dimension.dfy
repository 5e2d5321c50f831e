/** The flat copy benchmark: three ways to make a reused target vector an
    exact copy of a source vector of doubles. Doubles are only moved, so their
    type is the type parameter T; `zero` is the value resize gives new slots.
    The source is a value that no routine can change. */
module OneDimension {
  import opened StdVector

  /** sizeof(double) */
  const DoubleBytes: nat := 8

  /** resize to the source's length, then memcpy all of its bytes. */
  method ResizeMemcpy<T>(source: seq<T>, target: Vector<T>, zero: T)
    modifies target
    ensures target.elems == Overwrite(Resized(old(target.elems), |source|, zero), 0, source)
    ensures target.elems == source
  {
    target.Resize(|source|, zero);
    var bytes := |source| * DoubleBytes;
    assert bytes / DoubleBytes == |source| && bytes % DoubleBytes == 0;
    target.MemCpy(0, source, bytes, DoubleBytes);
    assert source[..|source|] == source;
    ResizeThenOverwriteIsCopy(old(target.elems), source, zero);
  }

  /** resize to the source's length, then std::copy every element. */
  method ResizeCopy<T>(source: seq<T>, target: Vector<T>, zero: T)
    modifies target
    ensures target.elems == Overwrite(Resized(old(target.elems), |source|, zero), 0, source)
    ensures target.elems == source
  {
    target.Resize(|source|, zero);
    target.CopyAt(source, 0);
    ResizeThenOverwriteIsCopy(old(target.elems), source, zero);
  }

  /** clear, reserve the source's length, then insert every element at the end. */
  method ReserveInsert<T>(source: seq<T>, target: Vector<T>)
    modifies target
    ensures target.elems == source
  {
    target.Clear();
    target.Reserve(|source|);
    target.InsertAtEnd(source);
  }

  /** Resizing to the source's length and writing the source from position 0
      overwrites every slot: whatever the target held before is gone. */
  lemma ResizeThenOverwriteIsCopy<T>(prior: seq<T>, source: seq<T>, zero: T)
    ensures Overwrite(Resized(prior, |source|, zero), 0, source) == source
  {
  }

  /** The benchmark loops reuse one target: a second resize-and-overwrite
      with the same source leaves what the first produced. */
  lemma ResizeThenOverwriteIdempotent<T>(prior: seq<T>, source: seq<T>, zero: T)
    ensures var once := Overwrite(Resized(prior, |source|, zero), 0, source);
            Overwrite(Resized(once, |source|, zero), 0, source) == once
  {
  }
}
