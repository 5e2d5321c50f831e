# vector_reserve_bench, modelled in Dafny

Two micro-benchmarks that gather floating-point data into one contiguous
`std::vector` in three ways, and the bookkeeping those routines depend on.

* `bench.cpp` builds a mock inverted-list structure (`MockInvList`): each of
  `total_vectors` vectors is dropped into a randomly drawn list out of `nlist`,
  each list becomes a byte buffer of `size * d * sizeof(float)` bytes, and
  `list_size` / `get_codes` read it back. Three routines flatten all lists, in
  list order, into one buffer: reserve + insert at the end, resize + `std::copy`
  at a running offset, and resize + `memcpy` at the same offset.
* `one_dimension.cpp` makes a reused target vector an exact copy of a source
  vector in three ways: resize + `memcpy`, resize + `std::copy`, and
  clear + reserve + insert.

Modules:

* `SeqUtil` (`seq_util.dfy`): `Sum`, `Occurrences` and `Flatten` (the lists laid
  end to end), with the prefix lemmas the loops use.
* `StdVector` (`std_vector.dfy`): class `Vector<T>` with field `elems`, the
  vector's contents. Its methods are the vector operations the programs call.
  `Resized` and `Overwrite` are the functions that specify resize and the two
  bulk copies.
* `InvLists` (`inv_lists.dfy`): `bench.cpp`. The two loops of the constructor
  are `CountDraws` and `FillLists`, and the debug total is `TotalCheck`. Class
  `MockInvList<T>` holds `lists` and `d`. The routines `method1`–`method3` are
  `GatherReserveInsert`, `GatherResizeCopy` and `GatherResizeMemcpy`.
* `OneDimension` (`one_dimension.dfy`): `test_resize_memcpy`,
  `test_resize_copy` and `test_reserve_insert`, as methods on a `Vector<T>`
  target.

The float and double values are only moved, never computed on, so the element
type is a type parameter `T`. The value that `resize` gives new slots (`0.0`)
is the parameter `zero`. The random list-index draws are a parameter `draws`
(each below `nlist`). The random floats are a parameter `floats`, consumed in
the order the constructor fills the lists. The routines in `bench.cpp`
discard their buffer; the model returns it as a sequence so that its contents
can be stated. None of them has a `modifies` clause, so the verifier's frame
check proves that the lists are left unchanged. `memcpy` is modelled as a
byte count divided by the element size and copied as one block. `std::copy`
is modelled as a loop over elements.

Preconditions the code relies on without checking:

* Every draw is below `nlist`.
* `d > 0`, because `list_size` divides by `d * sizeof(float)`.
* The `nlist` and `d` passed to the routines agree with the structure.
* For `method2`/`method3`, the list sizes add up to at most `ntotal`.
  Otherwise the writes run past the pre-sized buffer. When the sizes add up
  to less than `ntotal`, the buffer's tail keeps its initial value; the
  contracts say so.

## Model

| member | source | states |
|---|---|---|
| `SeqUtil.SumUpdate` | bench.cpp:24 | incrementing one count changes the sum of the counts by exactly the increment |
| `StdVector.Resized` | one_dimension.cpp:10 | after resize(n) the length is n, the first elements are kept, and every new slot holds the initial value |
| `StdVector.Overwrite` | one_dimension.cpp:16 | writing a block at `at` keeps the length, puts the block at positions `at..at+len`, and leaves every other position as it was |
| `StdVector.OverwriteAfterPrefix` | bench.cpp:84-85 | writing a list right after the filled prefix of a pre-sized buffer consumes exactly that many initial slots: no gap and no overlap |
| `StdVector.Vector.constructor` | bench.cpp:57 | a new vector is empty |
| `StdVector.Vector.Resize` | one_dimension.cpp:10 | the contents become `Resized(old contents, n, zero)` |
| `StdVector.Vector.Reserve` | one_dimension.cpp:21 | reserving capacity leaves the contents unchanged |
| `StdVector.Vector.Clear` | one_dimension.cpp:20 | the contents become empty |
| `StdVector.Vector.InsertAtEnd` | one_dimension.cpp:22 | the contents become the old contents followed by the inserted range |
| `StdVector.Vector.CopyAt` | one_dimension.cpp:16 | the element-by-element copy leaves the contents equal to `Overwrite(old contents, at, src)` |
| `StdVector.Vector.MemCpy` | one_dimension.cpp:11 | a copy of `bytes` bytes moves `bytes / elemBytes` whole elements, so the contents become `Overwrite(old contents, at, src[..bytes / elemBytes])` |
| `InvLists.ByteSizeRoundTrip` | bench.cpp:47-49 | `count * d * sizeof(float)` bytes divided by `d * sizeof(float)` gives back `count` when `d > 0` |
| `InvLists.CountDraws` | bench.cpp:20-25 | `nlist` sizes, size k is the number of draws that picked list k, and the sizes add up to the number of draws |
| `InvLists.TotalCheck` | bench.cpp:28-31 | the debug total is the sum of the sizes |
| `InvLists.FillLists` | bench.cpp:34-44 | list i holds `sizes[i] * d` values, and the lists laid end to end are exactly the random values in the order drawn |
| `InvLists.MockInvList.constructor` | bench.cpp:14-45 | the structure has `nlist` lists, `list_size(k)` is the number of draws that picked k, the sizes add up to `total_vectors`, and the lists concatenated are the random values |
| `InvLists.MockInvList.ListSize` | bench.cpp:47-49 | `list_size(i) * d` is the number of floats held by list i |
| `InvLists.MockInvList.GetCodes` | bench.cpp:51-53 | a non-null pointer gives list i's own data |
| `InvLists.MockInvList.CodesNullIffEmpty` | bench.cpp:51-53 | `get_codes(i)` is null exactly when `list_size(i) == 0`, so the skip branch is never taken for a non-empty list |
| `InvLists.MockInvList.GatheredLength` | bench.cpp:60-69 | the first n lists together hold the sum of their sizes times `d` floats |
| `InvLists.MockInvList.OffsetInBounds` | bench.cpp:77-86 | list k's span runs from the sum of the earlier sizes times `d` to the next such offset, which stays within the first n lists' total |
| `InvLists.GatherReserveInsert` | bench.cpp:56-70 | the buffer is the concatenation of lists `0..nlist-1` in index order, of length the sum of `list_size * d` |
| `InvLists.GatherResizeCopy` | bench.cpp:72-88 | the buffer has `ntotal * d` slots: the concatenation of the lists in index order, then initial values for any slots beyond the lists' total; with sizes adding up to `ntotal` it is exactly the concatenation |
| `InvLists.GatherResizeMemcpy` | bench.cpp:90-106 | the same buffer as the `std::copy` variant, built with byte-counted block copies |
| `InvLists.GatherStep` | bench.cpp:77-86 | offset bookkeeping: after lists `0..k-1` the offset is their size sum times `d`; list k (empty or not) advances it by `list_size(k) * d` and stays inside the `ntotal * d` buffer |
| `InvLists.UnwrittenTail` | bench.cpp:74 | after the last list, the slots left unwritten number `(ntotal - sum of sizes) * d` |
| `InvLists.WarmUp` | bench.cpp:120-125 | run on the same lists with sizes adding up to `ntotal`, the three routines yield identical buffers, equal to the concatenation and of length `ntotal * d` |
| `InvLists.SixVectorScenario` | bench.cpp:115-124 | six one-dimensional vectors drawn into lists 0,0,1,2,2,2 (sizes 2, 1, 3) gather to the six values in order under all three routines |
| `OneDimension.ResizeMemcpy` | one_dimension.cpp:9-12 | the target becomes the source element for element, whatever it held before |
| `OneDimension.ResizeCopy` | one_dimension.cpp:14-17 | the target becomes the source element for element, whatever it held before |
| `OneDimension.ReserveInsert` | one_dimension.cpp:19-23 | the target is cleared first and becomes the source, whatever it held before |
| `OneDimension.ResizeThenOverwriteIsCopy` | one_dimension.cpp:10-11 | resizing to the source's length and writing it from position 0 overwrites every slot, so the prior contents have no effect |
| `OneDimension.ResizeThenOverwriteIdempotent` | one_dimension.cpp:54-59 | a second resize-and-overwrite with the same source leaves the target as the first one left it, as the reused-target benchmark loops need |

## Left out

- Timing and reporting: the clocks, per-run and average output, and the speedup ratios are wall-clock measurements and floating-point division.
- Random generation: `random_device`, `mt19937` and the distributions become the `draws` and `floats` parameters.
- The flat source initialisation `i * 0.001` in `one_dimension.cpp` is floating-point arithmetic outside the copy logic.
- The debug print of the total is left out. Its value is modelled by `TotalCheck`, and the constructor proves it equals `total_vectors`.
- Capacity: `reserve` has no effect on contents, and allocation failure terminates the process; neither is modelled.
- `reinterpret_cast` between byte and float storage: each list is modelled directly as its `list_size * d` floats. Byte sizes appear only where the source computes them (`list_size`, `memcpy`).
- `size_t` wrap-around: sizes and products such as `ntotal * d` are unbounded integers. The programs' constants (`ntotal * d` is about 5 * 10^8) stay far below 2^64.
- `main`: its fixed constants, console output and the timed loops are left out. The warm-up pass is `WarmUp`.
- Aliasing between `source` and `target` in `one_dimension.cpp`: the source is a value, so the model cannot express the two sharing storage (the source passes it by const reference).
