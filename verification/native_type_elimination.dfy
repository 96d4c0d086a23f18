/** The compiler phase that removes loads of `baseIndex` from kernels replaces them with the constant
    `headerSize / elementKindSize`. With the same header size and element width it is the very slot
    index every array object stores, so compiled accesses read the element the host wrote. */
module NativeTypeElimination {
  import NA = NativeArrays

  /** The constant folded in place of a `baseIndex` load. */
  function FoldedBaseIndex(panamaObjectHeaderSize: int, elementKindSize: int): int
    requires elementKindSize > 0
  {
    panamaObjectHeaderSize / elementKindSize
  }

  /** For any valid array whose header size is the compiler's header size, the folded constant equals
      the stored `baseIndex`, and slot `constant + i` holds element `i`. */
  lemma FoldedBaseIndexAgrees<T>(a: NA.NativeArray<T>, panamaObjectHeaderSize: int, elementKindSize: int, i: int)
    requires NA.Valid(a) && 0 <= i < NA.Size(a)
    requires panamaObjectHeaderSize == a.arrayHeaderSize && elementKindSize == a.elementBytes
    ensures FoldedBaseIndex(panamaObjectHeaderSize, elementKindSize) == a.baseIndex
    ensures a.segment.HoldsSlot(FoldedBaseIndex(panamaObjectHeaderSize, elementKindSize) + i)
    ensures a.segment.GetAtIndex(FoldedBaseIndex(panamaObjectHeaderSize, elementKindSize) + i) == NA.Get(a, i)
    ensures FoldedBaseIndex(panamaObjectHeaderSize, elementKindSize) * elementKindSize == panamaObjectHeaderSize
  {
  }
}
