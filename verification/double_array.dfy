/** `DoubleArray`: doubles in native memory, eight bytes per element. Values are only stored and
    read back, so an element is its raw 64-bit pattern and no floating-point arithmetic is involved. */
module DoubleArrays {
  import opened Wrappers
  import opened JavaInts
  import NA = NativeArrays

  const DOUBLE_BYTES: nat := 8

  /** The IEEE-754 bit pattern of a Java `double`. */
  type Double = bv64

  /** The bit pattern of `0.0`. */
  const ZERO: Double := 0

  type DoubleArray = NA.NativeArray<Double>

  predicate IsDoubleArray(a: DoubleArray) {
    NA.Valid(a) && a.elementBytes == DOUBLE_BYTES
  }

  /** `new DoubleArray(n)` with `ARRAY_HEADER == header` (asserted to be at least 8). */
  function New(n: int, header: int): (a: DoubleArray)
    requires 0 <= n <= INT_MAX && NA.ValidHeader(header, DOUBLE_BYTES)
    ensures IsDoubleArray(a)
    ensures GetSize(a) == n && NA.HeaderCount(a) == n
    ensures a.baseIndex == header / DOUBLE_BYTES
    ensures GetNumBytesOfSegment(a) == n * DOUBLE_BYTES + header
    ensures forall i :: 0 <= i < n ==> Get(a, i) == ZERO
  {
    NA.New(n, DOUBLE_BYTES, header, ZERO)
  }

  /** `fromArray(values)` and `fromElements(values...)`, both of which delegate to `createSegment`. */
  method FromArray(values: seq<Double>, header: int) returns (a: DoubleArray)
    requires |values| <= INT_MAX && NA.ValidHeader(header, DOUBLE_BYTES)
    ensures IsDoubleArray(a) && a.arrayHeaderSize == header
    ensures GetSize(a) == |values| && NA.HeaderCount(a) == |values|
    ensures forall i :: 0 <= i < |values| ==> Get(a, i) == values[i]
  {
    a := NA.CreateSegment(values, DOUBLE_BYTES, header, ZERO);
  }

  /** `fromSegment(segment)`. */
  function FromSegment(src: NA.RawSegment<Double>, header: int): (r: Result<DoubleArray, NA.ArrayError>)
    requires NA.ValidHeader(header, DOUBLE_BYTES)
    requires src.byteSize / DOUBLE_BYTES <= INT_MAX && |src.words| == src.byteSize / DOUBLE_BYTES
    ensures r.Success? <==> src.byteSize % DOUBLE_BYTES == 0
    ensures r.Success? ==>
      && IsDoubleArray(r.value)
      && GetSize(r.value) == src.byteSize / DOUBLE_BYTES
      && NA.HeaderCount(r.value) == GetSize(r.value)
      && GetNumBytesWithoutHeader(r.value) == src.byteSize
      && forall i :: 0 <= i < GetSize(r.value) ==> Get(r.value, i) == src.words[i]
  {
    NA.FromSegment(src, DOUBLE_BYTES, header, ZERO)
  }

  /** `toHeapArray()`. */
  method ToHeapArray(a: DoubleArray) returns (out: seq<Double>)
    requires IsDoubleArray(a)
    ensures |out| == GetSize(a)
    ensures forall i :: 0 <= i < |out| ==> out[i] == Get(a, i)
  {
    out := NA.ToHeapArray(a);
  }

  /** `toHeapArray(fromArray(values))` returns `values`. */
  method RoundTrip(values: seq<Double>, header: int) returns (out: seq<Double>)
    requires |values| <= INT_MAX && NA.ValidHeader(header, DOUBLE_BYTES)
    ensures out == values
  {
    var a := FromArray(values, header);
    out := ToHeapArray(a);
  }

  /** `set(index, value)`. */
  function Set(a: DoubleArray, index: int, value: Double): (r: DoubleArray)
    requires IsDoubleArray(a) && 0 <= index < GetSize(a)
    ensures IsDoubleArray(r) && NA.SameLayout(a, r)
    ensures Get(r, index) == value
    ensures forall j :: 0 <= j < GetSize(a) && j != index ==> Get(r, j) == Get(a, j)
  {
    NA.Set(a, index, value)
  }

  /** `get(index)`. */
  function Get(a: DoubleArray, index: int): (v: Double)
    requires IsDoubleArray(a) && 0 <= index < GetSize(a)
    ensures v == NA.Contents(a)[index]
  {
    NA.Get(a, index)
  }

  /** `init(value)`. */
  method Init(a: DoubleArray, value: Double) returns (r: DoubleArray)
    requires IsDoubleArray(a)
    ensures IsDoubleArray(r) && NA.SameLayout(a, r)
    ensures forall i :: 0 <= i < GetSize(r) ==> Get(r, i) == value
  {
    r := NA.Init(a, value);
  }

  /** `clear()`, which is `init(0.0)`. */
  method Clear(a: DoubleArray) returns (r: DoubleArray)
    requires IsDoubleArray(a)
    ensures IsDoubleArray(r) && NA.SameLayout(a, r)
    ensures forall i :: 0 <= i < GetSize(r) ==> Get(r, i) == ZERO
  {
    r := Init(a, ZERO);
  }

  /** `getSize()`. */
  function GetSize(a: DoubleArray): (r: int)
    ensures IsDoubleArray(a) ==> r == |NA.Contents(a)| && r == NA.HeaderCount(a)
  {
    NA.Size(a)
  }

  /** `getNumBytesOfSegment()`. */
  function GetNumBytesOfSegment(a: DoubleArray): (r: int)
    requires IsDoubleArray(a)
    ensures r == GetSize(a) * DOUBLE_BYTES + a.arrayHeaderSize
  {
    NA.NumBytesOfSegment(a)
  }

  /** `getNumBytesWithoutHeader()`. */
  function GetNumBytesWithoutHeader(a: DoubleArray): (r: int)
    requires IsDoubleArray(a)
    ensures r == GetSize(a) * DOUBLE_BYTES
    ensures r == GetNumBytesOfSegment(a) - a.arrayHeaderSize
  {
    NA.NumBytesWithoutHeader(a)
  }
}
