/** `LongArray`: 64-bit integers in native memory, eight bytes per element. */
module LongArrays {
  import opened Wrappers
  import opened JavaInts
  import NA = NativeArrays

  const LONG_BYTES: nat := 8

  type LongArray = NA.NativeArray<Int64>

  predicate IsLongArray(a: LongArray) {
    NA.Valid(a) && a.elementBytes == LONG_BYTES
  }

  /** `new LongArray(n)` with `ARRAY_HEADER == header`. */
  function New(n: int, header: int): (a: LongArray)
    requires 0 <= n <= INT_MAX && NA.ValidHeader(header, LONG_BYTES)
    ensures IsLongArray(a)
    ensures GetSize(a) == n && NA.HeaderCount(a) == n
    ensures a.baseIndex == header / LONG_BYTES
    ensures GetNumBytesOfSegment(a) == n * LONG_BYTES + header
    ensures forall i :: 0 <= i < n ==> Get(a, i) == 0
  {
    NA.New(n, LONG_BYTES, header, 0)
  }

  /** `fromArray(values)` and `fromElements(values...)`, both of which delegate to `createSegment`. */
  method FromArray(values: seq<Int64>, header: int) returns (a: LongArray)
    requires |values| <= INT_MAX && NA.ValidHeader(header, LONG_BYTES)
    ensures IsLongArray(a) && a.arrayHeaderSize == header
    ensures GetSize(a) == |values| && NA.HeaderCount(a) == |values|
    ensures forall i :: 0 <= i < |values| ==> Get(a, i) == values[i]
  {
    a := NA.CreateSegment(values, LONG_BYTES, header, 0);
  }

  /** `fromSegment(segment)`. */
  function FromSegment(src: NA.RawSegment<Int64>, header: int): (r: Result<LongArray, NA.ArrayError>)
    requires NA.ValidHeader(header, LONG_BYTES)
    requires src.byteSize / LONG_BYTES <= INT_MAX && |src.words| == src.byteSize / LONG_BYTES
    ensures r.Success? <==> src.byteSize % LONG_BYTES == 0
    ensures r.Success? ==>
      && IsLongArray(r.value)
      && GetSize(r.value) == src.byteSize / LONG_BYTES
      && NA.HeaderCount(r.value) == GetSize(r.value)
      && GetNumBytesWithoutHeader(r.value) == src.byteSize
      && forall i :: 0 <= i < GetSize(r.value) ==> Get(r.value, i) == src.words[i]
  {
    NA.FromSegment(src, LONG_BYTES, header, 0)
  }

  /** `toHeapArray()`. */
  method ToHeapArray(a: LongArray) returns (out: seq<Int64>)
    requires IsLongArray(a)
    ensures |out| == GetSize(a)
    ensures forall i :: 0 <= i < |out| ==> out[i] == Get(a, i)
  {
    out := NA.ToHeapArray(a);
  }

  /** `toHeapArray(fromArray(values))` returns `values`. */
  method RoundTrip(values: seq<Int64>, header: int) returns (out: seq<Int64>)
    requires |values| <= INT_MAX && NA.ValidHeader(header, LONG_BYTES)
    ensures out == values
  {
    var a := FromArray(values, header);
    out := ToHeapArray(a);
  }

  /** `set(index, value)`. */
  function Set(a: LongArray, index: int, value: Int64): (r: LongArray)
    requires IsLongArray(a) && 0 <= index < GetSize(a)
    ensures IsLongArray(r) && NA.SameLayout(a, r)
    ensures Get(r, index) == value
    ensures forall j :: 0 <= j < GetSize(a) && j != index ==> Get(r, j) == Get(a, j)
  {
    NA.Set(a, index, value)
  }

  /** `get(index)`. */
  function Get(a: LongArray, index: int): (v: Int64)
    requires IsLongArray(a) && 0 <= index < GetSize(a)
    ensures v == NA.Contents(a)[index]
  {
    NA.Get(a, index)
  }

  /** `init(value)`. */
  method Init(a: LongArray, value: Int64) returns (r: LongArray)
    requires IsLongArray(a)
    ensures IsLongArray(r) && NA.SameLayout(a, r)
    ensures forall i :: 0 <= i < GetSize(r) ==> Get(r, i) == value
  {
    r := NA.Init(a, value);
  }

  /** `clear()`, which is `init(0)`. */
  method Clear(a: LongArray) returns (r: LongArray)
    requires IsLongArray(a)
    ensures IsLongArray(r) && NA.SameLayout(a, r)
    ensures forall i :: 0 <= i < GetSize(r) ==> Get(r, i) == 0
  {
    r := Init(a, 0);
  }

  /** `getSize()`. */
  function GetSize(a: LongArray): (r: int)
    ensures IsLongArray(a) ==> r == |NA.Contents(a)| && r == NA.HeaderCount(a)
  {
    NA.Size(a)
  }

  /** `getNumBytesOfSegment()`. */
  function GetNumBytesOfSegment(a: LongArray): (r: int)
    requires IsLongArray(a)
    ensures r == GetSize(a) * LONG_BYTES + a.arrayHeaderSize
  {
    NA.NumBytesOfSegment(a)
  }

  /** `getNumBytesWithoutHeader()`. */
  function GetNumBytesWithoutHeader(a: LongArray): (r: int)
    requires IsLongArray(a)
    ensures r == GetSize(a) * LONG_BYTES
    ensures r == GetNumBytesOfSegment(a) - a.arrayHeaderSize
  {
    NA.NumBytesWithoutHeader(a)
  }
}
