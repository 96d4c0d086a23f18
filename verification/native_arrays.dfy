/** The layout shared by every off-heap array type: a segment of `header | payload`, the element count
    stored as an `int` in the first four header bytes, and element `i` kept in element slot
    `baseIndex + i` where `baseIndex = header / elementBytes`. */
module NativeArrays {
  import opened Wrappers
  import opened JavaInts

  /** A header size the layout can use: it holds the `int` count, is a whole number of element slots,
      and fits the `(int)` cast the array constructors apply to it. */
  predicate ValidHeader(headerBytes: int, elementBytes: int) {
    elementBytes > 0 && 8 <= headerBytes <= INT_MAX && headerBytes % elementBytes == 0
  }

  /** A native memory segment: `headerBytes` of header, of which the first four hold `sizeHeader`,
      followed by `payload`, one element per `elementBytes`-wide slot. */
  datatype Segment<T> = Segment(headerBytes: nat, elementBytes: nat, sizeHeader: int, payload: seq<T>)
  {
    function ByteSize(): nat {
      headerBytes + |payload| * elementBytes
    }

    /** The element slot at which the payload begins. */
    function FirstSlot(): nat
      requires elementBytes > 0
    {
      headerBytes / elementBytes
    }

    /** Slot `k` (counted in elements from the start of the segment) lies in the payload. */
    predicate HoldsSlot(k: int) {
      elementBytes > 0 && FirstSlot() <= k < FirstSlot() + |payload|
    }

    /** `getAtIndex(layout, k)` on a payload slot. */
    function GetAtIndex(k: int): T
      requires HoldsSlot(k)
    {
      payload[k - FirstSlot()]
    }

    /** `setAtIndex(layout, k, v)` on a payload slot. */
    function SetAtIndex(k: int, v: T): Segment<T>
      requires HoldsSlot(k)
    {
      this.(payload := payload[k - FirstSlot() := v])
    }
  }

  /** A raw segment handed to `fromSegment`: its byte size and its contents read as whole elements. */
  datatype RawSegment<T> = RawSegment(byteSize: nat, words: seq<T>)

  datatype ArrayError =
    /** `MemorySegment.copy` would run past the end of the new array's segment. */
    | SizeMismatch

  /** The fields of one array object of the element width `elementBytes`. */
  datatype NativeArray<T> = NativeArray(
    elementBytes: nat,
    numberOfElements: int,
    arrayHeaderSize: int,
    baseIndex: int,
    segmentByteSize: int,
    segment: Segment<T>)

  /** The invariant every constructor establishes and every operation keeps. */
  predicate Valid<T>(a: NativeArray<T>) {
    && ValidHeader(a.arrayHeaderSize, a.elementBytes)
    && 0 <= a.numberOfElements <= INT_MAX
    && a.baseIndex == a.arrayHeaderSize / a.elementBytes
    && a.segmentByteSize == a.numberOfElements * a.elementBytes + a.arrayHeaderSize
    && a.segment.headerBytes == a.arrayHeaderSize
    && a.segment.elementBytes == a.elementBytes
    && a.segment.sizeHeader == a.numberOfElements
    && |a.segment.payload| == a.numberOfElements
  }

  /** Everything but the payload contents agrees. */
  predicate SameLayout<T>(a: NativeArray<T>, b: NativeArray<T>) {
    && a.elementBytes == b.elementBytes
    && a.numberOfElements == b.numberOfElements
    && a.arrayHeaderSize == b.arrayHeaderSize
    && a.baseIndex == b.baseIndex
    && a.segmentByteSize == b.segmentByteSize
    && a.segment.headerBytes == b.segment.headerBytes
    && a.segment.elementBytes == b.segment.elementBytes
    && a.segment.sizeHeader == b.segment.sizeHeader
  }

  /** The elements in index order. */
  function Contents<T>(a: NativeArray<T>): seq<T> {
    a.segment.payload
  }

  /** The count stored in the segment header. */
  function HeaderCount<T>(a: NativeArray<T>): int {
    a.segment.sizeHeader
  }

  /** The constructor: a zero-filled segment of `n` elements behind a header recording `n`. */
  function New<T>(n: int, elementBytes: nat, header: int, zero: T): (a: NativeArray<T>)
    requires 0 <= n <= INT_MAX && ValidHeader(header, elementBytes)
    ensures Valid(a) && a.elementBytes == elementBytes && a.arrayHeaderSize == header
    ensures Size(a) == n && HeaderCount(a) == n
    ensures a.baseIndex * elementBytes == header
    ensures NumBytesOfSegment(a) == n * elementBytes + header
    ensures forall i :: 0 <= i < n ==> Get(a, i) == zero
  {
    NativeArray(elementBytes, n, header, header / elementBytes, n * elementBytes + header,
                Segment(header, elementBytes, n, seq(n, _ => zero)))
  }

  /** The segment size as the constructors compute it: `numberOfElements * ELEMENT_BYTES + arrayHeaderSize`
      is an `int` expression, so it wraps modulo 2^32 before it is widened to the `long` field. */
  function SegmentByteSizeAsWritten(n: int, elementBytes: nat, header: int): (r: Int32)
    requires 0 <= n <= INT_MAX && ValidHeader(header, elementBytes)
    ensures (r - (n * elementBytes + header)) % 0x1_0000_0000 == 0
    ensures IsInt(n * elementBytes + header) ==> r == n * elementBytes + header
  {
    WrapInt(n * elementBytes + header)
  }

  /** With 2^29 eight-byte elements the `int` size wraps to the header alone: the segment would record
      2^29 elements but have room for none, where the exact size `New` uses is 2^32 bytes more. */
  lemma IntSizeOverflow<T>(header: int, zero: T)
    requires ValidHeader(header, 8)
    ensures SegmentByteSizeAsWritten(0x2000_0000, 8, header) == header
    ensures NumBytesOfSegment(New(0x2000_0000, 8, header, zero)) == 0x1_0000_0000 + header
  {
    var exact := 0x2000_0000 * 8 + header;
    assert exact == 0x1_0000_0000 + header;
    assert (exact - INT_MIN) % 0x1_0000_0000 == header - INT_MIN;
  }

  /** `getSize()`. */
  function Size<T>(a: NativeArray<T>): (r: int)
    ensures Valid(a) ==> r == |Contents(a)| && r == HeaderCount(a)
  {
    a.numberOfElements
  }

  /** `get(i)`: reads element slot `baseIndex + i`, which is payload element `i`. */
  function Get<T>(a: NativeArray<T>, i: int): (v: T)
    requires Valid(a) && 0 <= i < Size(a)
    ensures v == Contents(a)[i]
  {
    a.segment.GetAtIndex(a.baseIndex + i)
  }

  /** `set(i, v)`: writes element slot `baseIndex + i`. */
  function Set<T>(a: NativeArray<T>, i: int, v: T): (r: NativeArray<T>)
    requires Valid(a) && 0 <= i < Size(a)
    ensures SameLayout(a, r)
    ensures Contents(r) == Contents(a)[i := v]
  {
    a.(segment := a.segment.SetAtIndex(a.baseIndex + i, v))
  }

  /** `getNumBytesOfSegment()`. */
  function NumBytesOfSegment<T>(a: NativeArray<T>): (r: int)
    requires Valid(a)
    ensures r == a.segment.ByteSize() && r == Size(a) * a.elementBytes + a.arrayHeaderSize
  {
    a.segmentByteSize
  }

  /** `getNumBytesWithoutHeader()`: the bytes taken by the elements alone. */
  function NumBytesWithoutHeader<T>(a: NativeArray<T>): (r: int)
    requires Valid(a)
    ensures r == Size(a) * a.elementBytes
    ensures r == NumBytesOfSegment(a) - a.arrayHeaderSize
  {
    a.segmentByteSize - a.arrayHeaderSize
  }

  /** `init(v)`: stores `v` in every element slot, one index at a time. */
  method Init<T>(a: NativeArray<T>, v: T) returns (r: NativeArray<T>)
    requires Valid(a)
    ensures SameLayout(a, r) && |Contents(r)| == Size(a)
    ensures forall i :: 0 <= i < Size(a) ==> Contents(r)[i] == v
  {
    r := a;
    var i := 0;
    while i < Size(r)
      invariant 0 <= i <= Size(a)
      invariant Valid(r) && SameLayout(a, r)
      invariant forall j :: 0 <= j < i ==> Contents(r)[j] == v
    {
      r := Set(r, i, v);
      i := i + 1;
    }
  }

  /** `createSegment(values)`, behind `fromArray` and `fromElements`: a new array of `|values|`
      elements, then `set(i, values[i])` for each index in turn. */
  method CreateSegment<T>(values: seq<T>, elementBytes: nat, header: int, zero: T) returns (a: NativeArray<T>)
    requires |values| <= INT_MAX && ValidHeader(header, elementBytes)
    ensures Valid(a) && a.elementBytes == elementBytes && a.arrayHeaderSize == header
    ensures Size(a) == |values| && HeaderCount(a) == |values|
    ensures NumBytesOfSegment(a) == |values| * elementBytes + header
    ensures forall i :: 0 <= i < |values| ==> Get(a, i) == values[i]
    ensures Contents(a) == values
  {
    a := New(|values|, elementBytes, header, zero);
    ghost var created := a;
    var i := 0;
    while i < |values|
      invariant 0 <= i <= |values|
      invariant Valid(a) && SameLayout(created, a)
      invariant forall j :: 0 <= j < i ==> Get(a, j) == values[j]
    {
      a := Set(a, i, values[i]);
      i := i + 1;
    }
  }

  /** `toHeapArray()`: a fresh heap array holding `get(i)` at each index `i < getSize()`. */
  method ToHeapArray<T>(a: NativeArray<T>) returns (out: seq<T>)
    requires Valid(a)
    ensures |out| == Size(a)
    ensures forall i :: 0 <= i < |out| ==> out[i] == Get(a, i)
    ensures out == Contents(a)
  {
    out := [];
    var i := 0;
    while i < Size(a)
      invariant 0 <= i <= Size(a)
      invariant |out| == i
      invariant forall j :: 0 <= j < i ==> out[j] == Get(a, j)
    {
      out := out + [Get(a, i)];
      i := i + 1;
    }
  }

  /** Copying a heap array into native memory and back yields the same values. */
  method HeapRoundTrip<T>(values: seq<T>, elementBytes: nat, header: int, zero: T) returns (out: seq<T>)
    requires |values| <= INT_MAX && ValidHeader(header, elementBytes)
    ensures out == values
  {
    var a := CreateSegment(values, elementBytes, header, zero);
    out := ToHeapArray(a);
  }

  /** `fromSegment(src)`: an array of `byteSize / elementBytes` elements (integer division), into whose
      payload `byteSize` bytes are copied. The copy fits only when the byte size is a whole number of
      elements; otherwise `MemorySegment.copy` throws, which is `SizeMismatch` here. */
  function FromSegment<T>(src: RawSegment<T>, elementBytes: nat, header: int, zero: T)
    : (r: Result<NativeArray<T>, ArrayError>)
    requires ValidHeader(header, elementBytes)
    requires src.byteSize / elementBytes <= INT_MAX && |src.words| == src.byteSize / elementBytes
    ensures r.Success? <==> src.byteSize % elementBytes == 0
    ensures r.Success? ==>
      && Valid(r.value) && r.value.elementBytes == elementBytes && r.value.arrayHeaderSize == header
      && Size(r.value) == src.byteSize / elementBytes
      && HeaderCount(r.value) == Size(r.value)
      && NumBytesWithoutHeader(r.value) == src.byteSize
      && Contents(r.value) == src.words
  {
    var n := src.byteSize / elementBytes;
    var a := New(n, elementBytes, header, zero);
    var offset := a.baseIndex * elementBytes;
    if offset + src.byteSize > a.segment.ByteSize() then
      Failure(SizeMismatch)
    else
      Success(a.(segment := a.segment.(payload := src.words)))
  }
}
