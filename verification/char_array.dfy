/** `CharArray`: UTF-16 code units in native memory, two bytes per element. Besides the common layout it
    records `arraySizeHeaderPosition`, the char slot two before the payload. */
module CharArrays {
  import opened JavaInts
  import NA = NativeArrays

  const CHAR_BYTES: nat := 2

  /** A Java `char`: one UTF-16 code unit. */
  type Char16 = c: int | 0 <= c < 0x1_0000

  datatype CharArray = CharArray(native: NA.NativeArray<Char16>, arraySizeHeaderPosition: int)

  predicate IsCharArray(c: CharArray) {
    && NA.Valid(c.native)
    && c.native.elementBytes == CHAR_BYTES
    && c.arraySizeHeaderPosition == c.native.baseIndex - 2
  }

  /** `new CharArray(n)` with `ARRAY_HEADER == header`. */
  function New(n: int, header: int): (c: CharArray)
    requires 0 <= n <= INT_MAX && NA.ValidHeader(header, CHAR_BYTES)
    ensures IsCharArray(c)
    ensures GetSize(c) == n && NA.HeaderCount(c.native) == n
    ensures c.native.baseIndex == header / CHAR_BYTES
    ensures c.arraySizeHeaderPosition == header / CHAR_BYTES - 2
    ensures GetNumBytesOfSegment(c) == n * CHAR_BYTES + header
    ensures forall i :: 0 <= i < n ==> Get(c, i) == 0
  {
    var a := NA.New(n, CHAR_BYTES, header, 0);
    CharArray(a, a.baseIndex - 2)
  }

  /** With 2^30 two-byte elements the `int` size `numberOfElements * CHAR_BYTES + arrayHeaderSize` wraps
      to a negative number, which `allocate` rejects; the size in long arithmetic is 2^31 + header. */
  lemma CharSizeOverflow(header: int)
    requires NA.ValidHeader(header, CHAR_BYTES)
    ensures NA.SegmentByteSizeAsWritten(0x4000_0000, CHAR_BYTES, header) == header - 0x8000_0000 < 0
    ensures GetNumBytesOfSegment(New(0x4000_0000, header)) == 0x8000_0000 + header
  {
    var exact := 0x4000_0000 * CHAR_BYTES + header;
    assert exact == 0x8000_0000 + header;
    assert (exact - INT_MIN) % 0x1_0000_0000 == header;
  }

  /** `set(index, value)`. */
  function Set(c: CharArray, index: int, value: Char16): (r: CharArray)
    requires IsCharArray(c) && 0 <= index < GetSize(c)
    ensures IsCharArray(r) && NA.SameLayout(c.native, r.native)
    ensures r.arraySizeHeaderPosition == c.arraySizeHeaderPosition
    ensures GetNumBytesOfSegment(r) == GetNumBytesOfSegment(c)
    ensures Get(r, index) == value
    ensures forall j :: 0 <= j < GetSize(c) && j != index ==> Get(r, j) == Get(c, j)
  {
    c.(native := NA.Set(c.native, index, value))
  }

  /** `get(index)`. */
  function Get(c: CharArray, index: int): (v: Char16)
    requires IsCharArray(c) && 0 <= index < GetSize(c)
    ensures v == NA.Contents(c.native)[index]
  {
    NA.Get(c.native, index)
  }

  /** `init(value)`. */
  method Init(c: CharArray, value: Char16) returns (r: CharArray)
    requires IsCharArray(c)
    ensures IsCharArray(r) && NA.SameLayout(c.native, r.native)
    ensures r.arraySizeHeaderPosition == c.arraySizeHeaderPosition
    ensures GetNumBytesOfSegment(r) == GetNumBytesOfSegment(c)
    ensures forall i :: 0 <= i < GetSize(r) ==> Get(r, i) == value
  {
    var a := NA.Init(c.native, value);
    r := c.(native := a);
  }

  /** `getSize()`. */
  function GetSize(c: CharArray): (r: int)
    ensures IsCharArray(c) ==> r == |NA.Contents(c.native)| && r == NA.HeaderCount(c.native)
  {
    NA.Size(c.native)
  }

  /** `getNumBytesOfSegment()`. */
  function GetNumBytesOfSegment(c: CharArray): (r: int)
    requires IsCharArray(c)
    ensures r == GetSize(c) * CHAR_BYTES + c.native.arrayHeaderSize
  {
    NA.NumBytesOfSegment(c.native)
  }
}
