/** The kernels of the `TestHello` unit tests and the results those tests assert. Each kernel is a
    parallel loop whose iteration `i` reads and writes index `i` only, so running it sequentially is
    faithful. Kernel arithmetic is Java `int` arithmetic and wraps. The kernels take `IntArray`s, whose
    class is not part of this model; they are taken to share the native layout, four bytes per element. */
module HelloKernels {
  import opened JavaInts
  import NA = NativeArrays

  const INT_BYTES: nat := 4

  type IntArray = NA.NativeArray<Int32>

  predicate IsIntArray(a: IntArray) {
    NA.Valid(a) && a.elementBytes == INT_BYTES
  }

  /** `add(a, b, c)`: for every index of `c`, `c[i] = a[i] + b[i]`. */
  method Add(a: IntArray, b: IntArray, c: IntArray) returns (r: IntArray)
    requires IsIntArray(a) && IsIntArray(b) && IsIntArray(c)
    requires NA.Size(c) <= NA.Size(a) && NA.Size(c) <= NA.Size(b)
    ensures IsIntArray(r) && NA.SameLayout(c, r)
    ensures forall i :: 0 <= i < NA.Size(c) ==> NA.Get(r, i) == IntAdd(NA.Get(a, i), NA.Get(b, i))
  {
    r := c;
    var i := 0;
    while i < NA.Size(r)
      invariant 0 <= i <= NA.Size(c)
      invariant IsIntArray(r) && NA.SameLayout(c, r)
      invariant forall j :: 0 <= j < i ==> NA.Get(r, j) == IntAdd(NA.Get(a, j), NA.Get(b, j))
    {
      r := NA.Set(r, i, IntAdd(NA.Get(a, i), NA.Get(b, i)));
      i := i + 1;
    }
  }

  /** `simple(a, b)`: for every index of `a`, `b[i] = a[i] + 1`; the rest of `b` is untouched. */
  method Simple(a: IntArray, b: IntArray) returns (r: IntArray)
    requires IsIntArray(a) && IsIntArray(b) && NA.Size(a) <= NA.Size(b)
    ensures IsIntArray(r) && NA.SameLayout(b, r)
    ensures forall i :: 0 <= i < NA.Size(a) ==> NA.Get(r, i) == IntAdd(NA.Get(a, i), 1)
    ensures forall i :: NA.Size(a) <= i < NA.Size(b) ==> NA.Get(r, i) == NA.Get(b, i)
  {
    r := b;
    var i := 0;
    while i < NA.Size(a)
      invariant 0 <= i <= NA.Size(a)
      invariant IsIntArray(r) && NA.SameLayout(b, r)
      invariant forall j :: 0 <= j < i ==> NA.Get(r, j) == IntAdd(NA.Get(a, j), 1)
      invariant forall j :: i <= j < NA.Size(b) ==> NA.Get(r, j) == NA.Get(b, j)
    {
      r := NA.Set(r, i, IntAdd(NA.Get(a, i), 1));
      i := i + 1;
    }
  }

  /** In-place `compute(a)`: every element is doubled. */
  method ComputeInPlace(a: IntArray) returns (r: IntArray)
    requires IsIntArray(a)
    ensures IsIntArray(r) && NA.SameLayout(a, r)
    ensures forall i :: 0 <= i < NA.Size(a) ==> NA.Get(r, i) == IntMul(NA.Get(a, i), 2)
    ensures NA.Contents(r) == RunInOrder(NA.Contents(a), Indices(NA.Size(a)))
  {
    r := a;
    var i := 0;
    while i < NA.Size(r)
      invariant 0 <= i <= NA.Size(a)
      invariant IsIntArray(r) && NA.SameLayout(a, r)
      invariant forall j :: 0 <= j < i ==> NA.Get(r, j) == IntMul(NA.Get(a, j), 2)
      invariant forall j :: i <= j < NA.Size(a) ==> NA.Get(r, j) == NA.Get(a, j)
    {
      r := NA.Set(r, i, IntMul(NA.Get(r, i), 2));
      i := i + 1;
    }
    var order := Indices(NA.Size(a));
    AnyOrderDoubles(NA.Contents(a), order);
    forall j | 0 <= j < NA.Size(a)
      ensures NA.Contents(r)[j] == RunInOrder(NA.Contents(a), order)[j]
    {
      assert order[j] == j;
      assert NA.Get(r, j) == NA.Contents(r)[j] && NA.Get(a, j) == NA.Contents(a)[j];
    }
  }

  /** What `compute(a, b)` leaves in `b`: twice `a[i]` at every index of `a`, `b`'s own values beyond. */
  function Doubled(a: seq<Int32>, b: seq<Int32>): seq<Int32>
    requires |a| <= |b|
  {
    seq(|b|, i requires 0 <= i < |b| => if i < |a| then IntMul(a[i], 2) else b[i])
  }

  /** `compute(a, b)` on native arrays: `b[i] = a[i] * 2` for every index of `a`. */
  method Compute(a: IntArray, b: IntArray) returns (r: IntArray)
    requires IsIntArray(a) && IsIntArray(b) && NA.Size(a) <= NA.Size(b)
    ensures IsIntArray(r) && NA.SameLayout(b, r)
    ensures forall i :: 0 <= i < NA.Size(a) ==> NA.Get(r, i) == IntMul(NA.Get(a, i), 2)
    ensures NA.Contents(r) == Doubled(NA.Contents(a), NA.Contents(b))
  {
    r := b;
    var i := 0;
    while i < NA.Size(a)
      invariant 0 <= i <= NA.Size(a)
      invariant IsIntArray(r) && NA.SameLayout(b, r)
      invariant forall j :: 0 <= j < i ==> NA.Get(r, j) == IntMul(NA.Get(a, j), 2)
      invariant forall j :: i <= j < NA.Size(b) ==> NA.Get(r, j) == NA.Get(b, j)
    {
      r := NA.Set(r, i, IntMul(NA.Get(a, i), 2));
      i := i + 1;
    }
    forall j | 0 <= j < NA.Size(b)
      ensures NA.Contents(r)[j] == Doubled(NA.Contents(a), NA.Contents(b))[j]
    {
      assert NA.Get(r, j) == NA.Contents(r)[j] && NA.Get(b, j) == NA.Contents(b)[j];
      if j < NA.Size(a) {
        assert NA.Get(a, j) == NA.Contents(a)[j];
      }
    }
  }

  /** `compute(int[] a, int[] b)` on heap arrays: the same result as the native-array variant. */
  method ComputeHeap(a: seq<Int32>, b: seq<Int32>) returns (r: seq<Int32>)
    requires |a| <= |b|
    ensures |r| == |b|
    ensures forall i :: 0 <= i < |a| ==> r[i] == IntMul(a[i], 2)
    ensures r == Doubled(a, b)
  {
    r := b;
    var i := 0;
    while i < |a|
      invariant 0 <= i <= |a|
      invariant |r| == |b|
      invariant forall j :: 0 <= j < i ==> r[j] == IntMul(a[j], 2)
      invariant forall j :: i <= j < |b| ==> r[j] == b[j]
    {
      r := r[i := IntMul(a[i], 2)];
      i := i + 1;
    }
  }

  /** The iteration of the in-place `compute(a)` loop at index `i`. */
  function DoubleAt(s: seq<Int32>, i: int): (r: seq<Int32>)
    requires 0 <= i < |s|
    ensures |r| == |s|
  {
    s[i := IntMul(s[i], 2)]
  }

  /** Runs the iterations of `compute(a)` in the order `order`. */
  function RunInOrder(s: seq<Int32>, order: seq<int>): (r: seq<Int32>)
    requires forall k :: 0 <= k < |order| ==> 0 <= order[k] < |s|
    ensures |r| == |s|
    decreases |order|
  {
    if |order| == 0 then s else RunInOrder(DoubleAt(s, order[0]), order[1..])
  }

  /** The indices `0 .. n-1` in increasing order: the sequential schedule. */
  function Indices(n: nat): (r: seq<int>)
    ensures |r| == n && forall k :: 0 <= k < n ==> r[k] == k
  {
    seq(n, k requires 0 <= k < n => k)
  }

  /** Iterations touch only their own index: running any set of distinct iterations, in any order,
      doubles exactly the elements they name. So every schedule of all indices gives the same array. */
  lemma {:induction false} AnyOrderDoubles(s: seq<Int32>, order: seq<int>)
    requires forall k :: 0 <= k < |order| ==> 0 <= order[k] < |s|
    requires forall p, q :: 0 <= p < q < |order| ==> order[p] != order[q]
    ensures forall j :: 0 <= j < |s| ==>
      RunInOrder(s, order)[j] == (if j in order then IntMul(s[j], 2) else s[j])
    decreases |order|
  {
    if |order| > 0 {
      var s' := DoubleAt(s, order[0]);
      var rest := order[1..];
      AnyOrderDoubles(s', rest);
      forall j | 0 <= j < |s|
        ensures RunInOrder(s, order)[j] == (if j in order then IntMul(s[j], 2) else s[j])
      {
        assert j in order <==> j == order[0] || j in rest;
        if j == order[0] {
          assert j !in rest by {
            forall q | 0 <= q < |rest| ensures rest[q] != j {
              assert rest[q] == order[q + 1];
            }
          }
        }
      }
    }
  }

  /** `testVectorAddition`: `a` filled with 1, `b` with 2, sixteen elements each; after `add`, every
      element of `c` is 3. */
  method VectorAddition(header: int) returns (c: IntArray)
    requires NA.ValidHeader(header, INT_BYTES)
    ensures IsIntArray(c) && NA.Size(c) == 16
    ensures forall i :: 0 <= i < 16 ==> NA.Get(c, i) == 3
  {
    var a := NA.New<Int32>(16, INT_BYTES, header, 0);
    a := NA.Init(a, 1);
    var b := NA.New<Int32>(16, INT_BYTES, header, 0);
    b := NA.Init(b, 2);
    c := NA.New<Int32>(16, INT_BYTES, header, 0);
    c := Add(a, b, c);
  }

  /** `testSimpleCompute`: `a` filled with 10; after `compute(a, b)` every `b[i]` is `a[i] * 2`, i.e. 20. */
  method SimpleCompute(header: int) returns (a: IntArray, b: IntArray)
    requires NA.ValidHeader(header, INT_BYTES)
    ensures IsIntArray(a) && IsIntArray(b) && NA.Size(a) == 256 && NA.Size(b) == 256
    ensures forall i :: 0 <= i < 256 ==> NA.Get(a, i) == 10 && NA.Get(b, i) == NA.Get(a, i) * 2 == 20
  {
    a := NA.New<Int32>(256, INT_BYTES, header, 0);
    a := NA.Init(a, 10);
    b := NA.New<Int32>(256, INT_BYTES, header, 0);
    b := Compute(a, b);
  }

  /** `testSimpleInOut`: `a` filled with 10; after the in-place `compute(a)` every element is 20. */
  method SimpleInOut(header: int) returns (a: IntArray)
    requires NA.ValidHeader(header, INT_BYTES)
    ensures IsIntArray(a) && NA.Size(a) == 256
    ensures forall i :: 0 <= i < 256 ==> NA.Get(a, i) == 20
  {
    a := NA.New<Int32>(256, INT_BYTES, header, 0);
    a := NA.Init(a, 10);
    a := ComputeInPlace(a);
  }
}
