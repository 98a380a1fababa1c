/** The Flink heap size left by the memory limit of a container
    (controllers/flinkcluster_converter.go, calHeapSize). */
module HeapSize {

  /** 2^53: integers up to here are exact in a float64. */
  const EXACT := 0x20_0000_0000_0000

  const MEGABYTE := 1_000_000

  function Abs(x: real): real {
    if x < 0.0 then -x else x
  }

  /** What IEEE 754 double precision promises of the quotient of two integers it represents exactly:
      a whole quotient is exact and any other has a relative error of at most 2^-53. */
  ghost predicate DoubleDivision(div: (int, int) -> real) {
    forall a: int, b: int {:trigger div(a, b)} :: 0 <= a <= EXACT && 0 < b <= EXACT ==>
      && (a % b == 0 ==> div(a, b) == (a / b) as real)
      && Abs(div(a, b) * b as real - a as real) * EXACT as real <= a as real
  }

  function Ceil(x: real): int {
    -((-x).Floor)
  }

  /** Reduces to the range of Go's int64. */
  function Wrap64(x: int): int {
    (x + 0x8000_0000_0000_0000) % 0x1_0000_0000_0000_0000 - 0x8000_0000_0000_0000
  }

  /** calHeapSize, with the float64 division as a parameter. */
  function CalHeapSize(div: (int, int) -> real, memSize: int, offHeapMin: int, offHeapRatio: int): int {
    var ofRatio := Ceil(div(Wrap64(memSize * offHeapRatio), 100));
    var offHeapSize := if ofRatio < offHeapMin then offHeapMin else ofRatio;
    var heapSize := Wrap64(memSize - offHeapSize);
    if heapSize > 0 then Ceil(div(heapSize, MEGABYTE)) else 0
  }

  /** The least integer that is not below a / b. */
  function CeilDiv(a: int, b: int): (q: int)
    requires b > 0
    ensures (q - 1) * b < a <= q * b
  {
    (a + b - 1) / b
  }

  /** The part of the memory kept off the heap. */
  function OffHeap(memSize: int, offHeapMin: int, offHeapRatio: int): int {
    var ofRatio := CeilDiv(memSize * offHeapRatio, 100);
    if ofRatio < offHeapMin then offHeapMin else ofRatio
  }

  /** The same in integer arithmetic. */
  function HeapMegabytes(memSize: int, offHeapMin: int, offHeapRatio: int): int {
    var heapSize := memSize - OffHeap(memSize, offHeapMin, offHeapRatio);
    if heapSize > 0 then CeilDiv(heapSize, MEGABYTE) else 0
  }

  /** Neither rounding nor overflow shows as long as the operands are exact in a float64. */
  lemma FloatsAgreeWithIntegers(div: (int, int) -> real, memSize: int, offHeapMin: int, offHeapRatio: int)
    requires DoubleDivision(div)
    requires 0 <= memSize < EXACT && 0 <= memSize * offHeapRatio < EXACT
    requires -EXACT <= offHeapMin <= EXACT
    ensures CalHeapSize(div, memSize, offHeapMin, offHeapRatio) == HeapMegabytes(memSize, offHeapMin, offHeapRatio)
  {
    var product := memSize * offHeapRatio;
    var heapSize := memSize - OffHeap(memSize, offHeapMin, offHeapRatio);
    InRange(product);
    InRange(heapSize);
    CeilOfHundredth(div, product);
    if heapSize > 0 {
      CeilOfMillionth(div, heapSize);
    }
  }

  lemma InRange(x: int)
    requires -2 * EXACT <= x <= 2 * EXACT
    ensures Wrap64(x) == x
  {
  }

  /** An error below 1/100 cannot carry a fraction of 100 onto or over an integer. */
  lemma CeilOfHundredth(div: (int, int) -> real, a: int)
    requires DoubleDivision(div) && 0 <= a < EXACT
    ensures Ceil(div(a, 100)) == CeilDiv(a, 100)
  {
    var d, q := div(a, 100), CeilDiv(a, 100);
    if a % 100 != 0 {
      assert Abs(d * 100.0 - a as real) < 1.0;
      assert (q - 1) as real < d < q as real;
    }
  }

  lemma CeilOfMillionth(div: (int, int) -> real, a: int)
    requires DoubleDivision(div) && 0 <= a < EXACT
    ensures Ceil(div(a, MEGABYTE)) == CeilDiv(a, MEGABYTE)
  {
    var d, q := div(a, 1_000_000), CeilDiv(a, 1_000_000);
    if a % 1_000_000 != 0 {
      assert Abs(d * 1_000_000.0 - a as real) < 1.0;
      assert (q - 1) as real < d < q as real;
    }
  }

  /** A positive result is the heap in megabytes rounded up; zero says that no heap remains. */
  lemma HeapBounds(memSize: int, offHeapMin: int, offHeapRatio: int)
    ensures var h := HeapMegabytes(memSize, offHeapMin, offHeapRatio);
            var rest := memSize - OffHeap(memSize, offHeapMin, offHeapRatio);
            && h >= 0
            && (h == 0 <==> rest <= 0)
            && (h > 0 ==> (h - 1) * MEGABYTE < rest <= h * MEGABYTE)
  {
  }

  /** More memory never gives less heap, and a larger ratio or minimum never gives more. */
  lemma HeapMonotone(memSize: int, memSize': int, offHeapMin: int, offHeapMin': int, ratio: int, ratio': int)
    requires 0 <= memSize <= memSize' && offHeapMin >= offHeapMin' && 100 >= ratio >= ratio' >= 0
    ensures HeapMegabytes(memSize, offHeapMin, ratio) <= HeapMegabytes(memSize', offHeapMin', ratio')
  {
    var grow := memSize' - memSize;
    Products(memSize, memSize', ratio, ratio');
    assert CeilDiv(memSize' * ratio', 100) <= CeilDiv(memSize * ratio' + grow * 100, 100)
        == CeilDiv(memSize * ratio', 100) + grow;
    assert CeilDiv(memSize * ratio', 100) <= CeilDiv(memSize * ratio, 100);
    var heap := memSize - OffHeap(memSize, offHeapMin, ratio);
    var heap' := memSize' - OffHeap(memSize', offHeapMin', ratio');
    assert heap <= heap';
    assert CeilDiv(heap, MEGABYTE) <= CeilDiv(heap', MEGABYTE);
    HeapBounds(memSize', offHeapMin', ratio');
  }

  lemma Scale(x: int, y: int, m: int)
    requires x <= y && m >= 0
    ensures m * x <= m * y
  {
  }

  lemma Products(m: int, m': int, r: int, r': int)
    requires 0 <= m <= m' && 100 >= r >= r' >= 0
    ensures m * r' <= m * r
    ensures m' * r' <= m * r' + (m' - m) * 100
  {
    Scale(r', r, m);
    Scale(r', 100, m' - m);
    assert m' * r' == m * r' + (m' - m) * r';
  }
}
