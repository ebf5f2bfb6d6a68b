/** Fixed-size chunking of multipart uploads (`domain/logic/partitioning.py`). */
module Partitioning {

  const MIB: nat := 1024 * 1024
  const MIN_PART: nat := 5 * MIB
  const TARGET_PART: nat := 20 * MIB
  /** Files larger than this go multipart. */
  const THRESHOLD: nat := 100 * MIB

  function Max(a: int, b: int): int {
    if a >= b then a else b
  }

  /** `ceil(a / b)` for a positive divisor, computed exactly. */
  function CeilDiv(a: int, b: int): (q: int)
    requires b > 0
    ensures (q - 1) * b < a <= q * b
  {
    -((-a) / b)
  }

  /** `plan_part_size(size_bytes)`: the part size and the number of parts. */
  function PlanPartSize(sizeBytes: int): (r: (int, int))
    ensures r.0 == TARGET_PART && r.0 >= MIN_PART
    ensures r.1 >= 1
    ensures sizeBytes > 0 ==> (r.1 - 1) * r.0 < sizeBytes <= r.1 * r.0
    ensures sizeBytes <= 0 ==> r.1 == 1
  {
    var partSize := Max(MIN_PART, TARGET_PART);
    (partSize, Max(1, CeilDiv(sizeBytes, partSize)))
  }

  /** A larger file never has fewer parts. */
  lemma {:induction false} PlanPartSizeMonotone(s1: int, s2: int)
    requires s1 <= s2
    ensures PlanPartSize(s1).1 <= PlanPartSize(s2).1
  {
    var n1, n2 := PlanPartSize(s1).1, PlanPartSize(s2).1;
    if s1 > 0 {
      assert (n1 - 1) * TARGET_PART < n2 * TARGET_PART;
    }
  }

  /** The part count is the smallest that covers the file. */
  lemma {:induction false} PlanPartSizeIsLeast(sizeBytes: int, n: int)
    requires n >= 1 && sizeBytes <= n * TARGET_PART
    ensures PlanPartSize(sizeBytes).1 <= n
  {
    var k := PlanPartSize(sizeBytes).1;
    if sizeBytes > 0 {
      assert (k - 1) * TARGET_PART < n * TARGET_PART;
    }
  }

  lemma PlanPartSizeExamples()
    ensures THRESHOLD == 104857600
    ensures PlanPartSize(524288000) == (20971520, 25)
    ensures PlanPartSize(0) == (20971520, 1)
    ensures PlanPartSize(THRESHOLD + 1) == (20971520, 6)
  {
  }
}
