/** The arithmetic that crosses the two components: how a request for GPUs and
    for volumes reaches the training job and the claims
    (internal/synchronizer/syncjob.go, internal/controller/cpodjob_controller.go). */
module Sizing {
  // Go's conversion to int32: the low 32 bits, read as a signed number.
  function Int32(x: int): (r: int)
    ensures -0x8000_0000 <= r < 0x8000_0000
  {
    (x + 0x8000_0000) % 0x1_0000_0000 - 0x8000_0000
  }

  // Go's integer division truncates toward zero.
  function Quotient(x: int, y: int): int
    requires y > 0
  {
    if x >= 0 then x / y else -((-x) / y)
  }

  // Bytes requested for a claim: two int32 products, then widened.
  function ClaimBytes(size: int): int {
    Int32(Int32(size * 1024) * 1024)
  }

  function Workers(workerReplicas: int): int {
    if workerReplicas != 0 then workerReplicas else 1
  }

  function GpusPerWorker(gpuNumber: int): int {
    if gpuNumber < 8 then Int32(gpuNumber) else 8
  }

  // A count of zero is left out of the stored job, and an absent count means eight.
  function Defaulted(gpus: int): int {
    if gpus == 0 then 8 else gpus
  }

  function WorkerReplicas(gpuNumber: int): int {
    if gpuNumber < 8 then 1 else Quotient(Int32(gpuNumber), 8)
  }

  // ------------------------------------------------------------------ volumes

  // A portal size becomes an int32 in the job's spec, and then bytes of a claim.
  function RequestedBytes(portalSize: int): int {
    ClaimBytes(Int32(portalSize))
  }

  lemma Int32Of(x: int, y: int, k: int)
    requires x == y + k * 0x1_0000_0000
    ensures Int32(x) == Int32(y)
  {
  }

  lemma Int32Small(x: int)
    requires -0x8000_0000 <= x < 0x8000_0000
    ensures Int32(x) == x
  {
  }

  // Wrapping early or late makes no difference to a product.
  lemma Int32Product(x: int, m: int)
    ensures Int32(Int32(x) * m) == Int32(x * m)
  {
    var k := (x + 0x8000_0000) / 0x1_0000_0000;
    assert Int32(x) == x - k * 0x1_0000_0000;
    assert (x - k * 0x1_0000_0000) * m == x * m - (k * m) * 0x1_0000_0000;
    Int32Of(x * m, Int32(x) * m, k * m);
  }

  lemma RequestedBytesIsOneWrap(v: int)
    ensures RequestedBytes(v) == Int32(v * 0x10_0000)
  {
    Int32Product(v, 1024);
    Int32Product(Int32(v) * 1024, 1024);
    Int32Product(v, 0x10_0000);
    assert Int32(v) * 1024 * 1024 == Int32(v) * 0x10_0000;
  }

  /** A claim asks for the portal's size in MiB, exactly when the size is
      between -2048 and 2047. */
  lemma RequestedBytesExactly(v: int)
    ensures RequestedBytes(v) == v * 0x10_0000 <==> -2048 <= v <= 2047
  {
    RequestedBytesIsOneWrap(v);
    if -2048 <= v <= 2047 {
      Int32Small(v * 0x10_0000);
    }
  }

  /** Otherwise only the size modulo 4096 counts. */
  lemma RequestedBytesModulo(v: int, w: int)
    requires v % 4096 == w % 4096
    ensures RequestedBytes(v) == RequestedBytes(w)
  {
    RequestedBytesIsOneWrap(v);
    RequestedBytesIsOneWrap(w);
    var k := v / 4096 - w / 4096;
    assert v == w + k * 4096;
    Int32Of(v * 0x10_0000, w * 0x10_0000, k);
  }

  // --------------------------------------------------------------------- GPUs

  // All the GPUs of the created training job, for a portal request.
  function GrantedGpus(gpuNumber: int): int {
    Workers(WorkerReplicas(gpuNumber)) * Defaulted(GpusPerWorker(gpuNumber))
  }

  /** In the int32 range the whole request is granted below eight GPUs, and from
      there on the largest multiple of eight within it. */
  lemma GrantedGpusIs(g: int)
    requires 1 <= g < 0x8000_0000
    ensures Workers(WorkerReplicas(g)) >= 1
    ensures GrantedGpus(g) == if g < 8 then g else 8 * (g / 8)
  {
    Int32Small(g);
  }

  /** A request is never exceeded and never short by eight or more, exactly when
      it fits an int32 and is not zero. */
  lemma GrantedGpusCloseExactly(g: int)
    ensures 0 <= g - GrantedGpus(g) < 8 <==> -0x8000_0000 <= g < 0x8000_0000 && g != 0
  {
    if 1 <= g < 0x8000_0000 {
      GrantedGpusIs(g);
    } else if g <= 0 {
      assert GrantedGpus(g) == Defaulted(Int32(g));
      if -0x8000_0000 <= g {
        Int32Small(g);
      }
    } else {
      var i := Int32(g);
      assert g - i >= 0x1_0000_0000;
      assert WorkerReplicas(g) <= if i >= 0 then i / 8 else 0;
      assert GrantedGpus(g) <= if i >= 8 then i else 8;
    }
  }
}
