/** The length formula both sides of an upload must agree on. */
module BlobLength {
  const BLOB_CHUNK: nat := 1024 * 1024
  const IV_LEN: nat := 12
  const TAG_LEN: nat := 16
  const BLOB_FRAME_OVERHEAD: nat := 28
  const MAX_PLAINTEXT_BLOB: nat := 1024 * 1024 * 1024

  /** `Math.ceil(n / d)` on non-negative integers. */
  function CeilDiv(n: nat, d: nat): nat
    requires d > 0
  {
    if n % d == 0 then n / d else n / d + 1
  }

  function ChunkCount(size: nat, chunk: nat): nat
    requires chunk > 0
  {
    var c := CeilDiv(size, chunk);
    if c < 1 then 1 else c
  }

  /** The worker's reservation for an announced plaintext size. */
  function ExpectedCipherBytes(plaintextBytes: nat): nat {
    plaintextBytes + ChunkCount(plaintextBytes, BLOB_CHUNK) * BLOB_FRAME_OVERHEAD
  }
}
