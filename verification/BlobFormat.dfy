/** The encrypted blob: independently sealed chunks, concatenated without framing.
    AES-GCM is ideal: under the random per-file key, a frame opens at a chunk index
    only if it is the very frame that was sealed at that index. */
module BlobFormat {
  import opened BlobLength
  import opened Codec
  import opened Sums

  /** `ctChunkLen` */
  function CtChunkLen(plainLen: nat): nat { IV_LEN + plainLen + TAG_LEN }

  /** What the key has sealed: entry i is the frame `[iv][ciphertext and tag]` made
      with additional data naming index i. */
  datatype Sealed = Sealed(frame: Bytes, plain: Bytes)
  type Seals = seq<Sealed>

  ghost predicate SealsOk(t: Seals) { forall i :: 0 <= i < |t| ==> |t[i].frame| == CtChunkLen(|t[i].plain|) }

  /** `decryptChunk`; None stands for the exception. */
  function OpenChunk(t: Seals, index: nat, framed: Bytes): Option<Bytes> {
    if index < |t| && t[index].frame == framed then Some(t[index].plain) else None
  }

  function Min(a: nat, b: nat): nat { if a < b then a else b }

  /** `data.subarray(i * BLOB_CHUNK, Math.min((i + 1) * BLOB_CHUNK, data.length))` */
  function Slice(data: Bytes, i: nat): Bytes {
    data[Min(i * BLOB_CHUNK, |data|)..Min((i + 1) * BLOB_CHUNK, |data|)]
  }

  /** `frames` are what AES-GCM returned, with its random ivs, for the chunks of `data`. */
  ghost predicate SealedFrom(t: Seals, data: Bytes) {
    && |t| == ChunkCount(|data|, BLOB_CHUNK)
    && SealsOk(t)
    && forall i :: 0 <= i < |t| ==> t[i].plain == Slice(data, i)
  }

  function FramesOf(t: Seals): seq<Bytes> {
    if t == [] then [] else FramesOf(t[..|t| - 1]) + [t[|t| - 1].frame]
  }

  /** The blob as it is uploaded. */
  function Ciphertext(t: Seals): Bytes { Concat(FramesOf(t)) }

  // ---------------------------------------------------------------------------
  // Encryption

  lemma {:induction false} FramesStep(t: Seals, i: nat)
    requires i < |t|
    ensures FramesOf(t[..i + 1]) == FramesOf(t[..i]) + [t[i].frame]
  {
    assert t[..i + 1][..i] == t[..i];
  }

  /** `seals` supplies what the cipher returns for each chunk. */
  method EncryptBlob(data: Bytes, seals: Seals) returns (ciphertext: array<Byte>, size: nat, chunk: nat)
    requires SealedFrom(seals, data)
    ensures fresh(ciphertext) && ciphertext[..] == Ciphertext(seals)
    ensures size == |data| && chunk == BLOB_CHUNK
  {
    var chunks := ChunkCount(|data|, BLOB_CHUNK);
    var parts: seq<Bytes> := [];
    for i := 0 to chunks
      invariant parts == FramesOf(seals[..i])
    {
      FramesStep(seals, i);
      var framed := seals[i].frame;
      parts := parts + [framed];
    }
    assert seals[..|seals|] == seals;
    ciphertext := ConcatBytes(parts);
    size, chunk := |data|, BLOB_CHUNK;
  }

  lemma {:induction false} SliceJoins(data: Bytes, i: nat)
    ensures data[..Min(i * BLOB_CHUNK, |data|)] + Slice(data, i) == data[..Min((i + 1) * BLOB_CHUNK, |data|)]
  {
    var a, b := Min(i * BLOB_CHUNK, |data|), Min((i + 1) * BLOB_CHUNK, |data|);
    assert data[..b][..a] == data[..a];
  }

  lemma {:induction false} CiphertextStep(t: Seals, i: nat)
    requires i < |t|
    ensures Ciphertext(t[..i + 1]) == Ciphertext(t[..i]) + t[i].frame
  {
    FramesStep(t, i);
    ConcatAdd(FramesOf(t[..i]), t[i].frame);
  }

  lemma {:induction false} PrefixLength(t: Seals, data: Bytes, k: nat)
    requires SealedFrom(t, data) && k <= |t|
    ensures |Ciphertext(t[..k])| == Min(k * BLOB_CHUNK, |data|) + k * BLOB_FRAME_OVERHEAD
  {
    hide Ciphertext;
    if k > 0 {
      PrefixLength(t, data, k - 1);
      CiphertextStep(t, k - 1);
      SliceLength(data, k - 1);
    } else {
      assert Ciphertext(t[..0]) == [] by { NoFrames(t); }
    }
  }

  lemma {:induction false} NoFrames(t: Seals)
    ensures Ciphertext(t[..0]) == []
  {}

  lemma {:induction false} SliceLength(data: Bytes, i: nat)
    ensures |Slice(data, i)| == Min((i + 1) * BLOB_CHUNK, |data|) - Min(i * BLOB_CHUNK, |data|)
  {}

  lemma {:induction false} ChunksCover(size: nat)
    ensures Min(ChunkCount(size, BLOB_CHUNK) * BLOB_CHUNK, size) == size
    ensures forall i :: 0 <= i < ChunkCount(size, BLOB_CHUNK) ==> Min(i * BLOB_CHUNK, size) == i * BLOB_CHUNK
  {
    var c := CeilDiv(size, BLOB_CHUNK);
    assert c * BLOB_CHUNK >= size && (c > 0 ==> (c - 1) * BLOB_CHUNK < size);
  }

  /** For every size, including zero, the blob has exactly the length the worker
      reserves for it: 28 bytes more for every started MiB. */
  lemma {:induction false} LengthMatchesReservation(t: Seals, data: Bytes)
    requires SealedFrom(t, data)
    ensures |Ciphertext(t)| == ExpectedCipherBytes(|data|)
    ensures |Ciphertext(t)| == |data| + 28 * if data == [] then 1 else (|data| + 1_048_575) / 1_048_576
  {
    PrefixLength(t, data, |t|);
    ChunksCover(|data|);
    assert t[..|t|] == t;
  }

  // ---------------------------------------------------------------------------
  // Decryption

  /** `Math.min(chunk, size - i * chunk)`; negative only past the last chunk. */
  function PlainLen(size: nat, chunk: nat, i: nat): int {
    if chunk < size - i * chunk then chunk else size - i * chunk
  }

  predicate InRange(size: nat, chunk: nat, i: nat) { PlainLen(size, chunk, i) >= 0 }

  /** Where chunk i starts in the blob. */
  function SourceOffset(size: nat, chunk: nat, i: nat): nat
    requires forall j :: 0 <= j < i ==> InRange(size, chunk, j)
  {
    if i == 0 then 0 else
      assert InRange(size, chunk, i - 1);
      SourceOffset(size, chunk, i - 1) + CtChunkLen(PlainLen(size, chunk, i - 1))
  }

  /** The plaintext of the first k chunks; None once a chunk is cut off or fails. */
  function Opened(c: Bytes, t: Seals, size: nat, chunk: nat, k: nat): Option<Bytes>
    requires forall j :: 0 <= j < k ==> InRange(size, chunk, j)
  {
    if k == 0 then Some([]) else
      assert InRange(size, chunk, k - 1);
      var before := Opened(c, t, size, chunk, k - 1);
      var src, ctLen := SourceOffset(size, chunk, k - 1), CtChunkLen(PlainLen(size, chunk, k - 1));
      if before.None? || src + ctLen > |c| then None else
        var pt := OpenChunk(t, k - 1, c[src..src + ctLen]);
        if pt.None? then None else Some(before.value + pt.value)
  }

  lemma {:induction false} CountInRange(size: nat, chunk: nat)
    requires chunk > 0
    ensures forall j :: 0 <= j < ChunkCount(size, chunk) ==> InRange(size, chunk, j)
  {
    forall j | 0 <= j < ChunkCount(size, chunk) ensures InRange(size, chunk, j) {
      LastChunkStarts(size, chunk, j);
    }
  }

  lemma {:induction false} LastChunkStarts(size: nat, chunk: nat, j: nat)
    requires chunk > 0 && j < ChunkCount(size, chunk)
    ensures j * chunk <= size
  {
    var q, r := size / chunk, size % chunk;
    assert size == q * chunk + r;
    if j > 0 {
      assert j <= q;
      assert j * chunk <= q * chunk;
    }
  }

  lemma {:induction false} OpenedFails(c: Bytes, t: Seals, size: nat, chunk: nat, i: nat, k: nat)
    requires i <= k && forall j :: 0 <= j < k ==> InRange(size, chunk, j)
    requires Opened(c, t, size, chunk, i).None?
    ensures Opened(c, t, size, chunk, k).None?
    decreases k
  {
    if i < k { OpenedFails(c, t, size, chunk, i, k - 1); }
  }

  /** What has been opened is as long as the plaintext lengths say. */
  lemma {:induction false} OpenedLength(c: Bytes, t: Seals, size: nat, chunk: nat, k: nat)
    requires SealsOk(t) && forall j :: 0 <= j < k ==> InRange(size, chunk, j)
    requires Opened(c, t, size, chunk, k).Some?
    ensures k > 0 ==> Opened(c, t, size, chunk, k - 1).Some?
    ensures k > 0 ==>
      |Opened(c, t, size, chunk, k).value| == |Opened(c, t, size, chunk, k - 1).value| + PlainLen(size, chunk, k - 1)
  {}

  lemma {:induction false} OpenedWithin(c: Bytes, t: Seals, size: nat, chunk: nat, k: nat)
    requires SealsOk(t) && chunk > 0 && k <= ChunkCount(size, chunk)
    requires forall j :: 0 <= j < k ==> InRange(size, chunk, j)
    requires Opened(c, t, size, chunk, k).Some?
    ensures |Opened(c, t, size, chunk, k).value| == Min(k * chunk, size)
  {
    if k > 0 {
      OpenedLength(c, t, size, chunk, k);
      OpenedWithin(c, t, size, chunk, k - 1);
      LastChunkStarts(size, chunk, k - 1);
      assert k * chunk == (k - 1) * chunk + chunk;
    }
  }

  lemma {:induction false} CountCovers(size: nat, chunk: nat)
    requires chunk > 0
    ensures size <= ChunkCount(size, chunk) * chunk
  {
    var q, r := size / chunk, size % chunk;
    assert size == q * chunk + r;
    var c := CeilDiv(size, chunk);
    assert c * chunk == if r == 0 then q * chunk else q * chunk + chunk;
    if c < 1 { assert q == 0 && r == 0; }
  }

  /** The outcome of `decryptBlob`. */
  ghost function Decrypted(c: Bytes, t: Seals, size: nat, chunk: nat): Option<Bytes>
    requires chunk > 0
  {
    CountInRange(size, chunk);
    Opened(c, t, size, chunk, ChunkCount(size, chunk))
  }

  lemma {:induction false} NothingOpened(c: Bytes, t: Seals, size: nat, chunk: nat)
    ensures SourceOffset(size, chunk, 0) == 0 && Opened(c, t, size, chunk, 0) == Some([])
  {}

  lemma {:induction false} AllOpened(c: Bytes, t: Seals, size: nat, chunk: nat)
    requires chunk > 0 && SealsOk(t)
    requires forall j :: 0 <= j < ChunkCount(size, chunk) ==> InRange(size, chunk, j)
    requires Opened(c, t, size, chunk, ChunkCount(size, chunk)).Some?
    ensures Decrypted(c, t, size, chunk) == Opened(c, t, size, chunk, ChunkCount(size, chunk))
    ensures |Opened(c, t, size, chunk, ChunkCount(size, chunk)).value| == size
  {
    OpenedWithin(c, t, size, chunk, ChunkCount(size, chunk));
    CountCovers(size, chunk);
  }

  /** One more chunk, and what its failure means for the whole. */
  lemma {:induction false} OpenedStep(c: Bytes, t: Seals, size: nat, chunk: nat, i: nat)
    requires chunk > 0 && SealsOk(t) && i < ChunkCount(size, chunk)
    requires forall j :: 0 <= j < ChunkCount(size, chunk) ==> InRange(size, chunk, j)
    requires Opened(c, t, size, chunk, i).Some?
    ensures InRange(size, chunk, i)
    ensures var src, ctLen, out := SourceOffset(size, chunk, i), CtChunkLen(PlainLen(size, chunk, i)), Opened(c, t, size, chunk, i).value;
      && SourceOffset(size, chunk, i + 1) == src + ctLen
      && (src + ctLen > |c| ==> Decrypted(c, t, size, chunk).None?)
      && (src + ctLen <= |c| ==>
           var pt := OpenChunk(t, i, c[src..src + ctLen]);
           && (pt.None? ==> Decrypted(c, t, size, chunk).None?)
           && (pt.Some? ==> Opened(c, t, size, chunk, i + 1) == Some(out + pt.value)
                            && |pt.value| == PlainLen(size, chunk, i) && |out| + |pt.value| <= size))
  {
    hide ChunkCount, OpenChunk, CtChunkLen, SealsOk;
    if Opened(c, t, size, chunk, i + 1).None? {
      OpenedFails(c, t, size, chunk, i + 1, ChunkCount(size, chunk));
    } else {
      OpenedLength(c, t, size, chunk, i + 1);
      OpenedWithin(c, t, size, chunk, i + 1);
    }
  }

  method DecryptBlob(ciphertext: Bytes, seals: Seals, size: nat, chunk: nat) returns (data: Option<Bytes>)
    requires chunk > 0 && SealsOk(seals)
    ensures data == Decrypted(ciphertext, seals, size, chunk)
  {
    hide ChunkCount, OpenChunk, Opened, SourceOffset, CtChunkLen, SealsOk, Decrypted;
    var chunks := ChunkCount(size, chunk);
    CountInRange(size, chunk);
    var out := new Byte[size](_ => 0);
    var src, dst := 0, 0;
    NothingOpened(ciphertext, seals, size, chunk);
    for i := 0 to chunks
      invariant src == SourceOffset(size, chunk, i)
      invariant Opened(ciphertext, seals, size, chunk, i).Some?
      invariant dst == |Opened(ciphertext, seals, size, chunk, i).value| <= size
      invariant out[..dst] == Opened(ciphertext, seals, size, chunk, i).value
    {
      OpenedStep(ciphertext, seals, size, chunk, i);
      var plainLen := if chunk < size - i * chunk then chunk else size - i * chunk;
      var ctLen := CtChunkLen(plainLen);
      if src + ctLen > |ciphertext| { return None; }
      var pt := OpenChunk(seals, i, ciphertext[src..src + ctLen]);
      if pt.None? { return None; }
      SetAt(out, pt.value, dst);
      src := src + ctLen;
      dst := dst + plainLen;
    }
    AllOpened(ciphertext, seals, size, chunk);
    assert out[..] == out[..dst];
    data := Some(out[..]);
  }

  // ---------------------------------------------------------------------------
  // What decryption accepts

  lemma {:induction false} ChunkLength(t: Seals, data: Bytes, i: nat)
    requires SealedFrom(t, data) && i < |t|
    ensures InRange(|data|, BLOB_CHUNK, i)
    ensures |t[i].plain| == PlainLen(|data|, BLOB_CHUNK, i)
    ensures |t[i].frame| == CtChunkLen(PlainLen(|data|, BLOB_CHUNK, i))
  {
    ChunksCover(|data|);
    SliceLength(data, i);
    assert (i + 1) * BLOB_CHUNK == i * BLOB_CHUNK + BLOB_CHUNK;
  }

  lemma {:induction false} OffsetIsPrefix(t: Seals, data: Bytes, k: nat)
    requires SealedFrom(t, data) && k <= |t|
    ensures forall j :: 0 <= j < k ==> InRange(|data|, BLOB_CHUNK, j)
    ensures SourceOffset(|data|, BLOB_CHUNK, k) == |Ciphertext(t[..k])|
  {
    hide Ciphertext, SealedFrom;
    CountInRange(|data|, BLOB_CHUNK);
    SealCount(t, data);
    if k > 0 {
      OffsetIsPrefix(t, data, k - 1);
      CiphertextStep(t, k - 1);
      ChunkLength(t, data, k - 1);
    } else {
      NoFrames(t);
    }
  }

  lemma {:induction false} SealCount(t: Seals, data: Bytes)
    requires SealedFrom(t, data)
    ensures |t| == ChunkCount(|data|, BLOB_CHUNK)
  {}

  lemma {:induction false} PlainIsSlice(t: Seals, data: Bytes, i: nat)
    requires SealedFrom(t, data) && i < |t|
    ensures t[i].plain == Slice(data, i)
  {}

  /** The first k chunks open exactly when the blob starts with the first k sealed
      frames, and then to the data's first k chunk lengths. */
  lemma {:induction false} OpenedExactly(c: Bytes, t: Seals, data: Bytes, k: nat)
    requires SealedFrom(t, data) && k <= |t|
    ensures forall j :: 0 <= j < k ==> InRange(|data|, BLOB_CHUNK, j)
    ensures Opened(c, t, |data|, BLOB_CHUNK, k).Some? <==> Ciphertext(t[..k]) <= c
    ensures Opened(c, t, |data|, BLOB_CHUNK, k).Some? ==>
      Opened(c, t, |data|, BLOB_CHUNK, k).value == data[..Min(k * BLOB_CHUNK, |data|)]
  {
    hide Ciphertext, SealedFrom, Slice, PlainLen;
    OffsetIsPrefix(t, data, k);
    if k == 0 {
      NoFrames(t);
    } else {
      OpenedExactly(c, t, data, k - 1);
      OffsetIsPrefix(t, data, k - 1);
      CiphertextStep(t, k - 1);
      ChunkLength(t, data, k - 1);
      PlainIsSlice(t, data, k - 1);
      SliceJoins(data, k - 1);
      PrefixExtends(c, Ciphertext(t[..k - 1]), t[k - 1].frame);
    }
  }

  lemma {:induction false} PrefixExtends(c: Bytes, p: Bytes, f: Bytes)
    ensures p + f <= c <==> p <= c && |p| + |f| <= |c| && c[|p|..|p| + |f|] == f
  {
    if p <= c && |p| + |f| <= |c| && c[|p|..|p| + |f|] == f {
      assert c[..|p| + |f|] == c[..|p|] + c[|p|..|p| + |f|];
    }
    if p + f <= c {
      assert c[..|p| + |f|] == p + f;
    }
  }

  /** With the true size a blob is accepted exactly when it starts with the true
      ciphertext, and then it yields exactly the data: truncated, reordered or swapped
      chunks are rejected, and bytes after the last chunk are ignored. */
  lemma {:induction false} AcceptsOnlyTheData(c: Bytes, t: Seals, data: Bytes)
    requires SealedFrom(t, data)
    ensures Decrypted(c, t, |data|, BLOB_CHUNK).Some? <==> Ciphertext(t) <= c
    ensures Decrypted(c, t, |data|, BLOB_CHUNK).Some? ==> Decrypted(c, t, |data|, BLOB_CHUNK) == Some(data)
  {
    SealCount(t, data);
    OpenedExactly(c, t, data, |t|);
    ChunksCover(|data|);
    assert t[..|t|] == t && data[..|data|] == data;
  }

  /** Decryption undoes encryption for every data, including the empty one. */
  lemma {:induction false} RoundTrip(t: Seals, data: Bytes)
    requires SealedFrom(t, data)
    ensures Decrypted(Ciphertext(t), t, |data|, BLOB_CHUNK) == Some(data)
  {
    AcceptsOnlyTheData(Ciphertext(t), t, data);
  }

  /** A blob of the reserved length other than the true ciphertext is rejected. */
  lemma {:induction false} TamperedRejected(c: Bytes, t: Seals, data: Bytes)
    requires SealedFrom(t, data) && c != Ciphertext(t) && |c| <= ExpectedCipherBytes(|data|)
    ensures Decrypted(c, t, |data|, BLOB_CHUNK).None?
  {
    LengthMatchesReservation(t, data);
    AcceptsOnlyTheData(c, t, data);
    assert c[..|c|] == c;
  }
}
