/** The chat history sent to a newly linked device: messages are packed greedily, in
    order, into frames of at most 64 KiB of UTF-8. */
module HistoryChunks {
  import opened Sums
  import Utf8

  const HISTORY_CHUNK_BYTES := 64 * 1024

  datatype Message = Message(mine: bool, ts: int, mid: string, text: string, sender: Option<string>)

  /** A stored chat message; only those with an id and a text are sent. */
  datatype ChatMessage = ChatMessage(mine: bool, ts: int, mid: Option<string>, text: Option<string>, sender: Option<string>)

  function Size(m: Message): nat {
    |Utf8.Encode(m.text)| + (if m.sender.Some? then |Utf8.Encode(m.sender.value)| else 0) + 80
  }

  function Bytes(ms: seq<Message>): nat {
    if ms == [] then 0 else Bytes(ms[..|ms| - 1]) + Size(ms[|ms| - 1])
  }

  function Flatten(chunks: seq<seq<Message>>): seq<Message> {
    if chunks == [] then [] else Flatten(chunks[..|chunks| - 1]) + chunks[|chunks| - 1]
  }

  // ---------------------------------------------------------------------------
  // What is sent

  predicate Sendable(m: ChatMessage) {
    m.mid.Some? && m.mid.value != "" && m.text.Some? && m.text.value != ""
  }

  function Sent(all: seq<ChatMessage>): seq<Message> {
    if all == [] then [] else
      var m := all[|all| - 1];
      Sent(all[..|all| - 1]) + if Sendable(m) then [Message(m.mine, m.ts, m.mid.value, m.text.value, m.sender)] else []
  }

  lemma {:induction false} SentConcat(a: seq<ChatMessage>, b: seq<ChatMessage>)
    ensures Sent(a + b) == Sent(a) + Sent(b)
    decreases |b|
  {
    hide Sendable;
    if b == [] {
      assert a + b == a;
    } else {
      SentConcat(a, b[..|b| - 1]);
      assert (a + b)[..|a + b| - 1] == a + b[..|b| - 1];
    }
  }

  /** One message is sent, as it is, exactly if it has an id and a text; several are sent
      one after the other (`SentConcat`). */
  lemma {:induction false} SentExactly(m: ChatMessage)
    ensures Sent([m]) ==
      if m.mid.Some? && |m.mid.value| > 0 && m.text.Some? && |m.text.value| > 0
      then [Message(m.mine, m.ts, m.mid.value, m.text.value, m.sender)] else []
  {
    assert [m][..0] == [];
  }

  /** Every message is either sent or counted as skipped. */
  method Select(all: seq<ChatMessage>) returns (msgs: seq<Message>, skipped: nat)
    ensures msgs == Sent(all) && |msgs| + skipped == |all|
  {
    msgs, skipped := [], 0;
    for i := 0 to |all|
      invariant msgs == Sent(all[..i]) && |msgs| + skipped == i
    {
      assert all[..i + 1][..i] == all[..i];
      var m := all[i];
      if Sendable(m) {
        msgs := msgs + [Message(m.mine, m.ts, m.mid.value, m.text.value, m.sender)];
      } else {
        skipped := skipped + 1;
      }
    }
    assert all[..|all|] == all;
  }

  // ---------------------------------------------------------------------------
  // The greedy packing

  datatype Packing = Packing(done: seq<seq<Message>>, batch: seq<Message>)

  function Add(p: Packing, m: Message): Packing {
    if p.batch != [] && Bytes(p.batch) + Size(m) > HISTORY_CHUNK_BYTES then Packing(p.done + [p.batch], [m])
    else Packing(p.done, p.batch + [m])
  }

  function Pack(ms: seq<Message>): Packing {
    if ms == [] then Packing([], []) else Add(Pack(ms[..|ms| - 1]), ms[|ms| - 1])
  }

  function Chunks(ms: seq<Message>): seq<seq<Message>> {
    var p := Pack(ms);
    if p.batch == [] then p.done else p.done + [p.batch]
  }

  lemma {:induction false} PackStep(ms: seq<Message>, i: nat)
    requires i < |ms|
    ensures Pack(ms[..i + 1]) == Add(Pack(ms[..i]), ms[i])
  {
    hide Add;
    assert ms[..i + 1][..i] == ms[..i];
  }

  method Chunk(msgs: seq<Message>) returns (chunks: seq<seq<Message>>)
    ensures chunks == Chunks(msgs)
  {
    hide Size, Bytes, Pack;
    NothingPacked();
    chunks := [];
    var batch: seq<Message> := [];
    var bytes := 0;
    for i := 0 to |msgs|
      invariant Pack(msgs[..i]) == Packing(chunks, batch)
      invariant bytes == Bytes(batch)
    {
      PackStep(msgs, i);
      var m := msgs[i];
      var size := Size(m);
      BytesAdd(batch, m);
      BytesAdd([], m);
      if batch != [] && bytes + size > HISTORY_CHUNK_BYTES {
        chunks := chunks + [batch];
        batch := [];
        bytes := 0;
      }
      batch := batch + [m];
      bytes := bytes + size;
    }
    assert msgs[..|msgs|] == msgs;
    if batch != [] { chunks := chunks + [batch]; }
  }

  // ---------------------------------------------------------------------------
  // Every chunk list is a fitting partition

  predicate Fits(c: seq<Message>) { c != [] && (Bytes(c) <= 65_536 || |c| == 1) }

  ghost predicate IsPartition(p: seq<seq<Message>>, ms: seq<Message>) {
    Flatten(p) == ms && forall i :: 0 <= i < |p| ==> Fits(p[i])
  }

  lemma {:induction false} FlattenAdd(p: seq<seq<Message>>, c: seq<Message>)
    ensures Flatten(p + [c]) == Flatten(p) + c
  {
    assert (p + [c])[..|p|] == p;
  }

  lemma {:induction false} BytesAdd(c: seq<Message>, m: Message)
    ensures Bytes(c + [m]) == Bytes(c) + Size(m)
  {
    assert (c + [m])[..|c|] == c;
  }

  lemma {:induction false} NothingPacked()
    ensures Pack([]) == Packing([], []) && Bytes([]) == 0
  {}

  lemma {:induction false} SingleFits(m: Message)
    ensures Fits([m])
  {
    hide Bytes;
  }

  lemma {:induction false} GrownFits(batch: seq<Message>, m: Message)
    requires batch == [] || Bytes(batch) + Size(m) <= HISTORY_CHUNK_BYTES
    ensures Fits(batch + [m])
  {
    hide Bytes, Size;
    BytesAdd(batch, m);
  }

  lemma {:induction false} AddKeeps(p: Packing, m: Message)
    requires forall i :: 0 <= i < |p.done| ==> Fits(p.done[i])
    requires p.batch != [] ==> Fits(p.batch)
    ensures var q := Add(p, m);
      && Flatten(q.done) + q.batch == Flatten(p.done) + p.batch + [m]
      && (forall i :: 0 <= i < |q.done| ==> Fits(q.done[i])) && q.batch != [] && Fits(q.batch)
  {
    hide Flatten, Size, Bytes, Fits;
    if p.batch != [] && Bytes(p.batch) + Size(m) > HISTORY_CHUNK_BYTES {
      FlattenAdd(p.done, p.batch);
      SingleFits(m);
    } else {
      GrownFits(p.batch, m);
      assert Flatten(p.done) + (p.batch + [m]) == Flatten(p.done) + p.batch + [m];
    }
  }

  lemma {:induction false} PackOk(ms: seq<Message>)
    ensures var p := Pack(ms);
      && Flatten(p.done) + p.batch == ms && (p.batch == [] <==> ms == [])
      && (forall i :: 0 <= i < |p.done| ==> Fits(p.done[i])) && (p.batch != [] ==> Fits(p.batch))
  {
    hide Fits, Add, Bytes;
    if ms != [] {
      PackOk(ms[..|ms| - 1]);
      AddKeeps(Pack(ms[..|ms| - 1]), ms[|ms| - 1]);
      assert ms == ms[..|ms| - 1] + [ms[|ms| - 1]];
    }
  }

  /** The chunks hold all messages in order, none is empty, and each fits a frame
      or is a single message. */
  lemma {:induction false} ChunksPartition(ms: seq<Message>)
    ensures IsPartition(Chunks(ms), ms)
  {
    PackOk(ms);
    FlattenAdd(Pack(ms).done, Pack(ms).batch);
  }

  /** Everything a chunk's messages say, senders included. */
  function AllText(c: seq<Message>): string {
    if c == [] then "" else
      var m := c[|c| - 1];
      AllText(c[..|c| - 1]) + m.text + if m.sender.Some? then m.sender.value else ""
  }

  /** What is counted for a chunk is the UTF-8 of everything in it, and 80 bytes a
      message. */
  lemma {:induction false} CountedInBytes(c: seq<Message>)
    ensures Bytes(c) == |Utf8.Encode(AllText(c))| + 80 * |c|
  {
    hide Utf8.Encode;
    if c == [] {
      assert Utf8.Encode("") == [] by { EmptyEncoding(); }
    } else {
      var rest, m := AllText(c[..|c| - 1]), c[|c| - 1];
      CountedInBytes(c[..|c| - 1]);
      Utf8.EncodeConcat(rest, m.text);
      Utf8.EncodeConcat(rest + m.text, if m.sender.Some? then m.sender.value else "");
      EmptyEncoding();
    }
  }

  lemma {:induction false} EmptyEncoding()
    ensures Utf8.Encode("") == []
  {}

  /** A chunk is closed only when the next message would take it beyond 64 KiB. */
  lemma {:induction false} ClosedOnlyWhenFull(ms: seq<Message>, i: nat)
    requires i + 1 < |Chunks(ms)|
    ensures Chunks(ms)[i + 1] != [] && Bytes(Chunks(ms)[i] + [Chunks(ms)[i + 1][0]]) > 65_536
  {
    hide Bytes, Size;
    if ms != [] {
      var rest, m := ms[..|ms| - 1], ms[|ms| - 1];
      var p, q := Pack(rest), Pack(ms);
      PackOk(rest);
      PackOk(ms);
      if i + 1 < |Chunks(rest)| {
        ClosedOnlyWhenFull(rest, i);
      } else if p.batch != [] {
        BytesAdd(p.batch, m);
      }
    }
  }

  // ---------------------------------------------------------------------------
  // No in-order partition has fewer chunks

  /** Both end in the same messages, so the longer suffix weighs at least as much. */
  lemma {:induction false} SuffixHeavier(ms: seq<Message>, a: nat, b: nat)
    requires a <= b <= |ms|
    ensures Bytes(ms[b..]) <= Bytes(ms[a..])
    decreases |ms|
  {
    hide Bytes, Size, Pack;
    if b < |ms| {
      var rest, m := ms[..|ms| - 1], ms[|ms| - 1];
      SuffixHeavier(rest, a, b);
      assert ms[a..] == rest[a..] + [m] && ms[b..] == rest[b..] + [m];
      BytesAdd(rest[a..], m);
      BytesAdd(rest[b..], m);
    } else {
      assert ms[b..] == [];
      NothingPacked();
    }
  }

  /** Dropping the last message from a partition: its last chunk loses a message or
      disappears. */
  function WithoutLast(p: seq<seq<Message>>): seq<seq<Message>>
    requires p != [] && p[|p| - 1] != []
  {
    var c := p[|p| - 1];
    if |c| == 1 then p[..|p| - 1] else p[..|p| - 1] + [c[..|c| - 1]]
  }

  lemma {:induction false} WithoutLastPartition(p: seq<seq<Message>>, ms: seq<Message>)
    requires ms != [] && IsPartition(p, ms)
    ensures p != [] && p[|p| - 1] != [] && IsPartition(WithoutLast(p), ms[..|ms| - 1])
    ensures |p[|p| - 1]| <= |ms| && p[|p| - 1] == ms[|ms| - |p[|p| - 1]|..]
  {
    var rest, c := p[..|p| - 1], p[|p| - 1];
    assert ms == Flatten(rest) + c;
    if |c| > 1 {
      assert c == c[..|c| - 1] + [c[|c| - 1]];
      BytesAdd(c[..|c| - 1], c[|c| - 1]);
      FlattenAdd(rest, c[..|c| - 1]);
    }
  }

  lemma {:induction false} LastFits(p: seq<seq<Message>>, ms: seq<Message>)
    requires p != [] && IsPartition(p, ms)
    ensures Fits(p[|p| - 1])
  {}

  function Count(p: Packing): nat { |p.done| + if p.batch == [] then 0 else 1 }

  lemma {:induction false} BatchIsSuffix(ms: seq<Message>)
    ensures |Pack(ms).batch| <= |ms| && Pack(ms).batch == ms[|ms| - |Pack(ms).batch|..]
  {
    PackOk(ms);
  }

  /** A last chunk that takes in the whole greedy batch and the next message is too
      heavy whenever the greedy batch was closed. */
  lemma {:induction false} TooHeavy(ms: seq<Message>, m: Message, c: seq<Message>)
    requires Pack(ms).batch != [] && Bytes(Pack(ms).batch) + Size(m) > HISTORY_CHUNK_BYTES
    requires |Pack(ms).batch| < |c| <= |ms| + 1 && c == (ms + [m])[|ms| + 1 - |c|..]
    ensures !Fits(c)
  {
    hide Pack, Size;
    var all, batch := ms + [m], Pack(ms).batch;
    BatchIsSuffix(ms);
    assert all[|ms| - |batch|..] == batch + [m];
    BytesAdd(batch, m);
    SuffixHeavier(all, |ms| + 1 - |c|, |ms| - |batch|);
  }

  /** Greedy stays ahead: no partition has fewer chunks, and among those with as
      many the greedy one has the shortest last chunk. */
  lemma {:induction false} GreedyAhead(p: seq<seq<Message>>, ms: seq<Message>)
    requires IsPartition(p, ms)
    ensures Count(Pack(ms)) <= |p|
    ensures ms != [] && |p| == Count(Pack(ms)) ==> |Pack(ms).batch| <= |p[|p| - 1]|
    decreases |ms|
  {
    hide Flatten, Bytes, Size, IsPartition;
    if ms != [] {
      var rest, m := ms[..|ms| - 1], ms[|ms| - 1];
      WithoutLastPartition(p, ms);
      GreedyAhead(WithoutLast(p), rest);
      PackOk(rest);
      var g, c := Pack(rest), p[|p| - 1];
      assert ms == rest + [m];
      if g.batch != [] && Bytes(g.batch) + Size(m) > HISTORY_CHUNK_BYTES && |p| == Count(g) {
        TooHeavy(rest, m, c);
        LastFits(p, ms);
      }
    }
  }

  /** The number of chunks is minimal over all in-order partitions that fit. */
  lemma {:induction false} ChunksMinimal(p: seq<seq<Message>>, ms: seq<Message>)
    requires IsPartition(p, ms)
    ensures |Chunks(ms)| <= |p|
  {
    GreedyAhead(p, ms);
  }

  // ---------------------------------------------------------------------------
  // Appending messages

  lemma {:induction false} DoneGrows(ms: seq<Message>, more: seq<Message>)
    ensures Pack(ms).done <= Pack(ms + more).done
    decreases |more|
  {
    if more == [] {
      assert ms + more == ms;
    } else {
      DoneGrows(ms, more[..|more| - 1]);
      assert (ms + more)[..|ms + more| - 1] == ms + more[..|more| - 1];
    }
  }

  /** Appending messages leaves every chunk but the last unchanged. */
  lemma {:induction false} ChunksStable(ms: seq<Message>, more: seq<Message>, i: nat)
    requires i + 1 < |Chunks(ms)|
    ensures i < |Chunks(ms + more)| && Chunks(ms + more)[i] == Chunks(ms)[i]
  {
    DoneGrows(ms, more);
    PackOk(ms);
    assert Pack(ms).done[i] == Pack(ms + more).done[i];
  }

  /** `q` continues the open batch of `p`, still open or by now closed. */
  predicate Extends(p: Packing, q: Packing) {
    if |q.done| <= |p.done| then |q.done| == |p.done| && p.batch <= q.batch else p.batch <= q.done[|p.done|]
  }

  lemma {:induction false} AddExtends(p: Packing, q: Packing, m: Message)
    requires Extends(p, q)
    ensures Extends(p, Add(q, m))
  {
    hide Bytes, Size;
  }

  /** The open batch stays where it is and only gets longer. */
  lemma {:induction false} BatchGrows(ms: seq<Message>, more: seq<Message>)
    ensures Extends(Pack(ms), Pack(ms + more))
    decreases |more|
  {
    hide Add, Extends;
    if more == [] {
      assert ms + more == ms;
      ExtendsItself(Pack(ms));
    } else {
      BatchGrows(ms, more[..|more| - 1]);
      assert (ms + more)[..|ms + more| - 1] == ms + more[..|more| - 1];
      AddExtends(Pack(ms), Pack(ms + more[..|more| - 1]), more[|more| - 1]);
    }
  }

  lemma {:induction false} ExtendsItself(p: Packing)
    ensures Extends(p, p)
  {}

  /** As long as everything appended fits, it all goes into the open batch; as soon as
      something does not, a chunk is closed. */
  lemma {:induction false} BatchFills(ms: seq<Message>, more: seq<Message>)
    requires ms != [] && more != []
    ensures var p, q := Pack(ms), Pack(ms + more);
      if Bytes(p.batch + more) <= 65_536 then q == Packing(p.done, p.batch + more) else |q.done| > |p.done|
    decreases |more|
  {
    hide Size, Bytes, Pack;
    var rest, m, p := more[..|more| - 1], more[|more| - 1], Pack(ms);
    PackOk(ms);
    assert ms + more == (ms + rest) + [m] && p.batch + more == (p.batch + rest) + [m];
    assert (ms + more)[..|ms + rest|] == ms + rest;
    PackStep(ms + more, |ms + rest|);
    assert (ms + more)[..|ms + more|] == ms + more;
    BytesAdd(p.batch + rest, m);
    if rest == [] {
      assert ms + rest == ms && p.batch + rest == p.batch;
    } else {
      BatchFills(ms, rest);
    }
  }

  /** A retry with messages appended sends the same chunk under its id if and only if the
      chunk was not the last one, or nothing was appended, or the first message appended
      did not fit into it. */
  lemma {:induction false} ChunkKeptExactly(ms: seq<Message>, more: seq<Message>, i: nat)
    requires i < |Chunks(ms)|
    ensures (i < |Chunks(ms + more)| && Chunks(ms + more)[i] == Chunks(ms)[i]) <==>
      i + 1 < |Chunks(ms)| || more == [] || Bytes(Chunks(ms)[i]) + Size(more[0]) > 65_536
  {
    hide Bytes, Size, Pack, Chunks;
    if i + 1 < |Chunks(ms)| {
      ChunksStable(ms, more, i);
    } else if more == [] {
      assert ms + more == ms;
    } else {
      LastKeptExactly(ms, more);
    }
  }

  /** The last chunk stays as it is exactly when the first appended message opens a new one. */
  lemma {:induction false} LastKeptExactly(ms: seq<Message>, more: seq<Message>)
    requires Chunks(ms) != [] && more != []
    ensures var i := |Chunks(ms)| - 1;
      (i < |Chunks(ms + more)| && Chunks(ms + more)[i] == Chunks(ms)[i]) <==> Bytes(Chunks(ms)[i]) + Size(more[0]) > 65_536
  {
    hide Bytes, Size, Pack, Add, Chunks;
    var first := ms + [more[0]];
    assert ms + more == first + more[1..];
    assert Pack(first) == Add(Pack(ms), more[0]) by { PackAdd(ms, more[0]); }
    DoneGrows(first, more[1..]);
    BatchGrows(first, more[1..]);
    ChunksOf(ms);
    ChunksOf(ms + more);
    LastKept(Pack(ms), more[0], Pack(ms + more));
  }

  lemma {:induction false} PackAdd(ms: seq<Message>, m: Message)
    ensures Pack(ms + [m]) == Add(Pack(ms), m)
  {
    hide Add;
    assert (ms + [m])[..|ms|] == ms;
  }

  lemma {:induction false} ChunksOf(ms: seq<Message>)
    ensures Chunks(ms) != [] <==> ms != []
    ensures ms != [] ==> Pack(ms).batch != [] && Chunks(ms) == Pack(ms).done + [Pack(ms).batch]
  {
    hide Pack, Flatten, Fits;
    PackOk(ms);
    NothingPacked();
  }

  lemma {:induction false} LastKept(p: Packing, m: Message, q: Packing)
    requires p.batch != [] && Add(p, m).done <= q.done && Extends(Add(p, m), q)
    ensures var c := if |p.done| < |q.done| then q.done[|p.done|] else q.batch;
      |p.done| <= |q.done| && (c == p.batch <==> Bytes(p.batch) + Size(m) > 65_536)
  {
    hide Bytes, Size;
    if Bytes(p.batch) + Size(m) > 65_536 {
      assert Add(p, m).done[|p.done|] == p.batch;
    }
  }

  /** A frame also names the number of chunks, so a frame is the same only if that is. */
  datatype Frame = Frame(idx: nat, total: nat, msgs: seq<Message>)

  function FrameOf(ms: seq<Message>, i: nat): Frame
    requires i < |Chunks(ms)|
  {
    Frame(i, |Chunks(ms)|, Chunks(ms)[i])
  }

  /** With something appended, a retry sends the very same frame under a chunk's id if
      and only if the chunk was not the last one and everything appended fits into the
      last one. */
  lemma {:induction false} FrameKeptExactly(ms: seq<Message>, more: seq<Message>, i: nat)
    requires i < |Chunks(ms)| && more != []
    ensures (i < |Chunks(ms + more)| && FrameOf(ms + more, i) == FrameOf(ms, i)) <==>
      i + 1 < |Chunks(ms)| && Bytes(Chunks(ms)[|Chunks(ms)| - 1] + more) <= 65_536
  {
    hide Bytes, Size, Pack;
    PackOk(ms);
    PackOk(ms + more);
    BatchFills(ms, more);
    ChunkKeptExactly(ms, more, i);
    OneFits(Pack(ms).batch, more);
  }

  lemma {:induction false} OneFits(b: seq<Message>, more: seq<Message>)
    requires more != []
    ensures Bytes(b) + Size(more[0]) <= Bytes(b + more)
    decreases |more|
  {
    hide Size;
    var rest, m := more[..|more| - 1], more[|more| - 1];
    assert b + more == (b + rest) + [m];
    BytesAdd(b + rest, m);
    if rest == [] { assert b + rest == b; } else { OneFits(b, rest); }
  }
}
