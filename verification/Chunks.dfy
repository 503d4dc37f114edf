/** How a file is cut into chunks (`send_file`), how the receiver counts them
    (`process_client`) and how a chunk is laid out as a buffer (`fs.rs`). */
module Chunks {
  import opened Bytes

  const CHUNK: nat := 65536

  const I64_LIMIT: nat := 0x8000_0000_0000_0000

  datatype Range = Range(offset: nat, length: nat)

  function Min(a: int, b: int): int {
    if a <= b then a else b
  }

  /** `i64::div_ceil`: truncating division, corrected upwards. */
  function DivCeil(a: int, b: int): int
    requires b > 0
  {
    var quotient := if a >= 0 then a / b else -((-a) / b);
    if a - quotient * b > 0 then quotient + 1 else quotient
  }

  /** The number of frames the receiver waits for. */
  function ChunkCount(size: int): int {
    DivCeil(size, CHUNK)
  }

  /** A list of ranges cuts `[0, size)` exactly: they are non-empty, at most
      `CHUNK` long, and follow each other from 0 to `size`. */
  ghost predicate CutsExactly(ranges: seq<Range>, size: nat) {
    && (forall i :: 0 <= i < |ranges| ==> 0 < ranges[i].length <= CHUNK)
    && (forall i, j :: 0 <= i < |ranges| && j == i + 1 < |ranges| ==> ranges[j].offset == End(ranges[i]))
    && (if ranges == [] then size == 0 else ranges[0].offset == 0 && End(ranges[|ranges| - 1]) == size)
  }

  function End(range: Range): nat {
    range.offset + range.length
  }

  /** The ranges of an exact cut are pairwise disjoint and inside the file. */
  lemma {:induction false} CutIsDisjoint(ranges: seq<Range>, size: nat, i: nat, j: nat)
    requires CutsExactly(ranges, size) && i < j <= |ranges|
    ensures End(ranges[i]) <= if j == |ranges| then size else ranges[j].offset
    decreases j - i
  {
    if i + 1 < j {
      CutIsDisjoint(ranges, size, i, j - 1);
      assert j < |ranges| ==> ranges[j].offset == End(ranges[j - 1]);
    }
  }

  /** Every position of the file lies in a range of an exact cut. */
  lemma {:induction false} CutCovers(ranges: seq<Range>, size: nat, position: nat, upTo: nat) returns (i: nat)
    requires CutsExactly(ranges, size)
    requires 0 < upTo <= |ranges| && position < End(ranges[upTo - 1])
    ensures i < |ranges| && ranges[i].offset <= position < End(ranges[i])
    decreases upTo
  {
    i := upTo - 1;
    if position < ranges[i].offset {
      assert ranges[i].offset == End(ranges[i - 1]);
      i := CutCovers(ranges, size, position, upTo - 1);
    }
  }

  /** The chunk loop of `send_file`: the requests it queues cut the file
      exactly, and there are as many as the receiver counts. */
  method SplitFile(fileSize: nat) returns (requests: seq<Range>)
    ensures CutsExactly(requests, fileSize)
    ensures |requests| == ChunkCount(fileSize)
    ensures forall k :: 0 <= k < |requests| ==> requests[k] == ChunkAt(fileSize, k)
    ensures forall k :: 0 <= k < |requests| ==>
              requests[k].offset == k * 65536 && requests[k].length == Min(65536, fileSize - k * 65536)
  {
    requests := [];
    var chunkOffset := 0;
    while chunkOffset < fileSize
      invariant chunkOffset == |requests| * CHUNK
      invariant |requests| > 0 ==> (|requests| - 1) * CHUNK < fileSize
      invariant CutsExactly(requests, Min(chunkOffset, fileSize))
      invariant forall k :: 0 <= k < |requests| ==> requests[k] == ChunkAt(fileSize, k)
      decreases fileSize - chunkOffset
    {
      var chunkSize := if chunkOffset + CHUNK > fileSize then fileSize - chunkOffset else CHUNK;
      requests := requests + [Range(chunkOffset, chunkSize)];
      chunkOffset := chunkOffset + CHUNK;
    }
  }

  /** The `k`-th request of the loop above. */
  function ChunkAt(size: nat, k: nat): Range {
    Range(k * CHUNK, if k * CHUNK + CHUNK > size then (if size >= k * CHUNK then size - k * CHUNK else 0) else CHUNK)
  }

  /** The sender's loop guard and the receiver's count say the same. */
  lemma CountAgrees(size: nat, k: nat)
    ensures 0 <= ChunkCount(size)
    ensures k < ChunkCount(size) <==> k * CHUNK < size
    ensures ChunkCount(size) == 0 <==> size == 0
  {
  }

  /** For every advertised size, also a negative one, the receiver's loop takes
      frames off the connection in order, at most as many as it counts, and
      stops early only when the connection has closed. */
  method CountFrames(size: int, frames: seq<Bytes>) returns (forwarded: seq<Bytes>)
    ensures forwarded <= frames
    ensures |forwarded| == if size <= 0 then 0 else Min(ChunkCount(size), |frames|)
  {
    var totalChunks := ChunkCount(size);
    var currentAmount := 0;
    forwarded := [];
    while currentAmount < totalChunks && currentAmount < |frames|
      invariant 0 <= currentAmount <= |frames|
      invariant currentAmount <= if size <= 0 then 0 else totalChunks
      invariant forwarded == frames[..currentAmount]
    {
      forwarded := forwarded + [frames[currentAmount]];
      currentAmount := currentAmount + 1;
    }
  }

  /** Keepalive pings that precede the chunks on the data connection are counted
      as chunks. All chunks of a file reach the writer exactly when there is no
      such ping, or no chunk to displace. */
  lemma PingsDisplaceChunks(size: nat, pings: nat, ping: Bytes, chunks: seq<Bytes>, forwarded: seq<Bytes>)
    requires |chunks| == ChunkCount(size) && forall c :: c in chunks ==> c != ping
    requires var frames := seq(pings, i => ping) + chunks;
             forwarded <= frames && |forwarded| == if size <= 0 then 0 else Min(ChunkCount(size), |frames|)
    ensures (exists before :: forwarded == before + chunks) <==> pings == 0 || size == 0
  {
    CountAgrees(size, 0);
    var frames := seq(pings, i => ping) + chunks;
    if pings == 0 {
      assert forwarded == [] + chunks;
    } else if size == 0 {
      assert forwarded == forwarded + chunks;
    } else {
      assert forwarded[0] == frames[0] == ping;
      assert chunks[0] in chunks;
      forall before
        ensures forwarded != before + chunks
      {
        assert before == [] ==> (before + chunks)[0] == chunks[0];
      }
    }
  }

  /** `offset.to_le_bytes()` followed by the data. */
  function ChunkBuffer(offset: nat, data: Bytes): Bytes {
    ToLE(offset, 8) + data
  }

  lemma BufferRoundTrip(offset: nat, data: Bytes)
    requires offset < I64_LIMIT
    ensures |ChunkBuffer(offset, data)| == 8 + |data|
    ensures FromLE(ChunkBuffer(offset, data)[..8]) == offset
    ensures ChunkBuffer(offset, data)[8..] == data
  {
    WidthFacts();
    LERoundTrip(offset, 8);
    assert ChunkBuffer(offset, data)[..8] == ToLE(offset, 8);
  }
}
