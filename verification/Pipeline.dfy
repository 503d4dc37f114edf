/** The data plane of a transfer, from the sender's chunk loop to the files of
    the receiver: reader task, spawned encrypt tasks, data connection, writer
    task and spawned writer tasks.  Frames carry no file index; which file a
    frame goes to depends only on when the receiver takes it. */
module Pipeline {
  import opened Bytes
  import opened Framing
  import opened Chunks
  import opened Cryptography
  import opened Options
  import opened Transport
  import opened FileTasks

  /** What the transfer is about: the files in order, the files they are written
      to, the size of the queues and the cipher both ends use. */
  datatype Plan = Plan(
    sources: seq<Bytes>, targets: seq<FileId>, capacity: nat, seal: (nat, Bytes) -> Bytes, open: Opener)

  ghost predicate LawfulPlan(p: Plan) {
    && |p.targets| == |p.sources|
    && p.capacity > 0
    && (forall i :: 0 <= i < |p.sources| ==> |p.sources[i]| < I64_LIMIT)
    && (forall nonce, m :: p.open(p.seal(nonce, m)) == Some(m) && |p.seal(nonce, m)| == |m| + EXPANSION)
    && (forall c :: p.open(c).Some? ==> |p.open(c).value| <= |c|)
  }

  /** `FileChunkInfo` and `FileChunk`; a number stands for the shared open file. */
  datatype ChunkRequest = ChunkRequest(index: nat, range: Range)
  datatype FileChunk = FileChunk(handle: nat, data: Bytes)

  datatype Data = Data(
    requests: seq<ChunkRequest>,   // queue to the reader task
    buffers: multiset<Bytes>,      // plaintexts held by spawned encrypt tasks
    path: Path,                    // data connection
    chunks: seq<FileChunk>,        // queue to the writer task
    disk: Disk)                    // spawned writer tasks and the files

  const NO_DATA: Data := Data([], multiset{}, IDLE, [], Disk(map[], [], []))

  // ----- steps of the tasks -----

  /** One turn of the reader task: lock, seek, `read_exact`, spawn. */
  ghost predicate ReadStep(sources: seq<Bytes>, d: Data, d': Data) {
    d.requests != [] &&
    var q := d.requests[0];
    && q.index < |sources| && End(q.range) <= |sources[q.index]|
    && d' == d.(requests := d.requests[1..],
                buffers := d.buffers + multiset{BufferOf(sources[q.index], q.range)})
  }

  function BufferOf(source: Bytes, range: Range): Bytes
    requires End(range) <= |source|
  {
    ChunkBuffer(range.offset, source[range.offset..End(range)])
  }

  /** A spawned task has sealed its buffer as `m` and queues it; the write fails
      on a message whose length does not fit the header. */
  ghost predicate SendStep(capacity: nat, d: Data, d': Data, buffer: Bytes, m: Bytes) {
    && buffer in d.buffers
    && d' == d.(buffers := d.buffers - multiset{buffer}, path := d'.path)
    && if Sendable(m) then Enqueue(d.path, d'.path, m, capacity) else d'.path == d.path
  }

  ghost predicate MoveStep(capacity: nat, d: Data, d': Data) {
    Internal(d.path, d'.path, capacity) && d' == d.(path := d'.path)
  }

  ghost predicate SpawnStep(d: Data, d': Data) {
    d.chunks != []
    && d' == d.(chunks := d.chunks[1..], disk := Spawn(d.disk, d.chunks[0].handle, d.chunks[0].data))
  }

  ghost predicate WriteStep(d: Data, d': Data, t: nat, open: Opener) {
    WriterStep(d.disk, d'.disk, t, open) && d' == d.(disk := d'.disk)
  }

  // ----- steps that the sessions take on the data plane -----

  function QueueRequest(d: Data, q: ChunkRequest): Data {
    d.(requests := d.requests + [q])
  }

  function CreateFile(d: Data, file: FileId): Data {
    d.(disk := Create(d.disk, file))
  }

  function SizeFile(d: Data, size: nat): Data
    requires d.disk.handles != []
  {
    d.(disk := SetLength(d.disk, size))
  }

  ghost predicate TakeFrameStep(d: Data, d': Data, m: Bytes) {
    Dequeue(d.path, d'.path, m) && d' == d.(path := d'.path)
  }

  function QueueChunk(d: Data, m: Bytes): Data
    requires d.disk.handles != []
  {
    d.(chunks := d.chunks + [FileChunk(|d.disk.handles| - 1, m)])
  }

  // ----- invariant -----

  /** Where the receiver's counting stands: not at a file; at file `index` which
      has no length yet; or at file `index` with `taken` frames off the connection,
      of which `held` is not yet with the writer task, while the sender has queued
      `queued` chunks of that file. */
  datatype Focus = Off | Opened(index: nat) | On(index: nat, taken: nat, held: seq<Bytes>, queued: nat)

  ghost predicate SizedBelow(handles: seq<Handle>, n: nat) {
    n <= |handles| && forall h :: 0 <= h < n ==> handles[h].sized
  }

  ghost predicate DataIdle(d: Data) {
    d.requests == [] && d.buffers == multiset{} && InFlight(d.path) == []
  }

  ghost predicate IsRequest(source: Bytes, i: nat, q: ChunkRequest) {
    && q.index == i && q.range.offset % CHUNK == 0 && q.range.offset < |source|
    && End(q.range) == ChunkEnd(source, q.range.offset)
  }

  ghost predicate RequestsGenuine(source: Bytes, i: nat, requests: seq<ChunkRequest>) {
    forall q :: q in requests ==> IsRequest(source, i, q)
  }

  ghost predicate BuffersGenuine(source: Bytes, buffers: multiset<Bytes>) {
    forall b :: b in buffers ==> IsChunkBuffer(source, b) && |b| <= 8 + CHUNK
  }

  ghost predicate FramesGenuine(source: Bytes, frames: seq<Bytes>, open: Opener) {
    forall m :: m in frames ==> IsChunkFrame(source, m, open)
  }

  ghost predicate ChunksGenuine(sources: seq<Bytes>, handles: seq<Handle>, chunks: seq<FileChunk>, open: Opener) {
    forall c :: c in chunks ==> ChunkGenuine(sources, handles, c, open)
  }

  ghost predicate ChunkGenuine(sources: seq<Bytes>, handles: seq<Handle>, c: FileChunk, open: Opener) {
    && c.handle < |handles| && handles[c.handle].sized
    && c.handle < |sources| && IsChunkFrame(sources[c.handle], c.data, open)
  }

  ghost predicate UpstreamGenuine(source: Bytes, i: nat, requests: seq<ChunkRequest>, buffers: multiset<Bytes>,
                                  frames: seq<Bytes>, held: seq<Bytes>, open: Opener)
  {
    && RequestsGenuine(source, i, requests)
    && BuffersGenuine(source, buffers)
    && FramesGenuine(source, frames, open)
    && FramesGenuine(source, held, open)
  }

  /** Nothing queued is lost: it is on its way, or taken. */
  ghost predicate Carried(source: Bytes, i: nat, requests: seq<ChunkRequest>, buffers: multiset<Bytes>,
                          frames: seq<Bytes>, taken: nat, held: seq<Bytes>, queued: nat, open: Opener)
  {
    && |requests| + |buffers| + |frames| + taken == queued <= ChunkCount(|source|)
    && UpstreamGenuine(source, i, requests, buffers, frames, held, open)
  }

  /** While a file is received, everything on the way belongs to that file, and
      what the sender has queued is either taken or on the way. */
  ghost predicate FocusInv(p: Plan, d: Data, f: Focus) {
    match f
    case Off => DataIdle(d) && SizedBelow(d.disk.handles, |d.disk.handles|)
    case Opened(i) =>
      && DataIdle(d)
      && i < |p.sources| && |d.disk.handles| == i + 1 && SizedBelow(d.disk.handles, i) && !d.disk.handles[i].sized
    case On(i, taken, held, queued) =>
      && i < |p.sources| && |d.disk.handles| == i + 1 && SizedBelow(d.disk.handles, i + 1)
      && Carried(p.sources[i], i, d.requests, d.buffers, InFlight(d.path), taken, held, queued, p.open)
  }

  ghost predicate DiskPart(p: Plan, disk: Disk) {
    && DiskInv(disk)
    && AllGenuine(disk, p.sources, p.open)
    && |disk.handles| <= |p.sources| == |p.targets|
    && (forall h :: 0 <= h < |disk.handles| ==> disk.handles[h].file == p.targets[h])
    && (Consistent(p) ==> WrittenInv(disk, p.sources) && CleanInv(disk, p.sources))
  }

  /** Entries for one file announce one content. */
  ghost predicate Consistent(p: Plan) {
    && |p.targets| == |p.sources|
    && forall i, j :: 0 <= i < |p.targets| && 0 <= j < |p.targets| && p.targets[i] == p.targets[j] ==>
         p.sources[i] == p.sources[j]
  }

  // ----- no chunk is forgotten -----

  ghost predicate RequestCarries(q: ChunkRequest, offset: nat) {
    q.range.offset == offset
  }

  /** Chunk `k` of the file being received is not yet queued, or on the way. */
  ghost predicate Upstream(p: Plan, d: Data, f: Focus, k: nat)
    requires f.On?
  {
    || k >= f.queued
    || (exists q :: q in d.requests && RequestCarries(q, k * CHUNK))
    || (exists b :: b in d.buffers && Carries(b, k * CHUNK))
    || (exists m :: m in InFlight(d.path) && FrameCarries(m, p.open, k * CHUNK))
    || (exists m :: m in f.held && FrameCarries(m, p.open, k * CHUNK))
  }

  ghost predicate ChunkCarries(c: FileChunk, open: Opener, h: nat, offset: nat) {
    c.handle == h && FrameCarries(c.data, open, offset)
  }

  ghost predicate Downstream(p: Plan, d: Data, h: nat, k: nat)
    requires h < |p.sources|
  {
    || (exists c :: c in d.chunks && ChunkCarries(c, p.open, h, k * CHUNK))
    || Covered(d.disk, p.sources, p.open, h, k * CHUNK)
  }

  ghost predicate ChunkSafe(p: Plan, d: Data, f: Focus, h: nat, k: nat)
    requires h < |p.sources|
  {
    (f.On? && f.index == h && Upstream(p, d, f, k)) || Downstream(p, d, h, k)
  }

  ghost predicate IsOpenChunk(p: Plan, disk: Disk, h: nat, k: nat) {
    LatestSized(disk, h) && h < |p.sources| && k * CHUNK < |p.sources[h]|
  }

  ghost predicate CoverInv(p: Plan, d: Data, f: Focus) {
    forall h: nat, k: nat :: IsOpenChunk(p, d.disk, h, k) ==> ChunkSafe(p, d, f, h, k)
  }

  ghost predicate PipeInv(p: Plan, d: Data, f: Focus) {
    && PathInv(d.path)
    && FocusInv(p, d, f)
    && ChunksGenuine(p.sources, d.disk.handles, d.chunks, p.open)
    && DiskPart(p, d.disk)
    && (Consistent(p) ==> CoverInv(p, d, f))
  }

  lemma EmptyPipe(p: Plan)
    requires LawfulPlan(p)
    ensures PipeInv(p, NO_DATA, Off)
  {
    assert Stream(IDLE) == [];
  }

  // ----- the tasks keep it -----

  lemma RequestBecomesBuffer(source: Bytes, i: nat, q: ChunkRequest)
    requires IsRequest(source, i, q) && |source| < I64_LIMIT
    ensures End(q.range) <= |source|
    ensures var b := BufferOf(source, q.range);
            IsChunkBuffer(source, b) && |b| <= 8 + CHUNK && Carries(b, q.range.offset)
  {
    BufferRoundTrip(q.range.offset, source[q.range.offset..End(q.range)]);
  }

  lemma ReadKeeps(p: Plan, d: Data, d': Data, f: Focus)
    requires LawfulPlan(p) && PipeInv(p, d, f) && ReadStep(p.sources, d, d')
    ensures PipeInv(p, d', f)
  {
    var q := d.requests[0];
    assert q in d.requests;
    RequestBecomesBuffer(p.sources[f.index], f.index, q);
    ReadKeepsFocus(p, d, d', f, BufferOf(p.sources[f.index], q.range));
    if Consistent(p) {
      ReadKeepsCover(p, d, d', f);
    }
  }

  lemma ReadKeepsFocus(p: Plan, d: Data, d': Data, f: Focus, b: Bytes)
    requires f.On? && FocusInv(p, d, f) && d.requests != []
    requires d' == d.(requests := d.requests[1..], buffers := d.buffers + multiset{b})
    requires IsChunkBuffer(p.sources[f.index], b) && |b| <= 8 + CHUNK
    ensures FocusInv(p, d', f)
  {
    ReadCarries(p.sources[f.index], f.index, d.requests, d.buffers, InFlight(d.path),
                f.taken, f.held, f.queued, p.open, b);
  }

  lemma ReadCarries(source: Bytes, i: nat, requests: seq<ChunkRequest>, buffers: multiset<Bytes>, frames: seq<Bytes>,
                    taken: nat, held: seq<Bytes>, queued: nat, open: Opener, b: Bytes)
    requires Carried(source, i, requests, buffers, frames, taken, held, queued, open) && requests != []
    requires IsChunkBuffer(source, b) && |b| <= 8 + CHUNK
    ensures Carried(source, i, requests[1..], buffers + multiset{b}, frames, taken, held, queued, open)
  {
    assert |buffers + multiset{b}| == |buffers| + 1;
  }

  lemma SendCarries(source: Bytes, i: nat, requests: seq<ChunkRequest>, buffers: multiset<Bytes>, frames: seq<Bytes>,
                    taken: nat, held: seq<Bytes>, queued: nat, open: Opener, b: Bytes, m: Bytes)
    requires Carried(source, i, requests, buffers, frames, taken, held, queued, open) && b in buffers
    requires IsChunkFrame(source, m, open)
    ensures Carried(source, i, requests, buffers - multiset{b}, frames + [m], taken, held, queued, open)
  {
    assert |buffers - multiset{b}| == |buffers| - 1;
  }

  lemma TakeCarries(source: Bytes, i: nat, requests: seq<ChunkRequest>, buffers: multiset<Bytes>, m: Bytes,
                    frames: seq<Bytes>, taken: nat, queued: nat, open: Opener)
    requires Carried(source, i, requests, buffers, [m] + frames, taken, [], queued, open)
    ensures Carried(source, i, requests, buffers, frames, taken + 1, [m], queued, open)
  {
    assert m in [m] + frames;
  }

  lemma QueueCarries(source: Bytes, i: nat, requests: seq<ChunkRequest>, buffers: multiset<Bytes>, frames: seq<Bytes>,
                     taken: nat, m: Bytes, queued: nat, open: Opener)
    requires Carried(source, i, requests, buffers, frames, taken, [m], queued, open)
    ensures Carried(source, i, requests, buffers, frames, taken, [], queued, open)
    ensures IsChunkFrame(source, m, open)
  {
    assert m in [m];
  }

  lemma ChunkAdded(sources: seq<Bytes>, handles: seq<Handle>, chunks: seq<FileChunk>, c: FileChunk, open: Opener)
    requires ChunksGenuine(sources, handles, chunks, open) && ChunkGenuine(sources, handles, c, open)
    ensures ChunksGenuine(sources, handles, chunks + [c], open)
  {
  }

  lemma ReadKeepsCover(p: Plan, d: Data, d': Data, f: Focus)
    requires f.On? && f.index < |p.sources| && ReadStep(p.sources, d, d') && CoverInv(p, d, f)
    requires var q := d.requests[0];
             q.index == f.index && Carries(BufferOf(p.sources[f.index], q.range), q.range.offset)
    ensures CoverInv(p, d', f)
  {
    var q := d.requests[0];
    var b := BufferOf(p.sources[f.index], q.range);
    forall h: nat, k: nat | IsOpenChunk(p, d'.disk, h, k)
      ensures ChunkSafe(p, d', f, h, k)
    {
      assert ChunkSafe(p, d, f, h, k);
      if f.index == h && Upstream(p, d, f, k) {
        if r :| r in d.requests && RequestCarries(r, k * CHUNK) {
          if r == q {
            assert b in d'.buffers;
          } else {
            assert r in d'.requests;
          }
        } else if c :| c in d.buffers && Carries(c, k * CHUNK) {
          assert c in d'.buffers;
        }
        assert Upstream(p, d', f, k);
      }
    }
  }

  lemma SealedIsFrame(p: Plan, source: Bytes, buffer: Bytes, nonce: nat)
    requires LawfulPlan(p) && IsChunkBuffer(source, buffer) && |buffer| <= 8 + CHUNK
    ensures Sendable(p.seal(nonce, buffer)) && IsChunkFrame(source, p.seal(nonce, buffer), p.open)
    ensures forall offset: nat :: Carries(buffer, offset) ==> FrameCarries(p.seal(nonce, buffer), p.open, offset)
  {
  }

  lemma SendKeeps(p: Plan, d: Data, d': Data, f: Focus, buffer: Bytes, nonce: nat)
    requires LawfulPlan(p) && PipeInv(p, d, f) && SendStep(p.capacity, d, d', buffer, p.seal(nonce, buffer))
    ensures PipeInv(p, d', f)
  {
    var m := p.seal(nonce, buffer);
    SealedIsFrame(p, p.sources[f.index], buffer, nonce);
    EnqueueAppends(d.path, d'.path, m, p.capacity);
    SendKeepsFocus(p, d, d', f, buffer, m);
    if Consistent(p) {
      SendKeepsCover(p, d, d', f, buffer, m);
    }
  }

  lemma SendKeepsFocus(p: Plan, d: Data, d': Data, f: Focus, buffer: Bytes, m: Bytes)
    requires f.On? && FocusInv(p, d, f) && IsChunkFrame(p.sources[f.index], m, p.open)
    requires buffer in d.buffers && d' == d.(buffers := d.buffers - multiset{buffer}, path := d'.path)
    requires InFlight(d'.path) == InFlight(d.path) + [m]
    ensures FocusInv(p, d', f)
  {
    SendCarries(p.sources[f.index], f.index, d.requests, d.buffers, InFlight(d.path),
                f.taken, f.held, f.queued, p.open, buffer, m);
  }

  lemma SendKeepsCover(p: Plan, d: Data, d': Data, f: Focus, buffer: Bytes, m: Bytes)
    requires f.On? && CoverInv(p, d, f)
    requires buffer in d.buffers && d' == d.(buffers := d.buffers - multiset{buffer}, path := d'.path)
    requires InFlight(d'.path) == InFlight(d.path) + [m]
    requires forall offset: nat :: Carries(buffer, offset) ==> FrameCarries(m, p.open, offset)
    ensures CoverInv(p, d', f)
  {
    forall h: nat, k: nat | IsOpenChunk(p, d'.disk, h, k)
      ensures ChunkSafe(p, d', f, h, k)
    {
      assert ChunkSafe(p, d, f, h, k);
      if f.index == h && Upstream(p, d, f, k) {
        if b :| b in d.buffers && Carries(b, k * CHUNK) {
          if b == buffer {
            assert m in InFlight(d'.path);
          } else {
            assert b in d'.buffers;
          }
        } else if x :| x in InFlight(d.path) && FrameCarries(x, p.open, k * CHUNK) {
          assert x in InFlight(d'.path);
        }
        assert Upstream(p, d', f, k);
      }
    }
  }

  lemma MoveKeeps(p: Plan, d: Data, d': Data, f: Focus)
    requires PipeInv(p, d, f) && MoveStep(p.capacity, d, d')
    ensures PipeInv(p, d', f)
  {
    InternalKeeps(d.path, d'.path, p.capacity);
    SamePathKeeps(p, d, d', f);
  }

  lemma SamePathKeeps(p: Plan, d: Data, d': Data, f: Focus)
    requires PipeInv(p, d, f) && d' == d.(path := d'.path)
    requires PathInv(d'.path) && InFlight(d'.path) == InFlight(d.path)
    ensures PipeInv(p, d', f)
  {
    assert FocusInv(p, d', f);
    if Consistent(p) {
      SameInFlightKeepsCover(p, d, d', f);
    }
  }

  lemma SameInFlightKeepsCover(p: Plan, d: Data, d': Data, f: Focus)
    requires CoverInv(p, d, f) && d' == d.(path := d'.path) && InFlight(d'.path) == InFlight(d.path)
    ensures CoverInv(p, d', f)
  {
    forall h: nat, k: nat | IsOpenChunk(p, d'.disk, h, k)
      ensures ChunkSafe(p, d', f, h, k)
    {
      assert ChunkSafe(p, d, f, h, k);
      assert Downstream(p, d, h, k) ==> Downstream(p, d', h, k);
      assert f.On? ==> (Upstream(p, d, f, k) ==> Upstream(p, d', f, k));
    }
  }

  lemma SpawnStepKeeps(p: Plan, d: Data, d': Data, f: Focus)
    requires PipeInv(p, d, f) && SpawnStep(d, d')
    ensures PipeInv(p, d', f)
  {
    assert d.chunks[0] in d.chunks;
    SpawnKeepsDisk(p, d.disk, d.chunks[0]);
    SpawnKeepsFocus(p, d, d', f);
    if Consistent(p) {
      SpawnStepKeepsCover(p, d, d', f);
    }
  }

  lemma SpawnKeepsDisk(p: Plan, disk: Disk, c: FileChunk)
    requires DiskPart(p, disk) && ChunkGenuine(p.sources, disk.handles, c, p.open)
    ensures DiskPart(p, Spawn(disk, c.handle, c.data))
  {
    SpawnKeeps(disk, c.handle, c.data, p.sources, p.open);
    if Consistent(p) {
      SpawnStaysClean(disk, c.handle, c.data, p.sources);
    }
  }

  lemma SpawnKeepsFocus(p: Plan, d: Data, d': Data, f: Focus)
    requires FocusInv(p, d, f) && SpawnStep(d, d')
    ensures FocusInv(p, d', f)
  {
  }

  lemma SpawnStepKeepsCover(p: Plan, d: Data, d': Data, f: Focus)
    requires CoverInv(p, d, f) && SpawnStep(d, d')
    ensures CoverInv(p, d', f)
  {
    var first := d.chunks[0];
    forall h: nat, k: nat | IsOpenChunk(p, d'.disk, h, k)
      ensures ChunkSafe(p, d', f, h, k)
    {
      assert IsOpenChunk(p, d.disk, h, k);
      assert ChunkSafe(p, d, f, h, k);
      if f.On? && f.index == h && Upstream(p, d, f, k) {
        assert Upstream(p, d', f, k);
      } else if c :| c in d.chunks && c != first && ChunkCarries(c, p.open, h, k * CHUNK) {
        assert c in d'.chunks;
      } else {
        SpawnKeepsCovered(d.disk, first.handle, first.data, p.sources, p.open, h, k * CHUNK);
      }
    }
  }

  lemma WriteKeepsDisk(p: Plan, d: Disk, d': Disk, t: nat)
    requires DiskPart(p, d) && WriterStep(d, d', t, p.open)
    ensures DiskPart(p, d') && SameHandles(d.handles, d'.handles)
  {
    StepKeepsExclusion(d, d', t, p.open);
    StepKeepsGenuine(d, d', t, p.sources, p.open);
    StepKeepsFiles(d, d', t, p.open);
    if Consistent(p) {
      StepKeepsWritten(d, d', t, p.sources, p.open);
      StepStaysClean(d, d', t, p.sources, p.open);
    }
  }

  lemma WriteKeeps(p: Plan, d: Data, d': Data, f: Focus, t: nat)
    requires PipeInv(p, d, f) && WriteStep(d, d', t, p.open)
    ensures PipeInv(p, d', f)
  {
    WriteKeepsDisk(p, d.disk, d'.disk, t);
    if Consistent(p) {
      WriteKeepsCover(p, d, d', f, t);
    }
    SameSizeKeepsFocus(p, d, d', f);
  }

  lemma SameSizeKeepsFocus(p: Plan, d: Data, d': Data, f: Focus)
    requires FocusInv(p, d, f) && d' == d.(disk := d'.disk) && SameHandles(d.disk.handles, d'.disk.handles)
    ensures FocusInv(p, d', f)
  {
  }

  lemma WriteKeepsCover(p: Plan, d: Data, d': Data, f: Focus, t: nat)
    requires DiskInv(d.disk) && AllGenuine(d.disk, p.sources, p.open) && WrittenInv(d.disk, p.sources)
    requires CoverInv(p, d, f) && WriteStep(d, d', t, p.open)
    ensures CoverInv(p, d', f)
  {
    StepKeepsFiles(d.disk, d'.disk, t, p.open);
    forall h: nat, k: nat | IsOpenChunk(p, d'.disk, h, k)
      ensures ChunkSafe(p, d', f, h, k)
    {
      assert IsOpenChunk(p, d.disk, h, k);
      assert ChunkSafe(p, d, f, h, k);
      if f.On? && f.index == h && Upstream(p, d, f, k) {
        assert Upstream(p, d', f, k);
      } else if c :| c in d.chunks && ChunkCarries(c, p.open, h, k * CHUNK) {
        assert c in d'.chunks;
      } else {
        StepKeepsCovered(d.disk, d'.disk, t, p.sources, p.open, h, k * CHUNK);
      }
    }
  }

  // ----- the sessions keep it -----

  lemma QueueRequestKeeps(p: Plan, d: Data, f: Focus)
    requires LawfulPlan(p) && PipeInv(p, d, f) && f.On? && f.queued * CHUNK < |p.sources[f.index]|
    ensures PipeInv(p, QueueRequest(d, ChunkRequest(f.index, ChunkAt(|p.sources[f.index]|, f.queued))),
                    f.(queued := f.queued + 1))
  {
    var q := ChunkRequest(f.index, ChunkAt(|p.sources[f.index]|, f.queued));
    CutRequestIsGenuine(p.sources[f.index], f.index, f.queued);
    QueueRequestKeepsFocus(p, d, f, q);
    if Consistent(p) {
      QueueRequestKeepsCover(p, d, f, q);
    }
  }

  lemma CutRequestIsGenuine(source: Bytes, i: nat, k: nat)
    requires k * CHUNK < |source|
    ensures IsRequest(source, i, ChunkRequest(i, ChunkAt(|source|, k)))
    ensures k + 1 <= ChunkCount(|source|)
  {
    CountAgrees(|source|, k);
  }

  lemma QueueRequestKeepsFocus(p: Plan, d: Data, f: Focus, q: ChunkRequest)
    requires FocusInv(p, d, f) && f.On? && f.queued + 1 <= ChunkCount(|p.sources[f.index]|)
    requires IsRequest(p.sources[f.index], f.index, q)
    ensures FocusInv(p, QueueRequest(d, q), f.(queued := f.queued + 1))
  {
  }

  lemma QueueRequestKeepsCover(p: Plan, d: Data, f: Focus, q: ChunkRequest)
    requires f.On? && CoverInv(p, d, f) && q.range.offset == f.queued * CHUNK
    ensures CoverInv(p, QueueRequest(d, q), f.(queued := f.queued + 1))
  {
    var d', f' := QueueRequest(d, q), f.(queued := f.queued + 1);
    forall h: nat, k: nat | IsOpenChunk(p, d'.disk, h, k)
      ensures ChunkSafe(p, d', f', h, k)
    {
      assert ChunkSafe(p, d, f, h, k);
      if f.index == h && Upstream(p, d, f, k) {
        QueueKeepsUpstream(p, d, f, q, k);
      } else {
        assert Downstream(p, d', h, k);
      }
    }
  }

  lemma QueueKeepsUpstream(p: Plan, d: Data, f: Focus, q: ChunkRequest, k: nat)
    requires f.On? && Upstream(p, d, f, k) && q.range.offset == f.queued * CHUNK
    ensures Upstream(p, QueueRequest(d, q), f.(queued := f.queued + 1), k)
  {
    var d' := QueueRequest(d, q);
    if k == f.queued {
      assert q in d'.requests && RequestCarries(q, k * CHUNK);
    } else if r :| r in d.requests && RequestCarries(r, k * CHUNK) {
      assert r in d'.requests;
    }
  }

  lemma CreateFileKeeps(p: Plan, d: Data)
    requires LawfulPlan(p) && PipeInv(p, d, Off) && |d.disk.handles| < |p.sources|
    ensures var i := |d.disk.handles|; PipeInv(p, CreateFile(d, p.targets[i]), Opened(i))
  {
    var i := |d.disk.handles|;
    CreateKeepsDisk(p, d.disk);
    if Consistent(p) {
      CreateFileKeepsCover(p, d, i);
    }
  }

  lemma CreateKeepsDisk(p: Plan, disk: Disk)
    requires DiskPart(p, disk) && |disk.handles| < |p.sources|
    ensures DiskPart(p, Create(disk, p.targets[|disk.handles|]))
  {
    var file := p.targets[|disk.handles|];
    CreateKeeps(disk, file, p.sources, p.open);
    if Consistent(p) {
      assert FilesAgree(Create(disk, file), p.sources);
      CreateKeepsWritten(disk, file, p.sources);
      CreateStaysClean(disk, file, p.sources);
    }
  }

  lemma CreateFileKeepsCover(p: Plan, d: Data, i: nat)
    requires i == |d.disk.handles| < |p.sources| == |p.targets| && CoverInv(p, d, Off)
    ensures CoverInv(p, CreateFile(d, p.targets[i]), Opened(i))
  {
    var d' := CreateFile(d, p.targets[i]);
    forall h: nat, k: nat | IsOpenChunk(p, d'.disk, h, k)
      ensures ChunkSafe(p, d', Opened(i), h, k)
    {
      CreateKeepsOlder(d.disk, p.targets[i], h);
      assert IsOpenChunk(p, d.disk, h, k);
      assert ChunkSafe(p, d, Off, h, k);
      if !(exists c :: c in d.chunks && ChunkCarries(c, p.open, h, k * CHUNK)) {
        CreateKeepsCovered(d.disk, p.targets[i], p.sources, p.open, h, k * CHUNK);
      }
    }
  }

  lemma SizeFileKeeps(p: Plan, d: Data, i: nat)
    requires LawfulPlan(p) && PipeInv(p, d, Opened(i))
    ensures PipeInv(p, SizeFile(d, |p.sources[i]|), On(i, 0, [], 0))
  {
    CountAgrees(|p.sources[i]|, 0);
    SetLengthKeeps(d.disk, |p.sources[i]|, p.sources, p.open);
    if Consistent(p) {
      SetLengthKeepsWritten(d.disk, p.sources);
      SetLengthStaysClean(d.disk, p.sources);
      SizeFileKeepsCover(p, d, i);
    }
  }

  lemma SizeFileKeepsCover(p: Plan, d: Data, i: nat)
    requires |d.disk.handles| == i + 1 <= |p.sources| && CoverInv(p, d, Opened(i))
    ensures CoverInv(p, SizeFile(d, |p.sources[i]|), On(i, 0, [], 0))
  {
    var d', f' := SizeFile(d, |p.sources[i]|), On(i, 0, [], 0);
    forall h: nat, k: nat | IsOpenChunk(p, d'.disk, h, k)
      ensures ChunkSafe(p, d', f', h, k)
    {
      if h == i {
        assert Upstream(p, d', f', k);
      } else {
        SetLengthKeepsOlder(d.disk, |p.sources[i]|, h);
        assert IsOpenChunk(p, d.disk, h, k);
        assert ChunkSafe(p, d, Opened(i), h, k);
        if !(exists c :: c in d.chunks && ChunkCarries(c, p.open, h, k * CHUNK)) {
          SetLengthKeepsCovered(d.disk, |p.sources[i]|, p.sources, p.open, h, k * CHUNK);
        }
      }
    }
  }

  lemma TakeFrameKeeps(p: Plan, d: Data, d': Data, f: Focus, m: Bytes)
    requires PipeInv(p, d, f) && f.On? && f.held == [] && TakeFrameStep(d, d', m)
    ensures PipeInv(p, d', f.(taken := f.taken + 1, held := [m]))
  {
    var f' := f.(taken := f.taken + 1, held := [m]);
    DequeueTakesOldest(d.path, d'.path, m);
    TakeCarries(p.sources[f.index], f.index, d.requests, d.buffers, m, InFlight(d'.path), f.taken, f.queued, p.open);
    assert FocusInv(p, d', f');
    if Consistent(p) {
      TakeFrameKeepsCover(p, d, d', f, m);
    }
  }

  lemma TakeFrameKeepsCover(p: Plan, d: Data, d': Data, f: Focus, m: Bytes)
    requires f.On? && f.held == [] && CoverInv(p, d, f) && d' == d.(path := d'.path)
    requires InFlight(d.path) == [m] + InFlight(d'.path)
    ensures CoverInv(p, d', f.(taken := f.taken + 1, held := [m]))
  {
    var f' := f.(taken := f.taken + 1, held := [m]);
    forall h: nat, k: nat | IsOpenChunk(p, d'.disk, h, k)
      ensures ChunkSafe(p, d', f', h, k)
    {
      assert ChunkSafe(p, d, f, h, k);
      if f.index == h && Upstream(p, d, f, k) {
        if x :| x in InFlight(d.path) && FrameCarries(x, p.open, k * CHUNK) {
          if x == m {
            assert m in f'.held;
          } else {
            assert x in InFlight(d'.path);
          }
        }
        assert Upstream(p, d', f', k);
      } else {
        assert Downstream(p, d', h, k);
      }
    }
  }

  lemma QueueChunkKeeps(p: Plan, d: Data, f: Focus, m: Bytes)
    requires PipeInv(p, d, f) && f.On? && f.held == [m]
    ensures PipeInv(p, QueueChunk(d, m), f.(held := []))
  {
    var d', f' := QueueChunk(d, m), f.(held := []);
    QueueCarries(p.sources[f.index], f.index, d.requests, d.buffers, InFlight(d.path), f.taken, m, f.queued, p.open);
    ChunkAdded(p.sources, d.disk.handles, d.chunks, FileChunk(f.index, m), p.open);
    assert FocusInv(p, d', f');
    if Consistent(p) {
      QueueChunkKeepsCover(p, d, f, m);
    }
  }

  lemma QueueChunkKeepsCover(p: Plan, d: Data, f: Focus, m: Bytes)
    requires f.On? && f.held == [m] && |d.disk.handles| == f.index + 1 && CoverInv(p, d, f)
    ensures CoverInv(p, QueueChunk(d, m), f.(held := []))
  {
    var d', f' := QueueChunk(d, m), f.(held := []);
    var c := FileChunk(f.index, m);
    assert c in d'.chunks;
    forall h: nat, k: nat | IsOpenChunk(p, d'.disk, h, k)
      ensures ChunkSafe(p, d', f', h, k)
    {
      assert ChunkSafe(p, d, f, h, k);
      if f.index == h && Upstream(p, d, f, k) {
        if x :| x in f.held && FrameCarries(x, p.open, k * CHUNK) {
          assert ChunkCarries(c, p.open, h, k * CHUNK);
        } else {
          assert Upstream(p, d', f', k);
        }
      } else if x :| x in d.chunks && ChunkCarries(x, p.open, h, k * CHUNK) {
        assert x in d'.chunks;
      }
    }
  }

  /** When the receiver has counted all chunks of a file, none of them is left on
      the way: the next file starts with an idle data path. */
  lemma FileCompletes(p: Plan, d: Data, f: Focus)
    requires PipeInv(p, d, f) && f.On? && f.held == [] && f.taken >= ChunkCount(|p.sources[f.index]|)
    ensures f.queued == ChunkCount(|p.sources[f.index]|)
    ensures PipeInv(p, d, Off)
  {
    assert |d.requests| + |d.buffers| + |InFlight(d.path)| == 0;
    assert DataIdle(d);
    if Consistent(p) {
      forall h: nat, k: nat | IsOpenChunk(p, d.disk, h, k)
        ensures ChunkSafe(p, d, Off, h, k)
      {
        assert ChunkSafe(p, d, f, h, k);
        if f.index == h {
          CountAgrees(|p.sources[h]|, k);
          assert !Upstream(p, d, f, k);
        }
      }
    }
  }

  // ----- the files at the end -----

  ghost predicate Drained(d: Data) {
    DataIdle(d) && d.chunks == [] && Settled(d.disk)
  }

  /** Once nothing is on the way and the tasks have settled, each file holds the
      content of the last entry announced for it, hence of every such entry. */
  lemma DrainedIsDelivered(p: Plan, d: Data, i: nat)
    requires LawfulPlan(p) && PipeInv(p, d, Off) && Drained(d) && |d.disk.handles| == |p.sources|
    requires Consistent(p) && i < |p.sources|
    ensures p.targets[i] in d.disk.files && d.disk.files[p.targets[i]] == p.sources[i]
  {
    var h := LastOnFile(d.disk, i);
    forall t | 0 <= t < |d.disk.writers|
      ensures d.disk.writers[t].Complete?
    {
      assert Genuine(d.disk.writers[t], p.sources, p.open);
    }
    forall k: nat {:trigger Covered(d.disk, p.sources, p.open, h, k * CHUNK)} | k * CHUNK < |p.sources[h]|
      ensures Covered(d.disk, p.sources, p.open, h, k * CHUNK)
    {
      assert IsOpenChunk(p, d.disk, h, k);
      assert ChunkSafe(p, d, Off, h, k);
    }
    AllLandedIsWhole(d.disk, p.sources, p.open, h);
  }

  lemma {:induction false} LastOnFile(disk: Disk, i: nat) returns (h: nat)
    requires i < |disk.handles|
    ensures i <= h < |disk.handles| && disk.handles[h].file == disk.handles[i].file && Latest(disk, h)
    decreases |disk.handles| - i
  {
    if Latest(disk, i) {
      h := i;
    } else {
      var g :| i < g < |disk.handles| && disk.handles[g].file == disk.handles[i].file;
      h := LastOnFile(disk, g);
    }
  }
}
