/** The receiving end of `src/relay/fs.rs`: one spawned task per chunk, which
    decrypts it, locks the file, seeks and writes.  A file is an open handle with
    its own mutex and cursor on a file; two handles may share a file.

    Taking the lock, seeking, each partial write and releasing are separate
    steps, and the tasks interleave freely. */
module FileTasks {
  import opened Bytes
  import opened Chunks
  import opened Cryptography
  import opened Options

  datatype Writer =
    | Fresh(handle: nat, cipher: Bytes)
    | Blocked(handle: nat, offset: nat, data: Bytes)
    | Locked(handle: nat, offset: nat, data: Bytes)
    | Writing(handle: nat, offset: nat, data: Bytes, done: nat)
    | Complete
    | Crashed

  /** What a path resolves to: two spellings of one file are one `FileId`. */
  type FileId = int

  /** `sized` says that `set_len` was done. */
  datatype Handle = Handle(file: FileId, sized: bool, cursor: nat, lock: Option<nat>)

  datatype Disk = Disk(files: map<FileId, Bytes>, handles: seq<Handle>, writers: seq<Writer>)

  type Opener = Bytes -> Option<Bytes>

  function Zeros(n: nat): (z: Bytes)
    ensures |z| == n
  {
    seq(n, _ => 0)
  }

  /** Writing at a position; a gap beyond the end reads as zeros. */
  function Overwrite(content: Bytes, at: nat, data: Bytes): (r: Bytes)
    ensures |r| == if at + |data| <= |content| then |content| else at + |data|
    ensures forall pos :: at <= pos < at + |data| ==> r[pos] == data[pos - at]
    ensures forall pos :: 0 <= pos < |content| && !(at <= pos < at + |data|) ==> r[pos] == content[pos]
    ensures forall pos :: |content| <= pos < at && pos < |r| ==> r[pos] == 0
  {
    var base := if at <= |content| then content[..at] else content + Zeros(at - |content|);
    base + data + if at + |data| <= |content| then content[at + |data|..] else []
  }

  predicate HoldsLock(w: Writer, h: nat) {
    (w.Locked? || w.Writing?) && w.handle == h
  }

  // ----- steps -----

  /** `File::create`, which empties a file that exists. */
  function Create(d: Disk, file: FileId): Disk {
    d.(files := d.files[file := []], handles := d.handles + [Handle(file, false, 0, None)])
  }

  /** `set_len` on the file created last; tasks with older handles on the same
      file may have written since. */
  function SetLength(d: Disk, size: nat): (r: Disk)
    requires d.handles != []
    ensures IsResized(Content(d, |d.handles| - 1), Content(r, |d.handles| - 1), size)
  {
    var h := |d.handles| - 1;
    d.(files := d.files[d.handles[h].file := Resized(Content(d, h), size)],
       handles := d.handles[h := d.handles[h].(sized := true)])
  }

  /** What is there stays, what is beyond the length goes, what is missing is zero. */
  predicate IsResized(before: Bytes, after: Bytes, size: nat) {
    |after| == size && forall pos :: 0 <= pos < size ==> after[pos] == if pos < |before| then before[pos] else 0
  }

  function Resized(content: Bytes, size: nat): (r: Bytes)
    ensures IsResized(content, r, size)
  {
    if size <= |content| then content[..size] else content + Zeros(size - |content|)
  }

  function Content(d: Disk, h: nat): Bytes {
    if h < |d.handles| && d.handles[h].file in d.files then d.files[d.handles[h].file] else []
  }

  function Spawn(d: Disk, h: nat, cipher: Bytes): Disk {
    d.(writers := d.writers + [Fresh(h, cipher)])
  }

  /** What the task makes of the ciphertext: too short a ciphertext or plaintext
      makes a slice expression panic, a failed decryption is only logged. */
  function Opened(h: nat, cipher: Bytes, open: Opener): Writer {
    if |cipher| < NONCE_LENGTH then Crashed else
      match open(cipher)
      case None => Complete
      case Some(plain) =>
        if |plain| < 8 then Crashed else Blocked(h, FromLE(plain[..8]), plain[8..])
  }

  ghost predicate Decrypt(d: Disk, d': Disk, t: nat, open: Opener) {
    t < |d.writers| && d.writers[t].Fresh?
    && d' == d.(writers := d.writers[t := Opened(d.writers[t].handle, d.writers[t].cipher, open)])
  }

  ghost predicate Acquire(d: Disk, d': Disk, t: nat) {
    t < |d.writers| && d.writers[t].Blocked? &&
    var w := d.writers[t];
    w.handle < |d.handles| && d.handles[w.handle].lock.None?
    && d' == d.(writers := d.writers[t := Locked(w.handle, w.offset, w.data)],
                handles := d.handles[w.handle := d.handles[w.handle].(lock := Some(t))])
  }

  ghost predicate Seek(d: Disk, d': Disk, t: nat) {
    t < |d.writers| && d.writers[t].Locked? &&
    var w := d.writers[t];
    w.handle < |d.handles|
    && d' == d.(writers := d.writers[t := Writing(w.handle, w.offset, w.data, 0)],
                handles := d.handles[w.handle := d.handles[w.handle].(cursor := w.offset)])
  }

  /** Part of `write_all`: the next `k` bytes go to wherever the cursor is. */
  ghost predicate WriteSome(d: Disk, d': Disk, t: nat, k: nat) {
    t < |d.writers| && d.writers[t].Writing? &&
    var w := d.writers[t];
    w.handle < |d.handles| && w.done <= |w.data| && 0 < k <= |w.data| - w.done &&
    var handle := d.handles[w.handle];
    handle.file in d.files
    && d' == d.(writers := d.writers[t := w.(done := w.done + k)],
                handles := d.handles[w.handle := handle.(cursor := handle.cursor + k)],
                files := d.files[handle.file :=
                  Overwrite(d.files[handle.file], handle.cursor, w.data[w.done..w.done + k])])
  }

  ghost predicate Release(d: Disk, d': Disk, t: nat) {
    t < |d.writers| && d.writers[t].Writing? &&
    var w := d.writers[t];
    w.handle < |d.handles| && w.done == |w.data|
    && d' == d.(writers := d.writers[t := Complete],
                handles := d.handles[w.handle := d.handles[w.handle].(lock := None)])
  }

  ghost predicate WriterStep(d: Disk, d': Disk, t: nat, open: Opener) {
    || Decrypt(d, d', t, open)
    || Acquire(d, d', t)
    || Seek(d, d', t)
    || (exists k: nat :: WriteSome(d, d', t, k))
    || Release(d, d', t)
  }

  // ----- mutual exclusion -----

  /** The mutex and the cursor: a handle's lock names exactly the task that is
      between lock and release, and once that task has sought, the cursor is where
      its next byte belongs, whatever the other tasks do. */
  ghost predicate DiskInv(d: Disk) {
    && (forall h :: 0 <= h < |d.handles| ==> d.handles[h].file in d.files)
    && (forall t :: 0 <= t < |d.writers| ==> WriterInv(d, t))
    && (forall h :: 0 <= h < |d.handles| && d.handles[h].lock.Some? ==> LockedBy(d, h, d.handles[h].lock.value))
  }

  ghost predicate LockedBy(d: Disk, h: nat, t: nat) {
    t < |d.writers| && HoldsLock(d.writers[t], h)
  }

  ghost predicate WriterInv(d: Disk, t: nat)
    requires t < |d.writers|
  {
    var w := d.writers[t];
    && (w.Fresh? || w.Blocked? || w.Locked? || w.Writing? ==> w.handle < |d.handles| && d.handles[w.handle].sized)
    && (w.Locked? || w.Writing? ==> d.handles[w.handle].lock == Some(t))
    && (w.Writing? ==> w.done <= |w.data| && d.handles[w.handle].cursor == w.offset + w.done)
  }

  lemma StepKeepsExclusion(d: Disk, d': Disk, t: nat, open: Opener)
    requires DiskInv(d) && WriterStep(d, d', t, open)
    ensures DiskInv(d')
  {
    assert WriterInv(d, t);
    forall u | 0 <= u < |d'.writers|
      ensures WriterInv(d', u)
    {
      assert WriterInv(d, u);
    }
    forall h | 0 <= h < |d'.handles| && d'.handles[h].lock.Some?
      ensures LockedBy(d', h, d'.handles[h].lock.value)
    {
      if d.handles[h].lock.Some? {
        assert LockedBy(d, h, d.handles[h].lock.value);
      }
    }
  }

  /** No two tasks are ever past the lock of one handle. */
  lemma MutualExclusion(d: Disk, t: nat, u: nat, h: nat)
    requires DiskInv(d) && t < |d.writers| && u < |d.writers|
    requires HoldsLock(d.writers[t], h) && HoldsLock(d.writers[u], h)
    ensures t == u
  {
    assert WriterInv(d, t) && WriterInv(d, u);
  }

  // ----- what the tasks write -----

  /** Offset and data of a chunk of a file, as `send_file` cuts it. */
  ghost predicate IsChunk(source: Bytes, offset: nat, data: Bytes) {
    && offset % CHUNK == 0 && offset < |source|
    && data == source[offset..ChunkEnd(source, offset)]
  }

  function ChunkEnd(source: Bytes, offset: nat): nat {
    if offset + CHUNK > |source| then |source| else offset + CHUNK
  }

  ghost predicate IsChunkBuffer(source: Bytes, plain: Bytes) {
    |plain| >= 8 && IsChunk(source, FromLE(plain[..8]), plain[8..])
  }

  /** A frame that decrypts to a chunk of the file. */
  ghost predicate IsChunkFrame(source: Bytes, cipher: Bytes, open: Opener) {
    |cipher| >= NONCE_LENGTH && open(cipher).Some? && IsChunkBuffer(source, open(cipher).value)
  }

  ghost predicate Genuine(w: Writer, sources: seq<Bytes>, open: Opener) {
    match w
    case Fresh(h, cipher) => h < |sources| && IsChunkFrame(sources[h], cipher, open)
    case Blocked(h, offset, data) => h < |sources| && IsChunk(sources[h], offset, data)
    case Locked(h, offset, data) => h < |sources| && IsChunk(sources[h], offset, data)
    case Writing(h, offset, data, done) => h < |sources| && IsChunk(sources[h], offset, data)
    case Complete => true
    case Crashed => false
  }

  ghost predicate AllGenuine(d: Disk, sources: seq<Bytes>, open: Opener) {
    forall t :: 0 <= t < |d.writers| ==> Genuine(d.writers[t], sources, open)
  }

  lemma StepKeepsGenuine(d: Disk, d': Disk, t: nat, sources: seq<Bytes>, open: Opener)
    requires AllGenuine(d, sources, open) && WriterStep(d, d', t, open)
    ensures AllGenuine(d', sources, open)
  {
    assert Genuine(d.writers[t], sources, open);
    forall u | 0 <= u < |d'.writers|
      ensures Genuine(d'.writers[u], sources, open)
    {
      assert Genuine(d.writers[u], sources, open);
    }
  }

  /** Handles that share a file carry the same contents. */
  ghost predicate FilesAgree(d: Disk, sources: seq<Bytes>) {
    && |d.handles| <= |sources|
    && forall h, g :: 0 <= h < |d.handles| && 0 <= g < |d.handles| && d.handles[h].file == d.handles[g].file
         ==> sources[h] == sources[g]
  }

  /** No later handle has created the file anew. */
  ghost predicate Latest(d: Disk, h: nat) {
    && h < |d.handles|
    && forall g :: h < g < |d.handles| ==> d.handles[g].file != d.handles[h].file
  }

  ghost predicate LatestSized(d: Disk, h: nat) {
    Latest(d, h) && d.handles[h].sized
  }

  ghost predicate Matches(content: Bytes, source: Bytes, from: nat, to: nat) {
    to <= |content| && to <= |source| && forall pos :: from <= pos < to ==> content[pos] == source[pos]
  }

  /** Sizes are right, and what a task has written so far is the source's. */
  ghost predicate WrittenInv(d: Disk, sources: seq<Bytes>) {
    && FilesAgree(d, sources)
    && (forall h: nat :: LatestSized(d, h) ==> |Content(d, h)| == |sources[h]|)
    && (forall t :: 0 <= t < |d.writers| && d.writers[t].Writing? && Latest(d, d.writers[t].handle) ==>
          var w := d.writers[t]; Matches(Content(d, w.handle), sources[w.handle], w.offset, w.offset + w.done))
  }

  lemma OverwriteMatches(content: Bytes, source: Bytes, at: nat, piece: Bytes, from: nat, to: nat)
    requires |content| == |source| && at + |piece| <= |source| && piece == source[at..at + |piece|]
    ensures var r := Overwrite(content, at, piece);
            && |r| == |content|
            && (Matches(content, source, from, to) ==> Matches(r, source, from, to))
            && (Matches(content, source, from, at) ==> Matches(r, source, from, at + |piece|))
  {
    var r := Overwrite(content, at, piece);
    assert forall pos :: at <= pos < at + |piece| ==> r[pos] == piece[pos - at] == source[pos];
  }

  /** The tasks leave alone which files are open. */
  ghost predicate SameHandles(before: seq<Handle>, after: seq<Handle>) {
    && |after| == |before|
    && forall g :: 0 <= g < |before| ==> after[g].file == before[g].file && after[g].sized == before[g].sized
  }

  lemma StepKeepsFiles(d: Disk, d': Disk, t: nat, open: Opener)
    requires WriterStep(d, d', t, open)
    ensures SameHandles(d.handles, d'.handles)
    ensures forall h: nat :: (Latest(d', h) <==> Latest(d, h)) && (LatestSized(d', h) <==> LatestSized(d, h))
  {
  }

  lemma SliceOfSlice(s: Bytes, a: nat, b: nat, i: nat, j: nat)
    requires a <= b <= |s| && i <= j <= b - a
    ensures s[a..b][i..j] == s[a + i..a + j]
  {
    assert forall n :: 0 <= n < j - i ==> s[a..b][i..j][n] == s[a + i..a + j][n];
  }

  lemma WriteKeepsSource(d: Disk, d': Disk, t: nat, k: nat, sources: seq<Bytes>, open: Opener,
                         h: nat, from: nat, to: nat)
    requires DiskInv(d) && AllGenuine(d, sources, open) && WrittenInv(d, sources) && WriteSome(d, d', t, k)
    requires LatestSized(d, h)
    ensures |Content(d', h)| == |Content(d, h)|
    ensures Matches(Content(d, h), sources[h], from, to) ==> Matches(Content(d', h), sources[h], from, to)
    ensures d.writers[t].handle == h ==>
      Matches(Content(d', h), sources[h], d.writers[t].offset, d.writers[t].offset + d'.writers[t].done)
  {
    var w := d.writers[t];
    assert WriterInv(d, t) && Genuine(w, sources, open);
    ContentAfterWrite(d, d', t, k, h);
    if d.handles[w.handle].file == d.handles[h].file {
      assert sources[w.handle] == sources[h];
      PieceMatches(Content(d, h), Content(d', h), sources[h], w, k, from, to);
    }
  }

  lemma ContentAfterWrite(d: Disk, d': Disk, t: nat, k: nat, h: nat)
    requires WriteSome(d, d', t, k) && WriterInv(d, t) && h < |d.handles|
    ensures d'.writers[t] == d.writers[t].(done := d.writers[t].done + k)
    ensures if d.handles[d.writers[t].handle].file == d.handles[h].file
            then IsWritten(Content(d, h), Content(d', h), d.writers[t], k)
            else Content(d', h) == Content(d, h)
  {
    assert d'.handles[h].file == d.handles[h].file;
  }

  /** `after` is `before` with the next `k` bytes of the task written. */
  ghost predicate IsWritten(before: Bytes, after: Bytes, w: Writer, k: nat) {
    w.Writing? && w.done + k <= |w.data|
    && after == Overwrite(before, w.offset + w.done, w.data[w.done..w.done + k])
  }

  lemma PieceMatches(before: Bytes, after: Bytes, source: Bytes, w: Writer, k: nat, from: nat, to: nat)
    requires |before| == |source| && IsWritten(before, after, w, k) && IsChunk(source, w.offset, w.data)
    ensures |after| == |before|
    ensures Matches(before, source, from, to) ==> Matches(after, source, from, to)
    ensures Matches(before, source, w.offset, w.offset + w.done) ==>
              Matches(after, source, w.offset, w.offset + w.done + k)
  {
    PieceOfSource(source, w.offset, w.data, w.done, k);
    WrittenMatches(before, after, source, w.offset, w.offset + w.done, w.data[w.done..w.done + k], from, to);
  }

  lemma WrittenMatches(before: Bytes, after: Bytes, source: Bytes, offset: nat, at: nat, piece: Bytes,
                       from: nat, to: nat)
    requires |before| == |source| && at + |piece| <= |source| && piece == source[at..at + |piece|]
    requires after == Overwrite(before, at, piece)
    ensures |after| == |before|
    ensures Matches(before, source, from, to) ==> Matches(after, source, from, to)
    ensures Matches(before, source, offset, at) ==> Matches(after, source, offset, at + |piece|)
  {
    OverwriteMatches(before, source, at, piece, from, to);
    OverwriteMatches(before, source, at, piece, offset, to);
  }

  lemma PieceOfSource(source: Bytes, offset: nat, data: Bytes, done: nat, k: nat)
    requires IsChunk(source, offset, data) && done + k <= |data|
    ensures offset + done + k <= |source|
    ensures data[done..done + k] == source[offset + done..offset + done + |data[done..done + k]|]
  {
    SliceOfSlice(source, offset, ChunkEnd(source, offset), done, done + k);
  }

  /** Only source bytes are ever written where they belong, so what matches the
      source goes on matching it. */
  lemma StepWritesSource(d: Disk, d': Disk, t: nat, sources: seq<Bytes>, open: Opener, h: nat, from: nat, to: nat)
    requires DiskInv(d) && AllGenuine(d, sources, open) && WrittenInv(d, sources) && WriterStep(d, d', t, open)
    requires LatestSized(d, h)
    ensures LatestSized(d', h) && |Content(d', h)| == |Content(d, h)|
    ensures Matches(Content(d, h), sources[h], from, to) ==> Matches(Content(d', h), sources[h], from, to)
    ensures d.writers[t].Writing? && d.writers[t].handle == h && d'.writers[t].Writing? ==>
      Matches(Content(d', h), sources[h], d.writers[t].offset, d.writers[t].offset + d'.writers[t].done)
  {
    StepKeepsFiles(d, d', t, open);
    if k: nat :| WriteSome(d, d', t, k) {
      WriteKeepsSource(d, d', t, k, sources, open, h, from, to);
    } else {
      assert Content(d', h) == Content(d, h);
    }
  }

  lemma StepKeepsWritten(d: Disk, d': Disk, t: nat, sources: seq<Bytes>, open: Opener)
    requires DiskInv(d) && AllGenuine(d, sources, open) && WrittenInv(d, sources) && WriterStep(d, d', t, open)
    ensures WrittenInv(d', sources)
  {
    StepKeepsFiles(d, d', t, open);
    forall h: nat | LatestSized(d', h)
      ensures |Content(d', h)| == |sources[h]|
    {
      assert LatestSized(d, h);
      StepWritesSource(d, d', t, sources, open, h, 0, 0);
    }
    forall u | 0 <= u < |d'.writers| && d'.writers[u].Writing? && Latest(d', d'.writers[u].handle)
      ensures var w := d'.writers[u]; Matches(Content(d', w.handle), sources[w.handle], w.offset, w.offset + w.done)
    {
      var w := d'.writers[u];
      assert WriterInv(d, t) && WriterInv(d, u) && LatestSized(d, w.handle);
      if u == t && d.writers[t].Locked? {
        assert Genuine(d.writers[t], sources, open);
        StepWritesSource(d, d', t, sources, open, w.handle, w.offset, w.offset);
      } else {
        StepWritesSource(d, d', t, sources, open, w.handle, w.offset, w.offset + d.writers[u].done);
      }
    }
  }

  // ----- no foreign byte -----

  /** Every byte is the source's, or still zero. */
  ghost predicate Clean(content: Bytes, source: Bytes) {
    |content| <= |source| && forall pos :: 0 <= pos < |content| ==> content[pos] == source[pos] || content[pos] == 0
  }

  ghost predicate CleanInv(d: Disk, sources: seq<Bytes>) {
    && FilesAgree(d, sources)
    && forall h: nat :: Latest(d, h) ==> Clean(Content(d, h), sources[h])
  }

  lemma OverwriteStaysClean(content: Bytes, source: Bytes, at: nat, piece: Bytes)
    requires Clean(content, source) && at + |piece| <= |source| && piece == source[at..at + |piece|]
    ensures Clean(Overwrite(content, at, piece), source)
  {
    var r := Overwrite(content, at, piece);
    assert forall pos :: at <= pos < at + |piece| ==> r[pos] == piece[pos - at] == source[pos];
  }

  lemma WriteStaysClean(d: Disk, d': Disk, t: nat, k: nat, source: Bytes, h: nat)
    requires WriteSome(d, d', t, k) && WriterInv(d, t) && h < |d.handles| && Clean(Content(d, h), source)
    requires d.handles[d.writers[t].handle].file == d.handles[h].file ==>
               IsChunk(source, d.writers[t].offset, d.writers[t].data)
    ensures Clean(Content(d', h), source)
  {
    var w := d.writers[t];
    ContentAfterWrite(d, d', t, k, h);
    if d.handles[w.handle].file == d.handles[h].file {
      PieceStaysClean(Content(d, h), Content(d', h), source, w, k);
    }
  }

  lemma PieceStaysClean(before: Bytes, after: Bytes, source: Bytes, w: Writer, k: nat)
    requires Clean(before, source) && IsWritten(before, after, w, k) && IsChunk(source, w.offset, w.data)
    ensures Clean(after, source)
  {
    PieceOfSource(source, w.offset, w.data, w.done, k);
    OverwriteStaysClean(before, source, w.offset + w.done, w.data[w.done..w.done + k]);
  }

  lemma StepStaysClean(d: Disk, d': Disk, t: nat, sources: seq<Bytes>, open: Opener)
    requires DiskInv(d) && AllGenuine(d, sources, open) && CleanInv(d, sources) && WriterStep(d, d', t, open)
    ensures CleanInv(d', sources)
  {
    StepKeepsFiles(d, d', t, open);
    assert WriterInv(d, t) && Genuine(d.writers[t], sources, open);
    forall h: nat | Latest(d', h)
      ensures Clean(Content(d', h), sources[h])
    {
      assert Latest(d, h);
      if k: nat :| WriteSome(d, d', t, k) {
        WriteStaysClean(d, d', t, k, sources[h], h);
      } else {
        assert Content(d', h) == Content(d, h);
      }
    }
  }

  lemma CreateStaysClean(d: Disk, file: FileId, sources: seq<Bytes>)
    requires CleanInv(d, sources) && FilesAgree(Create(d, file), sources)
    ensures CleanInv(Create(d, file), sources)
  {
    forall h: nat | Latest(Create(d, file), h)
      ensures Clean(Content(Create(d, file), h), sources[h])
    {
      if h < |d.handles| {
        CreateKeepsOlder(d, file, h);
      }
    }
  }

  lemma SetLengthStaysClean(d: Disk, sources: seq<Bytes>)
    requires CleanInv(d, sources) && d.handles != []
    ensures CleanInv(SetLength(d, |sources[|d.handles| - 1]|), sources)
  {
    var last := |d.handles| - 1;
    var d' := SetLength(d, |sources[last]|);
    forall h: nat | Latest(d', h)
      ensures Clean(Content(d', h), sources[h])
    {
      SetLengthKeepsOlder(d, |sources[last]|, h);
    }
  }

  lemma SpawnStaysClean(d: Disk, h: nat, cipher: Bytes, sources: seq<Bytes>)
    requires CleanInv(d, sources)
    ensures CleanInv(Spawn(d, h, cipher), sources)
  {
    var d' := Spawn(d, h, cipher);
    assert forall g :: Latest(d', g) <==> Latest(d, g);
    assert forall g :: Content(d', g) == Content(d, g);
  }

  // ----- no chunk is forgotten -----

  ghost predicate Carries(plain: Bytes, offset: nat) {
    |plain| >= 8 && FromLE(plain[..8]) == offset
  }

  ghost predicate FrameCarries(cipher: Bytes, open: Opener, offset: nat) {
    open(cipher).Some? && Carries(open(cipher).value, offset)
  }

  ghost predicate Handles(w: Writer, open: Opener, h: nat, offset: nat) {
    match w
    case Fresh(g, cipher) => g == h && FrameCarries(cipher, open, offset)
    case Blocked(g, at, _) => g == h && at == offset
    case Locked(g, at, _) => g == h && at == offset
    case Writing(g, at, _, _) => g == h && at == offset
    case _ => false
  }

  ghost predicate Landed(d: Disk, sources: seq<Bytes>, h: nat, offset: nat)
    requires h < |sources|
  {
    Matches(Content(d, h), sources[h], offset, ChunkEnd(sources[h], offset))
  }

  /** The chunk is in the file, or some task is about to put it there. */
  ghost predicate Covered(d: Disk, sources: seq<Bytes>, open: Opener, h: nat, offset: nat)
    requires h < |sources|
  {
    Landed(d, sources, h, offset) || exists t :: 0 <= t < |d.writers| && Handles(d.writers[t], open, h, offset)
  }

  lemma StepKeepsCovered(d: Disk, d': Disk, t: nat, sources: seq<Bytes>, open: Opener, h: nat, offset: nat)
    requires DiskInv(d) && AllGenuine(d, sources, open) && WrittenInv(d, sources) && WriterStep(d, d', t, open)
    requires LatestSized(d, h) && Covered(d, sources, open, h, offset)
    ensures LatestSized(d', h) && Covered(d', sources, open, h, offset)
  {
    StepWritesSource(d, d', t, sources, open, h, offset, ChunkEnd(sources[h], offset));
    if !Landed(d, sources, h, offset) {
      var u :| 0 <= u < |d.writers| && Handles(d.writers[u], open, h, offset);
      if u == t {
        assert Genuine(d.writers[t], sources, open) && WriterInv(d, t);
        if !Release(d, d', t) {
          assert Handles(d'.writers[t], open, h, offset);
        }
      } else {
        assert Handles(d'.writers[u], open, h, offset);
      }
    }
  }

  /** When the tasks have settled and no chunk was forgotten, the file is whole. */
  lemma AllLandedIsWhole(d: Disk, sources: seq<Bytes>, open: Opener, h: nat)
    requires WrittenInv(d, sources) && LatestSized(d, h)
    requires forall t :: 0 <= t < |d.writers| ==> d.writers[t].Complete?
    requires forall k: nat {:trigger Covered(d, sources, open, h, k * CHUNK)} ::
               k * CHUNK < |sources[h]| ==> Covered(d, sources, open, h, k * CHUNK)
    ensures Content(d, h) == sources[h]
  {
    forall pos | 0 <= pos < |sources[h]|
      ensures Content(d, h)[pos] == sources[h][pos]
    {
      var k := pos / CHUNK;
      assert k * CHUNK <= pos < ChunkEnd(sources[h], k * CHUNK);
      assert Covered(d, sources, open, h, k * CHUNK);
    }
  }

  // ----- opening files and spawning tasks -----

  lemma CreateKeeps(d: Disk, file: FileId, sources: seq<Bytes>, open: Opener)
    requires DiskInv(d) && AllGenuine(d, sources, open)
    ensures DiskInv(Create(d, file)) && AllGenuine(Create(d, file), sources, open)
  {
    var d' := Create(d, file);
    forall t | 0 <= t < |d'.writers|
      ensures WriterInv(d', t)
    {
      assert WriterInv(d, t);
    }
    forall h | 0 <= h < |d'.handles| && d'.handles[h].lock.Some?
      ensures LockedBy(d', h, d'.handles[h].lock.value)
    {
      assert LockedBy(d, h, d.handles[h].lock.value);
    }
  }

  /** An older handle that is still the latest of its file is on another file. */
  lemma CreateKeepsOlder(d: Disk, file: FileId, h: nat)
    requires h < |d.handles| && Latest(Create(d, file), h)
    ensures Latest(d, h) && Content(Create(d, file), h) == Content(d, h)
    ensures LatestSized(Create(d, file), h) <==> LatestSized(d, h)
  {
    var n, d' := |d.handles|, Create(d, file);
    assert d'.handles[n].file != d'.handles[h].file;
    assert forall g :: 0 <= g < n ==> d'.handles[g] == d.handles[g];
  }

  lemma CreateKeepsWritten(d: Disk, file: FileId, sources: seq<Bytes>)
    requires DiskInv(d) && WrittenInv(d, sources)
    requires FilesAgree(Create(d, file), sources)
    ensures WrittenInv(Create(d, file), sources)
  {
    var d' := Create(d, file);
    forall h: nat | LatestSized(d', h)
      ensures |Content(d', h)| == |sources[h]|
    {
      CreateKeepsOlder(d, file, h);
    }
    forall t | 0 <= t < |d'.writers| && d'.writers[t].Writing? && Latest(d', d'.writers[t].handle)
      ensures var w := d'.writers[t]; Matches(Content(d', w.handle), sources[w.handle], w.offset, w.offset + w.done)
    {
      assert WriterInv(d, t);
      CreateKeepsOlder(d, file, d.writers[t].handle);
    }
  }

  lemma CreateKeepsCovered(d: Disk, file: FileId, sources: seq<Bytes>, open: Opener, h: nat, offset: nat)
    requires h < |d.handles| <= |sources| && Latest(Create(d, file), h)
    requires Covered(d, sources, open, h, offset)
    ensures Covered(Create(d, file), sources, open, h, offset)
  {
    CreateKeepsOlder(d, file, h);
  }

  /** Nobody writes through a handle whose file has no length yet. */
  lemma SetLengthKeeps(d: Disk, size: nat, sources: seq<Bytes>, open: Opener)
    requires DiskInv(d) && AllGenuine(d, sources, open) && d.handles != []
    ensures DiskInv(SetLength(d, size)) && AllGenuine(SetLength(d, size), sources, open)
  {
    var d' := SetLength(d, size);
    forall t | 0 <= t < |d'.writers|
      ensures WriterInv(d', t)
    {
      assert WriterInv(d, t);
    }
    forall h | 0 <= h < |d'.handles| && d'.handles[h].lock.Some?
      ensures LockedBy(d', h, d'.handles[h].lock.value)
    {
      assert LockedBy(d, h, d.handles[h].lock.value);
    }
  }

  lemma SetLengthKeepsOlder(d: Disk, size: nat, h: nat)
    requires d.handles != []
    ensures Latest(SetLength(d, size), h) <==> Latest(d, h)
    ensures h < |d.handles| - 1 && Latest(d, h) ==>
              Content(SetLength(d, size), h) == Content(d, h)
              && (LatestSized(SetLength(d, size), h) <==> LatestSized(d, h))
  {
    var d' := SetLength(d, size);
    assert forall g :: 0 <= g < |d.handles| ==> d'.handles[g].file == d.handles[g].file;
  }

  lemma SetLengthKeepsWritten(d: Disk, sources: seq<Bytes>)
    requires DiskInv(d) && WrittenInv(d, sources)
    requires d.handles != [] && !d.handles[|d.handles| - 1].sized
    ensures WrittenInv(SetLength(d, |sources[|d.handles| - 1]|), sources)
  {
    var last := |d.handles| - 1;
    var d' := SetLength(d, |sources[last]|);
    forall h: nat | LatestSized(d', h)
      ensures |Content(d', h)| == |sources[h]|
    {
      SetLengthKeepsOlder(d, |sources[last]|, h);
    }
    forall t | 0 <= t < |d'.writers| && d'.writers[t].Writing? && Latest(d', d'.writers[t].handle)
      ensures var w := d'.writers[t]; Matches(Content(d', w.handle), sources[w.handle], w.offset, w.offset + w.done)
    {
      assert WriterInv(d, t);
      SetLengthKeepsOlder(d, |sources[last]|, d.writers[t].handle);
    }
  }

  lemma SetLengthKeepsCovered(d: Disk, size: nat, sources: seq<Bytes>, open: Opener, h: nat, offset: nat)
    requires h < |d.handles| - 1 && h < |sources| && Latest(d, h) && Covered(d, sources, open, h, offset)
    ensures Covered(SetLength(d, size), sources, open, h, offset)
  {
    SetLengthKeepsOlder(d, size, h);
  }

  lemma SpawnKeeps(d: Disk, h: nat, cipher: Bytes, sources: seq<Bytes>, open: Opener)
    requires DiskInv(d) && AllGenuine(d, sources, open)
    requires h < |d.handles| && d.handles[h].sized && h < |sources| && IsChunkFrame(sources[h], cipher, open)
    ensures DiskInv(Spawn(d, h, cipher)) && AllGenuine(Spawn(d, h, cipher), sources, open)
    ensures WrittenInv(d, sources) ==> WrittenInv(Spawn(d, h, cipher), sources)
  {
    var d' := Spawn(d, h, cipher);
    forall t | 0 <= t < |d'.writers|
      ensures WriterInv(d', t)
    {
      if t < |d.writers| {
        assert WriterInv(d, t);
      }
    }
    forall g | 0 <= g < |d'.handles| && d'.handles[g].lock.Some?
      ensures LockedBy(d', g, d'.handles[g].lock.value)
    {
      assert LockedBy(d, g, d.handles[g].lock.value);
    }
    assert forall g :: Latest(d', g) <==> Latest(d, g);
    assert forall g :: Content(d', g) == Content(d, g);
  }

  lemma SpawnKeepsCovered(d: Disk, h: nat, cipher: Bytes, sources: seq<Bytes>, open: Opener, g: nat, offset: nat)
    requires g < |sources|
    requires Covered(d, sources, open, g, offset) || (g == h && FrameCarries(cipher, open, offset))
    ensures Covered(Spawn(d, h, cipher), sources, open, g, offset)
  {
    var d' := Spawn(d, h, cipher);
    assert Content(d', g) == Content(d, g);
    if Landed(d, sources, g, offset) {
      assert Landed(d', sources, g, offset);
    } else if t :| 0 <= t < |d.writers| && Handles(d.writers[t], open, g, offset) {
      assert Handles(d'.writers[t], open, g, offset);
    } else {
      assert Handles(d'.writers[|d.writers|], open, g, offset);
    }
  }

  // ----- progress -----

  function WriterRank(w: Writer): nat {
    match w
    case Fresh(_, cipher) => |cipher| + 5
    case Blocked(_, _, data) => |data| + 4
    case Locked(_, _, data) => |data| + 3
    case Writing(_, _, data, done) => (if done <= |data| then |data| - done else 0) + 2
    case _ => 0
  }

  function DiskRank(ws: seq<Writer>): nat {
    if ws == [] then 0 else WriterRank(ws[0]) + DiskRank(ws[1..])
  }

  lemma {:induction false} RankOfUpdate(ws: seq<Writer>, t: nat, w: Writer)
    requires t < |ws|
    ensures DiskRank(ws[t := w]) + WriterRank(ws[t]) == DiskRank(ws) + WriterRank(w)
  {
    if t > 0 {
      RankOfUpdate(ws[1..], t - 1, w);
      assert ws[t := w][1..] == ws[1..][t - 1 := w];
    } else {
      assert ws[t := w][1..] == ws[1..];
    }
  }

  lemma StepDecreases(d: Disk, d': Disk, t: nat, open: Opener)
    requires WriterStep(d, d', t, open)
    requires forall c: Bytes {:trigger open(c)} :: open(c).Some? ==> |open(c).value| <= |c|
    ensures DiskRank(d'.writers) < DiskRank(d.writers)
  {
    RankOfUpdate(d.writers, t, d'.writers[t]);
  }

  predicate Settled(d: Disk) {
    forall t :: 0 <= t < |d.writers| ==> d.writers[t].Complete? || d.writers[t].Crashed?
  }

  /** As long as a task has not settled, some task can step. */
  lemma DiskProgress(d: Disk, open: Opener) returns (d': Disk, t: nat)
    requires DiskInv(d) && !Settled(d)
    ensures WriterStep(d, d', t, open)
  {
    t :| 0 <= t < |d.writers| && !d.writers[t].Complete? && !d.writers[t].Crashed?;
    assert WriterInv(d, t);
    if d.writers[t].Fresh? {
      d' := d.(writers := d.writers[t := Opened(d.writers[t].handle, d.writers[t].cipher, open)]);
    } else {
      var handle := d.handles[d.writers[t].handle];
      if d.writers[t].Blocked? {
        if handle.lock.None? {
          var w := d.writers[t];
          d' := d.(writers := d.writers[t := Locked(w.handle, w.offset, w.data)],
                   handles := d.handles[w.handle := handle.(lock := Some(t))]);
          assert Acquire(d, d', t);
        } else {
          var holder := handle.lock.value;
          assert LockedBy(d, d.writers[t].handle, holder);
          t := holder;
          d' := HolderProgress(d, t, open);
        }
      } else {
        d' := HolderProgress(d, t, open);
      }
    }
  }

  lemma HolderProgress(d: Disk, t: nat, open: Opener) returns (d': Disk)
    requires DiskInv(d) && t < |d.writers| && (d.writers[t].Locked? || d.writers[t].Writing?)
    ensures WriterStep(d, d', t, open)
  {
    var w := d.writers[t];
    assert WriterInv(d, t);
    var handle := d.handles[w.handle];
    if w.Locked? {
      d' := d.(writers := d.writers[t := Writing(w.handle, w.offset, w.data, 0)],
               handles := d.handles[w.handle := handle.(cursor := w.offset)]);
      assert Seek(d, d', t);
    } else if w.done == |w.data| {
      d' := d.(writers := d.writers[t := Complete],
               handles := d.handles[w.handle := handle.(lock := None)]);
      assert Release(d, d', t);
    } else {
      d' := d.(writers := d.writers[t := w.(done := w.done + 1)],
               handles := d.handles[w.handle := handle.(cursor := handle.cursor + 1)],
               files := d.files[handle.file :=
                 Overwrite(d.files[handle.file], handle.cursor, w.data[w.done..w.done + 1])]);
      assert WriteSome(d, d', t, 1);
    }
  }
}
