/** The shared open files of `src/relay/fs.rs`: a cursor that seeks, reads and
    writes move, and the bodies of the two tasks while they hold the mutex. */
module OpenFiles {
  import opened Bytes
  import opened Chunks
  import opened FileTasks
  import opened Options

  datatype FileError = EndOfFile

  class OpenFile {
    var content: Bytes
    var cursor: nat

    constructor (content: Bytes)
      ensures this.content == content && cursor == 0
    {
      this.content, cursor := content, 0;
    }

    method Seek(offset: nat)
      modifies this`cursor
      ensures cursor == offset
    {
      cursor := offset;
    }

    /** Fills the whole buffer from the cursor on, or fails at the end of file. */
    method ReadExact(length: nat) returns (r: Result<Bytes, FileError>)
      modifies this`cursor
      ensures cursor <= old(cursor) + length
      ensures r.Ok? <==> old(cursor) + length <= |content| || length == 0
      ensures r.Ok? ==> cursor == old(cursor) + length
      ensures r.Ok? && length > 0 ==> r.value == content[old(cursor)..cursor]
      ensures r.Ok? && length == 0 ==> r.value == []
    {
      var data: Bytes := [];
      while |data| < length
        invariant |data| <= length && cursor == old(cursor) + |data|
        invariant |data| > 0 ==> cursor <= |content| && data == content[old(cursor)..cursor]
        decreases length - |data|
      {
        if cursor >= |content| {
          return Err(EndOfFile);
        }
        var available := |content| - cursor;
        var wanted := length - |data|;
        var k :| 0 < k <= available && k <= wanted;
        data := data + content[cursor..cursor + k];
        cursor := cursor + k;
      }
      r := Ok(data);
    }

    /** Writes in pieces of any size, each at the cursor: together they amount to
        one write of all the data. */
    method WriteAll(data: Bytes)
      modifies this
      ensures cursor == old(cursor) + |data|
      ensures data != [] ==> content == Overwrite(old(content), old(cursor), data)
      ensures data == [] ==> content == old(content)
    {
      ghost var before, at := content, cursor;
      var done := 0;
      while done < |data|
        invariant 0 <= done <= |data| && cursor == at + done
        invariant content == Partly(before, at, data, done)
        decreases |data| - done
      {
        var k :| 0 < k <= |data| - done;
        WriteContinues(before, at, data, done, k);
        content := Overwrite(content, cursor, data[done..done + k]);
        cursor := cursor + k;
        done := done + k;
      }
      assert data[..done] == data;
    }
  }

  /** The content when `done` bytes of a write have been made. */
  function Partly(content: Bytes, at: nat, data: Bytes, done: nat): Bytes
    requires done <= |data|
  {
    if done == 0 then content else Overwrite(content, at, data[..done])
  }

  lemma WriteContinues(content: Bytes, at: nat, data: Bytes, done: nat, k: nat)
    requires 0 < k && done + k <= |data|
    ensures Overwrite(Partly(content, at, data, done), at + done, data[done..done + k])
            == Partly(content, at, data, done + k)
  {
    SliceJoins(data, done, k);
    if done > 0 {
      OverwriteTwice(content, at, data[..done], data[done..done + k]);
    } else {
      assert data[0..k] == data[..k];
    }
  }

  /** Writing on from where the last write stopped is one longer write. */
  lemma OverwriteTwice(content: Bytes, at: nat, a: Bytes, b: Bytes)
    requires a != []
    ensures Overwrite(Overwrite(content, at, a), at + |a|, b) == Overwrite(content, at, a + b)
  {
  }

  /** The reader task's turn on one request: what it hands to an encrypt task. */
  method ReadChunk(file: OpenFile, range: Range) returns (r: Result<Bytes, FileError>)
    requires range.length > 0
    modifies file`cursor
    ensures r.Ok? <==> End(range) <= |file.content|
    ensures r.Ok? ==> r.value == ChunkBuffer(range.offset, file.content[range.offset..End(range)])
  {
    file.Seek(range.offset);
    var chunk := file.ReadExact(range.length);
    if chunk.Err? {
      return Err(chunk.error);
    }
    var buffer := ToLE(range.offset, 8);
    buffer := buffer + chunk.value;
    r := Ok(buffer);
  }

  /** A writer task's turn on a decrypted chunk: the data lands at the offset in
      front of it and nothing else changes.  A chunk too short to hold an offset
      makes the task panic before it touches the file. */
  method WriteChunk(file: OpenFile, plain: Bytes) returns (panicked: bool)
    modifies file
    ensures panicked <==> |plain| < 8
    ensures file.content == if |plain| <= 8 then old(file.content)
                            else Overwrite(old(file.content), FromLE(plain[..8]), plain[8..])
    ensures file.cursor == if panicked then old(file.cursor) else FromLE(plain[..8]) + |plain| - 8
    ensures panicked ==> unchanged(file)
  {
    if |plain| < 8 {
      return true;
    }
    var offset := FromLE(plain[..8]);
    file.Seek(offset);
    file.WriteAll(plain[8..]);
    panicked := false;
  }

  datatype TaskEnd = Wrote | LoggedError | TaskPanicked

  /** The whole body of a spawned writer task, when nothing comes between.  It ends as
      the task of the machine does, and writes what that one would: a frame too short
      for a nonce, or a chunk too short for an offset, makes it panic; a frame that does
      not decrypt is logged. */
  method RunTask(file: OpenFile, cipher: Bytes, open: Opener, ghost h: nat) returns (end: TaskEnd)
    modifies file
    ensures end.TaskPanicked? <==> |cipher| < 12 || (open(cipher).Some? && |open(cipher).value| < 8)
    ensures end.LoggedError? <==> |cipher| >= 12 && open(cipher).None?
    ensures !end.Wrote? ==> unchanged(file)
    ensures end.Wrote? ==>
              var plain := open(cipher).value;
              file.content == if |plain| == 8 then old(file.content)
                              else Overwrite(old(file.content), FromLE(plain[..8]), plain[8..])
    ensures match Opened(h, cipher, open)
            case Crashed => end.TaskPanicked?
            case Complete => end.LoggedError?
            case Blocked(g, offset, data) =>
              end.Wrote? && g == h && (data != [] ==> file.content == Overwrite(old(file.content), offset, data))
            case _ => false
  {
    if |cipher| < 12 {
      return TaskPanicked;
    }
    var plain := open(cipher);
    if plain.None? {
      return LoggedError;
    }
    var panicked := WriteChunk(file, plain.value);
    end := if panicked then TaskPanicked else Wrote;
  }

  /** What one task reads at the source another writes at the destination: after
      both, that range of the destination is the source's. */
  method CarryChunk(source: OpenFile, destination: OpenFile, range: Range)
    requires source != destination && range.length > 0 && End(range) <= |source.content| < I64_LIMIT
    requires |destination.content| == |source.content|
    modifies source`cursor, destination
    ensures |destination.content| == |source.content|
    ensures forall pos :: 0 <= pos < |source.content| ==>
              destination.content[pos] == if range.offset <= pos < End(range)
                                          then source.content[pos]
                                          else old(destination.content)[pos]
  {
    var buffer := ReadChunk(source, range);
    BufferRoundTrip(range.offset, source.content[range.offset..End(range)]);
    var panicked := WriteChunk(destination, buffer.value);
  }
}
