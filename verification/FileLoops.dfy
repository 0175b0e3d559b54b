module FileLoops {
  /**
   The two loops around an open file, `writeFully` and `readBounded`, against a handle
   that may write or deliver fewer bytes than asked for, in any pattern, and may fail.
   */

  import opened Texts

  type Bytes = seq<int>

  datatype Written = Wrote(count: nat) | WriteError
  datatype Chunk = Chunk(bytes: Bytes) | ReadError

  /** `after` is `before` followed by some of the first of `bytes`. */
  predicate AppendsPrefix(before: Bytes, after: Bytes, bytes: Bytes) { before <= after && after[|before|..] <= bytes }

  /** An open file: writing appends, reading starts at `position`; `faults` counts the calls that failed or wrote nothing. */
  class FileHandle {
    var content: Bytes
    var position: nat
    var faults: nat

    ghost predicate Valid()
      reads this
    {
      position <= |content|
    }

    constructor (initial: Bytes)
      ensures Valid() && content == initial && position == 0 && faults == 0
    {
      content, position, faults := initial, 0, 0;
    }

    /** Some prefix of the requested bytes reaches the file; on success its length is reported. */
    method Write(bytes: Bytes, offset: nat, length: nat) returns (r: Written)
      requires offset + length <= |bytes|
      modifies this`content, this`faults
      ensures faults == if r.WriteError? || r.count == 0 then old(faults) + 1 else old(faults)
      ensures r.Wrote? ==> r.count <= length && content == old(content) + bytes[offset..offset + r.count]
      ensures AppendsPrefix(old(content), content, bytes[offset..offset + length])
    {
      var count: nat, fails: bool := *, *;
      count := if count <= length then count else length;
      content := content + bytes[offset..offset + count];
      faults := if fails || count == 0 then faults + 1 else faults;
      r := if fails then WriteError else Wrote(count);
    }

    /** At least one byte while any is left, never more than asked for. */
    method Read(length: nat) returns (r: Chunk)
      requires Valid() && length > 0
      modifies this`position, this`faults
      ensures Valid() && faults == if r.ReadError? then old(faults) + 1 else old(faults)
      ensures r.Chunk? ==> |r.bytes| <= length && old(position) + |r.bytes| == position
      ensures r.Chunk? ==> r.bytes == content[old(position)..position]
      ensures r.Chunk? ==> (r.bytes == [] <==> old(position) == |content|)
    {
      var count: nat, fails: bool := *, *;
      if fails {
        faults := faults + 1;
        return ReadError;
      }
      var most := if |content| - position < length then |content| - position else length;
      count := if most == 0 then 0 else if 1 <= count <= most then count else most;
      r := Chunk(content[position..position + count]);
      position := position + count;
    }
  }

  /**
   `writeFully`: under every schedule of short writes it succeeds unless a write fails or
   writes nothing; success means that exactly the given bytes were appended, and otherwise
   some prefix of them was.
   */
  method WriteFully(handle: FileHandle, bytes: Bytes) returns (ok: bool)
    modifies handle`content, handle`faults
    ensures ok <==> handle.faults == old(handle.faults)
    ensures ok ==> handle.content == old(handle.content) + bytes
    ensures AppendsPrefix(old(handle.content), handle.content, bytes)
  {
    var offset := 0;
    while offset < |bytes|
      invariant 0 <= offset <= |bytes|
      invariant handle.content == old(handle.content) + bytes[..offset] && handle.faults == old(handle.faults)
    {
      ghost var before := handle.content;
      var r := handle.Write(bytes, offset, |bytes| - offset);
      if r.WriteError? || r.count == 0 {
        assert handle.content[|old(handle.content)|..] == bytes[..offset] + handle.content[|before|..];
        return false;
      }
      assert bytes[..offset] + bytes[offset..offset + r.count] == bytes[..offset + r.count];
      offset := offset + r.count;
    }
    assert bytes[..offset] == bytes;
    return true;
  }

  datatype Bounded = Content(bytes: Bytes) | TooLong | Failed

  const CHUNK: nat := 16 * 1024

  /**
   `readBounded`: unless a read fails, it returns exactly the rest of the file when that is
   within the limit, and reports a longer one as too long, under every schedule of short reads.
   */
  method ReadBounded(handle: FileHandle, limit: nat) returns (r: Bounded)
    requires handle.Valid()
    modifies handle`position, handle`faults
    ensures r.Failed? <==> handle.faults != old(handle.faults)
    ensures r.Content? ==> r.bytes == handle.content[old(handle.position)..] && |r.bytes| <= limit
    ensures r.TooLong? ==> |handle.content| - old(handle.position) > limit
  {
    var chunks: Bytes := [];
    while |chunks| <= limit
      invariant handle.Valid() && handle.position == old(handle.position) + |chunks| && |chunks| <= limit + 1
      invariant chunks == handle.content[old(handle.position)..handle.position] && handle.faults == old(handle.faults)
      decreases limit + 1 - |chunks|
    {
      var length := if limit + 1 - |chunks| < CHUNK then limit + 1 - |chunks| else CHUNK;
      ghost var start := handle.position;
      var chunk := handle.Read(length);
      if chunk.ReadError? {
        return Failed;
      }
      if chunk.bytes == [] {
        break;
      }
      assert handle.content[old(handle.position)..start] + handle.content[start..handle.position]
        == handle.content[old(handle.position)..handle.position];
      chunks := chunks + chunk.bytes;
    }
    if |chunks| > limit {
      return TooLong;
    }
    return Content(chunks);
  }
}
