/** The response buffer that libcurl fills through WriteMemoryCallback: a
    heap block of size + 1 bytes whose last byte terminates the body, so that
    json_loads can read the body as a C string. */
module ResponseBuffer {

  newtype byte = b: int | 0 <= b < 256

  /** realloc(p, n) when it succeeds: a block of n bytes that starts with the
      bytes of p. The bytes past p's are indeterminate; here they are 0.
      realloc may instead grow p in place and return p itself; the model
      always returns a fresh block, which loses nothing because the buffer's
      memory field is the only reference to the block. */
  method Realloc(p: array<byte>, n: nat) returns (q: array<byte>)
    requires p.Length <= n
    ensures fresh(q) && q.Length == n && q[..p.Length] == p[..]
  {
    q := new byte[n];
    for i := 0 to p.Length
      invariant q[..i] == p[..i]
    {
      q[i] := p[i];
    }
    assert p[..p.Length] == p[..];
  }

  /** memcpy(&a[at], src, |src|). */
  method MemCpy(a: array<byte>, at: nat, src: seq<byte>)
    requires at + |src| <= a.Length
    modifies a
    ensures a[..at] == old(a[..at])
    ensures a[at..at + |src|] == src
    ensures a[at + |src|..] == old(a[at + |src|..])
  {
    for i := 0 to |src|
      invariant a[..at] == old(a[..at])
      invariant a[at..at + i] == src[..i]
      invariant a[at + |src|..] == old(a[at + |src|..])
    {
      a[at + i] := src[i];
    }
  }

  /** What WriteMemoryCallback prints on standard output when realloc fails. */
  const NOT_ENOUGH_MEMORY: string := "not enough memory (realloc returned NULL)\n"

  /** struct MemoryStruct: the body received so far, memory[..size]. */
  class MemoryStruct {
    var memory: array<byte>
    var size: nat

    ghost predicate Valid()
      reads this
    {
      memory.Length == size + 1
    }

    /** The byte after the body is a NUL: memory holds the body as a C string. */
    ghost predicate Terminated()
      reads this, memory
      requires Valid()
    {
      memory[size] == 0
    }

    ghost function Contents(): seq<byte>
      reads this, memory
      requires Valid()
    {
      memory[..size]
    }

    /** The initialisation in main as written: malloc(1) and size 0. malloc
        leaves its byte indeterminate; junk stands for whatever it holds. */
    constructor (junk: byte)
      ensures Valid() && fresh(memory) && Contents() == [] && memory[0] == junk
    {
      var block := new byte[1];
      block[0] := junk;
      memory := block;
      size := 0;
    }

    /** The initialisation as intended: the empty body, already terminated. */
    constructor Empty()
      ensures Valid() && fresh(memory) && Contents() == [] && Terminated()
    {
      var block := new byte[1];
      block[0] := 0;
      memory := block;
      size := 0;
    }

    /** The success path of WriteMemoryCallback: grow the block by the
        chunk, copy the chunk after the body and terminate it. */
    method AppendChunk(contents: seq<byte>)
      requires Valid()
      modifies this
      ensures Valid() && fresh(memory)
      ensures size == old(size) + |contents|
      ensures Contents() == old(Contents()) + contents
      ensures Terminated()
    {
      var ptr := Realloc(memory, size + |contents| + 1);
      ghost var body := memory[..size];
      memory := ptr;
      assert memory[..size] == body;
      MemCpy(memory, size, contents);
      assert memory[..size + |contents|] == memory[..size] + memory[size..size + |contents|];
      size := size + |contents|;
      memory[size] := 0;
      assert memory[..size] == body + contents;
    }

    /** WriteMemoryCallback(contents, elemSize, nmemb, this). Whether realloc
        succeeds is outside the program, so it is a parameter. On success the
        chunk is appended, the body stays terminated, the chunk's size is
        returned and nothing is printed; on failure the message is printed on
        standard output, 0 is returned and the buffer is left as it was. */
    method WriteMemoryCallback(contents: seq<byte>, elemSize: nat, nmemb: nat, reallocSucceeds: bool)
      returns (written: nat, stdout: string)
      requires Valid()
      requires |contents| == elemSize * nmemb
      modifies this
      ensures Valid()
      ensures reallocSucceeds ==>
        && written == elemSize * nmemb
        && size == old(size) + written
        && Contents() == old(Contents()) + contents
        && Terminated()
        && fresh(memory)
        && stdout == ""
      ensures !reallocSucceeds ==>
        && written == 0
        && stdout == NOT_ENOUGH_MEMORY
        && memory == old(memory) && size == old(size)
        && unchanged(memory)
    {
      var realsize := elemSize * nmemb;
      if !reallocSucceeds {
        return 0, NOT_ENOUGH_MEMORY;
      }
      AppendChunk(contents);
      return realsize, "";
    }
  }

  /** An empty response body: curl reports success without calling
      WriteMemoryCallback, so the buffer json_loads reads is the one main
      initialised. As written, with a malloc'd byte that happens to be 'A',
      it is not terminated. */
  method EmptyBodyAsWritten() returns (terminated: bool)
    ensures !terminated
  {
    var chunk := new MemoryStruct(65);
    terminated := chunk.memory[chunk.size] == 0;
  }

  /** The same empty body with the buffer initialised as intended. */
  method EmptyBodyCorrected() returns (terminated: bool)
    ensures terminated
  {
    var chunk := new MemoryStruct.Empty();
    terminated := chunk.memory[chunk.size] == 0;
  }
}
