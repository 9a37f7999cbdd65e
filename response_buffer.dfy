/** The growing buffer that collects the notification's HTTP response
    (`struct MemoryStruct` and `writeMemoryCallback` in
    src/lib/rest/httpRequestSend.cpp). One `char` stands for one byte. */
module ResponseBuffers {

  /** `memory` is the heap block, `null` after a failed `realloc`; `size` is
      the number of response bytes stored, and the block always holds one
      more byte for the terminating NUL. */
  class ResponseBuffer {
    var memory: array?<char>
    var size: nat

    ghost predicate Valid()
      reads this
    {
      memory != null && memory.Length == size + 1
    }

    /** The response bytes received so far. */
    function Contents(): string
      requires Valid()
      reads this, memory
    {
      memory[..size]
    }

    /** `memory = malloc(1); size = 0`. */
    constructor ()
      ensures Valid() && fresh(memory) && size == 0 && Contents() == []
    {
      memory := new char[1];
      size := 0;
    }

    /** `writeMemoryCallback(contents, elemSize, nmemb, this)`: curl hands over
        `elemSize * nmemb` bytes. `reallocOk` says whether `realloc` found room
        for them. On success the block grows, the bytes are appended, a NUL
        follows them and the whole count is reported; otherwise the block
        pointer becomes NULL, nothing is stored and 0 is reported. */
    method Write(contents: string, elemSize: nat, nmemb: nat, reallocOk: bool) returns (written: nat)
      requires Valid() && |contents| == elemSize * nmemb
      modifies this
      ensures reallocOk ==> Valid() && fresh(memory)
      ensures reallocOk ==> written == elemSize * nmemb && size == old(size) + written
      ensures reallocOk ==> Contents() == old(Contents()) + contents && memory[size] == '\0'
      ensures !reallocOk ==> memory == null && size == old(size) && written == 0
    {
      var realsize := elemSize * nmemb;
      if !reallocOk {
        memory := null;
        return 0;
      }
      // realloc: a block of size + realsize + 1 bytes that starts with the old one
      var block := memory;
      var grown := new char[size + realsize + 1];
      var i := 0;
      while i < block.Length
        invariant 0 <= i <= block.Length == size + 1 && memory == block
        invariant grown[..i] == block[..i]
      {
        grown[i] := block[i];
        i := i + 1;
      }
      assert grown[..size] == grown[..i][..size];
      // memcpy(&memory[size], contents, realsize)
      var j := 0;
      while j < realsize
        invariant 0 <= j <= realsize && block.Length == size + 1 && memory == block
        invariant grown[..size] == block[..size]
        invariant grown[size..size + j] == contents[..j]
      {
        grown[size + j] := contents[j];
        j := j + 1;
      }
      assert grown[..size + realsize] == grown[..size] + grown[size..size + realsize];
      memory := grown;
      size := size + realsize;
      memory[size] := '\0';
      written := realsize;
    }
  }
}

/** `curl_easy_perform` as far as the sender sees it: the response arrives in
    chunks that curl passes to the write callback, and the transfer fails as
    soon as the callback reports fewer bytes than it was given. */
module Transport {
  import opened ResponseBuffers

  /** One delivery of response bytes and whether the memory for it could be
      found. */
  datatype Chunk = Chunk(data: string, reallocOk: bool)

  /** Everything the network does during one transfer: the chunks of the
      response, and whether the transfer itself (connection, timeout,
      protocol) completes. */
  datatype Exchange = Exchange(chunks: seq<Chunk>, completes: bool)

  /** Every chunk carries at least one byte; zero-byte calls of the write
      callback are not modelled. */
  predicate Deliverable(e: Exchange)
  {
    forall i :: 0 <= i < |e.chunks| ==> e.chunks[i].data != []
  }

  predicate AllStored(chunks: seq<Chunk>)
  {
    forall i :: 0 <= i < |chunks| ==> chunks[i].reallocOk
  }

  /** The bytes of all chunks, in arrival order. */
  function Delivered(chunks: seq<Chunk>): string
  {
    if chunks == [] then [] else Delivered(chunks[..|chunks| - 1]) + chunks[|chunks| - 1].data
  }

  /** `curl_easy_perform(curl) == CURLE_OK`. */
  predicate Succeeds(e: Exchange)
  {
    e.completes && AllStored(e.chunks)
  }

  /** Runs the transfer into `buffer`: each chunk goes through the write
      callback, and a short count ends the transfer with a write error. On
      success the buffer holds every delivered byte after what it held. */
  method Perform(buffer: ResponseBuffer, e: Exchange) returns (ok: bool)
    requires buffer.Valid() && Deliverable(e)
    modifies buffer
    ensures ok <==> Succeeds(e)
    ensures ok ==> buffer.Valid() && buffer.Contents() == old(buffer.Contents()) + Delivered(e.chunks)
  {
    var i := 0;
    var stored := true;
    while i < |e.chunks| && stored
      invariant 0 <= i <= |e.chunks|
      invariant stored ==> buffer.Valid() && AllStored(e.chunks[..i])
      invariant stored ==> buffer.Contents() == old(buffer.Contents()) + Delivered(e.chunks[..i])
      invariant !stored ==> !AllStored(e.chunks)
    {
      var chunk := e.chunks[i];
      var written := buffer.Write(chunk.data, 1, |chunk.data|, chunk.reallocOk);
      if written != |chunk.data| {
        stored := false;
      } else {
        assert e.chunks[..i + 1][..i] == e.chunks[..i];
      }
      i := i + 1;
    }
    assert stored ==> e.chunks[..i] == e.chunks;
    ok := stored && e.completes;
  }
}
