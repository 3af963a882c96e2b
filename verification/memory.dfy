/** A memory reference: the ordered list of buffer segments that carry an
    input tensor's data. Only a segment's address, length, memory type and
    device id are modelled, never the bytes behind it. memory.cc is not part
    of this model; its behaviour is stated here as used by infer_request.cc. */
module Memory {
  import opened Common
  import opened MemoryTypes

  /** One buffer segment added by AddBuffer. */
  datatype Segment = Segment(base: Ptr, byteSize: nat, memoryType: TrtMemoryType, memoryTypeId: int)

  /** TotalByteSize: the sum of the segment lengths. */
  function TotalByteSize(segments: seq<Segment>): nat
  {
    if segments == [] then 0 else segments[0].byteSize + TotalByteSize(segments[1..])
  }

  /** Appending a segment (AddBuffer) grows the total by exactly its length. */
  lemma {:induction false} TotalByteSizeAppend(segments: seq<Segment>, s: Segment)
    ensures TotalByteSize(segments + [s]) == TotalByteSize(segments) + s.byteSize
  {
    if segments != [] {
      assert (segments + [s])[1..] == segments[1..] + [s];
      TotalByteSizeAppend(segments[1..], s);
    }
  }

  /** What BufferAt reports for one index: the segment's address, length,
      memory type and id; past the end it reports a null CPU buffer of
      length 0 (this is what makes zero-length tensors work with no segment). */
  datatype BufferView = BufferView(base: Ptr, byteSize: nat, memoryType: TrtMemoryType, memoryTypeId: int)

  function BufferAt(segments: seq<Segment>, idx: nat): BufferView
  {
    if idx < |segments| then
      var s := segments[idx];
      BufferView(s.base, s.byteSize, s.memoryType, s.memoryTypeId)
    else
      BufferView(Null, 0, TrtCpu, 0)
  }
}
