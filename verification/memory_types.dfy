/** The two memory-type vocabularies of the server: the TRITONSERVER one of
    the new API and the TRTSERVER one of the legacy API, and the switch-based
    conversions between them (infer_request.cc). Each enum names where a
    buffer lives: host memory, pinned host memory or device memory. */
module MemoryTypes {

  /** TRITONSERVER_Memory_Type */
  datatype MemoryType = MemCpu | MemCpuPinned | MemGpu

  /** TRTSERVER_Memory_Type */
  datatype TrtMemoryType = TrtCpu | TrtCpuPinned | TrtGpu

  /** TritonMemTypeToTrt: CPU and pinned CPU map to their namesakes; every
      other value (the `default` branch) becomes GPU. */
  function TritonMemTypeToTrt(m: MemoryType): (r: TrtMemoryType)
    ensures r == TrtCpu <==> m == MemCpu
    ensures r == TrtCpuPinned <==> m == MemCpuPinned
    ensures r == TrtGpu <==> m == MemGpu
  {
    match m
    case MemCpu => TrtCpu
    case MemCpuPinned => TrtCpuPinned
    case _ => TrtGpu
  }

  /** TrtMemTypeToTriton: the inverse mapping, again with GPU as the default. */
  function TrtMemTypeToTriton(m: TrtMemoryType): (r: MemoryType)
    ensures r == MemCpu <==> m == TrtCpu
    ensures r == MemCpuPinned <==> m == TrtCpuPinned
    ensures r == MemGpu <==> m == TrtGpu
  {
    match m
    case TrtCpu => MemCpu
    case TrtCpuPinned => MemCpuPinned
    case _ => MemGpu
  }

  /** The two conversions are inverse to each other in both directions, so
      a memory type survives a trip through the legacy API unchanged. */
  lemma MemTypeRoundTrip(m: MemoryType, t: TrtMemoryType)
    ensures TrtMemTypeToTriton(TritonMemTypeToTrt(m)) == m
    ensures TritonMemTypeToTrt(TrtMemTypeToTriton(t)) == t
  {
  }
}
