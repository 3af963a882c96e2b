/** The response side (infer_response.cc): a factory that creates responses,
    a response that collects outputs, and per output a small state machine
    around one buffer obtained from the client's allocator. The allocator's
    alloc and release callbacks are foreign code: their replies are
    parameters, and ghost logs record every call made to them. */
module InferResponse {
  import opened Common
  import opened MemoryTypes
  import opened ModelConfig

  /** What an output holds: the buffer, its size, the memory type and id
      the allocator actually chose, and the allocator's token for it. */
  datatype Allocation = Allocation(buffer: Ptr, byteSize: nat, memoryType: MemoryType, memoryTypeId: int, userp: Ptr)

  /** The empty state every release leaves behind. */
  const Released: Allocation := Allocation(Null, 0, MemCpu, 0, Null)

  /** The alloc callback's reply: an error, or a buffer with its token and
      the memory type and id it was placed in. */
  datatype AllocReply =
    | AllocFailed(code: Code)
    | AllocGranted(buffer: Ptr, bufferUserp: Ptr, memoryType: MemoryType, memoryTypeId: int)

  /** One call of the alloc callback: output name, size, requested memory
      type and id, and the allocator's user pointer. */
  datatype AllocCall = AllocCall(name: string, byteSize: nat, memoryType: MemoryType, memoryTypeId: int, allocUserp: Ptr)

  /** One call of the release callback. */
  datatype ReleaseCall = ReleaseCall(buffer: Ptr, userp: Ptr, byteSize: nat, memoryType: MemoryType, memoryTypeId: int)

  // ---------------------------------------------------------------------
  // The buffer state machine on values

  /** AllocateBuffer (lines 87-117): refused while a buffer is held; the
      callback's error is returned with nothing recorded; otherwise the
      granted buffer, the requested size and the chosen type and id are
      recorded. */
  function AllocateOutcome(a: Allocation, byteSize: nat, reply: AllocReply): (r: (Status, Allocation))
    ensures r.0.Success? <==> a.buffer == Null && reply.AllocGranted?
    ensures a.buffer != Null ==> r.0 == Failure(AlreadyExists)
    ensures r.0.Failure? ==> r.1 == a
    ensures r.0.Success? ==>
      r.1 == Allocation(reply.buffer, byteSize, reply.memoryType, reply.memoryTypeId, reply.bufferUserp)
  {
    if a.buffer != Null then (Failure(AlreadyExists), a)
    else
      match reply
      case AllocFailed(c) => (Failure(c), a)
      case AllocGranted(buffer, userp, t, id) => (Success, Allocation(buffer, byteSize, t, id, userp))
  }

  /** The buffers a state still holds: one, or none when the buffer is null. */
  function Held(a: Allocation): seq<Allocation>
  {
    if a.buffer != Null then [a] else []
  }

  function ReleaseCallOf(a: Allocation): ReleaseCall
  {
    ReleaseCall(a.buffer, a.userp, a.byteSize, a.memoryType, a.memoryTypeId)
  }

  /** The release callback calls that releasing these buffers makes. */
  function ReleaseCallsOf(held: seq<Allocation>): seq<ReleaseCall>
  {
    if held == [] then [] else [ReleaseCallOf(held[0])] + ReleaseCallsOf(held[1..])
  }

  /** ReleaseBuffer's status (lines 119-140): the callback's reply if a
      buffer was held and the callback was called, success otherwise. */
  function ReleaseStatus(a: Allocation, reply: Status): Status
  {
    if a.buffer != Null then reply else Success
  }

  /** The operations a client can apply to one output. */
  datatype OutputOp = Allocate(byteSize: nat, reply: AllocReply) | Release(releaseReply: Status)

  /** The state after a sequence of operations. */
  function RunOps(a: Allocation, ops: seq<OutputOp>): Allocation
    decreases |ops|
  {
    if ops == [] then a
    else
      match ops[0]
      case Allocate(n, reply) => RunOps(AllocateOutcome(a, n, reply).1, ops[1..])
      case Release(_) => RunOps(Released, ops[1..])
  }

  /** The release callback calls made during a sequence of operations. */
  function ReleaseCallsDuring(a: Allocation, ops: seq<OutputOp>): seq<ReleaseCall>
    decreases |ops|
  {
    if ops == [] then []
    else
      match ops[0]
      case Allocate(n, reply) => ReleaseCallsDuring(AllocateOutcome(a, n, reply).1, ops[1..])
      case Release(_) => ReleaseCallsOf(Held(a)) + ReleaseCallsDuring(Released, ops[1..])
  }

  /** The non-null buffers granted during a sequence of operations, in order. */
  function Granted(a: Allocation, ops: seq<OutputOp>): seq<Allocation>
    decreases |ops|
  {
    if ops == [] then []
    else
      match ops[0]
      case Allocate(n, reply) =>
        var a' := AllocateOutcome(a, n, reply).1;
        (if a.buffer == Null then Held(a') else []) + Granted(a', ops[1..])
      case Release(_) => Granted(Released, ops[1..])
  }

  lemma {:induction false} ReleaseCallsOfAppend(x: seq<Allocation>, y: seq<Allocation>)
    ensures ReleaseCallsOf(x + y) == ReleaseCallsOf(x) + ReleaseCallsOf(y)
  {
    if x != [] {
      assert (x + y)[0] == x[0] && (x + y)[1..] == x[1..] + y;
      ReleaseCallsOfAppend(x[1..], y);
    } else {
      assert x + y == y;
    }
  }

  /** Every buffer an output holds at the start or is granted along the way
      is released exactly once, in order, with exactly the recorded
      pointer, token, size, type and id: either by a ReleaseBuffer during
      the operations or by the final release the destructor performs. No
      other release call is ever made. */
  lemma {:induction false} ReleasedExactlyOnce(a: Allocation, ops: seq<OutputOp>)
    ensures ReleaseCallsOf(Held(a) + Granted(a, ops)) ==
            ReleaseCallsDuring(a, ops) + ReleaseCallsOf(Held(RunOps(a, ops)))
    decreases |ops|
  {
    ReleaseCallsOfAppend(Held(a), Granted(a, ops));
    if ops != [] {
      match ops[0]
      case Allocate(n, reply) => {
        var a' := AllocateOutcome(a, n, reply).1;
        ReleasedExactlyOnce(a', ops[1..]);
        ReleaseCallsOfAppend(Held(a'), Granted(a', ops[1..]));
        if a.buffer == Null {
          assert Held(a) == [];
          assert Held(a) + Granted(a, ops) == Held(a') + Granted(a', ops[1..]);
        } else {
          assert a' == a;
          assert Granted(a, ops) == Granted(a', ops[1..]);
        }
      }
      case Release(_) => {
        ReleasedExactlyOnce(Released, ops[1..]);
        assert Held(Released) + Granted(Released, ops[1..]) == Granted(Released, ops[1..]);
        assert Granted(a, ops) == Granted(Released, ops[1..]);
        assert RunOps(a, ops) == RunOps(Released, ops[1..]);
      }
    }
  }

  /** A fresh output that is allocated, released and destroyed makes
      exactly one release call, for the granted buffer; allocating again
      while a buffer is held is refused with ALREADY_EXISTS and changes
      nothing; a second release is a successful no-op. */
  lemma AllocateReleaseScenario(n: nat, reply: AllocReply, r1: Status, r2: Status)
    requires reply.AllocGranted? && reply.buffer != Null
    ensures var a := AllocateOutcome(Released, n, reply).1;
      AllocateOutcome(Released, n, reply).0 == Success &&
      AllocateOutcome(a, n, reply) == (Failure(AlreadyExists), a) &&
      ReleaseStatus(a, r1) == r1 &&
      ReleaseStatus(Released, r2) == Success
    ensures var ops := [Allocate(n, reply), Release(r1)];
      ReleaseCallsDuring(Released, ops) + ReleaseCallsOf(Held(RunOps(Released, ops))) ==
        [ReleaseCall(reply.buffer, reply.bufferUserp, n, reply.memoryType, reply.memoryTypeId)]
  {
    var ops := [Allocate(n, reply), Release(r1)];
    var a1 := AllocateOutcome(Released, n, reply).1;
    ReleasedExactlyOnce(Released, ops);
    assert ops[1..][1..] == [];
    assert Granted(a1, ops[1..]) == [];
    assert Granted(Released, ops) == [a1];
    assert Held(Released) + [a1] == [a1];
    assert ReleaseCallsOf([a1]) == [ReleaseCallOf(a1)];
  }

  // ---------------------------------------------------------------------
  // Objects

  /** The client's allocator with its alloc and release callbacks; the
      ghost logs record every call in order. */
  class ResponseAllocator {
    ghost var allocCalls: seq<AllocCall>
    ghost var releaseCalls: seq<ReleaseCall>

    constructor ()
      ensures allocCalls == [] && releaseCalls == []
    {
      allocCalls := [];
      releaseCalls := [];
    }

    /** Invoke the alloc callback, which answers `reply`. */
    method Alloc(call: AllocCall, reply: AllocReply) returns (r: AllocReply)
      modifies this
      ensures r == reply
      ensures allocCalls == old(allocCalls) + [call] && releaseCalls == old(releaseCalls)
    {
      allocCalls := allocCalls + [call];
      r := reply;
    }

    /** Invoke the release callback, which answers `reply`. */
    method Release(call: ReleaseCall, reply: Status) returns (s: Status)
      modifies this
      ensures s == reply
      ensures releaseCalls == old(releaseCalls) + [call] && allocCalls == old(allocCalls)
    {
      releaseCalls := releaseCalls + [call];
      s := reply;
    }
  }

  /** InferenceResponse::Output: a named output tensor and the one buffer
      it may hold. */
  class Output {
    const name: string
    const dataType: DataType
    const shape: seq<int>
    const allocator: ResponseAllocator
    const allocUserp: Ptr
    var allocatedBuffer: Ptr
    var allocatedBufferByteSize: nat
    var allocatedMemoryType: MemoryType
    var allocatedMemoryTypeId: int
    var allocatedUserp: Ptr

    function Allocated(): Allocation
      reads this
    {
      Allocation(allocatedBuffer, allocatedBufferByteSize, allocatedMemoryType, allocatedMemoryTypeId, allocatedUserp)
    }

    constructor (name: string, dataType: DataType, shape: seq<int>, allocator: ResponseAllocator, allocUserp: Ptr)
      ensures this.name == name && this.dataType == dataType && this.shape == shape
      ensures this.allocator == allocator && this.allocUserp == allocUserp
      ensures Allocated() == Released
    {
      this.name := name;
      this.dataType := dataType;
      this.shape := shape;
      this.allocator := allocator;
      this.allocUserp := allocUserp;
      allocatedBuffer := Null;
      allocatedBufferByteSize := 0;
      allocatedMemoryType := MemCpu;
      allocatedMemoryTypeId := 0;
      allocatedUserp := Null;
    }

    /** Buffer (lines 75-85): reports the recorded buffer, size, memory type
        and id. */
    method Buffer() returns (buffer: Ptr, byteSize: nat, memoryType: MemoryType, memoryTypeId: int)
      ensures Allocation(buffer, byteSize, memoryType, memoryTypeId, allocatedUserp) == Allocated()
    {
      buffer := allocatedBuffer;
      byteSize := allocatedBufferByteSize;
      memoryType := allocatedMemoryType;
      memoryTypeId := allocatedMemoryTypeId;
    }

    /** AllocateBuffer (lines 87-117). The memory type and id are in/out:
        they come back as the allocator's actual choice on success and as
        passed in otherwise. The alloc callback is called only when no
        buffer is held. */
    method AllocateBuffer(byteSize: nat, memoryType: MemoryType, memoryTypeId: int, reply: AllocReply)
      returns (s: Status, buffer: Ptr, actualMemoryType: MemoryType, actualMemoryTypeId: int)
      modifies this, allocator
      ensures (s, Allocated()) == AllocateOutcome(old(Allocated()), byteSize, reply)
      ensures s.Success? ==> buffer == reply.buffer && actualMemoryType == reply.memoryType && actualMemoryTypeId == reply.memoryTypeId
      ensures s.Failure? ==> buffer == Null && actualMemoryType == memoryType && actualMemoryTypeId == memoryTypeId
      ensures allocator.allocCalls == old(allocator.allocCalls) +
        (if old(allocatedBuffer) == Null then [AllocCall(name, byteSize, memoryType, memoryTypeId, allocUserp)] else [])
      ensures allocator.releaseCalls == old(allocator.releaseCalls)
    {
      if allocatedBuffer != Null {
        return Failure(AlreadyExists), Null, memoryType, memoryTypeId;
      }
      var r := allocator.Alloc(AllocCall(name, byteSize, memoryType, memoryTypeId, allocUserp), reply);
      if r.AllocFailed? {
        return Failure(r.code), Null, memoryType, memoryTypeId;
      }
      allocatedBuffer := r.buffer;
      allocatedBufferByteSize := byteSize;
      allocatedMemoryType := r.memoryType;
      allocatedMemoryTypeId := r.memoryTypeId;
      allocatedUserp := r.bufferUserp;
      return Success, r.buffer, r.memoryType, r.memoryTypeId;
    }

    /** ReleaseBuffer (lines 119-140): calls the release callback with the
        recorded values iff a buffer is held, then always returns to the
        empty state; only the status carries the callback's error. */
    method ReleaseBuffer(reply: Status) returns (s: Status)
      modifies this, allocator
      ensures Allocated() == Released
      ensures s == ReleaseStatus(old(Allocated()), reply)
      ensures allocator.releaseCalls == old(allocator.releaseCalls) + ReleaseCallsOf(Held(old(Allocated())))
      ensures allocator.allocCalls == old(allocator.allocCalls)
    {
      s := Success;
      if allocatedBuffer != Null {
        s := allocator.Release(ReleaseCallOf(Allocated()), reply);
      }
      allocatedBuffer := Null;
      allocatedBufferByteSize := 0;
      allocatedMemoryType := MemCpu;
      allocatedMemoryTypeId := 0;
      allocatedUserp := Null;
    }

    /** ~Output (lines 66-73): releases the buffer and swallows (logs) a
        failure. */
    method Destroy(reply: Status)
      modifies this, allocator
      ensures Allocated() == Released
      ensures allocator.releaseCalls == old(allocator.releaseCalls) + ReleaseCallsOf(Held(old(Allocated())))
      ensures allocator.allocCalls == old(allocator.allocCalls)
    {
      var _ := ReleaseBuffer(reply);
    }
  }

  /** InferenceResponse: the outputs, in the order they were added, sharing
      the response's allocator. */
  class InferenceResponse {
    const backend: Backend
    const id: string
    const allocator: ResponseAllocator
    const allocUserp: Ptr
    var outputs: seq<Output>

    constructor (backend: Backend, id: string, allocator: ResponseAllocator, allocUserp: Ptr)
      ensures this.backend == backend && this.id == id
      ensures this.allocator == allocator && this.allocUserp == allocUserp
      ensures outputs == []
    {
      this.backend := backend;
      this.id := id;
      this.allocator := allocator;
      this.allocUserp := allocUserp;
      outputs := [];
    }

    /** AddOutput (lines 50-61): appends exactly one new output, holding no
        buffer and carrying this response's allocator; earlier outputs are
        kept, in order. */
    method AddOutput(name: string, dataType: DataType, shape: seq<int>) returns (s: Status)
      modifies this
      ensures s == Success
      ensures |outputs| == |old(outputs)| + 1 && outputs[..|old(outputs)|] == old(outputs)
      ensures var o := outputs[|old(outputs)|];
        fresh(o) && o.name == name && o.dataType == dataType && o.shape == shape &&
        o.allocator == allocator && o.allocUserp == allocUserp && o.Allocated() == Released
    {
      var o := new Output(name, dataType, shape, allocator, allocUserp);
      outputs := outputs + [o];
      s := Success;
    }
  }

  /** InferenceResponseFactory: creates responses for one request, all
      sharing the request's allocator. */
  class InferenceResponseFactory {
    const backend: Backend
    const id: string
    const allocator: ResponseAllocator
    const allocUserp: Ptr

    constructor (backend: Backend, id: string, allocator: ResponseAllocator, allocUserp: Ptr)
      ensures this.backend == backend && this.id == id
      ensures this.allocator == allocator && this.allocUserp == allocUserp
    {
      this.backend := backend;
      this.id := id;
      this.allocator := allocator;
      this.allocUserp := allocUserp;
    }

    /** CreateResponse (lines 37-45): a new, empty response carrying the
        factory's backend, id and allocator. */
    method CreateResponse() returns (s: Status, response: InferenceResponse)
      ensures s == Success && fresh(response)
      ensures response.backend == backend && response.id == id
      ensures response.allocator == allocator && response.allocUserp == allocUserp
      ensures response.outputs == []
    {
      response := new InferenceResponse(backend, id, allocator, allocUserp);
      s := Success;
    }
  }
}
