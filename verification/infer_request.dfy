/** The inference request (infer_request.cc): the client's original inputs,
    the override inputs added by upstream layers, the effective inputs the
    backend reads, the requested outputs, and the dirty flag that decides
    whether PrepareForInference must normalise again. Inputs are objects
    whose fields the request's methods update in place; every method is
    proved against the value-level functions of module Normalize. */
module InferRequest {
  import opened Common
  import opened MemoryTypes
  import opened Memory
  import opened ModelConfig
  import opened Reshape
  import opened OrderedKeys
  import opened Normalize

  /** The segments of an input's data; no data reads as no segment. */
  function SegmentsOf(data: Option<seq<Segment>>): seq<Segment>
  {
    if data.Some? then data.value else []
  }

  /** InferenceRequest::Input: one named input tensor. */
  class Input {
    const name: string
    var dataType: DataType
    var originalShape: seq<int>
    var shape: seq<int>
    var batchByteSize: nat
    var data: Option<seq<Segment>>

    function View(): InputView
      reads this
    {
      InputView(dataType, originalShape, shape, batchByteSize, data)
    }

    /** Input(name, shape, batch_byte_size) (lines 654-659). The datatype
        is left at its default, TYPE_INVALID, until normalisation sets it. */
    constructor (name: string, shape: seq<int>, batchByteSize: nat)
      ensures this.name == name
      ensures View() == InputView(TypeInvalid, shape, [], batchByteSize, None)
    {
      this.name := name;
      dataType := TypeInvalid;
      originalShape := shape;
      this.shape := [];
      this.batchByteSize := batchByteSize;
      data := None;
    }

    /** Input(name, datatype, shape, dim_count) (lines 661-667). */
    constructor Typed(name: string, dataType: DataType, shape: seq<int>)
      ensures this.name == name
      ensures View() == InputView(dataType, shape, [], 0, None)
    {
      this.name := name;
      this.dataType := dataType;
      originalShape := shape;
      this.shape := [];
      batchByteSize := 0;
      data := None;
    }

    /** Input(name, datatype, shape, batch_byte_size) (lines 669-675). */
    constructor Sized(name: string, dataType: DataType, shape: seq<int>, batchByteSize: nat)
      ensures this.name == name
      ensures View() == InputView(dataType, shape, [], batchByteSize, None)
    {
      this.name := name;
      this.dataType := dataType;
      originalShape := shape;
      this.shape := [];
      this.batchByteSize := batchByteSize;
      data := None;
    }

    /** AppendData (lines 678-693): creates the memory reference if there is
        none and appends one segment unless it is empty; the data's total
        size grows by exactly byteSize. Nothing else changes. */
    method AppendData(base: Ptr, byteSize: nat, memoryType: TrtMemoryType, memoryTypeId: int) returns (s: Status)
      modifies this
      ensures s == Success
      ensures View() == old(View()).(data := Some(SegmentsOf(old(data)) +
        (if byteSize > 0 then [Segment(base, byteSize, memoryType, memoryTypeId)] else [])))
      ensures TotalByteSize(data.value) == TotalByteSize(SegmentsOf(old(data))) + byteSize
    {
      if data.None? {
        data := Some([]);
      }
      if byteSize > 0 {
        TotalByteSizeAppend(data.value, Segment(base, byteSize, memoryType, memoryTypeId));
        data := Some(data.value + [Segment(base, byteSize, memoryType, memoryTypeId)]);
      } else {
        assert data.value + [] == data.value;
      }
      s := Success;
    }

    /** AppendData with a TRITONSERVER memory type (lines 695-702): the
        same, after converting the memory type. */
    method AppendDataTriton(base: Ptr, byteSize: nat, memoryType: MemoryType, memoryTypeId: int) returns (s: Status)
      modifies this
      ensures s == Success
      ensures View() == old(View()).(data := Some(SegmentsOf(old(data)) +
        (if byteSize > 0 then [Segment(base, byteSize, TritonMemTypeToTrt(memoryType), memoryTypeId)] else [])))
      ensures TotalByteSize(data.value) == TotalByteSize(SegmentsOf(old(data))) + byteSize
    {
      s := AppendData(base, byteSize, TritonMemTypeToTrt(memoryType), memoryTypeId);
    }

    /** SetData (lines 704-716): refuses to replace existing data. */
    method SetData(segments: seq<Segment>) returns (s: Status)
      modifies this
      ensures old(data).Some? ==> s == Failure(InvalidArg) && View() == old(View())
      ensures old(data).None? ==> s == Success && View() == old(View()).(data := Some(segments))
    {
      if data.Some? {
        return Failure(InvalidArg);
      }
      data := Some(segments);
      s := Success;
    }

    /** RemoveAllData (lines 718-723). */
    method RemoveAllData() returns (s: Status)
      modifies this
      ensures s == Success && View() == old(View()).(data := None)
    {
      data := None;
      s := Success;
    }

    /** Content (lines 725-739): a request for zero bytes yields a null
        pointer and leaves the in/out memory type and id alone; otherwise
        the idx-th segment is reported (a null CPU buffer of size 0 past the
        last one). The caller must not ask for content of an input without
        data, which the source would dereference. */
    method Content(idx: nat, contentByteSize: nat, memoryType: TrtMemoryType, memoryTypeId: int)
      returns (s: Status, content: Ptr, byteSize: nat, actualMemoryType: TrtMemoryType, actualMemoryTypeId: int)
      requires contentByteSize != 0 ==> data.Some?
      ensures s == Success
      ensures contentByteSize == 0 ==>
        content == Null && byteSize == 0 && actualMemoryType == memoryType && actualMemoryTypeId == memoryTypeId
      ensures contentByteSize != 0 ==>
        BufferView(content, byteSize, actualMemoryType, actualMemoryTypeId) == BufferAt(data.value, idx)
      ensures contentByteSize != 0 && idx < |data.value| ==>
        Segment(content, byteSize, actualMemoryType, actualMemoryTypeId) == data.value[idx]
    {
      if contentByteSize == 0 {
        return Success, Null, 0, memoryType, memoryTypeId;
      }
      var v := BufferAt(data.value, idx);
      return Success, v.base, v.byteSize, v.memoryType, v.memoryTypeId;
    }
  }

  /** The inputs of a map as values. */
  function ViewsOf(m: map<string, Input>): map<string, InputView>
    reads m.Values
  {
    map k | k in m :: m[k].View()
  }

  /** The views only depend on the inputs themselves. */
  twostate lemma ViewsOfUnchanged(m: map<string, Input>)
    requires forall k :: k in m ==> unchanged(m[k])
    ensures ViewsOf(m) == old(ViewsOf(m))
  {
  }

  lemma ViewsOfSize(m: map<string, Input>)
    ensures ViewsOf(m).Keys == m.Keys && |ViewsOf(m)| == |m|
  {
    assert ViewsOf(m).Keys == m.Keys;
  }

  /** InferenceRequest::RequestedOutput. */
  datatype RequestedOutput = RequestedOutput(name: string, classificationCount: uint32)

  /** Every entry of an input map is filed under its input's own name, so
      different keys hold different inputs. */
  predicate Keyed(m: map<string, Input>)
  {
    forall k :: k in m ==> m[k].name == k
  }

  /** views holds, key for key, the current values of the inputs of m. */
  ghost predicate Mirrors(m: map<string, Input>, views: map<string, InputView>)
    reads m.Values
  {
    views.Keys == m.Keys && forall k :: k in m ==> m[k].View() == views[k]
  }

  lemma MirrorsViews(m: map<string, Input>, views: map<string, InputView>)
    requires Mirrors(m, views)
    ensures ViewsOf(m) == views
  {
  }

  // ---------------------------------------------------------------------
  // One input's normalisation, as the loop bodies of NormalizeV1/V2 do it

  /** The V1 shape computation (lines 376-437): the client's shape checked
      against the dims and rewritten into the reshape; if that leaves no
      dimension, the reshape's or the configuration's dims are copied one by
      one, refusing a wildcard. */
  method ResolveShapeV1(mi: ModelInput, originalShape: seq<int>) returns (r: Result<seq<int>>)
    requires ReshapeWellFormed(mi)
    ensures r == ShapeV1(mi, originalShape)
  {
    var shape := originalShape;
    if |shape| > 0 {
      if !CompareDimsWithWildcard(mi.dims, shape) {
        return Err(InvalidArg);
      }
      if mi.reshape.Some? {
        shape := ResolveReshape(mi.dims, shape, mi.reshape.value);
      }
    }
    if |shape| == 0 {
      var dims := TargetDims(mi);
      for i := 0 to |dims|
        invariant shape == dims[..i]
        invariant forall j :: 0 <= j < i ==> dims[j] >= 0
      {
        if dims[i] < 0 {
          return Err(InvalidArg);
        }
        shape := shape + [dims[i]];
      }
      assert dims[..|dims|] == dims;
    }
    r := Ok(shape);
  }

  /** The V1 batch byte size (lines 457-485): the byte size of the shape
      scaled by the batch size for a batching model (the element size alone
      for a rank-0 shape), 64-bit arithmetic throughout; a declared size
      must agree. */
  method ResolveByteSizeV1(mi: ModelInput, maxBatchSize: int, batchSize: uint32, shape: seq<int>, declared: nat)
    returns (r: Result<nat>)
    ensures r == ByteSizeV1(mi, maxBatchSize, batchSize, shape, declared)
  {
    if !IsFixedSizeDataType(mi.dataType) {
      return Ok(declared);
    }
    var bs := U64(GetByteSize(mi.dataType, shape));
    var multiplier := if mi.isShapeTensor then 1 else Int32Of(batchSize);
    if maxBatchSize > 0 {
      if |shape| == 0 {
        bs := U64(DataTypeByteSize(mi.dataType) * multiplier);
      } else {
        U64Mul(GetByteSize(mi.dataType, shape), multiplier);
        bs := U64(bs * multiplier);
      }
    }
    if declared != 0 && declared != bs {
      return Err(InvalidArg);
    }
    r := Ok(bs);
  }

  /** The body of NormalizeV1's loop (lines 369-486) for one input. What an
      error leaves behind: an undeclared input is untouched; otherwise the
      datatype is already the configured one, the shape is the original
      shape after a shape mismatch and the computed shape after a byte-size
      mismatch, and the batch byte size is never written. */
  method NormalizeInputV1Step(b: Backend, batchSize: uint32, input: Input) returns (s: Status)
    requires WellFormed(b)
    modifies input
    ensures var r := NormalizeInputV1(b, batchSize, input.name, old(input.View()));
      s == r.ToStatus() && (r.Ok? ==> input.View() == r.value)
    ensures input.originalShape == old(input.originalShape) && input.data == old(input.data)
    ensures input.name !in b.config.inputs ==> input.View() == old(input.View())
    ensures input.name in b.config.inputs ==>
      var mi := b.config.inputs[input.name];
      input.dataType == mi.dataType &&
      (ShapeV1(mi, input.originalShape).Ok? ==> input.shape == ShapeV1(mi, input.originalShape).value) &&
      (ShapeV1(mi, input.originalShape).Err? && |input.originalShape| > 0 ==> input.shape == input.originalShape)
    ensures s.Failure? ==> input.batchByteSize == old(input.batchByteSize)
  {
    var lookup := GetInput(b, input.name);
    if lookup.Err? {
      return Failure(lookup.code);
    }
    var mi := lookup.value;
    input.dataType := mi.dataType;
    input.shape := input.originalShape;
    var shape := ResolveShapeV1(mi, input.originalShape);
    if shape.Err? {
      return Failure(shape.code);
    }
    input.shape := shape.value;
    var bs := ResolveByteSizeV1(mi, b.config.maxBatchSize, batchSize, input.shape, input.batchByteSize);
    if bs.Err? {
      return Failure(bs.code);
    }
    input.batchByteSize := bs.value;
    s := Success;
  }

  /** The body of NormalizeV2's last loop (lines 578-644) for one input.
      After an error only the datatype may have changed: to the configured
      one, when the input is declared. */
  method NormalizeInputV2Step(b: Backend, input: Input) returns (s: Status)
    requires WellFormed(b)
    modifies input
    ensures var r := NormalizeInputV2(b, input.name, old(input.View()));
      s == r.ToStatus() && (r.Ok? ==> input.View() == r.value)
    ensures input.originalShape == old(input.originalShape)
    ensures input.name in b.config.inputs ==> input.dataType == b.config.inputs[input.name].dataType
    ensures s.Failure? ==> input.View() == old(input.View()).(dataType := input.dataType)
  {
    var lookup := GetInput(b, input.name);
    if lookup.Err? {
      return Failure(lookup.code);
    }
    var mi := lookup.value;
    input.dataType := mi.dataType;
    if !CompareDimsWithWildcard(mi.dims, input.shape) {
      return Failure(InvalidArg);
    }
    if mi.reshape.Some? {
      input.shape := ResolveReshape(mi.dims, input.shape, mi.reshape.value);
    }
    if input.data.None? {
      input.data := Some([]);
    }
    input.batchByteSize := TotalByteSize(input.data.value);
    s := Success;
  }

  /** One input, by the normaliser's protocol version. */
  method NormalizeInputStep(b: Backend, variant: Variant, input: Input) returns (s: Status)
    requires WellFormed(b)
    modifies input
    ensures var r := NormalizeInput(b, variant, input.name, old(input.View()));
      s == r.ToStatus() && (r.Ok? ==> input.View() == r.value)
  {
    match variant
    case V1(batch) => s := NormalizeInputV1Step(b, batch, input);
    case V2 => s := NormalizeInputV2Step(b, input);
  }

  // ---------------------------------------------------------------------
  // The loops over the original inputs, in a given key order (the callers
  // pass map order)

  /** The per-input loop of either normaliser (lines 369-486 and
      578-644): each input in turn, stopping at the first error. */
  method NormalizeEach(b: Backend, variant: Variant, order: seq<string>, m: map<string, Input>) returns (s: Status)
    requires WellFormed(b) && Keyed(m)
    requires forall k :: k in order ==> k in m
    modifies m.Values
    ensures var r := NormalizeInputs(b, variant, order, old(ViewsOf(m)));
      s == r.ToStatus() && (r.Ok? ==> ViewsOf(m) == r.value)
  {
    ghost var views := ViewsOf(m);
    ghost var target := NormalizeInputs(b, variant, order, views);
    for i := 0 to |order|
      invariant Mirrors(m, views)
      invariant NormalizeInputs(b, variant, order[i..], views) == target
    {
      var input := m[order[i]];
      assert order[i..][0] == order[i] && order[i..][1..] == order[i + 1..];
      s := NormalizeInputStep(b, variant, input);
      if s.Failure? {
        return;
      }
      views := views[order[i] := input.View()];
    }
    assert order[|order|..] == [];
    MirrorsViews(m, views);
    s := Success;
  }

  /** Model without batching (lines 517-524): every shape becomes the
      original shape. */
  method KeepShapes(order: seq<string>, m: map<string, Input>)
    requires Keyed(m)
    requires forall k :: k in order ==> k in m
    modifies m.Values
    ensures ViewsOf(m) == KeepOriginalShapes(order, old(ViewsOf(m)))
  {
    ghost var views := ViewsOf(m);
    ghost var target := KeepOriginalShapes(order, views);
    for i := 0 to |order|
      invariant Mirrors(m, views)
      invariant KeepOriginalShapes(order[i..], views) == target
    {
      var input := m[order[i]];
      assert order[i..][0] == order[i] && order[i..][1..] == order[i + 1..];
      input.shape := input.originalShape;
      views := views[order[i] := input.View()];
    }
    assert order[|order|..] == [];
    MirrorsViews(m, views);
  }

  /** Batching model (lines 525-553), with the intended check: every
      input's leading dimension must equal the first input's, and each
      shape becomes the original shape without it. Returns the batch size
      found (none when there is no input). */
  method StripBatchDimensions(order: seq<string>, m: map<string, Input>) returns (s: Status, lead: Option<int>)
    requires Keyed(m)
    requires forall k :: k in order ==> k in m
    modifies m.Values
    ensures var r := StripBatchDims(order, old(ViewsOf(m)), None);
      s == r.ToStatus() && (r.Ok? ==> ViewsOf(m) == r.value.0 && lead == r.value.1)
  {
    ghost var views := ViewsOf(m);
    ghost var target := StripBatchDims(order, views, None);
    lead := None;
    for i := 0 to |order|
      invariant Mirrors(m, views)
      invariant StripBatchDims(order[i..], views, lead) == target
    {
      var input := m[order[i]];
      assert order[i..][0] == order[i] && order[i..][1..] == order[i + 1..];
      if |input.originalShape| == 0 {
        return Failure(InvalidArg), lead;
      }
      if lead.None? {
        lead := Some(input.originalShape[0]);
      } else if input.originalShape[0] != lead.value {
        return Failure(InvalidArg), lead;
      }
      input.shape := input.originalShape[1..];
      views := views[order[i] := input.View()];
    }
    assert order[|order|..] == [];
    MirrorsViews(m, views);
    s := Success;
  }

  /** The effective-input map PrepareForInference builds (lines 314-316):
      one entry per original input, in map order, holding that same
      input. */
  method ShowInputs(m: map<string, Input>) returns (r: map<string, Input>)
    ensures r == m
  {
    var order := SortedKeys(m.Keys);
    r := map[];
    for i := 0 to |order|
      invariant r.Keys == set j | 0 <= j < i :: order[j]
      invariant forall k :: k in r ==> k in m && r[k] == m[k]
    {
      r := r[order[i] := m[order[i]]];
    }
    assert r.Keys == m.Keys by {
      forall k | k in m
        ensures k in r
      {
        var j :| 0 <= j < |order| && order[j] == k;
      }
    }
  }

  /** The requested-output check shared by both normalisers (lines
      352-356 and 500-504): every requested output must be declared by the
      model, else NOT_FOUND. */
  method CheckRequestedOutputs(b: Backend, outputs: set<string>) returns (s: Status)
    ensures s == if outputs <= b.config.outputs then Success else Failure(NotFound)
  {
    var names := SortedKeys(outputs);
    for i := 0 to |names|
      invariant forall j :: 0 <= j < i ==> names[j] in b.config.outputs
    {
      var st := GetOutput(b, names[i]);
      if st.Failure? {
        return st;
      }
    }
    return Success;
  }

  /** NormalizeV1 after the priority (lines 332-486): batch size, requested
      outputs, input count, then every original input in map order. */
  method NormalizeOriginalsV1(b: Backend, batchSize: uint32, outputs: set<string>, m: map<string, Input>) returns (s: Status)
    requires WellFormed(b) && Keyed(m)
    modifies m.Values
    ensures var r := NormalizeV1Spec(b, batchSize, outputs, old(ViewsOf(m)));
      s == r.ToStatus() && (r.Ok? ==> ViewsOf(m) == r.value)
  {
    ghost var views := ViewsOf(m);
    ViewsOfSize(m);
    if batchSize < 1 {
      return Failure(InvalidArg);
    }
    if batchSize != 1 && batchSize > b.config.maxBatchSize {
      return Failure(InvalidArg);
    }
    s := CheckRequestedOutputs(b, outputs);
    if s.Failure? {
      return;
    }
    if |m| != |b.config.inputs| {
      return Failure(InvalidArg);
    }
    var order := SortedKeys(m.Keys);
    s := NormalizeEach(b, V1(batchSize), order, m);
  }

  /** The V2 batch stage (lines 516-554): without batching every shape
      becomes the original shape and the batch size is 1; with batching
      the leading dimensions are stripped, and the batch size is the one
      they agree on (0 when there is no input). The batch size is the
      one the source has written when the stage ends, failed or not. */
  method BatchStage(b: Backend, order: seq<string>, m: map<string, Input>) returns (s: Status, batch: int)
    requires Keyed(m)
    requires forall k :: k in order ==> k in m
    modifies m.Values
    ensures batch == StageBatch(b, order, old(ViewsOf(m)))
    ensures var r := BatchStageV2(b, order, old(ViewsOf(m)));
      s == r.ToStatus() && (r.Ok? ==> ViewsOf(m) == r.value.0 && batch == r.value.1)
  {
    ghost var views := ViewsOf(m);
    BatchStageV2Batch(b, order, views);
    if b.config.maxBatchSize == 0 {
      batch := 1;
      KeepShapes(order, m);
      s := Success;
    } else {
      batch := if order != [] && |m[order[0]].originalShape| > 0 then m[order[0]].originalShape[0] else 0;
      assert order != [] ==> views[order[0]] == m[order[0]].View();
      var lead;
      s, lead := StripBatchDimensions(order, m);
    }
  }

  /** NormalizeV2 after the priority (lines 500-644): requested outputs,
      input count, the batch stage, the batch size, then every original
      input in map order. Takes the request's batch size and returns it as
      the request then stores it (a uint32): untouched by the output and
      count checks, written by the batch stage. */
  method NormalizeOriginalsV2(b: Backend, outputs: set<string>, m: map<string, Input>, current: uint32)
    returns (s: Status, batchSize: uint32)
    requires WellFormed(b) && Keyed(m)
    modifies m.Values
    ensures var r := NormalizeV2Spec(b, outputs, old(ViewsOf(m)));
      s == r.ToStatus() && (r.Ok? ==> ViewsOf(m) == r.value.0 && batchSize as int == r.value.1)
    ensures !(outputs <= b.config.outputs) || |m| != |b.config.inputs| ==> batchSize == current
    ensures outputs <= b.config.outputs && |m| == |b.config.inputs| ==>
      batchSize == U32(StageBatch(b, SortedKeys(m.Keys), old(ViewsOf(m))))
  {
    ghost var views := ViewsOf(m);
    ViewsOfSize(m);
    batchSize := current;
    s := CheckRequestedOutputs(b, outputs);
    if s.Failure? {
      return;
    }
    if |m| != |b.config.inputs| {
      return Failure(InvalidArg), batchSize;
    }
    var order := SortedKeys(m.Keys);
    var batch;
    s, batch := BatchStage(b, order, m);
    batchSize := U32(batch);
    if s.Failure? {
      return;
    }
    if batch < 1 {
      return Failure(InvalidArg), batchSize;
    }
    if batch != 1 && batch > b.config.maxBatchSize {
      return Failure(InvalidArg), batchSize;
    }
    s := NormalizeEach(b, V2, order, m);
  }

  // ---------------------------------------------------------------------
  // The request

  /** What normalising a request of that protocol version gives: its
      normalised inputs and batch size, or the error normalisation stops
      with. Version 1 keeps the request's batch size. */
  function NormalizeRequest(b: Backend, protocolVersion: int, batchSize: uint32, outputs: set<string>,
                            views: map<string, InputView>): Result<(map<string, InputView>, int)>
    requires WellFormed(b)
  {
    if protocolVersion == 1 then
      match NormalizeV1Spec(b, batchSize, outputs, views)
      case Err(c) => Err(c)
      case Ok(m) => Ok((m, batchSize as int))
    else NormalizeV2Spec(b, outputs, views)
  }

  class InferenceRequest {
    const backend: Backend
    const protocolVersion: int
    var originalInputs: map<string, Input>
    var overrideInputs: map<string, Input>
    var inputs: map<string, Input>
    var requestedOutputs: map<string, RequestedOutput>
    var needsNormalization: bool
    var batchSize: uint32
    var priority: uint32

    /** Every map is keyed by its entries' own names (so distinct keys hold
        distinct objects), and a request that needs no normalisation has
        effective inputs that are exactly its originals overlaid by its
        overrides. */
    ghost predicate Valid()
      reads this`originalInputs, this`overrideInputs, this`inputs, this`requestedOutputs, this`needsNormalization
    {
      WellFormed(backend) &&
      Keyed(originalInputs) && Keyed(overrideInputs) && Keyed(inputs) &&
      (forall k :: k in requestedOutputs ==> requestedOutputs[k].name == k) &&
      (!needsNormalization ==> Projected())
    }

    /** The effective inputs are the originals overlaid by the overrides: an
        override wins on a name collision. */
    ghost predicate Projected()
      reads this`originalInputs, this`overrideInputs, this`inputs
    {
      inputs.Keys == originalInputs.Keys + overrideInputs.Keys &&
      (forall k :: k in overrideInputs ==> inputs[k] == overrideInputs[k]) &&
      (forall k :: k in originalInputs && k !in overrideInputs ==> inputs[k] == originalInputs[k])
    }

    /** What normalising the current request gives: the normalised inputs
        and the batch size, or the error normalisation stops with. */
    ghost function Normalized(): Result<(map<string, InputView>, int)>
      reads this`originalInputs, this`requestedOutputs, this`batchSize, originalInputs.Values
      requires WellFormed(backend)
    {
      NormalizeRequest(backend, protocolVersion, batchSize, requestedOutputs.Keys, ViewsOf(originalInputs))
    }

    /** A new request has no input and no output and needs normalisation.
        (The constructor lives in infer_request.h, which is not part of this
        model.) */
    constructor (backend: Backend, protocolVersion: int, batchSize: uint32, priority: uint32)
      requires WellFormed(backend)
      ensures Valid()
      ensures this.backend == backend && this.protocolVersion == protocolVersion
      ensures this.batchSize == batchSize && this.priority == priority
      ensures originalInputs == map[] && overrideInputs == map[] && inputs == map[] && requestedOutputs == map[]
      ensures needsNormalization
    {
      this.backend := backend;
      this.protocolVersion := protocolVersion;
      this.batchSize := batchSize;
      this.priority := priority;
      originalInputs := map[];
      overrideInputs := map[];
      inputs := map[];
      requestedOutputs := map[];
      needsNormalization := true;
    }

    // -- lookups ----------------------------------------------------------

    /** MutableOriginalInput (lines 84-98): the original input of that name,
        marking the request dirty since the caller may change it. */
    method MutableOriginalInput(name: string) returns (s: Status, input: Input?)
      requires Valid()
      modifies this
      ensures Valid()
      ensures name !in originalInputs ==> s == Failure(InvalidArg) && input == null && unchanged(this)
      ensures name in old(originalInputs) ==>
        s == Success && input == originalInputs[name] && needsNormalization &&
        originalInputs == old(originalInputs) && overrideInputs == old(overrideInputs) &&
        inputs == old(inputs) && requestedOutputs == old(requestedOutputs) &&
        batchSize == old(batchSize) && priority == old(priority)
    {
      if name !in originalInputs {
        return Failure(InvalidArg), null;
      }
      input := originalInputs[name];
      needsNormalization := true;
      s := Success;
    }

    /** ImmutableInput (lines 100-113): the effective input of that name. */
    method ImmutableInput(name: string) returns (s: Status, input: Input?)
      ensures s.Success? <==> name in inputs
      ensures s.Success? ==> input == inputs[name]
      ensures s.Failure? ==> s.code == InvalidArg && input == null
    {
      if name !in inputs {
        return Failure(InvalidArg), null;
      }
      return Success, inputs[name];
    }

    /** MutableRequestedOutput (lines 115-129): the requested output of that
        name, marking the request dirty. */
    method MutableRequestedOutput(name: string) returns (s: Status, output: Option<RequestedOutput>)
      requires Valid()
      modifies this
      ensures Valid()
      ensures name !in requestedOutputs ==> s == Failure(InvalidArg) && output == None && unchanged(this)
      ensures name in old(requestedOutputs) ==>
        s == Success && output == Some(requestedOutputs[name]) && needsNormalization &&
        originalInputs == old(originalInputs) && overrideInputs == old(overrideInputs) &&
        inputs == old(inputs) && requestedOutputs == old(requestedOutputs) &&
        batchSize == old(batchSize) && priority == old(priority)
    {
      if name !in requestedOutputs {
        return Failure(InvalidArg), None;
      }
      output := Some(requestedOutputs[name]);
      needsNormalization := true;
      s := Success;
    }

    // -- original inputs --------------------------------------------------

    /** AddOriginalInput(name, shape, batch_byte_size) (lines 132-166, both
        the DimsList and the vector overload): a name already present is
        refused with INVALID_ARG and nothing changes; otherwise exactly that
        key is added, holding a new input, and the request becomes dirty. */
    method AddOriginalInput(name: string, shape: seq<int>, batchByteSize: nat) returns (s: Status, input: Input?)
      requires Valid()
      modifies this
      ensures Valid()
      ensures name in old(originalInputs) ==> s == Failure(InvalidArg) && input == null && unchanged(this)
      ensures name !in old(originalInputs) ==>
        s == Success && input != null && fresh(input) &&
        input.name == name && input.View() == InputView(TypeInvalid, shape, [], batchByteSize, None) &&
        originalInputs == old(originalInputs)[name := input] && needsNormalization &&
        overrideInputs == old(overrideInputs) && inputs == old(inputs) &&
        requestedOutputs == old(requestedOutputs) && batchSize == old(batchSize) && priority == old(priority)
    {
      if name in originalInputs {
        return Failure(InvalidArg), null;
      }
      var i := new Input(name, shape, batchByteSize);
      originalInputs := originalInputs[name := i];
      needsNormalization := true;
      return Success, i;
    }

    /** AddOriginalInput(name, datatype, shape, dim_count) (lines 168-189):
        the same with a typed input. */
    method AddOriginalInputTyped(name: string, dataType: DataType, shape: seq<int>) returns (s: Status, input: Input?)
      requires Valid()
      modifies this
      ensures Valid()
      ensures name in old(originalInputs) ==> s == Failure(InvalidArg) && input == null && unchanged(this)
      ensures name !in old(originalInputs) ==>
        s == Success && input != null && fresh(input) &&
        input.name == name && input.View() == InputView(dataType, shape, [], 0, None) &&
        originalInputs == old(originalInputs)[name := input] && needsNormalization &&
        overrideInputs == old(overrideInputs) && inputs == old(inputs) &&
        requestedOutputs == old(requestedOutputs) && batchSize == old(batchSize) && priority == old(priority)
    {
      if name in originalInputs {
        return Failure(InvalidArg), null;
      }
      var i := new Input.Typed(name, dataType, shape);
      originalInputs := originalInputs[name := i];
      needsNormalization := true;
      return Success, i;
    }

    /** RemoveOriginalInput (lines 191-202): a missing name is refused with
        INVALID_ARG; otherwise exactly that key is removed and the request
        becomes dirty. */
    method RemoveOriginalInput(name: string) returns (s: Status)
      requires Valid()
      modifies this
      ensures Valid()
      ensures name !in old(originalInputs) ==> s == Failure(InvalidArg) && unchanged(this)
      ensures name in old(originalInputs) ==>
        s == Success && originalInputs == old(originalInputs) - {name} && needsNormalization &&
        overrideInputs == old(overrideInputs) && inputs == old(inputs) &&
        requestedOutputs == old(requestedOutputs) && batchSize == old(batchSize) && priority == old(priority)
    {
      if name !in originalInputs {
        return Failure(InvalidArg);
      }
      originalInputs := originalInputs - {name};
      needsNormalization := true;
      s := Success;
    }

    /** RemoveAllOriginalInputs (lines 204-210). */
    method RemoveAllOriginalInputs() returns (s: Status)
      requires Valid()
      modifies this
      ensures Valid()
      ensures s == Success && originalInputs == map[] && needsNormalization
      ensures overrideInputs == old(overrideInputs) && inputs == old(inputs) &&
        requestedOutputs == old(requestedOutputs) && batchSize == old(batchSize) && priority == old(priority)
    {
      originalInputs := map[];
      needsNormalization := true;
      s := Success;
    }

    // -- override inputs --------------------------------------------------

    /** AddOverrideInput(input) (lines 230-253): never fails; the override
        and the effective input of that name both become this input,
        replacing any earlier one; the dirty flag is not touched, so a
        clean request stays a projection of originals and overrides. */
    method AddOverrideInput(input: Input) returns (s: Status)
      requires Valid()
      modifies this
      ensures Valid()
      ensures s == Success
      ensures overrideInputs == old(overrideInputs)[input.name := input]
      ensures inputs == old(inputs)[input.name := input]
      ensures originalInputs == old(originalInputs) && requestedOutputs == old(requestedOutputs) &&
        needsNormalization == old(needsNormalization) && batchSize == old(batchSize) && priority == old(priority)
    {
      overrideInputs := overrideInputs[input.name := input];
      inputs := inputs[input.name := input];
      s := Success;
    }

    /** AddOverrideInput(name, datatype, shape, batch_byte_size) (lines
        212-228): a new input whose shape is its original shape, added as
        an override. */
    method AddOverrideInputNew(name: string, dataType: DataType, shape: seq<int>, batchByteSize: nat)
      returns (s: Status, input: Input)
      requires Valid()
      modifies this
      ensures Valid()
      ensures s == Success && fresh(input) && input.name == name
      ensures input.View() == InputView(dataType, shape, shape, batchByteSize, None)
      ensures overrideInputs == old(overrideInputs)[name := input]
      ensures inputs == old(inputs)[name := input]
      ensures originalInputs == old(originalInputs) && requestedOutputs == old(requestedOutputs) &&
        needsNormalization == old(needsNormalization) && batchSize == old(batchSize) && priority == old(priority)
    {
      input := new Input.Sized(name, dataType, shape, batchByteSize);
      input.shape := input.originalShape;
      s := AddOverrideInput(input);
    }

    // -- requested outputs ------------------------------------------------

    /** AddRequestedOutput (lines 255-268): a name already requested is
        refused with INVALID_ARG; otherwise exactly that key is added and the
        request becomes dirty. */
    method AddRequestedOutput(name: string, classificationCount: uint32) returns (s: Status)
      requires Valid()
      modifies this
      ensures Valid()
      ensures name in old(requestedOutputs) ==> s == Failure(InvalidArg) && unchanged(this)
      ensures name !in old(requestedOutputs) ==>
        s == Success && requestedOutputs == old(requestedOutputs)[name := RequestedOutput(name, classificationCount)] &&
        needsNormalization && originalInputs == old(originalInputs) && overrideInputs == old(overrideInputs) &&
        inputs == old(inputs) && batchSize == old(batchSize) && priority == old(priority)
    {
      if name in requestedOutputs {
        return Failure(InvalidArg);
      }
      requestedOutputs := requestedOutputs[name := RequestedOutput(name, classificationCount)];
      needsNormalization := true;
      s := Success;
    }

    /** RemoveRequestedOutput (lines 270-281). */
    method RemoveRequestedOutput(name: string) returns (s: Status)
      requires Valid()
      modifies this
      ensures Valid()
      ensures name !in old(requestedOutputs) ==> s == Failure(InvalidArg) && unchanged(this)
      ensures name in old(requestedOutputs) ==>
        s == Success && requestedOutputs == old(requestedOutputs) - {name} &&
        needsNormalization && originalInputs == old(originalInputs) && overrideInputs == old(overrideInputs) &&
        inputs == old(inputs) && batchSize == old(batchSize) && priority == old(priority)
    {
      if name !in requestedOutputs {
        return Failure(InvalidArg);
      }
      requestedOutputs := requestedOutputs - {name};
      needsNormalization := true;
      s := Success;
    }

    /** RemoveAllRequestedOutputs (lines 283-289). */
    method RemoveAllRequestedOutputs() returns (s: Status)
      requires Valid()
      modifies this
      ensures Valid()
      ensures s == Success && requestedOutputs == map[] && needsNormalization
      ensures originalInputs == old(originalInputs) && overrideInputs == old(overrideInputs) &&
        inputs == old(inputs) && batchSize == old(batchSize) && priority == old(priority)
    {
      requestedOutputs := map[];
      needsNormalization := true;
      s := Success;
    }

    // -- normalisation ----------------------------------------------------

    /** NormalizeV1 (lines 323-489), with the batch-size check compared
        without the `(int)` cast (see BatchSizeAcceptedAsWritten). The
        priority is normalised first, whatever happens next. */
    method NormalizeV1() returns (s: Status)
      requires WellFormed(backend) && Keyed(originalInputs)
      modifies this`priority, originalInputs.Values
      ensures priority == NormalizedPriority(backend, old(priority))
      ensures var r := NormalizeV1Spec(backend, old(batchSize), old(requestedOutputs.Keys), old(ViewsOf(originalInputs)));
        s == r.ToStatus() && (r.Ok? ==> ViewsOf(originalInputs) == r.value)
    {
      label entry:
      if priority == 0 || priority > backend.maxPriorityLevel {
        priority := backend.defaultPriorityLevel;
      }
      ViewsOfUnchanged@entry(originalInputs);
      s := NormalizeOriginalsV1(backend, batchSize, requestedOutputs.Keys, originalInputs);
    }

    /** NormalizeV2 (lines 491-647), with the batch stage tracking whether a
        batch size was seen instead of overloading 0 and comparing the
        leading dimensions untruncated, and the batch-size check compared
        without the `(int)` cast (see StripBatchDimsAsWritten and
        BatchSizeAcceptedAsWritten). */
    method NormalizeV2() returns (s: Status)
      requires WellFormed(backend) && Keyed(originalInputs)
      modifies this`priority, this`batchSize, originalInputs.Values
      ensures priority == NormalizedPriority(backend, old(priority))
      ensures var r := NormalizeV2Spec(backend, old(requestedOutputs.Keys), old(ViewsOf(originalInputs)));
        s == r.ToStatus() && (r.Ok? ==> ViewsOf(originalInputs) == r.value.0 && batchSize == r.value.1)
      ensures !(requestedOutputs.Keys <= backend.config.outputs) || |originalInputs| != |backend.config.inputs| ==>
        batchSize == old(batchSize)
      ensures requestedOutputs.Keys <= backend.config.outputs && |originalInputs| == |backend.config.inputs| ==>
        batchSize == U32(StageBatch(backend, SortedKeys(originalInputs.Keys), old(ViewsOf(originalInputs))))
    {
      label entry:
      if priority == 0 || priority > backend.maxPriorityLevel {
        priority := backend.defaultPriorityLevel;
      }
      ViewsOfUnchanged@entry(originalInputs);
      var batch;
      s, batch := NormalizeOriginalsV2(backend, requestedOutputs.Keys, originalInputs, batchSize);
      label normalized:
      batchSize := batch;
      ViewsOfUnchanged@normalized(originalInputs);
    }

    /** The renormalisation step of PrepareForInference (lines 301-309): a
        dirty request is normalised and, on success only, marked clean; a
        clean one is left as it is. */
    method Renormalize(ghost views: map<string, InputView>) returns (s: Status)
      requires WellFormed(backend) && Keyed(originalInputs) && views == ViewsOf(originalInputs)
      modifies this`needsNormalization, this`batchSize, this`priority, originalInputs.Values
      ensures needsNormalization == s.Failure?
      ensures !old(needsNormalization) ==>
        s == Success && batchSize == old(batchSize) && priority == old(priority) && ViewsOf(originalInputs) == views
      ensures old(needsNormalization) ==>
        var r := NormalizeRequest(backend, protocolVersion, old(batchSize), requestedOutputs.Keys, views);
        s == r.ToStatus() &&
        priority == NormalizedPriority(backend, old(priority)) &&
        (s.Success? ==> ViewsOf(originalInputs) == r.value.0 && batchSize == r.value.1)
    {
      label entry:
      s := Success;
      if needsNormalization {
        if protocolVersion == 1 {
          s := NormalizeV1();
        } else {
          s := NormalizeV2();
        }
        if s.Failure? {
          return;
        }
        label normalized:
        needsNormalization := false;
        ViewsOfUnchanged@normalized(originalInputs);
      } else {
        ViewsOfUnchanged@entry(originalInputs);
      }
    }

    /** PrepareForInference (lines 291-321): drops the overrides and the
        effective inputs, normalises only when the request is dirty (by the
        protocol version: 1 for V1, anything else V2), clears the dirty flag
        only on success, and then makes the effective inputs exactly the
        originals. A clean request is left as it is, so a second call after
        a successful one changes nothing. */
    method PrepareForInference() returns (s: Status)
      requires Valid()
      modifies this`inputs, this`overrideInputs, this`needsNormalization, this`batchSize, this`priority
      modifies originalInputs.Values
      ensures Valid()
      ensures overrideInputs == map[]
      ensures needsNormalization == s.Failure?
      ensures s.Success? ==> inputs == originalInputs
      ensures s.Failure? ==> inputs == map[]
      ensures !old(needsNormalization) ==>
        s == Success && batchSize == old(batchSize) && priority == old(priority) &&
        ViewsOf(originalInputs) == old(ViewsOf(originalInputs))
      ensures old(needsNormalization) ==>
        s == old(Normalized()).ToStatus() &&
        priority == NormalizedPriority(backend, old(priority)) &&
        (s.Success? ==> ViewsOf(originalInputs) == old(Normalized()).value.0 && batchSize == old(Normalized()).value.1)
    {
      label entry:
      inputs := map[];
      overrideInputs := map[];
      ViewsOfUnchanged@entry(originalInputs);
      assert needsNormalization == old(needsNormalization);
      s := Renormalize(old(ViewsOf(originalInputs)));
      if s.Failure? {
        return;
      }
      label shown:
      inputs := ShowInputs(originalInputs);
      ViewsOfUnchanged@shown(originalInputs);
      s := Success;
    }
  }
}
