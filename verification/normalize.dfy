/** The request normaliser (infer_request.cc, NormalizeV1 and NormalizeV2)
    as functions on values: what each input's datatype, shape and batch byte
    size become, and which error stops normalisation first. The imperative
    InferenceRequest methods are proved equal to these functions. */
module Normalize {
  import opened Common
  import opened Memory
  import opened ModelConfig
  import opened Reshape
  import opened OrderedKeys

  /** The part of an Input that normalisation reads and writes. */
  datatype InputView = InputView(
    dataType: DataType,
    originalShape: seq<int>,
    shape: seq<int>,
    batchByteSize: nat,
    data: Option<seq<Segment>>)

  // ---------------------------------------------------------------------
  // Priority and batch size

  /** A priority of 0 or above the backend's maximum level becomes the
      backend's default level; any other priority is kept. */
  function NormalizedPriority(b: Backend, priority: uint32): (r: uint32)
    ensures (priority == 0 || priority > b.maxPriorityLevel) ==> r == b.defaultPriorityLevel
    ensures 0 < priority <= b.maxPriorityLevel ==> r == priority
  {
    if priority == 0 || priority > b.maxPriorityLevel then b.defaultPriorityLevel else priority
  }

  /** Normalising the priority a second time changes nothing, and when the
      default level is itself valid the result is always a valid level. */
  lemma PriorityNormalization(b: Backend, priority: uint32)
    ensures NormalizedPriority(b, NormalizedPriority(b, priority)) == NormalizedPriority(b, priority)
    ensures 0 < b.defaultPriorityLevel <= b.maxPriorityLevel ==>
      0 < NormalizedPriority(b, priority) <= b.maxPriorityLevel
  {
  }

  /** The batch-size check exactly as written at lines 334-350 and 558-574:
      reject `batch_size_ < 1`, and reject `batch_size_ != 1` when
      `(int)batch_size_ > max_batch_size`. The cast turns every batch size
      from 2^31 upwards into a negative int. */
  predicate BatchSizeAcceptedAsWritten(batchSize: uint32, maxBatchSize: int32)
    ensures BatchSizeAcceptedAsWritten(batchSize, maxBatchSize) ==> 1 <= batchSize
    ensures BatchSizeAcceptedAsWritten(batchSize, maxBatchSize) && batchSize < 0x8000_0000 ==>
      batchSize <= (if maxBatchSize < 1 then 1 else maxBatchSize)
  {
    !(batchSize < 1) && !(batchSize != 1 && Int32Of(batchSize) > maxBatchSize)
  }

  /** The cast lets a batch size of 2^31 through for a model whose maximum
      batch size is 4. */
  lemma BatchSizeCastCounterexample()
    ensures BatchSizeAcceptedAsWritten(0x8000_0000, 4)
    ensures !BatchSizeAccepted(0x8000_0000, 4)
  {
  }

  /** The intended batch-size check, compared without the cast: at least 1,
      and at most max_batch_size unless it is exactly 1. */
  predicate BatchSizeAccepted(batchSize: int, maxBatchSize: int)
    ensures BatchSizeAccepted(batchSize, maxBatchSize) ==>
      1 <= batchSize <= (if maxBatchSize < 1 then 1 else maxBatchSize)
  {
    1 <= batchSize && (batchSize == 1 || batchSize <= maxBatchSize)
  }

  /** What the intended check guarantees: a batch size of 1 is always
      accepted, a model without batching accepts only 1, and a batching model
      accepts exactly 1..max_batch_size. It agrees with the check as written
      below 2^31 and only ever rejects more. */
  lemma BatchSizeAcceptedBounds(batchSize: uint32, maxBatchSize: int32)
    ensures BatchSizeAccepted(1, maxBatchSize)
    ensures maxBatchSize <= 1 ==> (BatchSizeAccepted(batchSize, maxBatchSize) <==> batchSize == 1)
    ensures maxBatchSize >= 1 ==> (BatchSizeAccepted(batchSize, maxBatchSize) <==> 1 <= batchSize <= maxBatchSize)
    ensures batchSize < 0x8000_0000 ==>
      (BatchSizeAccepted(batchSize, maxBatchSize) <==> BatchSizeAcceptedAsWritten(batchSize, maxBatchSize))
    ensures BatchSizeAccepted(batchSize, maxBatchSize) ==> BatchSizeAcceptedAsWritten(batchSize, maxBatchSize)
  {
  }

  // ---------------------------------------------------------------------
  // V1: shape and batch byte size of one input

  /** A shape taken from the configuration must not have a negative
      (variable-size) dimension: the request had to give the shape. */
  function ConfigShape(src: seq<int>): Result<seq<int>>
  {
    if exists i :: 0 <= i < |src| && src[i] < 0 then Err(InvalidArg) else Ok(src)
  }

  /** The V1 shape of an input: the client's shape, checked against the
      configuration dims and rewritten into the reshape if there is one;
      when the client gave no shape (or the reshape is rank 0), the
      reshape's or the configuration's dims. */
  function ShapeV1(mi: ModelInput, originalShape: seq<int>): (r: Result<seq<int>>)
    requires ReshapeWellFormed(mi)
    ensures r.Err? ==> r.code == InvalidArg
    ensures |originalShape| > 0 && !CompareDimsWithWildcard(mi.dims, originalShape) ==> r.Err?
  {
    if |originalShape| > 0 && !CompareDimsWithWildcard(mi.dims, originalShape) then Err(InvalidArg)
    else
      var s := if |originalShape| > 0 && mi.reshape.Some?
               then ReshapedShape(mi.dims, originalShape, mi.reshape.value)
               else originalShape;
      if |s| > 0 then Ok(s)
      else ConfigShape(TargetDims(mi))
  }

  /** The dims a V1 shape is checked against once normalised: the reshape
      if the configuration has one, else the dims. */
  function TargetDims(mi: ModelInput): seq<int>
  {
    if mi.reshape.Some? then mi.reshape.value else mi.dims
  }

  /** A V1 shape always conforms to its target dims under the wildcard
      comparison; it fails exactly when the client's shape does not match the
      dims, or when no client shape is given and the target dims are not
      fully specified; without a client shape the result has no negative
      dimension. */
  lemma ShapeV1Properties(mi: ModelInput, originalShape: seq<int>)
    requires ReshapeWellFormed(mi)
    ensures ShapeV1(mi, originalShape).Ok? ==> CompareDimsWithWildcard(TargetDims(mi), ShapeV1(mi, originalShape).value)
    ensures ShapeV1(mi, originalShape).Err? <==>
      (|originalShape| > 0 && !CompareDimsWithWildcard(mi.dims, originalShape)) ||
      ((|originalShape| == 0 || TargetDims(mi) == []) && exists i :: 0 <= i < |TargetDims(mi)| && TargetDims(mi)[i] < 0)
    ensures ShapeV1(mi, originalShape).Err? ==> ShapeV1(mi, originalShape).code == InvalidArg
    ensures |originalShape| == 0 && ShapeV1(mi, originalShape).Ok? ==>
      ShapeV1(mi, originalShape).value == TargetDims(mi) &&
      forall i :: 0 <= i < |TargetDims(mi)| ==> TargetDims(mi)[i] >= 0
  {
    if |originalShape| > 0 && CompareDimsWithWildcard(mi.dims, originalShape) {
      if mi.reshape.Some? {
        var reshape := mi.reshape.value;
        var s := ReshapedShape(mi.dims, originalShape, reshape);
        ReshapedConforms(mi.dims, originalShape, reshape);
        if reshape == [] {
          assert ShapeV1(mi, originalShape) == ConfigShape([]) == Ok([]);
        } else {
          assert ShapeV1(mi, originalShape) == Ok(s);
          assert TargetDims(mi) != [];
        }
      } else {
        assert ShapeV1(mi, originalShape) == Ok(originalShape);
        assert TargetDims(mi) == mi.dims && |mi.dims| > 0;
      }
    }
  }

  /** The V1 batch byte size (lines 457-485). For a fixed-size datatype it is
      the byte size of the shape, times the batch size (times 1 for a shape
      tensor) when the model batches, kept as a uint64; a non-zero size the
      client declared must equal it. A variable-size datatype keeps the
      declared size. */
  function ByteSizeV1(mi: ModelInput, maxBatchSize: int, batchSize: uint32, shape: seq<int>, declared: nat): (r: Result<nat>)
    ensures r.Ok? ==> r.value < TwoTo64 || r.value == declared
    ensures r.Err? ==> r.code == InvalidArg && declared != 0 && IsFixedSizeDataType(mi.dataType)
    ensures r.Ok? && declared != 0 ==> r.value == declared
  {
    if IsFixedSizeDataType(mi.dataType) then
      // the multiplier is a C++ int initialised from the uint32 batch size
      var multiplier := if mi.isShapeTensor then 1 else Int32Of(batchSize);
      var bs :=
        if maxBatchSize > 0 then
          (if |shape| == 0 then U64(DataTypeByteSize(mi.dataType) * multiplier)
           else U64(GetByteSize(mi.dataType, shape) * multiplier))
        else U64(GetByteSize(mi.dataType, shape));
      if declared != 0 && declared != bs then Err(InvalidArg) else Ok(bs)
    else Ok(declared)
  }

  /** The size of the full tensor a batching model receives: for a
      fully specified shape and a non-shape tensor of a sized datatype, the V1
      byte size is the element size times the element count of
      [batch-size] + shape (the source's comment at lines 439-456); a
      declared size that differs is rejected and a variable-size datatype
      keeps its declared size. */
  lemma {:induction false} ByteSizeV1IsFullBatchTensorSize(mi: ModelInput, maxBatchSize: int, batchSize: uint32, shape: seq<int>, declared: nat)
    requires IsFixedSizeDataType(mi.dataType) && DataTypeByteSize(mi.dataType) > 0
    requires batchSize < 0x8000_0000
    requires forall i :: 0 <= i < |shape| ==> shape[i] >= 0
    requires maxBatchSize > 0 && !mi.isShapeTensor
    ensures var full := DataTypeByteSize(mi.dataType) * Product([batchSize] + shape);
      ByteSizeV1(mi, maxBatchSize, batchSize, shape, declared) ==
        if declared != 0 && declared != U64(full) then Err(InvalidArg) else Ok(U64(full))
  {
    var size := DataTypeByteSize(mi.dataType);
    assert ([batchSize] + shape)[1..] == shape;
    assert Product([batchSize] + shape) == batchSize * Product(shape);
    if |shape| > 0 {
      assert forall i :: 0 <= i < |shape| ==> shape[i] != WildcardDim;
      assert WildcardDim !in shape;
      ProductNonNegative(shape);
      assert GetByteSize(mi.dataType, shape) == Product(shape) * size;
      assert Product(shape) * size * batchSize == size * (batchSize * Product(shape));
    } else {
      assert Product(shape) == 1;
    }
  }

  lemma {:induction false} ProductNonNegative(dims: seq<int>)
    requires forall i :: 0 <= i < |dims| ==> dims[i] >= 0
    ensures Product(dims) >= 0
  {
    if dims != [] {
      ProductNonNegative(dims[1..]);
    }
  }

  /** A variable-size datatype never fails and keeps the declared size. */
  lemma ByteSizeV1VariableSize(mi: ModelInput, maxBatchSize: int, batchSize: uint32, shape: seq<int>, declared: nat)
    requires !IsFixedSizeDataType(mi.dataType)
    ensures ByteSizeV1(mi, maxBatchSize, batchSize, shape, declared) == Ok(declared)
  {
  }

  // ---------------------------------------------------------------------
  // One input, either protocol

  /** V1, one input: datatype from the configuration, shape by ShapeV1, batch
      byte size by ByteSizeV1. */
  function NormalizeInputV1(b: Backend, batchSize: uint32, name: string, v: InputView): (r: Result<InputView>)
    requires WellFormed(b)
    ensures name !in b.config.inputs ==> r == Err(NotFound)
    ensures r.Ok? ==>
      r.value.originalShape == v.originalShape && r.value.data == v.data &&
      r.value.dataType == b.config.inputs[name].dataType
  {
    match GetInput(b, name)
    case Err(c) => Err(c)
    case Ok(mi) =>
      match ShapeV1(mi, v.originalShape)
      case Err(c) => Err(c)
      case Ok(shape) =>
        match ByteSizeV1(mi, b.config.maxBatchSize, batchSize, shape, v.batchByteSize)
        case Err(c) => Err(c)
        case Ok(bs) => Ok(v.(dataType := mi.dataType, shape := shape, batchByteSize := bs))
  }

  /** V2, one input (after the batch dimension is stripped): datatype from
      the configuration, the shape checked against the dims and rewritten
      into the reshape, an empty memory reference attached when the input has
      no data, and the batch byte size taken from the data. */
  function NormalizeInputV2(b: Backend, name: string, v: InputView): (r: Result<InputView>)
    requires WellFormed(b)
    ensures name !in b.config.inputs ==> r == Err(NotFound)
    ensures r.Ok? ==>
      r.value.originalShape == v.originalShape && r.value.data.Some? &&
      r.value.dataType == b.config.inputs[name].dataType
  {
    match GetInput(b, name)
    case Err(c) => Err(c)
    case Ok(mi) =>
      if !CompareDimsWithWildcard(mi.dims, v.shape) then Err(InvalidArg)
      else
        var shape := if mi.reshape.Some? then ReshapedShape(mi.dims, v.shape, mi.reshape.value) else v.shape;
        var data := if v.data.None? then [] else v.data.value;
        Ok(v.(dataType := mi.dataType, shape := shape, data := Some(data), batchByteSize := TotalByteSize(data)))
  }

  /** A V2 input normalises iff the model declares it and its (stripped)
      shape matches the configuration dims; the result has the configured
      datatype and a shape that conforms to the reshape (or the dims), and
      its batch byte size is always the total size of its data, which is the
      data the input had or else an empty memory reference. */
  lemma NormalizeInputV2Properties(b: Backend, name: string, v: InputView)
    requires WellFormed(b)
    ensures NormalizeInputV2(b, name, v).Ok? <==>
      name in b.config.inputs && CompareDimsWithWildcard(b.config.inputs[name].dims, v.shape)
    ensures NormalizeInputV2(b, name, v).Err? ==>
      NormalizeInputV2(b, name, v).code == if name in b.config.inputs then InvalidArg else NotFound
    ensures NormalizeInputV2(b, name, v).Ok? ==>
      var w := NormalizeInputV2(b, name, v).value;
      var mi := b.config.inputs[name];
      w.dataType == mi.dataType &&
      CompareDimsWithWildcard(TargetDims(mi), w.shape) &&
      w.originalShape == v.originalShape &&
      w.data == (if v.data.None? then Some([]) else v.data) &&
      w.batchByteSize == TotalByteSize(w.data.value)
  {
    if name in b.config.inputs {
      var mi := b.config.inputs[name];
      if CompareDimsWithWildcard(mi.dims, v.shape) && mi.reshape.Some? {
        ReshapedConforms(mi.dims, v.shape, mi.reshape.value);
      }
    }
  }

  /** One V2 input normalised again, from the same stripped shape, stays as
      it is: the data attached the first time is kept. */
  lemma NormalizeInputV2Idempotent(b: Backend, name: string, v: InputView)
    requires WellFormed(b) && NormalizeInputV2(b, name, v).Ok?
    ensures NormalizeInputV2(b, name, NormalizeInputV2(b, name, v).value.(shape := v.shape)) == NormalizeInputV2(b, name, v)
  {
  }

  datatype Variant = V1(batchSize: uint32) | V2

  function NormalizeInput(b: Backend, variant: Variant, name: string, v: InputView): Result<InputView>
    requires WellFormed(b)
  {
    match variant
    case V1(batchSize) => NormalizeInputV1(b, batchSize, name, v)
    case V2 => NormalizeInputV2(b, name, v)
  }

  /** Normalising one input never changes its original shape. */
  lemma NormalizeInputKeepsOriginalShape(b: Backend, variant: Variant, name: string, v: InputView)
    requires WellFormed(b) && NormalizeInput(b, variant, name, v).Ok?
    ensures NormalizeInput(b, variant, name, v).value.originalShape == v.originalShape
  {
  }

  // ---------------------------------------------------------------------
  // All inputs, in map order

  predicate Distinct(order: seq<string>)
  {
    forall i, j :: 0 <= i < j < |order| ==> order[i] != order[j]
  }

  /** The loop over the inputs: normalise each named input in turn, stopping
      at the first error. */
  function NormalizeInputs(b: Backend, variant: Variant, order: seq<string>, views: map<string, InputView>): (r: Result<map<string, InputView>>)
    requires WellFormed(b)
    requires forall k :: k in order ==> k in views
    ensures r.Ok? ==> r.value.Keys == views.Keys
  {
    if order == [] then Ok(views)
    else
      match NormalizeInput(b, variant, order[0], views[order[0]])
      case Err(c) => Err(c)
      case Ok(v) => NormalizeInputs(b, variant, order[1..], views[order[0] := v])
  }

  /** Dropping the first key of a distinct order leaves a distinct order
      that does not mention that key. */
  lemma DistinctTail(order: seq<string>)
    requires order != [] && Distinct(order)
    ensures Distinct(order[1..]) && order[0] !in order[1..]
    ensures forall j :: j in order <==> j == order[0] || j in order[1..]
  {
    assert order == [order[0]] + order[1..];
    forall i, j | 0 <= i < j < |order[1..]|
      ensures order[1..][i] != order[1..][j]
    {
      assert order[1..][i] == order[i + 1] && order[1..][j] == order[j + 1];
    }
    forall i | 0 <= i < |order[1..]|
      ensures order[1..][i] != order[0]
    {
      assert order[1..][i] == order[i + 1];
    }
  }

  /** The loop succeeds iff every input normalises on its own. */
  lemma {:induction false} NormalizeInputsOkIff(b: Backend, variant: Variant, order: seq<string>, views: map<string, InputView>)
    requires WellFormed(b)
    requires forall k :: k in order ==> k in views
    requires Distinct(order)
    ensures NormalizeInputs(b, variant, order, views).Ok? <==>
      forall k :: k in order ==> NormalizeInput(b, variant, k, views[k]).Ok?
    decreases |order|
  {
    if order != [] {
      var k := order[0];
      DistinctTail(order);
      match NormalizeInput(b, variant, k, views[k])
      case Err(_) =>
      case Ok(v) =>
        assert forall j :: j in order[1..] ==> views[k := v][j] == views[j];
        NormalizeInputsOkIff(b, variant, order[1..], views[k := v]);
    }
  }

  /** When the loop succeeds it rewrites each listed input by itself and
      leaves every other input alone. */
  lemma {:induction false} NormalizeInputsValues(b: Backend, variant: Variant, order: seq<string>, views: map<string, InputView>)
    requires WellFormed(b)
    requires forall k :: k in order ==> k in views
    requires Distinct(order)
    requires NormalizeInputs(b, variant, order, views).Ok?
    ensures var r := NormalizeInputs(b, variant, order, views).value;
      r.Keys == views.Keys &&
      forall k :: k in views ==>
        if k in order then NormalizeInput(b, variant, k, views[k]) == Ok(r[k]) else r[k] == views[k]
    decreases |order|
  {
    if order != [] {
      var k := order[0];
      DistinctTail(order);
      var v := NormalizeInput(b, variant, k, views[k]).value;
      assert forall j :: j in order[1..] ==> views[k := v][j] == views[j];
      NormalizeInputsValues(b, variant, order[1..], views[k := v]);
    }
  }

  /** When the loop fails it reports the error of the first input, in
      order, that does not normalise. */
  lemma {:induction false} NormalizeInputsFirstError(b: Backend, variant: Variant, order: seq<string>, views: map<string, InputView>)
    requires WellFormed(b)
    requires forall k :: k in order ==> k in views
    requires Distinct(order)
    requires NormalizeInputs(b, variant, order, views).Err?
    ensures
      exists i :: 0 <= i < |order| &&
        NormalizeInput(b, variant, order[i], views[order[i]]) == Err(NormalizeInputs(b, variant, order, views).code) &&
        forall j :: 0 <= j < i ==> NormalizeInput(b, variant, order[j], views[order[j]]).Ok?
    decreases |order|
  {
    var k := order[0];
    match NormalizeInput(b, variant, k, views[k])
    case Err(c) =>
      assert NormalizeInput(b, variant, order[0], views[order[0]]) == Err(c);
    case Ok(v) =>
      var rest := order[1..];
      var views' := views[k := v];
      DistinctTail(order);
      assert forall j :: j in rest ==> views'[j] == views[j];
      NormalizeInputsFirstError(b, variant, rest, views');
      var i :| 0 <= i < |rest| &&
        NormalizeInput(b, variant, rest[i], views'[rest[i]]) == Err(NormalizeInputs(b, variant, rest, views').code) &&
        forall j :: 0 <= j < i ==> NormalizeInput(b, variant, rest[j], views'[rest[j]]).Ok?;
      assert order[i + 1] == rest[i];
      forall j | 0 <= j < i + 1
        ensures NormalizeInput(b, variant, order[j], views[order[j]]).Ok?
      {
        if j > 0 {
          assert order[j] == rest[j - 1];
        }
      }
  }

  /** The loop only looks at what each listed input normalises to: two
      maps whose listed inputs normalise alike, and which agree on every
      other input, give the same result. */
  lemma {:induction false} NormalizeInputsCongruent(b: Backend, variant: Variant, order: seq<string>, m1: map<string, InputView>, m2: map<string, InputView>)
    requires WellFormed(b) && Distinct(order)
    requires m1.Keys == m2.Keys && forall k :: k in order ==> k in m1
    requires forall k :: k in order ==> NormalizeInput(b, variant, k, m2[k]) == NormalizeInput(b, variant, k, m1[k])
    requires forall k :: k in m1 && k !in order ==> m2[k] == m1[k]
    ensures NormalizeInputs(b, variant, order, m2) == NormalizeInputs(b, variant, order, m1)
    decreases |order|
  {
    if order == [] {
      assert m2 == m1;
    } else {
      var k := order[0];
      DistinctTail(order);
      match NormalizeInput(b, variant, k, m1[k])
      case Err(_) =>
      case Ok(v) =>
        assert forall j :: j in order[1..] ==> m1[k := v][j] == m1[j] && m2[k := v][j] == m2[j];
        NormalizeInputsCongruent(b, variant, order[1..], m1[k := v], m2[k := v]);
    }
  }

  // ---------------------------------------------------------------------
  // V2 batch dimension

  predicate HasBatchDim(v: InputView)
  {
    |v.originalShape| > 0
  }

  /** The batch size every input must agree on: the one already seen, else
      the first input's leading dimension. */
  function Lead(order: seq<string>, views: map<string, InputView>, batch: Option<int>): int
    requires forall k :: k in order ==> k in views
  {
    if batch.Some? then batch.value
    else if order != [] && HasBatchDim(views[order[0]]) then views[order[0]].originalShape[0]
    else 0
  }

  /** Lines 530-553 with the intended check: every input has a leading
      (batch) dimension, all leading dimensions agree, and each shape is the
      original shape without it. The first input observed fixes the batch. */
  function StripBatchDims(order: seq<string>, views: map<string, InputView>, batch: Option<int>): (r: Result<(map<string, InputView>, Option<int>)>)
    requires forall k :: k in order ==> k in views
    ensures r.Ok? ==> r.value.0.Keys == views.Keys
  {
    if order == [] then Ok((views, batch))
    else
      var v := views[order[0]];
      if |v.originalShape| == 0 then Err(InvalidArg)
      else if batch.Some? && v.originalShape[0] != batch.value then Err(InvalidArg)
      else StripBatchDims(order[1..], views[order[0] := v.(shape := v.originalShape[1..])], Some(v.originalShape[0]))
  }

  /** Lines 530-553 exactly as written: `batch_size_` (a uint32) starts at 0
      and is taken from the first input whose leading dimension it sees while
      it is still 0, truncated to 32 bits; later inputs are compared against
      it. */
  function StripBatchDimsAsWritten(order: seq<string>, views: map<string, InputView>, batch: uint32): (r: Result<(map<string, InputView>, uint32)>)
    requires forall k :: k in order ==> k in views
    ensures r.Ok? ==> r.value.0.Keys == views.Keys
  {
    if order == [] then Ok((views, batch))
    else
      var v := views[order[0]];
      if |v.originalShape| == 0 then Err(InvalidArg)
      else if batch != 0 && v.originalShape[0] != batch then Err(InvalidArg)
      else
        var next := if batch == 0 then U32(v.originalShape[0]) else batch;
        StripBatchDimsAsWritten(order[1..], views[order[0] := v.(shape := v.originalShape[1..])], next)
  }

  /** The map visits "a" before "b". */
  lemma SortedKeysAB()
    ensures SortedKeys({"a", "b"}) == ["a", "b"]
  {
    var r := SortedKeys({"a", "b"});
    assert r[0] in {"a", "b"} && r[1] in {"a", "b"};
    SortedDistinct(r);
    assert Less(r[0], r[1]);
    assert !Less("b", "a");
  }

  /** The input observed first has leading dimension 0 and so does not fix
      the batch size; the next input's dimension replaces it. With the inputs
      "a" of shape [0, 3] and "b" of shape [8, 5], visited in that order, the
      check as written accepts batch size 8; the intended check rejects the
      disagreement. */
  lemma BatchDimCounterexample()
    ensures var views := map["a" := InputView(TypeFp32, [0, 3], [], 0, None),
                             "b" := InputView(TypeFp32, [8, 5], [], 0, None)];
      SortedKeys(views.Keys) == ["a", "b"] &&
      StripBatchDimsAsWritten(["a", "b"], views, 0).Ok? &&
      StripBatchDimsAsWritten(["a", "b"], views, 0).value.1 == 8 &&
      StripBatchDims(["a", "b"], views, None) == Err(InvalidArg)
  {
    SortedKeysAB();
  }

  /** A leading dimension of 2^32 + 8 is truncated to the uint32 batch size
      8, so it agrees with a later input of leading dimension 8. */
  lemma BatchDimTruncationCounterexample()
    ensures var views := map["a" := InputView(TypeFp32, [0x1_0000_0008, 3], [], 0, None),
                             "b" := InputView(TypeFp32, [8, 5], [], 0, None)];
      StripBatchDimsAsWritten(["a", "b"], views, 0).Ok? &&
      StripBatchDimsAsWritten(["a", "b"], views, 0).value.1 == 8 &&
      StripBatchDims(["a", "b"], views, None) == Err(InvalidArg)
  {
  }

  /** The intended batch-dimension pass succeeds iff every input has a
      leading dimension equal to the batch size already seen (or, if none,
      the first input's); it then strips that dimension from each visited
      input's shape and records the batch size. */
  lemma {:induction false} StripBatchDimsOk(order: seq<string>, views: map<string, InputView>, batch: Option<int>)
    requires forall k :: k in order ==> k in views
    ensures StripBatchDims(order, views, batch).Ok? <==>
      forall k :: k in order ==> HasBatchDim(views[k]) && views[k].originalShape[0] == Lead(order, views, batch)
    ensures StripBatchDims(order, views, batch).Ok? ==>
      var m := StripBatchDims(order, views, batch).value.0;
      m.Keys == views.Keys &&
      (forall k :: k in views ==>
        m[k] == if k in order then views[k].(shape := views[k].originalShape[1..]) else views[k]) &&
      StripBatchDims(order, views, batch).value.1 == if order == [] then batch else Some(Lead(order, views, batch))
    decreases |order|
  {
    if order != [] {
      var k := order[0];
      var v := views[k];
      if |v.originalShape| > 0 && !(batch.Some? && v.originalShape[0] != batch.value) {
        var views' := views[k := v.(shape := v.originalShape[1..])];
        StripBatchDimsOk(order[1..], views', Some(v.originalShape[0]));
        assert forall j :: j in views ==> views'[j].originalShape == views[j].originalShape;
        assert forall j :: j in order <==> j == k || j in order[1..];
      }
    }
  }

  /** Model without batching: every shape becomes the original shape. */
  function KeepOriginalShapes(order: seq<string>, views: map<string, InputView>): (r: map<string, InputView>)
    requires forall k :: k in order ==> k in views
    ensures r.Keys == views.Keys
  {
    if order == [] then views
    else
      var v := views[order[0]];
      KeepOriginalShapes(order[1..], views[order[0] := v.(shape := v.originalShape)])
  }

  lemma {:induction false} KeepOriginalShapesAt(order: seq<string>, views: map<string, InputView>)
    requires forall k :: k in order ==> k in views
    ensures KeepOriginalShapes(order, views).Keys == views.Keys
    ensures forall k :: k in views ==>
      KeepOriginalShapes(order, views)[k] == if k in order then views[k].(shape := views[k].originalShape) else views[k]
    decreases |order|
  {
    if order != [] {
      var k := order[0];
      var v := views[k];
      KeepOriginalShapesAt(order[1..], views[k := v.(shape := v.originalShape)]);
      assert forall j :: j in order <==> j == k || j in order[1..];
    }
  }

  /** Lines 516-554: a model without batching has batch size 1 and keeps
      the shapes; a batching model takes the batch size from the inputs'
      leading dimensions (0 when there is no input). */
  function BatchStageV2(b: Backend, order: seq<string>, views: map<string, InputView>): (r: Result<(map<string, InputView>, int)>)
    requires forall k :: k in order ==> k in views
    ensures b.config.maxBatchSize == 0 ==> r.Ok? && r.value.1 == 1
    ensures r.Ok? ==> r.value.0.Keys == views.Keys
  {
    if b.config.maxBatchSize == 0 then Ok((KeepOriginalShapes(order, views), 1))
    else
      match StripBatchDims(order, views, None)
      case Err(c) => Err(c)
      case Ok(p) => Ok((p.0, if p.1.Some? then p.1.value else 0))
  }

  /** The batch size the stage writes into the request whether or not it
      then fails: 1 without batching; otherwise the first input's leading
      dimension, or 0 when that input has none or there is no input. */
  function StageBatch(b: Backend, order: seq<string>, views: map<string, InputView>): int
    requires forall k :: k in order ==> k in views
  {
    if b.config.maxBatchSize == 0 then 1 else Lead(order, views, None)
  }

  /** A successful batch stage reports the batch size it wrote. */
  lemma BatchStageV2Batch(b: Backend, order: seq<string>, views: map<string, InputView>)
    requires forall k :: k in order ==> k in views
    ensures BatchStageV2(b, order, views).Ok? ==> BatchStageV2(b, order, views).value.1 == StageBatch(b, order, views)
  {
    if b.config.maxBatchSize != 0 {
      StripBatchDimsOk(order, views, None);
    }
  }

  /** The V2 batch stage without batching: every shape becomes the
      original shape and the batch size is 1. */
  lemma V2BatchStageUnbatched(b: Backend, views: map<string, InputView>)
    requires b.config.maxBatchSize == 0
    ensures var r := BatchStageV2(b, SortedKeys(views.Keys), views);
      r.Ok? && r.value.1 == 1 && r.value.0.Keys == views.Keys &&
      forall k :: k in views ==> r.value.0[k] == views[k].(shape := views[k].originalShape)
  {
    KeepOriginalShapesAt(SortedKeys(views.Keys), views);
  }

  /** Either way, the batch stage changes nothing but the shapes. */
  lemma BatchStageV2Shapes(b: Backend, views: map<string, InputView>)
    requires BatchStageV2(b, SortedKeys(views.Keys), views).Ok?
    ensures var p := BatchStageV2(b, SortedKeys(views.Keys), views).value;
      p.0.Keys == views.Keys && forall k :: k in views ==> p.0[k] == views[k].(shape := p.0[k].shape)
  {
    if b.config.maxBatchSize == 0 {
      V2BatchStageUnbatched(b, views);
    } else {
      V2BatchStageBatched(b, views);
    }
  }

  /** The V2 batch stage with batching, stated without the map order: it
      succeeds iff every input has a leading dimension and all of them
      agree, and then that dimension is the batch size (0 without inputs)
      and every shape is the original shape without it. */
  lemma V2BatchStageBatched(b: Backend, views: map<string, InputView>)
    requires b.config.maxBatchSize != 0
    ensures var r := BatchStageV2(b, SortedKeys(views.Keys), views);
      r.Ok? <==>
        (forall k :: k in views ==> HasBatchDim(views[k])) &&
        forall j, k :: j in views && k in views && HasBatchDim(views[j]) && HasBatchDim(views[k]) ==>
          views[j].originalShape[0] == views[k].originalShape[0]
    ensures var r := BatchStageV2(b, SortedKeys(views.Keys), views);
      r.Ok? ==>
        r.value.0.Keys == views.Keys &&
        (views == map[] ==> r.value.1 == 0) &&
        forall k :: k in views ==>
          r.value.1 == views[k].originalShape[0] &&
          r.value.0[k] == views[k].(shape := views[k].originalShape[1..])
  {
    var order := SortedKeys(views.Keys);
    StripBatchDimsOk(order, views, None);
    if views != map[] {
      assert |order| > 0;
      var first := order[0];
      if (forall k :: k in views ==> HasBatchDim(views[k])) &&
         (forall j, k :: j in views && k in views && HasBatchDim(views[j]) && HasBatchDim(views[k]) ==>
            views[j].originalShape[0] == views[k].originalShape[0]) {
        assert forall k :: k in order ==> views[k].originalShape[0] == views[first].originalShape[0];
      }
    }
  }

  // ---------------------------------------------------------------------
  // The whole normalisers

  /** NormalizeV1 (lines 323-489) after the priority: batch size, requested
      outputs, input count, then every input in map order. */
  function NormalizeV1Spec(b: Backend, batchSize: uint32, outputs: set<string>, views: map<string, InputView>): (r: Result<map<string, InputView>>)
    requires WellFormed(b)
    ensures r.Ok? ==> r.value.Keys == views.Keys && BatchSizeAccepted(batchSize, b.config.maxBatchSize) && outputs <= b.config.outputs
    ensures !(outputs <= b.config.outputs) && BatchSizeAccepted(batchSize, b.config.maxBatchSize) ==> r == Err(NotFound)
  {
    if !BatchSizeAccepted(batchSize, b.config.maxBatchSize) then Err(InvalidArg)
    else if !(outputs <= b.config.outputs) then Err(NotFound)
    else if |views| != |b.config.inputs| then Err(InvalidArg)
    else NormalizeInputs(b, V1(batchSize), SortedKeys(views.Keys), views)
  }

  /** NormalizeV2 (lines 491-647) after the priority: requested outputs,
      input count, batch stage, batch size, then every input in map order.
      The result carries the batch size it determined. */
  function NormalizeV2Spec(b: Backend, outputs: set<string>, views: map<string, InputView>): (r: Result<(map<string, InputView>, int)>)
    requires WellFormed(b)
    ensures r.Ok? ==> r.value.0.Keys == views.Keys && BatchSizeAccepted(r.value.1, b.config.maxBatchSize) && outputs <= b.config.outputs
    ensures !(outputs <= b.config.outputs) ==> r == Err(NotFound)
  {
    if !(outputs <= b.config.outputs) then Err(NotFound)
    else if |views| != |b.config.inputs| then Err(InvalidArg)
    else
      var order := SortedKeys(views.Keys);
      match BatchStageV2(b, order, views)
      case Err(c) => Err(c)
      case Ok(p) =>
        if !BatchSizeAccepted(p.1, b.config.maxBatchSize) then Err(InvalidArg)
        else
          match NormalizeInputs(b, V2, order, p.0)
          case Err(c) => Err(c)
          case Ok(m) => Ok((m, p.1))
  }

  /** One V1 input normalised a second time stays as it is. */
  lemma NormalizeInputV1Idempotent(b: Backend, batchSize: uint32, name: string, v: InputView)
    requires WellFormed(b) && NormalizeInputV1(b, batchSize, name, v).Ok?
    ensures var w := NormalizeInputV1(b, batchSize, name, v).value;
      w.originalShape == v.originalShape && NormalizeInputV1(b, batchSize, name, w) == Ok(w)
  {
  }

  lemma NormalizeInputsV1Idempotent(b: Backend, batchSize: uint32, order: seq<string>, views: map<string, InputView>)
    requires WellFormed(b) && Distinct(order)
    requires forall k :: k in order ==> k in views
    requires NormalizeInputs(b, V1(batchSize), order, views).Ok?
    ensures var r := NormalizeInputs(b, V1(batchSize), order, views).value;
      r.Keys == views.Keys &&
      (forall k :: k in views ==> r[k].originalShape == views[k].originalShape) &&
      NormalizeInputs(b, V1(batchSize), order, r) == Ok(r)
  {
    NormalizeInputsValues(b, V1(batchSize), order, views);
    var r := NormalizeInputs(b, V1(batchSize), order, views).value;
    forall k | k in views
      ensures r[k].originalShape == views[k].originalShape
      ensures k in order ==> NormalizeInput(b, V1(batchSize), k, r[k]) == NormalizeInput(b, V1(batchSize), k, views[k])
    {
      if k in order {
        NormalizeInputV1Idempotent(b, batchSize, k, views[k]);
      }
    }
    NormalizeInputsCongruent(b, V1(batchSize), order, views, r);
  }

  /** Normalising a normalised request again is a no-op in V1: the shapes
      are recomputed from the unchanged original shapes and every computed
      batch byte size matches the declared one it replaced. */
  lemma NormalizeV1Idempotent(b: Backend, batchSize: uint32, outputs: set<string>, views: map<string, InputView>)
    requires WellFormed(b) && NormalizeV1Spec(b, batchSize, outputs, views).Ok?
    ensures var r := NormalizeV1Spec(b, batchSize, outputs, views).value;
      r.Keys == views.Keys &&
      (forall k :: k in views ==> r[k].originalShape == views[k].originalShape) &&
      NormalizeV1Spec(b, batchSize, outputs, r) == Ok(r)
  {
    var order := SortedKeys(views.Keys);
    SortedDistinct(order);
    assert NormalizeV1Spec(b, batchSize, outputs, views) == NormalizeInputs(b, V1(batchSize), order, views);
    NormalizeInputsV1Idempotent(b, batchSize, order, views);
    var r := NormalizeInputs(b, V1(batchSize), order, views).value;
    assert |r| == |views| by {
      assert |r.Keys| == |views.Keys|;
    }
    assert SortedKeys(r.Keys) == order;
  }

  lemma NormalizeInputsV2Idempotent(b: Backend, order: seq<string>, m1: map<string, InputView>, m2: map<string, InputView>)
    requires WellFormed(b) && Distinct(order)
    requires forall k :: k in order ==> k in m1
    requires NormalizeInputs(b, V2, order, m1).Ok?
    requires m2.Keys == m1.Keys
    requires forall k :: k in m1 ==> m2[k] == NormalizeInputs(b, V2, order, m1).value[k].(shape := m1[k].shape)
    ensures NormalizeInputs(b, V2, order, m2) == NormalizeInputs(b, V2, order, m1)
  {
    NormalizeInputsValues(b, V2, order, m1);
    var r := NormalizeInputs(b, V2, order, m1).value;
    forall k | k in m1
      ensures k in order ==> NormalizeInput(b, V2, k, m2[k]) == NormalizeInput(b, V2, k, m1[k])
      ensures k !in order ==> m2[k] == m1[k]
    {
      if k in order {
        NormalizeInputV2Idempotent(b, k, m1[k]);
      }
    }
    NormalizeInputsCongruent(b, V2, order, m1, m2);
  }

  /** The batch stage reads only the original shapes: on inputs with the
      same names and original shapes it finds the same batch size and the
      same stripped shapes. */
  lemma BatchStageV2SameOriginals(b: Backend, views: map<string, InputView>, r: map<string, InputView>)
    requires r.Keys == views.Keys
    requires forall k :: k in views ==> r[k].originalShape == views[k].originalShape
    requires BatchStageV2(b, SortedKeys(views.Keys), views).Ok?
    ensures BatchStageV2(b, SortedKeys(views.Keys), r).Ok?
    ensures var p := BatchStageV2(b, SortedKeys(views.Keys), views).value;
      var p2 := BatchStageV2(b, SortedKeys(views.Keys), r).value;
      p2.1 == p.1 && p2.0.Keys == r.Keys &&
      forall k :: k in r ==> p2.0[k] == r[k].(shape := p.0[k].shape)
  {
    if b.config.maxBatchSize == 0 {
      V2BatchStageUnbatched(b, views);
      V2BatchStageUnbatched(b, r);
    } else {
      V2BatchStageBatched(b, views);
      V2BatchStageBatched(b, r);
    }
    if views != map[] {
      var k :| k in views;
    }
  }

  /** Normalising a normalised request again is a no-op in V2 as well: the
      batch stage starts again from the unchanged original shapes, finds the
      same batch size and the same stripped shapes. */
  lemma NormalizeV2Idempotent(b: Backend, outputs: set<string>, views: map<string, InputView>)
    requires WellFormed(b) && NormalizeV2Spec(b, outputs, views).Ok?
    ensures var r := NormalizeV2Spec(b, outputs, views).value.0;
      r.Keys == views.Keys &&
      (forall k :: k in views ==> r[k].originalShape == views[k].originalShape) &&
      NormalizeV2Spec(b, outputs, r) == NormalizeV2Spec(b, outputs, views)
  {
    var order := SortedKeys(views.Keys);
    SortedDistinct(order);
    var p := BatchStageV2(b, order, views).value;
    var r := NormalizeInputs(b, V2, order, p.0).value;
    assert NormalizeV2Spec(b, outputs, views) == Ok((r, p.1));
    NormalizeInputsValues(b, V2, order, p.0);
    forall k | k in views
      ensures r[k].originalShape == p.0[k].originalShape == views[k].originalShape
    {
      NormalizeInputKeepsOriginalShape(b, V2, k, p.0[k]);
      BatchStageV2Shapes(b, views);
    }
    assert |r| == |views| by {
      assert |r.Keys| == |views.Keys|;
    }
    BatchStageV2SameOriginals(b, views, r);
    var p2 := BatchStageV2(b, order, r).value;
    NormalizeInputsV2Idempotent(b, order, p.0, p2.0);
    assert NormalizeV2Spec(b, outputs, r) == Ok((r, p.1));
  }

  /** A subset of the configured inputs with as many names as the
      configuration is all of them. */
  lemma SameSizeSubset(a: set<string>, c: set<string>)
    requires a <= c && |a| == |c|
    ensures a == c
  {
    if a != c {
      var x :| x in c && x !in a;
      SubsetCardinality(a, c - {x});
    }
  }

  lemma {:induction false} SubsetCardinality(a: set<string>, c: set<string>)
    requires a <= c
    ensures |a| <= |c|
    decreases |a|
  {
    if a != {} {
      var y :| y in a;
      SubsetCardinality(a - {y}, c - {y});
    }
  }

  lemma NormalizeInputV1Properties(b: Backend, batchSize: uint32, name: string, v: InputView)
    requires WellFormed(b) && NormalizeInputV1(b, batchSize, name, v).Ok?
    ensures name in b.config.inputs
    ensures var w := NormalizeInputV1(b, batchSize, name, v).value;
      var mi := b.config.inputs[name];
      w.dataType == mi.dataType &&
      CompareDimsWithWildcard(TargetDims(mi), w.shape) &&
      w.originalShape == v.originalShape &&
      w.data == v.data
  {
    ShapeV1Properties(b.config.inputs[name], v.originalShape);
  }

  /** What V1 normalisation establishes: it succeeds iff the batch size is
      accepted, every requested output and every input is declared, the
      request has as many inputs as the model, and every input normalises;
      the normalised inputs are then exactly the model's inputs, each with the
      configured datatype, a shape that conforms to its reshape (or dims), its
      original shape and data untouched. */
  lemma NormalizeV1Outcome(b: Backend, batchSize: uint32, outputs: set<string>, views: map<string, InputView>)
    requires WellFormed(b)
    ensures NormalizeV1Spec(b, batchSize, outputs, views).Ok? <==>
      BatchSizeAccepted(batchSize, b.config.maxBatchSize) &&
      outputs <= b.config.outputs &&
      |views| == |b.config.inputs| &&
      forall k :: k in views ==> NormalizeInputV1(b, batchSize, k, views[k]).Ok?
    ensures NormalizeV1Spec(b, batchSize, outputs, views).Ok? ==>
      var r := NormalizeV1Spec(b, batchSize, outputs, views).value;
      r.Keys == views.Keys == b.config.inputs.Keys &&
      forall k :: k in r ==>
        r[k].dataType == b.config.inputs[k].dataType &&
        CompareDimsWithWildcard(TargetDims(b.config.inputs[k]), r[k].shape) &&
        r[k].originalShape == views[k].originalShape &&
        r[k].data == views[k].data
  {
    if BatchSizeAccepted(batchSize, b.config.maxBatchSize) && outputs <= b.config.outputs && |views| == |b.config.inputs| {
      var order := SortedKeys(views.Keys);
      SortedDistinct(order);
      assert NormalizeV1Spec(b, batchSize, outputs, views) == NormalizeInputs(b, V1(batchSize), order, views);
      NormalizeInputsOkIff(b, V1(batchSize), order, views);
      if NormalizeV1Spec(b, batchSize, outputs, views).Ok? {
        NormalizeInputsValues(b, V1(batchSize), order, views);
        var r := NormalizeV1Spec(b, batchSize, outputs, views).value;
        forall k | k in views
          ensures k in b.config.inputs
          ensures r[k].dataType == b.config.inputs[k].dataType
          ensures CompareDimsWithWildcard(TargetDims(b.config.inputs[k]), r[k].shape)
          ensures r[k].originalShape == views[k].originalShape
          ensures r[k].data == views[k].data
        {
          NormalizeInputV1Properties(b, batchSize, k, views[k]);
        }
        SameSizeSubset(views.Keys, b.config.inputs.Keys);
      }
    }
  }

  /** What V2 normalisation establishes, given a successful batch stage
      (V2BatchStageUnbatched, V2BatchStageBatched): the batch size is accepted; every requested output
      and input is declared and every input's stripped shape matches its
      dims; each normalised input has the configured datatype, a shape that
      conforms to its reshape (or dims), data (an empty reference if it had
      none) and a batch byte size equal to the size of that data. */
  lemma NormalizeV2Outcome(b: Backend, outputs: set<string>, views: map<string, InputView>)
    requires WellFormed(b) && NormalizeV2Spec(b, outputs, views).Ok?
    ensures var (r, batch) := NormalizeV2Spec(b, outputs, views).value;
      BatchSizeAccepted(batch, b.config.maxBatchSize) &&
      outputs <= b.config.outputs &&
      r.Keys == views.Keys == b.config.inputs.Keys &&
      forall k :: k in r ==>
        r[k].dataType == b.config.inputs[k].dataType &&
        CompareDimsWithWildcard(TargetDims(b.config.inputs[k]), r[k].shape) &&
        r[k].originalShape == views[k].originalShape &&
        r[k].data == (if views[k].data.None? then Some([]) else views[k].data) &&
        r[k].batchByteSize == TotalByteSize(r[k].data.value)
  {
    var order := SortedKeys(views.Keys);
    SortedDistinct(order);
    var p := BatchStageV2(b, order, views).value;
    var r := NormalizeInputs(b, V2, order, p.0).value;
    assert NormalizeV2Spec(b, outputs, views) == Ok((r, p.1));
    NormalizeInputsValues(b, V2, order, p.0);
    forall k | k in views
      ensures k in b.config.inputs
      ensures r[k].dataType == b.config.inputs[k].dataType
      ensures CompareDimsWithWildcard(TargetDims(b.config.inputs[k]), r[k].shape)
      ensures r[k].originalShape == views[k].originalShape
      ensures r[k].data == (if views[k].data.None? then Some([]) else views[k].data)
      ensures r[k].batchByteSize == TotalByteSize(r[k].data.value)
    {
      NormalizeInputV2Properties(b, k, p.0[k]);
      BatchStageV2Shapes(b, views);
    }
    SameSizeSubset(views.Keys, b.config.inputs.Keys);
  }
}
