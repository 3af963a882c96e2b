/** The parts of a model's configuration and of its backend that the request
    normaliser consults (backend.h, model_config.proto and
    model_config_utils.cc are not part of this model; their behaviour is stated
    here as the contracts the normaliser relies on). */
module ModelConfig {
  import opened Common

  /** The configuration's -1 dimension: "any size". */
  const WildcardDim: int := -1

  datatype DataType =
    | TypeInvalid | TypeBool
    | TypeUint8 | TypeUint16 | TypeUint32 | TypeUint64
    | TypeInt8 | TypeInt16 | TypeInt32 | TypeInt64
    | TypeFp16 | TypeFp32 | TypeFp64
    | TypeString

  /** GetDataTypeByteSize: bytes per element; 0 for the variable-size string
      type and for the invalid type. */
  function DataTypeByteSize(t: DataType): nat
  {
    match t
    case TypeBool | TypeUint8 | TypeInt8 => 1
    case TypeUint16 | TypeInt16 | TypeFp16 => 2
    case TypeUint32 | TypeInt32 | TypeFp32 => 4
    case TypeUint64 | TypeInt64 | TypeFp64 => 8
    case TypeInvalid | TypeString => 0
  }

  /** IsFixedSizeDataType: every type but the string type. */
  predicate IsFixedSizeDataType(t: DataType)
  {
    t != TypeString
  }

  /** Product of the dimensions (1 for no dimension). */
  function Product(dims: seq<int>): int
  {
    if dims == [] then 1 else dims[0] * Product(dims[1..])
  }

  /** GetElementCount: -1 if any dimension is the wildcard, 0 for a rank-0
      shape (the C++ loop never assigns its count then), otherwise the
      product of the dimensions. */
  function ElementCount(dims: seq<int>): int
  {
    if WildcardDim in dims then -1 else if dims == [] then 0 else Product(dims)
  }

  /** GetByteSize: -1 when the element size or count is unknown, otherwise
      element count times element size. */
  function GetByteSize(t: DataType, dims: seq<int>): int
  {
    var size := DataTypeByteSize(t);
    var count := ElementCount(dims);
    if size == 0 || count == -1 then -1 else count * size
  }

  /** CompareDimsWithWildcard, with the contract the normaliser relies on:
      same rank, and every position either equal or a wildcard in the
      configuration. */
  predicate CompareDimsWithWildcard(configDims: seq<int>, shape: seq<int>)
  {
    |configDims| == |shape| &&
    forall i :: 0 <= i < |shape| ==> configDims[i] == WildcardDim || configDims[i] == shape[i]
  }

  /** Number of wildcard dimensions in a dimension list. */
  function WildcardCount(dims: seq<int>): nat
  {
    if dims == [] then 0 else (if dims[0] == WildcardDim then 1 else 0) + WildcardCount(dims[1..])
  }

  /** ModelInput of the configuration: datatype, dims, optional reshape and
      whether the input is a shape tensor. */
  datatype ModelInput = ModelInput(dataType: DataType, dims: seq<int>, reshape: Option<seq<int>>, isShapeTensor: bool)

  /** ModelConfig: the maximum batch size (0: no batching), the declared
      inputs by name and the names of the declared outputs. */
  datatype ModelConfig = ModelConfig(maxBatchSize: int32, inputs: map<string, ModelInput>, outputs: set<string>)

  /** The backend capabilities the request uses: Config(), GetInput,
      GetOutput, MaxPriorityLevel() and DefaultPriorityLevel(). */
  datatype Backend = Backend(name: string, version: int, config: ModelConfig, maxPriorityLevel: uint32, defaultPriorityLevel: uint32)

  /** A reshape never asks for more wildcard values than the dims supply:
      the normaliser pops one queued value per -1 of the reshape, and popping
      an empty std::deque is undefined. The server validates configurations
      when it loads a model, so every backend is assumed to satisfy this. */
  predicate ReshapeWellFormed(mi: ModelInput)
  {
    mi.reshape.Some? ==> WildcardCount(mi.reshape.value) <= WildcardCount(mi.dims)
  }

  predicate WellFormed(b: Backend)
  {
    forall name :: name in b.config.inputs ==> ReshapeWellFormed(b.config.inputs[name])
  }

  /** GetInput: the configuration of a named input, or NOT_FOUND. */
  function GetInput(b: Backend, name: string): (r: Result<ModelInput>)
    ensures r.Ok? <==> name in b.config.inputs
    ensures r.Ok? ==> r.value == b.config.inputs[name]
    ensures r.Err? ==> r.code == NotFound
  {
    if name in b.config.inputs then Ok(b.config.inputs[name]) else Err(NotFound)
  }

  /** GetOutput: success iff the configuration declares the output. */
  function GetOutput(b: Backend, name: string): (s: Status)
    ensures s.Success? <==> name in b.config.outputs
    ensures s.Failure? ==> s.code == NotFound
  {
    if name in b.config.outputs then Success else Failure(NotFound)
  }
}
