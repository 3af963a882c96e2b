# Inference request and response core of the Triton inference server

This project models the core of the server's request and response objects,
`src/core/infer_request.cc` and `src/core/infer_response.cc`, and proves
properties of that model.

**Requests.** An `InferenceRequest` holds three maps of inputs:
- the original inputs the client adds;
- the override inputs added during execution;
- the effective inputs, which overlay the overrides on the originals.

It also holds the requested outputs, a batch size, a priority and a dirty
flag (`needs_normalization_`). Every structural mutation sets the flag.
`PrepareForInference` then normalises the request against the model's
configuration, using one of two protocol variants:
- **V1** checks the client's batch size. It then derives each input's shape
  (rewritten into the configuration's reshape, if there is one) and its batch
  byte size.
- **V2** derives the batch size from the inputs' leading dimensions and strips
  that dimension from each shape. It then checks each shape, applies the
  reshape and takes the byte size from the input's data.

**Responses.** An `InferenceResponse::Output` holds at most one buffer. It gets
the buffer from the client's allocator callback and returns it through the
release callback.

## How the model is built

- **`Normalize`** states both normalisers as functions on values. An input is
  an `InputView`, and the inputs are a map from name to view. `std::map`'s
  iteration order is modelled exactly: `OrderedKeys.SortedKeys` gives
  lexicographic key order. That order decides which error is reported first.
- **Imperative classes.** `InferRequest.Input` and
  `InferRequest.InferenceRequest` are classes whose methods update their fields.
  The normalising loops walk `SortedKeys` of the input map and update each
  `Input` object in place. Each loop is proved equal to the value-level
  function.
- **Facts about the normalisers** are lemmas in `Normalize`:
  - success conditions, in both directions;
  - the resulting datatypes and shapes;
  - the FIFO reshape rule;
  - idempotence of a second normalisation;
  - which error comes first.
- **Output buffers.** `InferResponse` models the buffer as a small state
  machine. Every callback call is recorded in a ghost log. A lemma proves that
  every granted buffer is released exactly once, with the values recorded at
  allocation.
- **Fixed-width integers** are written out explicitly:
  - `uint64_t` wrap-around: `Common.U64`;
  - the `(int)` cast of a `uint32_t`: `Common.Int32Of`;
  - storing an `int64_t` in a `uint32_t`: `Common.U32`.
- **Callbacks and the backend.** The backend (model configuration, priority
  levels) is a value `ModelConfig.Backend`. The replies of the allocator
  callbacks are parameters of the methods that call them.

Two checks in the code do not do what the source's own comments say they
do (see "## Findings"):
- The comment at lines 332-333 and 340-342 of infer_request.cc asks for a
  batch size of at least 1 and at most the model's maximum. The `(int)` cast
  at lines 343-344 and 567-568 lets every batch size from 2^31 upwards pass.
- The comment at lines 526-528 says every input must have the same first
  dimension, which is the batch size. Lines 541-549 let a first input whose
  leading dimension is 0 (or truncates to another input's value) pass with
  a different batch size.

For each, `Normalize` holds both the check as written
(`BatchSizeAcceptedAsWritten`, `StripBatchDimsAsWritten`) with a
counterexample, and the check the comments describe (`BatchSizeAccepted`,
`StripBatchDims`). The request-level model uses the second: `NormalizeV1Spec`,
`NormalizeV2Spec`, `BatchStageV2` and every method proved against them accept
exactly the requests the comments describe, not the ones the code as written
lets through. "## Left out" lists each such member.

The batch byte size that one V1 normalisation writes into an input is read
back as the declared size at line 471 by the next one. The model keeps this:
`ByteSizeV1` takes the stored size as its `declared` argument.

## Model

| member | source | states |
|---|---|---|
| `Common.U64` | src/core/infer_request.cc:457-466 | a `uint64_t` value is below 2^64, equals the exact value when that is in range, and is congruent to it modulo 2^64 |
| `Common.U64Mul` | src/core/infer_request.cc:459-465 | the in-place `bs *= multiplier` on a wrapped value gives the wrapped exact product |
| `Common.Int32Of` | src/core/infer_request.cc:343-344 | the `(int)` cast keeps a batch size below 2^31 and makes every larger one negative |
| `Common.U32` | src/core/infer_request.cc:541-542 | an `int64_t` dimension stored in the `uint32_t` batch size is exact when in range |
| `MemoryTypes.TritonMemTypeToTrt` | src/core/infer_request.cc:36-49 | CPU maps to CPU, pinned to pinned and GPU to GPU, each if and only if |
| `MemoryTypes.TrtMemTypeToTriton` | src/core/infer_request.cc:51-64 | the reverse conversion, again as if-and-only-if clauses |
| `MemoryTypes.MemTypeRoundTrip` | src/core/infer_request.cc:36-64 | the two conversions are inverse in both directions |
| `Memory.TotalByteSizeAppend` | src/core/infer_request.cc:687-690 | appending a segment grows the data's total size by exactly its length |
| `ModelConfig.GetInput` | src/core/infer_request.cc:370-371 | the backend's input lookup succeeds iff the configuration declares the input, returns its configuration, and fails with NOT_FOUND otherwise |
| `ModelConfig.GetOutput` | src/core/infer_request.cc:352-356 | the output lookup succeeds iff the configuration declares the output, else NOT_FOUND |
| `OrderedKeys.SortedKeys` | src/core/infer_request.cc:369 | `std::map` iteration visits every key exactly once, in strictly increasing lexicographic order |
| `OrderedKeys.SortedDistinct` | src/core/infer_request.cc:369 | an increasing key sequence visits no key twice |
| `Reshape.WildcardValues` | src/core/infer_request.cc:396-401 | the queue holds one value per -1 of the configuration dims |
| `Reshape.Fill` | src/core/infer_request.cc:403-411 | the rebuilt shape has the reshape's rank |
| `Reshape.ReshapeKeepsFixedDims` | src/core/infer_request.cc:404-411 | every fixed reshape dimension is copied to the same position |
| `Reshape.ReshapeWildcardsFifo` | src/core/infer_request.cc:395-412 | the i-th -1 of the reshape receives the request's dimension at the i-th -1 of the dims (FIFO) |
| `Reshape.ReshapedConforms` | src/core/infer_request.cc:611-632 | the rewritten shape matches the reshape under the wildcard comparison |
| `Reshape.WildcardQueue` | src/core/infer_request.cc:396-401 | the queue-filling loop yields exactly `WildcardValues` |
| `Reshape.ResolveReshape` | src/core/infer_request.cc:395-412 | the two loops (fill the deque, rebuild popping its front) yield exactly `ReshapedShape` |
| `Normalize.NormalizedPriority` | src/core/infer_request.cc:328-330 | a priority of 0 or above the maximum becomes the default; any other is kept |
| `Normalize.PriorityNormalization` | src/core/infer_request.cc:496-498 | priority normalisation is idempotent, and it yields a valid level whenever the default is valid |
| `Normalize.BatchSizeAcceptedAsWritten` | src/core/infer_request.cc:334-350 | the batch-size check as written, with the `(int)` cast: an accepted batch size is at least 1, and below 2^31 it is at most the maximum (or exactly 1 without batching) |
| `Normalize.BatchSizeAccepted` | src/core/infer_request.cc:332-350 | the check the comments describe: an accepted batch size lies between 1 and the maximum (exactly 1 without batching) |
| `Normalize.BatchSizeCastCounterexample` | src/core/infer_request.cc:343-344 | the check as written accepts batch size 2^31 for a model whose maximum is 4; the intended check rejects it |
| `Normalize.BatchSizeAcceptedBounds` | src/core/infer_request.cc:332-350 | the intended check always accepts 1, accepts only 1 without batching and exactly 1..max with batching; it agrees with the code below 2^31 and only ever rejects more |
| `Normalize.ShapeV1` | src/core/infer_request.cc:376-437 | the V1 shape fails only with INVALID_ARG, and always when the client's non-empty shape does not match the dims |
| `Normalize.ShapeV1Properties` | src/core/infer_request.cc:376-437 | a V1 shape conforms to the reshape (or dims); it fails, always with INVALID_ARG, iff the client's shape mismatches the dims or no client shape was given and the target dims have a negative dimension; without a client shape it is the target dims |
| `Normalize.ByteSizeV1` | src/core/infer_request.cc:457-485 | the V1 batch byte size fails only with INVALID_ARG, only for a fixed-size datatype with a non-zero declared size; a non-zero declared size that is accepted is the result; a computed size is below 2^64 |
| `Normalize.ByteSizeV1IsFullBatchTensorSize` | src/core/infer_request.cc:439-478 | for a batching model, the fixed-size byte size is the element size times the element count of [batch-size] + shape; a different declared size is rejected |
| `Normalize.ByteSizeV1VariableSize` | src/core/infer_request.cc:479-483 | a variable-size datatype keeps the declared size and never fails |
| `Normalize.NormalizeInputV1` | src/core/infer_request.cc:369-486 | one V1 input: an undeclared name fails with NOT_FOUND; a result has the configured datatype and keeps the original shape and data |
| `Normalize.NormalizeInputV2` | src/core/infer_request.cc:578-644 | one V2 input: an undeclared name fails with NOT_FOUND; a result has the configured datatype, keeps the original shape and always has data |
| `Normalize.NormalizeInputV2Properties` | src/core/infer_request.cc:579-643 | a V2 input normalises iff it is declared and its stripped shape matches the dims (error NOT_FOUND or INVALID_ARG); the result has the configured datatype, a conforming shape, data (empty if none) and a byte size equal to the data's size |
| `Normalize.NormalizeInputV2Idempotent` | src/core/infer_request.cc:579-643 | normalising a V2 input again from the same stripped shape changes nothing |
| `Normalize.NormalizeInputKeepsOriginalShape` | src/core/infer_request.cc:369-486 | normalising an input never changes its original shape |
| `Normalize.NormalizeInputs` | src/core/infer_request.cc:369-486 | the per-input loop keeps the set of input names |
| `Normalize.NormalizeInputsOkIff` | src/core/infer_request.cc:369-486 | the loop succeeds iff every input normalises on its own |
| `Normalize.NormalizeInputsValues` | src/core/infer_request.cc:369-486 | on success each visited input becomes its own normalisation and the others are untouched |
| `Normalize.NormalizeInputsFirstError` | src/core/infer_request.cc:578-644 | on failure the reported error is that of the first input in map order that does not normalise |
| `Normalize.NormalizeInputsCongruent` | src/core/infer_request.cc:578-644 | the loop's outcome depends only on what each visited input normalises to |
| `Normalize.StripBatchDims` | src/core/infer_request.cc:530-553 | the batch-dimension pass keeps the set of input names |
| `Normalize.StripBatchDimsAsWritten` | src/core/infer_request.cc:530-553 | the batch-dimension pass as written (0 meaning "no batch yet", truncation to `uint32_t`) keeps the set of input names |
| `Normalize.BatchDimCounterexample` | src/core/infer_request.cc:541-549 | as written, inputs [0, 3] and [8, 5], visited in that order, pass with batch size 8; the intended pass rejects them |
| `Normalize.BatchDimTruncationCounterexample` | src/core/infer_request.cc:541-543 | as written, inputs [2^32 + 8, 3] and [8, 5] pass with batch size 8; the intended pass rejects them |
| `Normalize.StripBatchDimsOk` | src/core/infer_request.cc:530-553 | the intended pass succeeds iff every input has a leading dimension equal to the first one; each visited shape becomes the original shape without it, and the batch is recorded |
| `Normalize.KeepOriginalShapes` | src/core/infer_request.cc:521-524 | resetting the shapes keeps the set of input names |
| `Normalize.KeepOriginalShapesAt` | src/core/infer_request.cc:517-524 | without batching each visited shape becomes its original shape and nothing else changes |
| `Normalize.V2BatchStageUnbatched` | src/core/infer_request.cc:517-524 | a model without batching gets batch size 1 and every shape reset to the original shape |
| `Normalize.V2BatchStageBatched` | src/core/infer_request.cc:525-553 | with batching the stage succeeds iff every input has a leading dimension and all agree; the batch size is then that dimension (0 without inputs) and each shape has it stripped |
| `Normalize.BatchStageV2` | src/core/infer_request.cc:516-554 | the batch stage (with the intended check) keeps the set of input names, and without batching always succeeds with batch size 1 |
| `Normalize.BatchStageV2Batch` | src/core/infer_request.cc:517-542 | a successful batch stage reports the batch size it wrote: 1 without batching, otherwise the first input's leading dimension (0 without inputs) |
| `Normalize.BatchStageV2Shapes` | src/core/infer_request.cc:516-554 | the batch stage changes nothing but the shapes |
| `Normalize.NormalizeV1Spec` | src/core/infer_request.cc:332-486 | V1 after the priority, with the intended batch-size check: a result keeps the input names and implies an accepted batch size and declared outputs; an undeclared output with an accepted batch size fails with NOT_FOUND |
| `Normalize.NormalizeV2Spec` | src/core/infer_request.cc:500-644 | V2 after the priority, with the intended batch checks: a result keeps the input names and has an accepted batch size and declared outputs; an undeclared output fails with NOT_FOUND |
| `Normalize.NormalizeInputV1Idempotent` | src/core/infer_request.cc:369-486 | one V1 input normalised a second time stays as it is |
| `Normalize.NormalizeInputsV1Idempotent` | src/core/infer_request.cc:369-486 | the V1 loop applied to its own result returns that result |
| `Normalize.NormalizeV1Idempotent` | src/core/infer_request.cc:323-489 | V1 normalisation of an already normalised request is a no-op |
| `Normalize.NormalizeInputsV2Idempotent` | src/core/infer_request.cc:578-644 | the V2 loop, started again from the stripped shapes, gives the same result |
| `Normalize.BatchStageV2SameOriginals` | src/core/infer_request.cc:516-554 | the batch stage reads only the original shapes, so a normalised request gets the same batch size and stripped shapes again |
| `Normalize.NormalizeV2Idempotent` | src/core/infer_request.cc:491-647 | V2 normalisation of an already normalised request is a no-op |
| `Normalize.SameSizeSubset` | src/core/infer_request.cc:358-366 | a subset of the configured input names with as many names as the configuration is all of them, which is why the count check plus the per-input lookups leave exactly the configured inputs |
| `Normalize.NormalizeInputV1Properties` | src/core/infer_request.cc:369-437 | a normalised V1 input is declared, has the configured datatype and a conforming shape, and keeps its original shape and data |
| `Normalize.NormalizeV1Outcome` | src/core/infer_request.cc:323-489 | V1 succeeds iff the batch size is accepted, every requested output is declared, the input count matches and every input normalises; the result then has exactly the model's inputs, typed and shaped as configured |
| `Normalize.NormalizeV2Outcome` | src/core/infer_request.cc:491-647 | a successful V2 normalisation has an accepted batch size, declared outputs, exactly the model's inputs, configured datatypes, conforming shapes, data, and byte sizes equal to the data sizes |
| `InferRequest.Input.constructor` | src/core/infer_request.cc:654-659 | a new input has the given name, original shape and batch byte size, an invalid datatype, no shape and no data |
| `InferRequest.Input.Typed` | src/core/infer_request.cc:661-667 | a new typed input has the given datatype and original shape and a byte size of 0 |
| `InferRequest.Input.Sized` | src/core/infer_request.cc:669-675 | a new typed input has the given datatype, original shape and batch byte size |
| `InferRequest.Input.AppendData` | src/core/infer_request.cc:678-693 | creates the data if missing, appends one segment unless it is empty, grows the total size by exactly the byte size, and changes nothing else |
| `InferRequest.Input.AppendDataTriton` | src/core/infer_request.cc:695-702 | the same after converting the memory type |
| `InferRequest.Input.SetData` | src/core/infer_request.cc:704-716 | refuses with INVALID_ARG when data is present, otherwise installs it |
| `InferRequest.Input.RemoveAllData` | src/core/infer_request.cc:718-723 | drops the data and nothing else |
| `InferRequest.Input.Content` | src/core/infer_request.cc:725-739 | zero bytes requested yields null with the memory type and id untouched; otherwise the idx-th segment, or a null CPU buffer past the end |
| `InferRequest.ResolveShapeV1` | src/core/infer_request.cc:376-437 | the V1 shape loop computes exactly `ShapeV1` |
| `InferRequest.ResolveByteSizeV1` | src/core/infer_request.cc:457-485 | the V1 byte-size code computes exactly `ByteSizeV1`, in 64-bit arithmetic |
| `InferRequest.NormalizeInputV1Step` | src/core/infer_request.cc:369-486 | the V1 loop body brings one input to `NormalizeInputV1` and keeps its original shape and data; after an error an undeclared input is untouched, a declared one has its configured datatype, its original shape after a shape mismatch or its computed shape after a byte-size mismatch, and its old byte size |
| `InferRequest.NormalizeInputV2Step` | src/core/infer_request.cc:578-644 | the V2 loop body brings one input to `NormalizeInputV2` and keeps its original shape; after an error only the datatype may have changed, to the configured one |
| `InferRequest.NormalizeInputStep` | src/core/infer_request.cc:369-372 | the loop body of either protocol brings one input to `NormalizeInput` |
| `InferRequest.NormalizeEach` | src/core/infer_request.cc:369-486 | the loop over the input objects, in map order, reports `NormalizeInputs`' status and leaves the inputs at its result |
| `InferRequest.KeepShapes` | src/core/infer_request.cc:517-524 | the non-batching loop leaves the inputs at `KeepOriginalShapes` |
| `InferRequest.StripBatchDimensions` | src/core/infer_request.cc:525-553 | the batching loop reports the status of `StripBatchDims` (the intended check) and leaves its shapes and batch size |
| `InferRequest.BatchStage` | src/core/infer_request.cc:516-554 | the batch stage on the input objects agrees with `BatchStageV2` (the intended check), and the batch size it leaves, failed or not, is `StageBatch` |
| `InferRequest.ShowInputs` | src/core/infer_request.cc:314-316 | the effective-input map built from the originals holds exactly the original inputs under their names |
| `InferRequest.CheckRequestedOutputs` | src/core/infer_request.cc:352-356 | succeeds iff every requested output is declared, else NOT_FOUND |
| `InferRequest.NormalizeOriginalsV1` | src/core/infer_request.cc:332-486 | V1 after the priority on the input objects agrees with `NormalizeV1Spec` (the intended batch-size check) |
| `InferRequest.NormalizeOriginalsV2` | src/core/infer_request.cc:500-644 | V2 after the priority on the input objects agrees with `NormalizeV2Spec` (the intended checks), including the batch size; the output and count checks leave the batch size untouched, and from the batch stage on it is the one the stage wrote |
| `InferRequest.InferenceRequest.MutableOriginalInput` | src/core/infer_request.cc:84-98 | a missing name fails with INVALID_ARG and changes nothing; otherwise returns that input and marks the request dirty |
| `InferRequest.InferenceRequest.ImmutableInput` | src/core/infer_request.cc:100-113 | succeeds iff the effective inputs hold the name, returning that input; otherwise INVALID_ARG |
| `InferRequest.InferenceRequest.MutableRequestedOutput` | src/core/infer_request.cc:115-129 | a missing name fails with INVALID_ARG; otherwise returns that output and marks the request dirty |
| `InferRequest.InferenceRequest.AddOriginalInput` | src/core/infer_request.cc:132-166 | a duplicate name fails with INVALID_ARG and changes nothing; otherwise adds exactly that key with a new input and marks the request dirty |
| `InferRequest.InferenceRequest.AddOriginalInputTyped` | src/core/infer_request.cc:168-189 | the same for the typed overload |
| `InferRequest.InferenceRequest.RemoveOriginalInput` | src/core/infer_request.cc:191-202 | a missing name fails with INVALID_ARG; otherwise removes exactly that key and marks the request dirty |
| `InferRequest.InferenceRequest.RemoveAllOriginalInputs` | src/core/infer_request.cc:204-210 | empties the originals and marks the request dirty |
| `InferRequest.InferenceRequest.AddOverrideInputNew` | src/core/infer_request.cc:212-228 | creates an input whose shape is its original shape and adds it as an override |
| `InferRequest.InferenceRequest.AddOverrideInput` | src/core/infer_request.cc:230-253 | the override and the effective input of that name both become this input, replacing any earlier one; a clean request stays a projection |
| `InferRequest.InferenceRequest.AddRequestedOutput` | src/core/infer_request.cc:255-268 | a duplicate fails with INVALID_ARG; otherwise adds exactly that output and marks the request dirty |
| `InferRequest.InferenceRequest.RemoveRequestedOutput` | src/core/infer_request.cc:270-281 | a missing name fails with INVALID_ARG; otherwise removes it and marks the request dirty |
| `InferRequest.InferenceRequest.RemoveAllRequestedOutputs` | src/core/infer_request.cc:283-289 | empties the requested outputs and marks the request dirty |
| `InferRequest.InferenceRequest.NormalizeV1` | src/core/infer_request.cc:323-489 | normalises the priority, then reports `NormalizeV1Spec`'s status and, on success, leaves the originals at its result |
| `InferRequest.InferenceRequest.NormalizeV2` | src/core/infer_request.cc:491-647 | normalises the priority, then reports `NormalizeV2Spec`'s status and, on success, leaves the originals and the batch size at its result; a failed output or count check leaves the batch size untouched, and any later outcome leaves the one the batch stage wrote |
| `InferRequest.InferenceRequest.Renormalize` | src/core/infer_request.cc:301-309 | a dirty request is normalised by its protocol version and cleaned only on success; a clean one is untouched |
| `InferRequest.InferenceRequest.PrepareForInference` | src/core/infer_request.cc:291-321 | drops the overrides, normalises only a dirty request, clears the flag only on success, and then makes the effective inputs exactly the originals; a clean request is left as it is |
| `InferResponse.AllocateOutcome` | src/core/infer_response.cc:87-117 | allocation succeeds iff no buffer is held and the callback grants one; ALREADY_EXISTS while one is held; a failure changes nothing; a success records the granted buffer, the requested size, and the chosen memory type, id and token |
| `InferResponse.ReleaseCallsOfAppend` | src/core/infer_response.cc:119-140 | release calls for two lists of buffers are the concatenation of each list's calls |
| `InferResponse.ReleasedExactlyOnce` | src/core/infer_response.cc:66-140 | over any sequence of allocations and releases followed by destruction, every held or granted buffer is released exactly once, in order, with the recorded values, and no other release is made |
| `InferResponse.AllocateReleaseScenario` | src/core/infer_response.cc:87-140 | a second allocation fails with ALREADY_EXISTS and changes nothing; a release with nothing held is a successful no-op; allocate, release and destroy make exactly one release call |
| `InferResponse.ResponseAllocator.Alloc` | src/core/infer_response.cc:102-106 | the alloc callback is called once with these arguments and its reply is returned |
| `InferResponse.ResponseAllocator.Release` | src/core/infer_response.cc:124-129 | the release callback is called once with these arguments and its reply is returned |
| `InferResponse.Output.constructor` | src/core/infer_response.cc:55-56 | a new output holds no buffer |
| `InferResponse.Output.Buffer` | src/core/infer_response.cc:75-85 | reports the recorded buffer, size, memory type and id |
| `InferResponse.Output.AllocateBuffer` | src/core/infer_response.cc:87-117 | follows `AllocateOutcome`: ALREADY_EXISTS while holding a buffer, with no callback call; the callback's error with nothing recorded; otherwise the buffer, size, actual memory type and id and token are recorded and reported |
| `InferResponse.Output.ReleaseBuffer` | src/core/infer_response.cc:119-140 | calls the release callback with the recorded values iff a buffer is held, always returns to the empty state, and returns the callback's error |
| `InferResponse.Output.Destroy` | src/core/infer_response.cc:66-73 | the destructor releases any held buffer exactly once and swallows the error |
| `InferResponse.InferenceResponse.AddOutput` | src/core/infer_response.cc:50-61 | appends exactly one new empty output sharing the response's allocator and keeps the earlier outputs in order |
| `InferResponse.InferenceResponseFactory.CreateResponse` | src/core/infer_response.cc:37-45 | a new empty response carrying the factory's backend, id and allocator |

## Left out

- `Run`, `ModelName` and `ActualModelVersion` (lines 66-81 of infer_request.cc) only forward to the backend and are not modelled.
- Logging and the `operator<<` printers are not modelled in either file. The same goes for error message texts: a status carries only its code.
- The `RequestedOutput` constructor and the default `Input()` constructor are not modelled. A `RequestedOutput` is a plain datatype.
- The `InferenceRequest` constructor and the `Output` and `InferenceResponse` constructors live in headers that are not part of this model. They are modelled by their evident effect.
- Buffer contents are not modelled: a segment is a pointer, a length and a memory type and id.
- `MemoryReference` (`AddBuffer`, `TotalByteSize`, `BufferAt`) is outside this model. Its behaviour is stated by `Memory.TotalByteSize` and `Memory.BufferAt`.
- `InferRequest.InferenceRequest.MutableRequestedOutput`: returns the requested output by value, so an update through the returned pointer is not modelled.
- Override inputs shared through `shared_ptr`: the sharing is modelled as object references. Lifetime and reference counting are not modelled.
- `ModelConfig.GetInput` and `ModelConfig.GetOutput` stand for the backend's lookups, which are not part of this model. Their NOT_FOUND errors and `CompareDimsWithWildcard`, `GetByteSize` and `GetElementCount` are stated as the normaliser relies on them.
- Every backend is assumed to satisfy `ModelConfig.WellFormed`: each reshape has no more -1 dimensions than the input's dims. Nothing in infer_request.cc checks this; without it, the source's `pop_front` on an empty deque would be undefined.
- `Normalize.NormalizeV1Spec`: uses the intended batch-size check `BatchSizeAccepted`, not the `(int)` cast of lines 343-344; a batch size of 2^31 or more is rejected here and accepted by the code as written (`BatchSizeAcceptedAsWritten`).
- `Normalize.NormalizeV2Spec`: uses the intended batch stage and batch-size check, not lines 541-549 and 567-568 as written; inputs [0, 3] and [8, 5] are rejected here and accepted by the code as written (`StripBatchDimsAsWritten`).
- `Normalize.BatchStageV2`: the intended batch stage built on `StripBatchDims`, not lines 541-549 as written.
- `InferRequest.StripBatchDimensions`: implements the intended pass `StripBatchDims`, not lines 541-549 as written (see Findings, row 2).
- `InferRequest.BatchStage`: agrees with the intended `BatchStageV2`, so it rejects inputs such as [0, 3] and [8, 5] that the code as written accepts; the batch size it leaves is the first input's leading dimension, which `NormalizeOriginalsV2` truncates to 32 bits.
- `InferRequest.NormalizeOriginalsV1`: compares the batch size without the `(int)` cast (see Findings, row 1).
- `InferRequest.NormalizeOriginalsV2`: uses the intended batch stage and batch-size check (see Findings, rows 1 and 2).
- `InferRequest.InferenceRequest.NormalizeV1`: reports the status of `NormalizeV1Spec`, so it inherits the intended batch-size check. After an error only the status and the priority are stated.
- `InferRequest.InferenceRequest.NormalizeV2`: reports the status of `NormalizeV2Spec`, so it inherits the intended batch checks. After an error the inputs' partial rewrite is not stated; the batch size is.
- `InferRequest.NormalizeEach`: after an error only the status is stated. The inputs visited before the failing one are rewritten and the failing one is left as `NormalizeInputV1Step` or `NormalizeInputV2Step` state, but the loop's contract does not say so.
- `InferRequest.NormalizeInputV1Step`: when the client gave no shape and a configuration dimension is negative, the source leaves the dimensions copied so far in the shape (lines 426-435). The model leaves the empty original shape there, and its contract does not state the shape in that case.
- `InferRequest.InferenceRequest.PrepareForInference`: after a failed normalisation, the partially rewritten inputs are not stated. The status, the cleared maps and the dirty flag are. Its status comes from the intended batch checks, so it refuses requests such as a V1 batch size of 2^31 or V2 inputs [0, 3] and [8, 5], which the code as written prepares.
- `InferRequest.InferenceRequest.Renormalize`: the same as `PrepareForInference` on failure. Its status is that of `NormalizeV1Spec` or `NormalizeV2Spec`, so it inherits their intended batch checks.
- `Normalize.NormalizeV2Outcome`: states what a successful V2 normalisation implies, not an if-and-only-if. The batch stage's own if-and-only-if is `Normalize.V2BatchStageBatched`, and the per-input one is `Normalize.NormalizeInputsOkIff`.
- `InferRequest.Input.Content`: requires data when a non-zero size is asked for. The source would dereference a null pointer there.
- `InferResponse.Output.AllocateBuffer`: on a callback error the returned buffer is modelled as null. The source leaves whatever the callback wrote.
- `Normalize.ByteSizeV1`: the element count (`GetElementCount`) is an `int64_t` in the source. Its overflow for huge shapes is not modelled; only the final `uint64_t` wrap-around is.

## Findings

| source | as written | input that shows it | evidently intended | confidence | as-written member | corrected member |
|---|---|---|---|---|---|---|
| src/core/infer_request.cc:343-344, 567-568 | `(int)batch_size_ > max_batch_size()` casts the `uint32_t` batch size to `int`, so every batch size of 2^31 or more compares as negative and passes the upper-bound check | batch size 2^31 (0x80000000) for a model with `max_batch_size` 4 | a batch size other than 1 is accepted only if it is at most `max_batch_size` | not executed | `Normalize.BatchSizeAcceptedAsWritten`, `Normalize.BatchSizeCastCounterexample` | `Normalize.BatchSizeAccepted`, `Normalize.BatchSizeAcceptedBounds` |
| src/core/infer_request.cc:541-549 | the V2 batch size is taken from the first leading dimension seen while `batch_size_` is still 0, truncated to `uint32_t`. A first input with leading dimension 0, or one that truncates to 0 or to another input's value, does not fix the batch, so disagreeing inputs are accepted | inputs "a" of shape [0, 3] and "b" of shape [8, 5] give batch size 8 with no error; likewise "a" of shape [2^32 + 8, 3] and "b" of shape [8, 5] | the first input fixes the batch size and any later mismatch fails with INVALID_ARG | not executed | `Normalize.StripBatchDimsAsWritten`, `Normalize.BatchDimCounterexample`, `Normalize.BatchDimTruncationCounterexample` | `Normalize.StripBatchDims`, `Normalize.StripBatchDimsOk`, `Normalize.V2BatchStageBatched` |
