/** Reshape rewriting (infer_request.cc, shared by both normalisers): the
    values a request gives at the configuration's wildcard dimensions are
    queued left to right, and the reshape's own dimension list is then
    rebuilt, each -1 taking the next queued value. */
module Reshape {
  import opened ModelConfig

  /** The values of `shape` at the wildcard positions of `dims`, left to
      right: the contents of the queue once it has been filled. */
  function WildcardValues(dims: seq<int>, shape: seq<int>): (r: seq<int>)
    requires |dims| == |shape|
    ensures |r| == WildcardCount(dims)
  {
    if dims == [] then []
    else (if dims[0] == WildcardDim then [shape[0]] else []) + WildcardValues(dims[1..], shape[1..])
  }

  /** The reshape dims with each -1 replaced by the next queued value. */
  function Fill(reshape: seq<int>, queue: seq<int>): (r: seq<int>)
    requires WildcardCount(reshape) <= |queue|
    ensures |r| == |reshape|
  {
    if reshape == [] then []
    else if reshape[0] == WildcardDim then [queue[0]] + Fill(reshape[1..], queue[1..])
    else [reshape[0]] + Fill(reshape[1..], queue)
  }

  /** The shape a request takes once rewritten into the reshape. */
  function ReshapedShape(dims: seq<int>, shape: seq<int>, reshape: seq<int>): seq<int>
    requires |dims| == |shape| && WildcardCount(reshape) <= WildcardCount(dims)
  {
    Fill(reshape, WildcardValues(dims, shape))
  }

  /** Splitting a dimension list after its first element splits its count. */
  lemma WildcardCountPrefix(s: seq<int>, j: nat)
    requires 0 < j <= |s|
    ensures WildcardCount(s[..j]) == (if s[0] == WildcardDim then 1 else 0) + WildcardCount(s[1..][..j - 1])
  {
    assert s[..j][1..] == s[1..][..j - 1];
  }

  /** A wildcard at position p of the dims is the (WildcardCount(dims[..p]))-th
      queued value, and that value is the request's dimension at p. */
  lemma {:induction false} WildcardValuesAt(dims: seq<int>, shape: seq<int>, p: nat)
    requires |dims| == |shape| && p < |dims| && dims[p] == WildcardDim
    ensures WildcardCount(dims[..p]) < |WildcardValues(dims, shape)|
    ensures WildcardValues(dims, shape)[WildcardCount(dims[..p])] == shape[p]
    decreases p
  {
    if p > 0 {
      WildcardCountPrefix(dims, p);
      WildcardValuesAt(dims[1..], shape[1..], p - 1);
    }
  }

  /** Position j of the rebuilt shape: a fixed reshape dimension is copied; the
      k-th -1 (k = number of -1 before j) takes the k-th queued value. */
  lemma {:induction false} FillAt(reshape: seq<int>, queue: seq<int>, j: nat)
    requires WildcardCount(reshape) <= |queue| && j < |reshape|
    ensures reshape[j] != WildcardDim ==> Fill(reshape, queue)[j] == reshape[j]
    ensures reshape[j] == WildcardDim ==>
      WildcardCount(reshape[..j]) < |queue| && Fill(reshape, queue)[j] == queue[WildcardCount(reshape[..j])]
    decreases j
  {
    if j > 0 {
      WildcardCountPrefix(reshape, j);
      if reshape[0] == WildcardDim {
        FillAt(reshape[1..], queue[1..], j - 1);
      } else {
        FillAt(reshape[1..], queue, j - 1);
      }
    }
  }

  /** The rewritten shape has the reshape's rank and keeps every fixed
      reshape dimension. */
  lemma ReshapeKeepsFixedDims(dims: seq<int>, shape: seq<int>, reshape: seq<int>, j: nat)
    requires |dims| == |shape| && WildcardCount(reshape) <= WildcardCount(dims)
    requires j < |reshape| && reshape[j] != WildcardDim
    ensures |ReshapedShape(dims, shape, reshape)| == |reshape|
    ensures ReshapedShape(dims, shape, reshape)[j] == reshape[j]
  {
    FillAt(reshape, WildcardValues(dims, shape), j);
  }

  /** FIFO order: the i-th -1 of the reshape receives the request's
      dimension at the i-th -1 of the configuration dims. */
  lemma ReshapeWildcardsFifo(dims: seq<int>, shape: seq<int>, reshape: seq<int>, j: nat, p: nat)
    requires |dims| == |shape| && WildcardCount(reshape) <= WildcardCount(dims)
    requires j < |reshape| && reshape[j] == WildcardDim
    requires p < |dims| && dims[p] == WildcardDim
    requires WildcardCount(reshape[..j]) == WildcardCount(dims[..p])
    ensures ReshapedShape(dims, shape, reshape)[j] == shape[p]
  {
    FillAt(reshape, WildcardValues(dims, shape), j);
    WildcardValuesAt(dims, shape, p);
  }

  /** The rewritten shape conforms to the reshape under the wildcard
      comparison: same rank, and equal wherever the reshape is not -1. */
  lemma ReshapedConforms(dims: seq<int>, shape: seq<int>, reshape: seq<int>)
    requires |dims| == |shape| && WildcardCount(reshape) <= WildcardCount(dims)
    ensures CompareDimsWithWildcard(reshape, ReshapedShape(dims, shape, reshape))
  {
    forall j | 0 <= j < |reshape| && reshape[j] != WildcardDim
      ensures ReshapedShape(dims, shape, reshape)[j] == reshape[j]
    {
      ReshapeKeepsFixedDims(dims, shape, reshape, j);
    }
  }

  /** One step of the queue-filling loop: the suffix from idx contributes
      its head (when a wildcard) and then the rest. */
  lemma WildcardValuesStep(dims: seq<int>, shape: seq<int>, idx: nat)
    requires |dims| == |shape| && idx < |dims|
    ensures WildcardValues(dims[idx..], shape[idx..]) ==
      (if dims[idx] == WildcardDim then [shape[idx]] else []) + WildcardValues(dims[idx + 1..], shape[idx + 1..])
  {
    assert dims[idx..][1..] == dims[idx + 1..] && shape[idx..][1..] == shape[idx + 1..];
  }

  /** One step of the rebuilding loop: the suffix from j takes the head of
      the queue at a wildcard and its own dimension otherwise. */
  lemma FillStep(reshape: seq<int>, queue: seq<int>, j: nat)
    requires j < |reshape| && WildcardCount(reshape[j..]) <= |queue|
    ensures reshape[j] == WildcardDim ==>
      |queue| > 0 && WildcardCount(reshape[j + 1..]) <= |queue[1..]| &&
      Fill(reshape[j..], queue) == [queue[0]] + Fill(reshape[j + 1..], queue[1..])
    ensures reshape[j] != WildcardDim ==>
      WildcardCount(reshape[j + 1..]) <= |queue| &&
      Fill(reshape[j..], queue) == [reshape[j]] + Fill(reshape[j + 1..], queue)
  {
    assert reshape[j..][1..] == reshape[j + 1..];
  }

  /** The queue of wildcard values, filled left to right. */
  method WildcardQueue(dims: seq<int>, shape: seq<int>) returns (queue: seq<int>)
    requires |dims| == |shape|
    ensures queue == WildcardValues(dims, shape)
  {
    queue := [];
    for idx := 0 to |dims|
      invariant queue + WildcardValues(dims[idx..], shape[idx..]) == WildcardValues(dims, shape)
    {
      WildcardValuesStep(dims, shape, idx);
      if dims[idx] == WildcardDim {
        queue := queue + [shape[idx]];
      }
    }
    assert dims[|dims|..] == [] && shape[|shape|..] == [];
  }

  /** The normaliser's reshape step: fill a queue with the wildcard values,
      then rebuild the shape from the reshape dims, popping the queue's
      front at each -1. */
  method ResolveReshape(dims: seq<int>, shape: seq<int>, reshape: seq<int>) returns (r: seq<int>)
    requires |dims| == |shape| && WildcardCount(reshape) <= WildcardCount(dims)
    ensures r == ReshapedShape(dims, shape, reshape)
  {
    var queue := WildcardQueue(dims, shape);
    ghost var target := Fill(reshape, queue);
    assert reshape[0..] == reshape;
    r := [];
    for j := 0 to |reshape|
      invariant WildcardCount(reshape[j..]) <= |queue|
      invariant r + Fill(reshape[j..], queue) == target
    {
      FillStep(reshape, queue, j);
      if reshape[j] == WildcardDim {
        r := r + [queue[0]];
        queue := queue[1..];
      } else {
        r := r + [reshape[j]];
      }
    }
    assert reshape[|reshape|..] == [];
  }
}
