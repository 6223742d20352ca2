/** Yolov5Impl::postprecess: decode the three detection heads (strides 8, 16 and 32) with
    generate_proposals, concatenate their proposals, pack them into the flat box and score
    buffers non-maximum suppression reads, and append the proposals it keeps to the caller's list.
    The inference engine is reduced to what postprecess observes of it: whether a context exists,
    and per output tensor whether its host conversion succeeds and the floats its buffer holds.
    Non-maximum suppression is a parameter `nms`. */
module Yolov5 {
  import opened GridLayout
  import opened ScanOrder
  import opened Proposals

  /** The status codes postprecess returns: RC_SUCCESS, RC_INVALID_VALUE, and the bare -1. */
  datatype RetCode = Success | InvalidValue | Failure

  /** One output tensor of the network: whether ConvertToHost succeeds on it, and its buffer. */
  datatype OutputTensor = OutputTensor(converts: bool, buffer: seq<real>)

  /** The runtime context: absent, or present with its three output tensors (strides 8, 16, 32). */
  datatype Context = NoContext | Runtime(out8: OutputTensor, out16: OutputTensor, out32: OutputTensor)

  /** The model parameters postprecess reads. */
  datatype ModelParams = ModelParams(numClasses: nat, probThreshold: real, nmsThreshold: real)

  /** One detection scale: its anchors, its (square) grid size and its stride. */
  datatype Scale = Scale(anchor: seq<real>, numGrid: nat, stride: int)

  const Scale8: Scale := Scale([10.0, 13.0, 16.0, 30.0, 33.0, 23.0], 80, 8)
  const Scale16: Scale := Scale([30.0, 61.0, 62.0, 45.0, 59.0, 119.0], 40, 16)
  const Scale32: Scale := Scale([116.0, 90.0, 156.0, 198.0, 373.0, 326.0], 20, 32)

  /** What generate_proposals decodes for a scale: its anchors and grid over the tensor's buffer. */
  function ScaleHead(scale: Scale, tensor: OutputTensor, numClasses: nat, sigmoid: real -> real): Head
  {
    Head(scale.anchor, scale.numGrid, scale.numGrid, scale.stride, tensor.buffer, numClasses, sigmoid)
  }

  /** The tensor holds the floats of a three-anchor head of the scale's grid. */
  predicate TensorFits(scale: Scale, tensor: OutputTensor, numClasses: nat)
  {
    BufferSize(3, scale.numGrid, scale.numGrid, numClasses) <= |tensor.buffer|
  }

  /** Every scale postprecess decodes has a square grid and three anchor pairs, so on a tensor of
      `BufferSize` floats every read generate_proposals makes is in bounds. */
  lemma ScalesAreSquareWithThreeAnchors(tensor: OutputTensor, numClasses: nat, sigmoid: real -> real)
    ensures forall scale :: scale in [Scale8, Scale16, Scale32] ==>
      && NumAnchor(ScaleHead(scale, tensor, numClasses, sigmoid)) == 3
      && ScaleHead(scale, tensor, numClasses, sigmoid).numGridW == ScaleHead(scale, tensor, numClasses, sigmoid).numGridH
      && (TensorFits(scale, tensor, numClasses) ==> ReadsInBounds(ScaleHead(scale, tensor, numClasses, sigmoid)))
  {
    forall scale | scale in [Scale8, Scale16, Scale32]
      ensures TensorFits(scale, tensor, numClasses) ==> ReadsInBounds(ScaleHead(scale, tensor, numClasses, sigmoid))
    {
      if TensorFits(scale, tensor, numClasses) {
        SquareGridReadsInBounds(ScaleHead(scale, tensor, numClasses, sigmoid));
      }
    }
  }

  /** The proposals of one scale: generate_proposals called on an empty list. */
  function ScaleProposals(scale: Scale, tensor: OutputTensor, params: ModelParams, sigmoid: real -> real): seq<DetectRes>
    requires scale in [Scale8, Scale16, Scale32] && TensorFits(scale, tensor, params.numClasses)
  {
    ScalesAreSquareWithThreeAnchors(tensor, params.numClasses, sigmoid);
    Proposals.Proposals(ScaleHead(scale, tensor, params.numClasses, sigmoid), params.probThreshold)
  }

  /** The four corners of a proposal's box in the order non-maximum suppression reads them. */
  function Corners(d: DetectRes): seq<real>
  {
    [d.xMin as real, d.yMin as real, d.xMax as real, d.yMax as real]
  }

  /** The box buffer handed to non-maximum suppression: four corners per proposal, back to back. */
  function BoxesOf(ps: seq<DetectRes>): seq<real>
  {
    if ps == [] then [] else BoxesOf(ps[..|ps| - 1]) + Corners(ps[|ps| - 1])
  }

  /** The score buffer handed to non-maximum suppression: one probability per proposal. */
  function ScoresOf(ps: seq<DetectRes>): seq<real>
  {
    seq(|ps|, m requires 0 <= m < |ps| => ps[m].prob)
  }

  /** Slots 4i .. 4i+3 of the box buffer hold (x_min, y_min, x_max, y_max) of proposal i, slot i of
      the score buffer its probability, and the buffers have exactly 4n and n slots. */
  lemma {:induction false} NmsInputLayout(ps: seq<DetectRes>)
    ensures |BoxesOf(ps)| == 4 * |ps| && |ScoresOf(ps)| == |ps|
    ensures forall i :: 0 <= i < |ps| ==>
      && BoxesOf(ps)[4 * i] == ps[i].xMin as real && BoxesOf(ps)[4 * i + 1] == ps[i].yMin as real
      && BoxesOf(ps)[4 * i + 2] == ps[i].xMax as real && BoxesOf(ps)[4 * i + 3] == ps[i].yMax as real
      && ScoresOf(ps)[i] == ps[i].prob
  {
    if ps != [] {
      var init := ps[..|ps| - 1];
      NmsInputLayout(init);
      assert forall i :: 0 <= i < |init| ==> init[i] == ps[i];
    }
  }

  /** Packing one more proposal appends its corners and its probability. */
  lemma NmsInputSnoc(ps: seq<DetectRes>, k: nat)
    requires k < |ps|
    ensures BoxesOf(ps[..k + 1]) == BoxesOf(ps[..k]) + Corners(ps[k])
    ensures ScoresOf(ps[..k + 1]) == ScoresOf(ps[..k]) + [ps[k].prob]
  {
    assert ps[..k + 1][..k] == ps[..k];
  }

  /** A keep list non-maximum suppression may return for n boxes: at most n indices, each below n. */
  predicate ValidKeep(keep: seq<int>, n: nat)
  {
    |keep| <= n && forall k :: 0 <= k < |keep| ==> 0 <= keep[k] < n
  }

  /** What postprecess relies on from non-maximum suppression: whatever the buffers, the keep
      list it returns is valid for the number of scores. */
  ghost predicate NmsKeepsValidIndices(nms: (seq<real>, seq<real>, real) -> seq<int>)
  {
    forall boxes, scores, threshold :: ValidKeep(nms(boxes, scores, threshold), |scores|)
  }

  /** The proposals at the kept indices, in keep-list order. */
  function Gather(ps: seq<DetectRes>, keep: seq<int>): (r: seq<DetectRes>)
    requires ValidKeep(keep, |ps|)
    ensures |r| == |keep|
    ensures forall k :: 0 <= k < |keep| ==> r[k] == ps[keep[k]]
  {
    seq(|keep|, k requires 0 <= k < |keep| => ps[keep[k]])
  }

  /** Gathering keeps only proposals that were there, and keeping every index in order gives them all back. */
  lemma GatherKeepsProposals(ps: seq<DetectRes>, keep: seq<int>)
    requires ValidKeep(keep, |ps|)
    ensures forall d :: d in Gather(ps, keep) ==> d in ps
    ensures keep == seq(|ps|, m => m) ==> Gather(ps, keep) == ps
  {
    forall d | d in Gather(ps, keep) ensures d in ps {
      var k :| 0 <= k < |keep| && Gather(ps, keep)[k] == d;
      assert ps[keep[k]] == d;
    }
  }

  /** Gathering along two keep lists one after the other gives the two gathered lists one after the
      other: each kept index contributes its own proposal, in keep-list order, whether or not the
      list is sorted or repeats an index. */
  lemma {:induction false} GatherAppend(ps: seq<DetectRes>, k1: seq<int>, k2: seq<int>)
    requires ValidKeep(k1, |ps|) && ValidKeep(k2, |ps|) && |k1| + |k2| <= |ps|
    ensures ValidKeep(k1 + k2, |ps|)
    ensures Gather(ps, k1 + k2) == Gather(ps, k1) + Gather(ps, k2)
  {
    var g := Gather(ps, k1 + k2);
    forall k | 0 <= k < |g|
      ensures g[k] == (Gather(ps, k1) + Gather(ps, k2))[k]
    {
      if k < |k1| {
        assert (k1 + k2)[k] == k1[k];
      } else {
        assert (k1 + k2)[k] == k2[k - |k1|];
      }
    }
  }

  /** The keep buffer as written: n * sizeof(int16_t) bytes, read as int64_t slots of eight bytes. */
  function KeepSlotsAsWritten(n: nat): nat
  {
    (n * 2) / 8
  }

  /** The keep buffer as intended: one int64_t slot per proposal. */
  function KeepSlots(n: nat): nat
  {
    n
  }

  /** With four proposals and suppression keeping all four, the buffer as written has one slot for four indices. */
  lemma KeepBufferTooSmallAsWritten()
    ensures ValidKeep([0, 1, 2, 3], 4)
    ensures KeepSlotsAsWritten(4) == 1 < |[0, 1, 2, 3]|
  {
  }

  /** The buffer as written never has room for n indices once there is a proposal. */
  lemma KeepSlotsAsWrittenBelowCount(n: nat)
    requires n > 0
    ensures KeepSlotsAsWritten(n) < n
  {
  }

  /** The packing loop of postprecess: slot by slot, the box buffer receives the four corners of
      each proposal and the score buffer its probability. */
  method PackNmsInput(proposals: seq<DetectRes>, bboxVec: array<real>, scoresVec: array<real>)
    requires bboxVec.Length == 4 * |proposals| && scoresVec.Length == |proposals|
    requires bboxVec != scoresVec
    modifies bboxVec, scoresVec
    ensures bboxVec[..] == BoxesOf(proposals)
    ensures scoresVec[..] == ScoresOf(proposals)
  {
    var i := 0;
    while i < |proposals|
      invariant i <= |proposals|
      invariant bboxVec[..4 * i] == BoxesOf(proposals[..i])
      invariant scoresVec[..i] == ScoresOf(proposals[..i])
    {
      ghost var boxes, scores := bboxVec[..4 * i], scoresVec[..i];
      bboxVec[i * 4 + 0] := proposals[i].xMin as real;
      bboxVec[i * 4 + 1] := proposals[i].yMin as real;
      bboxVec[i * 4 + 2] := proposals[i].xMax as real;
      bboxVec[i * 4 + 3] := proposals[i].yMax as real;
      scoresVec[i] := proposals[i].prob;
      assert bboxVec[..4 * (i + 1)] == boxes + Corners(proposals[i]);
      assert scoresVec[..i + 1] == scores + [proposals[i].prob];
      NmsInputSnoc(proposals, i);
      i := i + 1;
    }
    assert proposals[..i] == proposals;
    assert bboxVec[..] == bboxVec[..4 * i];
    assert scoresVec[..] == scoresVec[..i];
  }

  /** The gather loop of postprecess: append proposals[keepIndex[k]] for k = 0 .. numKeep - 1. */
  method GatherKept(proposals: seq<DetectRes>, keepIndex: array<int>, numKeep: nat, detectRes: seq<DetectRes>)
    returns (res: seq<DetectRes>)
    requires numKeep <= keepIndex.Length && ValidKeep(keepIndex[..numKeep], |proposals|)
    ensures res == detectRes + Gather(proposals, keepIndex[..numKeep])
  {
    res := detectRes;
    var k := 0;
    while k < numKeep
      invariant k <= numKeep
      invariant res == detectRes + Gather(proposals, keepIndex[..k])
    {
      assert keepIndex[..k + 1] == keepIndex[..k] + [keepIndex[k]];
      res := res + [proposals[keepIndex[k]]];
      k := k + 1;
    }
  }

  /** The non-maximum suppression block of postprecess: pack the proposals, run suppression on
      the packed buffers, store its keep list in a buffer of one slot per proposal, and append the
      kept proposals to `detectRes` in keep-list order. */
  method SuppressAndGather(proposals: seq<DetectRes>, nmsThreshold: real,
                           nms: (seq<real>, seq<real>, real) -> seq<int>, detectRes: seq<DetectRes>)
    returns (res: seq<DetectRes>)
    requires NmsKeepsValidIndices(nms)
    ensures ValidKeep(nms(BoxesOf(proposals), ScoresOf(proposals), nmsThreshold), |proposals|)
    ensures res == detectRes + Gather(proposals, nms(BoxesOf(proposals), ScoresOf(proposals), nmsThreshold))
  {
    var n := |proposals|;
    var bboxVec := new real[n * 4];
    var scoresVec := new real[n];
    PackNmsInput(proposals, bboxVec, scoresVec);
    var keep := nms(bboxVec[..], scoresVec[..], nmsThreshold);
    var keepIndex := new int[KeepSlots(n)];
    forall k | 0 <= k < |keep| {
      keepIndex[k] := keep[k];
    }
    var numKeep := |keep|;
    assert keepIndex[..numKeep] == keep;
    res := GatherKept(proposals, keepIndex, numKeep, detectRes);
  }

  /** One scale's block of postprecess: generate_proposals over the scale's anchors, grid and
      stride, reading the tensor's buffer, into an empty list. */
  method ScaleStep(scale: Scale, tensor: OutputTensor, params: ModelParams, sigmoid: real -> real)
    returns (proposals: seq<DetectRes>)
    requires scale in [Scale8, Scale16, Scale32] && TensorFits(scale, tensor, params.numClasses)
    ensures proposals == ScaleProposals(scale, tensor, params, sigmoid)
  {
    ScalesAreSquareWithThreeAnchors(tensor, params.numClasses, sigmoid);
    proposals := GenerateProposals(scale.anchor, scale.numGrid, scale.numGrid, scale.stride, tensor.buffer,
                                   params.probThreshold, params.numClasses, sigmoid, []);
  }

  /** postprecess. Without a context it returns RC_INVALID_VALUE; when a tensor's host conversion
      fails it returns -1; in both cases `detectRes` is left as it was. Otherwise the proposals of
      the three scales are concatenated in stride order, packed for non-maximum suppression, and
      those it keeps are appended to `detectRes` in keep-list order. */
  method Postprocess(context: Context, params: ModelParams, sigmoid: real -> real,
                     nms: (seq<real>, seq<real>, real) -> seq<int>, detectRes: seq<DetectRes>)
    returns (ret: RetCode, res: seq<DetectRes>)
    requires context.Runtime? && context.out8.converts ==>
      TensorFits(Scale8, context.out8, params.numClasses)
    requires context.Runtime? && context.out8.converts && context.out16.converts ==>
      TensorFits(Scale16, context.out16, params.numClasses)
    requires context.Runtime? && context.out8.converts && context.out16.converts && context.out32.converts ==>
      TensorFits(Scale32, context.out32, params.numClasses)
    requires NmsKeepsValidIndices(nms)
    ensures context.NoContext? ==> ret == InvalidValue && res == detectRes
    ensures context.Runtime? && !(context.out8.converts && context.out16.converts && context.out32.converts) ==>
      ret == Failure && res == detectRes
    ensures context.Runtime? && context.out8.converts && context.out16.converts && context.out32.converts ==>
      var proposals := ScaleProposals(Scale8, context.out8, params, sigmoid)
                     + ScaleProposals(Scale16, context.out16, params, sigmoid)
                     + ScaleProposals(Scale32, context.out32, params, sigmoid);
      var keep := nms(BoxesOf(proposals), ScoresOf(proposals), params.nmsThreshold);
      ret == Success && res == detectRes + Gather(proposals, keep)
  {
    if context.NoContext? {
      return InvalidValue, detectRes;
    }
    var proposals: seq<DetectRes> := [];

    // stride 8
    if !context.out8.converts {
      return Failure, detectRes;
    }
    var proposals8 := ScaleStep(Scale8, context.out8, params, sigmoid);
    assert [] + proposals8 == proposals8;
    proposals := proposals + proposals8;

    // stride 16
    if !context.out16.converts {
      return Failure, detectRes;
    }
    var proposals16 := ScaleStep(Scale16, context.out16, params, sigmoid);
    proposals := proposals + proposals16;

    // stride 32
    if !context.out32.converts {
      return Failure, detectRes;
    }
    var proposals32 := ScaleStep(Scale32, context.out32, params, sigmoid);
    proposals := proposals + proposals32;

    assert proposals == proposals8 + proposals16 + proposals32;
    res := SuppressAndGather(proposals, params.nmsThreshold, nms, detectRes);
    ret := Success;
  }
}
