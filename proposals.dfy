/** generate_proposals: decoding one detection head's raw tensor into candidate boxes.
    The float logistic function is a parameter (`sigmoid`): its rounding is not modelled,
    and nothing here depends on its values except where a lemma says so. */
module Proposals {
  import opened GridLayout
  import opened ScanOrder

  /** The largest finite float, whose negation starts the class-score scan. */
  const FLT_MAX: real := 340282346638528859811704183484516925440.0

  /** One candidate detection: integer corners in input-image pixels, class label, confidence. */
  datatype DetectRes = DetectRes(xMin: int, yMin: int, xMax: int, yMax: int, classLabel: int, prob: real)

  /** Float-to-int conversion, as when a computed corner is stored in an integer field:
      truncation toward zero, which moves a value by less than one and never away from zero. */
  function TruncToInt(x: real): (r: int)
    ensures x >= 0.0 ==> r as real <= x < r as real + 1.0
    ensures x < 0.0 ==> r as real - 1.0 < x <= r as real
  {
    if x >= 0.0 then x.Floor else -((-x).Floor)
  }

  /** Truncation keeps the order of its arguments and shrinks their distance by less than one. */
  lemma TruncOrdered(a: real, b: real)
    requires a <= b
    ensures TruncToInt(a) <= TruncToInt(b)
    ensures (TruncToInt(b) - TruncToInt(a)) as real < b - a + 1.0
  {
  }

  /** What generate_proposals decodes, everything but the threshold: `anchor` holds
      (width, height) pairs back to back; `output` is the head's tensor, read only. */
  datatype Head = Head(anchor: seq<real>, numGridW: nat, numGridH: nat, stride: int,
                       output: seq<real>, numClasses: nat, sigmoid: real -> real)

  /** The anchor count is derived from the length of the anchor list, two floats per anchor. */
  function NumAnchor(hd: Head): nat
  {
    |hd.anchor| / 2
  }

  predicate InGrid(hd: Head, c: Cell)
  {
    c.q < NumAnchor(hd) && c.i < hd.numGridH && c.j < hd.numGridW
  }

  /** Every channel the decoder may read lies inside the tensor. The largest offset read is that
      of the last channel of the last cell; a loop with no iteration reads nothing. */
  predicate ReadsInBounds(hd: Head)
  {
    NumAnchor(hd) == 0 || hd.numGridH == 0 || hd.numGridW == 0
    || Offset(NumAnchor(hd) - 1, hd.numGridH - 1, hd.numGridW - 1, ChannelsPerCell(hd.numClasses) - 1,
              hd.numGridW, hd.numGridH, hd.numClasses) < |hd.output|
  }

  /** Under the read bound the whole channel block of a grid cell lies inside the tensor. */
  lemma CellInBounds(hd: Head, cell: Cell)
    requires ReadsInBounds(hd) && InGrid(hd, cell)
    ensures Offset(cell.q, cell.i, cell.j, ChannelsPerCell(hd.numClasses) - 1,
                   hd.numGridW, hd.numGridH, hd.numClasses) < |hd.output|
  {
    OffsetMonotone(cell.q, cell.i, cell.j, ChannelsPerCell(hd.numClasses) - 1,
                   NumAnchor(hd) - 1, hd.numGridH - 1, hd.numGridW - 1, ChannelsPerCell(hd.numClasses) - 1,
                   hd.numGridW, hd.numGridH, hd.numClasses);
  }

  /** The read bound holds exactly when every channel of every grid cell lies inside the tensor. */
  lemma ReadsInBoundsIffEveryRead(hd: Head)
    ensures ReadsInBounds(hd) <==>
      forall cell: Cell, c: nat :: InGrid(hd, cell) && c < ChannelsPerCell(hd.numClasses) ==>
        Offset(cell.q, cell.i, cell.j, c, hd.numGridW, hd.numGridH, hd.numClasses) < |hd.output|
  {
    if ReadsInBounds(hd) {
      forall cell: Cell, c: nat | InGrid(hd, cell) && c < ChannelsPerCell(hd.numClasses)
        ensures Offset(cell.q, cell.i, cell.j, c, hd.numGridW, hd.numGridH, hd.numClasses) < |hd.output|
      {
        CellInBounds(hd, cell);
      }
    } else {
      var last := Cell(NumAnchor(hd) - 1, hd.numGridH - 1, hd.numGridW - 1);
      assert InGrid(hd, last);
    }
  }

  /** A tensor of `BufferSize` floats on a square grid satisfies the read bound. */
  lemma SquareGridReadsInBounds(hd: Head)
    requires hd.numGridW == hd.numGridH
    requires BufferSize(NumAnchor(hd), hd.numGridW, hd.numGridH, hd.numClasses) <= |hd.output|
    ensures ReadsInBounds(hd)
  {
    if NumAnchor(hd) > 0 && hd.numGridH > 0 {
      OffsetInBounds(NumAnchor(hd) - 1, hd.numGridH - 1, hd.numGridW - 1, ChannelsPerCell(hd.numClasses) - 1,
                     NumAnchor(hd), hd.numGridW, hd.numGridH, hd.numClasses);
    }
  }

  /** The anchor read for anchor index q: (anchor[2q], anchor[2q+1]), both inside the list. */
  function AnchorOf(hd: Head, q: nat): (r: (real, real))
    requires q < NumAnchor(hd)
    ensures 2 * q + 1 < |hd.anchor|
    ensures r == (hd.anchor[2 * q], hd.anchor[2 * q + 1])
  {
    (hd.anchor[q * 2], hd.anchor[q * 2 + 1])
  }

  /** Channel `c` of cell `cell`. */
  function Channel(hd: Head, cell: Cell, c: nat): real
    requires ReadsInBounds(hd) && InGrid(hd, cell) && c < ChannelsPerCell(hd.numClasses)
  {
    CellInBounds(hd, cell);
    hd.output[Offset(cell.q, cell.i, cell.j, c, hd.numGridW, hd.numGridH, hd.numClasses)]
  }

  /** Result of the class scan: the chosen class index and its score. */
  datatype ClassPick = ClassPick(index: nat, score: real)

  /** The class scan over the `k` logits stored from `first` on: start at (0, -FLT_MAX) and move
      to logit m only when it is strictly greater than the best so far. */
  function ClassScan(output: seq<real>, first: nat, k: nat): ClassPick
    requires first + k <= |output|
  {
    if k == 0 then ClassPick(0, -FLT_MAX)
    else
      var best := ClassScan(output, first, k - 1);
      if output[first + k - 1] > best.score then ClassPick(k - 1, output[first + k - 1]) else best
  }

  /** The scan returns the maximum of the logits (floored at -FLT_MAX) and the FIRST index attaining
      it; when no logit beats -FLT_MAX, the index stays 0. */
  lemma {:induction false} ClassScanIsFirstMax(output: seq<real>, first: nat, k: nat)
    requires first + k <= |output|
    ensures var p := ClassScan(output, first, k);
      && p.score >= -FLT_MAX
      && (forall m :: first <= m < first + k ==> output[m] <= p.score)
      && (k > 0 ==> p.index < k)
      && (p.score == -FLT_MAX ==> p.index == 0)
      && (p.score > -FLT_MAX ==>
            p.index < k && output[first + p.index] == p.score
            && forall m :: first <= m < first + p.index ==> output[m] < p.score)
  {
    if k > 0 {
      ClassScanIsFirstMax(output, first, k - 1);
    }
  }

  /** The class chosen for a cell: the scan over its channels 5 .. 5 + numClasses - 1. */
  function ClassOf(hd: Head, cell: Cell): ClassPick
    requires ReadsInBounds(hd) && InGrid(hd, cell)
  {
    CellInBounds(hd, cell);
    ClassScan(hd.output, Offset(cell.q, cell.i, cell.j, 5, hd.numGridW, hd.numGridH, hd.numClasses), hd.numClasses)
  }

  /** In terms of the cell's channels: the chosen score bounds every class logit, and when it beats
      -FLT_MAX it is the logit of the chosen class, which no earlier class reaches. */
  lemma ClassOfIsFirstMax(hd: Head, cell: Cell)
    requires ReadsInBounds(hd) && InGrid(hd, cell)
    ensures var p := ClassOf(hd, cell);
      && p.score >= -FLT_MAX
      && (forall c :: 5 <= c < ChannelsPerCell(hd.numClasses) ==> Channel(hd, cell, c) <= p.score)
      && (hd.numClasses > 0 ==> p.index < hd.numClasses)
      && (p.score == -FLT_MAX ==> p.index == 0)
      && (p.score > -FLT_MAX ==>
            p.index < hd.numClasses && Channel(hd, cell, 5 + p.index) == p.score
            && forall c :: 5 <= c < 5 + p.index ==> Channel(hd, cell, c) < p.score)
  {
    CellInBounds(hd, cell);
    var first := Offset(cell.q, cell.i, cell.j, 5, hd.numGridW, hd.numGridH, hd.numClasses);
    ClassScanIsFirstMax(hd.output, first, hd.numClasses);
    forall c | 5 <= c < ChannelsPerCell(hd.numClasses)
      ensures Channel(hd, cell, c) == hd.output[first + (c - 5)]
    {
    }
  }

  /** sigmoid(objectness) * sigmoid(best class score). */
  function Confidence(hd: Head, cell: Cell): real
    requires ReadsInBounds(hd) && InGrid(hd, cell)
  {
    hd.sigmoid(Channel(hd, cell, 4)) * hd.sigmoid(ClassOf(hd, cell).score)
  }

  /** A cell yields a proposal exactly when its confidence reaches the threshold (equality keeps it). */
  predicate Kept(hd: Head, probThreshold: real, cell: Cell)
    requires ReadsInBounds(hd) && InGrid(hd, cell)
  {
    Confidence(hd, cell) >= probThreshold
  }

  /** Box centre along one axis: (2d - 0.5 + index) * stride. With 0 < d < 1 it lies strictly
      between half a cell before the cell's origin and one and a half cells after it. */
  function Center(d: real, index: nat, stride: int): (r: real)
    ensures 0.0 < d < 1.0 && stride > 0 ==>
      (index as real - 0.5) * stride as real < r < (index as real + 1.5) * stride as real
  {
    (d * 2.0 - 0.5 + index as real) * stride as real
  }

  /** Box size along one axis: (2d)^2 * anchor size. Never negative for a non-negative anchor,
      and below four anchor sizes when 0 < d < 1. */
  function Extent(d: real, anchorSize: real): (r: real)
    ensures anchorSize >= 0.0 ==> r >= 0.0
    ensures 0.0 < d < 1.0 && anchorSize > 0.0 ==> r < 4.0 * anchorSize
  {
    (d * 2.0) * (d * 2.0) * anchorSize
  }

  /** The two edges of a box along one axis, half an extent either side of the centre. With
      0 < d < 1, a positive stride and a positive anchor size, the edges are ordered, their
      midpoint lies within the cell's neighbourhood and their distance stays below four anchor sizes. */
  function Edges(dc: real, ds: real, index: nat, stride: int, anchorSize: real): (r: (real, real))
    ensures 0.0 < dc < 1.0 && 0.0 < ds < 1.0 && stride > 0 && anchorSize > 0.0 ==>
      && r.0 <= r.1
      && (index as real - 0.5) * stride as real < (r.0 + r.1) / 2.0 < (index as real + 1.5) * stride as real
      && r.1 - r.0 < 4.0 * anchorSize
  {
    var c := Center(dc, index, stride);
    var e := Extent(ds, anchorSize);
    (c - e * 0.5, c + e * 0.5)
  }

  /** The proposal decoded from a cell. */
  function DecodeCell(hd: Head, cell: Cell): DetectRes
    requires ReadsInBounds(hd) && InGrid(hd, cell)
  {
    var (anchorW, anchorH) := AnchorOf(hd, cell.q);
    var (x0, x1) := Edges(hd.sigmoid(Channel(hd, cell, 0)), hd.sigmoid(Channel(hd, cell, 2)), cell.j, hd.stride, anchorW);
    var (y0, y1) := Edges(hd.sigmoid(Channel(hd, cell, 1)), hd.sigmoid(Channel(hd, cell, 3)), cell.i, hd.stride, anchorH);
    DetectRes(TruncToInt(x0), TruncToInt(y0), TruncToInt(x1), TruncToInt(y1), ClassOf(hd, cell).index, Confidence(hd, cell))
  }

  /** The label and probability of a decoded proposal: the first best class, and the confidence,
      which lies in (0, 1) when the logistic function does. */
  lemma DecodeCellLabel(hd: Head, cell: Cell)
    requires ReadsInBounds(hd) && InGrid(hd, cell)
    requires forall v :: 0.0 < hd.sigmoid(v) < 1.0
    ensures var r := DecodeCell(hd, cell);
      && (hd.numClasses > 0 ==> 0 <= r.classLabel < hd.numClasses)
      && r.prob == Confidence(hd, cell)
      && 0.0 < r.prob < 1.0
  {
    ClassOfIsFirstMax(hd, cell);
    var a := hd.sigmoid(Channel(hd, cell, 4));
    var b := hd.sigmoid(ClassOf(hd, cell).score);
    assert 0.0 < a * b < 1.0 by {
      assert 0.0 < a < 1.0 && 0.0 < b < 1.0;
      assert a * b < 1.0 * b;
    }
  }

  /** The box of a decoded proposal, when the logistic function stays in (0, 1) and the stride and
      anchors are positive: corners ordered and each side below four anchor sizes plus the one unit
      truncation may add (the centre's bounds are those of `Edges`). */
  lemma DecodeCellBox(hd: Head, cell: Cell)
    requires ReadsInBounds(hd) && InGrid(hd, cell)
    requires forall v :: 0.0 < hd.sigmoid(v) < 1.0
    requires hd.stride > 0
    requires AnchorOf(hd, cell.q).0 > 0.0 && AnchorOf(hd, cell.q).1 > 0.0
    ensures var r := DecodeCell(hd, cell);
      && r.xMin <= r.xMax && r.yMin <= r.yMax
      && (r.xMax - r.xMin) as real < 4.0 * AnchorOf(hd, cell.q).0 + 1.0
      && (r.yMax - r.yMin) as real < 4.0 * AnchorOf(hd, cell.q).1 + 1.0
  {
    var (anchorW, anchorH) := AnchorOf(hd, cell.q);
    var dx, dy := hd.sigmoid(Channel(hd, cell, 0)), hd.sigmoid(Channel(hd, cell, 1));
    var dw, dh := hd.sigmoid(Channel(hd, cell, 2)), hd.sigmoid(Channel(hd, cell, 3));
    assert 0.0 < dx < 1.0 && 0.0 < dy < 1.0 && 0.0 < dw < 1.0 && 0.0 < dh < 1.0;
    var x, y := Edges(dx, dw, cell.j, hd.stride, anchorW), Edges(dy, dh, cell.i, hd.stride, anchorH);
    var r := DecodeCell(hd, cell);
    assert r == DetectRes(TruncToInt(x.0), TruncToInt(y.0), TruncToInt(x.1), TruncToInt(y.1),
                          ClassOf(hd, cell).index, Confidence(hd, cell));
    TruncOrdered(x.0, x.1);
    TruncOrdered(y.0, y.1);
  }

  /** The selection generate_proposals makes: the cells of the grid whose confidence reaches the threshold. */
  function KeepAt(hd: Head, probThreshold: real): Cell -> bool
    requires ReadsInBounds(hd)
  {
    c => InGrid(hd, c) && Kept(hd, probThreshold, c)
  }

  /** Number of cells the three nested loops visit. */
  function NumCells(hd: Head): nat
  {
    Rank(Cell(NumAnchor(hd), 0, 0), hd.numGridH, hd.numGridW)
  }

  /** The kept cells among the first n the loops visit, in visiting order. */
  function KeptBefore(hd: Head, probThreshold: real, n: nat): (r: seq<Cell>)
    requires ReadsInBounds(hd)
    ensures forall c :: c in r ==> InGrid(hd, c)
  {
    ScanCells(KeepAt(hd, probThreshold), hd.numGridH, hd.numGridW, n)
  }

  /** All kept cells of the tensor in scan order. */
  function KeptCells(hd: Head, probThreshold: real): seq<Cell>
    requires ReadsInBounds(hd)
  {
    KeptBefore(hd, probThreshold, NumCells(hd))
  }

  function DecodeAll(hd: Head, cs: seq<Cell>): seq<DetectRes>
    requires ReadsInBounds(hd) && forall c :: c in cs ==> InGrid(hd, c)
  {
    seq(|cs|, n requires 0 <= n < |cs| => DecodeCell(hd, cs[n]))
  }

  lemma DecodeAllAppend(hd: Head, a: seq<Cell>, b: seq<Cell>)
    requires ReadsInBounds(hd)
    requires forall c :: c in a ==> InGrid(hd, c)
    requires forall c :: c in b ==> InGrid(hd, c)
    ensures DecodeAll(hd, a + b) == DecodeAll(hd, a) + DecodeAll(hd, b)
  {
  }

  /** The proposals generate_proposals appends, in the order it appends them. */
  function Proposals(hd: Head, probThreshold: real): seq<DetectRes>
    requires ReadsInBounds(hd)
  {
    DecodeAll(hd, KeptCells(hd, probThreshold))
  }

  /** A grid cell is among the kept cells exactly when its confidence reaches the threshold. */
  lemma KeptCellsMembers(hd: Head, probThreshold: real)
    requires ReadsInBounds(hd)
    ensures forall c :: c in KeptCells(hd, probThreshold) <==> InGrid(hd, c) && Kept(hd, probThreshold, c)
  {
    var keep := KeepAt(hd, probThreshold);
    ScanCellsMembers(keep, hd.numGridH, hd.numGridW, NumCells(hd));
    forall c | InGrid(hd, c) && Kept(hd, probThreshold, c) ensures c in KeptCells(hd, probThreshold) {
      RankBelowGrid(c, NumAnchor(hd), hd.numGridH, hd.numGridW);
      assert keep(c);
    }
  }

  /** The proposals are the decoded kept cells, one per kept cell, in ascending (q, i, j) order;
      no cell below the threshold contributes and every cell at or above it does; there are at
      most numAnchor * numGridH * numGridW of them, and each carries a confidence at or above the threshold. */
  lemma ProposalsAreKeptCellsInScanOrder(hd: Head, probThreshold: real)
    requires ReadsInBounds(hd)
    ensures var cs := KeptCells(hd, probThreshold);
      var ps := Proposals(hd, probThreshold);
      && |ps| == |cs| <= NumAnchor(hd) * hd.numGridH * hd.numGridW
      && InScanOrder(cs)
      && (forall n :: 0 <= n < |cs| ==>
            InGrid(hd, cs[n]) && Kept(hd, probThreshold, cs[n]) && ps[n] == DecodeCell(hd, cs[n])
            && ps[n].prob >= probThreshold)
      && (forall c :: InGrid(hd, c) && Kept(hd, probThreshold, c) ==> c in cs)
  {
    var cs := KeptCells(hd, probThreshold);
    KeptCellsMembers(hd, probThreshold);
    ScanCellsOrdered(KeepAt(hd, probThreshold), hd.numGridH, hd.numGridW, NumCells(hd));
    RankProduct(Cell(NumAnchor(hd), 0, 0), hd.numGridH, hd.numGridW);
    forall n | 0 <= n < |cs| ensures InGrid(hd, cs[n]) && Kept(hd, probThreshold, cs[n]) {
      assert cs[n] in cs;
    }
  }

  /** No proposal at all exactly when no cell of the grid reaches the threshold. */
  lemma NoProposalsIffNothingKept(hd: Head, probThreshold: real)
    requires ReadsInBounds(hd)
    ensures Proposals(hd, probThreshold) == [] <==>
      forall c :: InGrid(hd, c) ==> !Kept(hd, probThreshold, c)
  {
    var cs := KeptCells(hd, probThreshold);
    KeptCellsMembers(hd, probThreshold);
    if cs != [] {
      assert cs[0] in cs;
    }
  }

  /** One anchor (10, 10) over a 1 x 1 grid with stride 8 and two classes, box deltas 0, objectness
      logit 0 and class logits (10, -10): with a logistic function taking 0 to 0.5, the one cell
      picks class 0 with confidence 0.5 * sigmoid(10), is kept exactly when that reaches the
      threshold, and decodes to the box (-1, -1, 9, 9). */
  lemma KnownValueDecode(sigmoid: real -> real, probThreshold: real)
    requires sigmoid(0.0) == 0.5
    ensures var hd := Head([10.0, 10.0], 1, 1, 8, [0.0, 0.0, 0.0, 0.0, 0.0, 10.0, -10.0], 2, sigmoid);
      var cell := Cell(0, 0, 0);
      && ReadsInBounds(hd)
      && (forall c :: InGrid(hd, c) <==> c == cell)
      && (Kept(hd, probThreshold, cell) <==> probThreshold <= 0.5 * sigmoid(10.0))
      && DecodeCell(hd, cell) == DetectRes(-1, -1, 9, 9, 0, 0.5 * sigmoid(10.0))
  {
    var hd := Head([10.0, 10.0], 1, 1, 8, [0.0, 0.0, 0.0, 0.0, 0.0, 10.0, -10.0], 2, sigmoid);
    var cell := Cell(0, 0, 0);
    assert ReadsInBounds(hd);
    assert ClassOf(hd, cell) == ClassPick(0, 10.0);
    assert Confidence(hd, cell) == 0.5 * sigmoid(10.0);
  }

  /** Decoding a non-empty list of cells decodes all but the last, then the last. */
  lemma DecodeAllSnoc(hd: Head, cs: seq<Cell>)
    requires ReadsInBounds(hd)
    requires cs != [] && forall c :: c in cs ==> InGrid(hd, c)
    ensures DecodeAll(hd, cs) == DecodeAll(hd, cs[..|cs| - 1]) + [DecodeCell(hd, cs[|cs| - 1])]
  {
  }

  /** Decoding maps a subsequence of cells to a subsequence of proposals. */
  lemma {:induction false} SubsequenceDecode(hd: Head, a: seq<Cell>, b: seq<Cell>)
    requires ReadsInBounds(hd)
    requires forall c :: c in b ==> InGrid(hd, c)
    requires IsSubsequence(a, b)
    ensures forall c :: c in a ==> InGrid(hd, c)
    ensures IsSubsequence(DecodeAll(hd, a), DecodeAll(hd, b))
    decreases |b|
  {
    if a != [] {
      var b0 := b[..|b| - 1];
      DecodeAllSnoc(hd, b);
      if a[|a| - 1] == b[|b| - 1] && IsSubsequence(a[..|a| - 1], b0) {
        var a0 := a[..|a| - 1];
        SubsequenceDecode(hd, a0, b0);
        assert a == a0 + [a[|a| - 1]];
        DecodeAllSnoc(hd, a);
        SubsequenceSnocBoth(DecodeAll(hd, a0), DecodeAll(hd, b0), DecodeCell(hd, b[|b| - 1]));
      } else {
        SubsequenceDecode(hd, a, b0);
        SubsequenceSnocRight(DecodeAll(hd, a), DecodeAll(hd, b0), DecodeCell(hd, b[|b| - 1]));
      }
    }
  }

  /** Raising the threshold only drops proposals: what remains is a subsequence of what was emitted. */
  lemma RaisingThresholdGivesSubsequence(hd: Head, lo: real, hi: real)
    requires ReadsInBounds(hd) && lo <= hi
    ensures IsSubsequence(Proposals(hd, hi), Proposals(hd, lo))
  {
    var fewer, more := KeepAt(hd, hi), KeepAt(hd, lo);
    assert forall c :: fewer(c) ==> more(c);
    ScanCellsMonotone(fewer, more, hd.numGridH, hd.numGridW, NumCells(hd));
    SubsequenceDecode(hd, KeptCells(hd, hi), KeptCells(hd, lo));
  }

  /** The class loop of generate_proposals over the `numClasses` logits starting at `first`:
      keep (0, -FLT_MAX) and move to logit k only when it is strictly greater than the best so far. */
  method ScanClasses(output: seq<real>, first: nat, numClasses: nat) returns (classIndex: nat, classScore: real)
    requires first + numClasses <= |output|
    ensures ClassPick(classIndex, classScore) == ClassScan(output, first, numClasses)
  {
    classIndex := 0;
    classScore := -FLT_MAX;
    var k := 0;
    while k < numClasses
      invariant k <= numClasses
      invariant ClassPick(classIndex, classScore) == ClassScan(output, first, k)
    {
      var score := output[first + k];
      if score > classScore {
        classIndex := k;
        classScore := score;
      }
      k := k + 1;
    }
  }

  /** The scoring half of one cell's visit: the cell's base offset as generate_proposals computes
      it, the class loop over channels 5 .. 5 + numClasses - 1, and the confidence
      sigmoid(objectness) * sigmoid(best class score). */
  method ScoreCell(hd: Head, q: nat, i: nat, j: nat)
    returns (base: nat, classIndex: nat, classScore: real, confidence: real)
    requires ReadsInBounds(hd) && InGrid(hd, Cell(q, i, j))
    ensures base == Offset(q, i, j, 0, hd.numGridW, hd.numGridH, hd.numClasses)
    ensures ClassPick(classIndex, classScore) == ClassOf(hd, Cell(q, i, j))
    ensures confidence == Confidence(hd, Cell(q, i, j))
  {
    var offset := hd.numClasses + 5;
    var areaGrid := hd.numGridW * hd.numGridH;
    CellInBounds(hd, Cell(q, i, j));
    var offsetXY := i * hd.numGridH * offset + j * offset;
    var cellBase := q * areaGrid * offset + offsetXY;
    assert cellBase == Offset(q, i, j, 0, hd.numGridW, hd.numGridH, hd.numClasses);
    base := cellBase;
    assert base + 4 == Offset(q, i, j, 4, hd.numGridW, hd.numGridH, hd.numClasses);
    assert base + 5 == Offset(q, i, j, 5, hd.numGridW, hd.numGridH, hd.numClasses);
    classIndex, classScore := ScanClasses(hd.output, base + 5, hd.numClasses);
    var boxScore := hd.output[base + 4];
    confidence := hd.sigmoid(boxScore) * hd.sigmoid(classScore);
  }

  /** Visiting one more cell appends its decoded proposal exactly when the cell is kept. */
  lemma ProposalsStep(hd: Head, probThreshold: real, c: Cell)
    requires ReadsInBounds(hd) && InGrid(hd, c)
    ensures DecodeAll(hd, KeptBefore(hd, probThreshold, Rank(c, hd.numGridH, hd.numGridW) + 1))
         == DecodeAll(hd, KeptBefore(hd, probThreshold, Rank(c, hd.numGridH, hd.numGridW)))
            + (if Kept(hd, probThreshold, c) then [DecodeCell(hd, c)] else [])
  {
    var n := Rank(c, hd.numGridH, hd.numGridW);
    var before := KeptBefore(hd, probThreshold, n);
    CellAtRank(c, hd.numGridH, hd.numGridW);
    assert KeptBefore(hd, probThreshold, n + 1) == before + (if Kept(hd, probThreshold, c) then [c] else []);
    if Kept(hd, probThreshold, c) {
      DecodeAllAppend(hd, before, [c]);
    }
  }

  /** The decoding half of one kept cell's visit: the four box deltas through the logistic
      function, centre (2d - 0.5 + column or row) * stride, size (2d)^2 * anchor, and the corners
      half a size either side of the centre. */
  method DecodeBox(hd: Head, q: nat, i: nat, j: nat, base: nat, anchorW: real, anchorH: real,
                   classIndex: nat, confidence: real)
    returns (proposal: DetectRes)
    requires ReadsInBounds(hd) && InGrid(hd, Cell(q, i, j))
    requires base == Offset(q, i, j, 0, hd.numGridW, hd.numGridH, hd.numClasses)
    requires (anchorW, anchorH) == AnchorOf(hd, q)
    requires classIndex == ClassOf(hd, Cell(q, i, j)).index && confidence == Confidence(hd, Cell(q, i, j))
    ensures proposal == DecodeCell(hd, Cell(q, i, j))
  {
    CellInBounds(hd, Cell(q, i, j));
    assert base + 1 == Offset(q, i, j, 1, hd.numGridW, hd.numGridH, hd.numClasses);
    assert base + 2 == Offset(q, i, j, 2, hd.numGridW, hd.numGridH, hd.numClasses);
    assert base + 3 == Offset(q, i, j, 3, hd.numGridW, hd.numGridH, hd.numClasses);
    var dx := hd.sigmoid(hd.output[base + 0]);
    var dy := hd.sigmoid(hd.output[base + 1]);
    var dw := hd.sigmoid(hd.output[base + 2]);
    var dh := hd.sigmoid(hd.output[base + 3]);

    var pbCx := Center(dx, j, hd.stride);
    var pbCy := Center(dy, i, hd.stride);
    var pbW := Extent(dw, anchorW);
    var pbH := Extent(dh, anchorH);

    var x0 := pbCx - pbW * 0.5;
    var y0 := pbCy - pbH * 0.5;
    var x1 := pbCx + pbW * 0.5;
    var y1 := pbCy + pbH * 0.5;

    proposal := DetectRes(TruncToInt(x0), TruncToInt(y0), TruncToInt(x1), TruncToInt(y1), classIndex, confidence);
  }

  /** The column loop of generate_proposals for row i of anchor q: appends the decoded kept
      cells of the row, in column order, to a result holding the proposals of the cells visited before. */
  method DecodeRow(hd: Head, probThreshold: real, q: nat, i: nat, anchorW: real, anchorH: real,
                   detectRes: seq<DetectRes>, ghost prefix: seq<DetectRes>, ghost start: nat)
    returns (res: seq<DetectRes>)
    requires ReadsInBounds(hd) && q < NumAnchor(hd) && i < hd.numGridH
    requires (anchorW, anchorH) == AnchorOf(hd, q)
    requires start == Rank(Cell(q, i, 0), hd.numGridH, hd.numGridW)
    requires detectRes == prefix + DecodeAll(hd, KeptBefore(hd, probThreshold, start))
    ensures res == prefix + DecodeAll(hd, KeptBefore(hd, probThreshold, start + hd.numGridW))
  {
    res := detectRes;
    var j := 0;
    while j < hd.numGridW
      invariant j <= hd.numGridW
      invariant res == prefix + DecodeAll(hd, KeptBefore(hd, probThreshold, start + j))
    {
      var base, classIndex, classScore, confidence := ScoreCell(hd, q, i, j);
      ProposalsStep(hd, probThreshold, Cell(q, i, j));
      if confidence >= probThreshold {
        var proposal := DecodeBox(hd, q, i, j, base, anchorW, anchorH, classIndex, confidence);
        AppendAssoc(prefix, DecodeAll(hd, KeptBefore(hd, probThreshold, start + j)), [proposal]);
        res := res + [proposal];
      }
      j := j + 1;
    }
  }

  /** The row loop of generate_proposals for anchor q: appends the decoded kept cells of the
      anchor's grid, in (row, column) order, to a result holding those of the anchors before. */
  method DecodeAnchor(hd: Head, probThreshold: real, q: nat, anchorW: real, anchorH: real,
                      detectRes: seq<DetectRes>, ghost prefix: seq<DetectRes>)
    returns (res: seq<DetectRes>)
    requires ReadsInBounds(hd) && q < NumAnchor(hd)
    requires (anchorW, anchorH) == AnchorOf(hd, q)
    requires detectRes == prefix + DecodeAll(hd, KeptBefore(hd, probThreshold, Rank(Cell(q, 0, 0), hd.numGridH, hd.numGridW)))
    ensures res == prefix + DecodeAll(hd, KeptBefore(hd, probThreshold, Rank(Cell(q + 1, 0, 0), hd.numGridH, hd.numGridW)))
  {
    res := detectRes;
    var i := 0;
    ghost var start := Rank(Cell(q, 0, 0), hd.numGridH, hd.numGridW);
    while i < hd.numGridH
      invariant i <= hd.numGridH
      invariant start == Rank(Cell(q, i, 0), hd.numGridH, hd.numGridW)
      invariant res == prefix + DecodeAll(hd, KeptBefore(hd, probThreshold, start))
    {
      res := DecodeRow(hd, probThreshold, q, i, anchorW, anchorH, res, prefix, start);
      RankNextRow(q, i, hd.numGridH, hd.numGridW);
      start := start + hd.numGridW;
      i := i + 1;
    }
    RankNextAnchor(q, hd.numGridH, hd.numGridW);
  }

  /** generate_proposals: for every anchor, row and column in that nesting, append to `detectRes`
      the decoded proposal of each cell whose confidence reaches `probThreshold`. `detectRes` plays
      the vector passed by reference: the method returns its new contents. */
  method GenerateProposals(anchor: seq<real>, numGridW: nat, numGridH: nat, stride: int,
                           output: seq<real>, probThreshold: real, numClasses: nat,
                           sigmoid: real -> real, detectRes: seq<DetectRes>)
    returns (res: seq<DetectRes>)
    requires ReadsInBounds(Head(anchor, numGridW, numGridH, stride, output, numClasses, sigmoid))
    ensures res == detectRes + Proposals(Head(anchor, numGridW, numGridH, stride, output, numClasses, sigmoid),
                                         probThreshold)
  {
    var hd := Head(anchor, numGridW, numGridH, stride, output, numClasses, sigmoid);
    var numAnchor := |anchor| / 2;
    res := detectRes;
    var q := 0;
    while q < numAnchor
      invariant q <= numAnchor
      invariant res == detectRes + DecodeAll(hd, KeptBefore(hd, probThreshold, Rank(Cell(q, 0, 0), numGridH, numGridW)))
    {
      ghost var pair := AnchorOf(hd, q);
      var anchorW := anchor[q * 2];
      var anchorH := anchor[q * 2 + 1];
      res := DecodeAnchor(hd, probThreshold, q, anchorW, anchorH, res, detectRes);
      q := q + 1;
    }
  }
}
