/** Flat layout of one detection head's output tensor, [anchor][row][col][channel]
    with channel innermost, and the index arithmetic generate_proposals uses on it. */
module GridLayout {

  /** Channels per grid cell: four box deltas, one objectness logit, then one logit per class. */
  function ChannelsPerCell(numClasses: nat): nat
  {
    numClasses + 5
  }

  /** Number of floats in a tensor of `numAnchor` anchors over a `numGridW` x `numGridH` grid. */
  function BufferSize(numAnchor: nat, numGridW: nat, numGridH: nat, numClasses: nat): nat
  {
    numAnchor * (numGridW * numGridH) * ChannelsPerCell(numClasses)
  }

  /** Index of channel `c` of cell (q, i, j) as generate_proposals computes it:
      the anchor block is `area_grid * offset` wide, but a row is `num_grid_h * offset`
      wide, where the layout calls for `num_grid_w * offset`. */
  function Offset(q: nat, i: nat, j: nat, c: nat, numGridW: nat, numGridH: nat, numClasses: nat): nat
  {
    q * (numGridW * numGridH) * ChannelsPerCell(numClasses)
      + (i * numGridH * ChannelsPerCell(numClasses) + j * ChannelsPerCell(numClasses))
      + c
  }

  /** Index of channel `c` of cell (q, i, j) in the row-major layout, with the row width as row stride. */
  function CellOffset(q: nat, i: nat, j: nat, c: nat, numGridW: nat, numGridH: nat, numClasses: nat): nat
  {
    ((q * numGridH + i) * numGridW + j) * ChannelsPerCell(numClasses) + c
  }

  /** A digit below its radix keeps a mixed-radix number below the next place value. */
  lemma MixedRadixBound(a: nat, b: nat, n: nat, m: nat)
    requires a < n && b < m
    ensures a * m + b < n * m
  {
    assert (n - 1 - a) * m >= 0;
    assert (n - 1) * m == n * m - m;
  }

  /** Multiplying by a natural number keeps the order. */
  lemma MulMonotone(x: nat, y: nat, m: nat)
    requires x <= y
    ensures x * m <= y * m
  {
    assert y * m == x * m + (y - x) * m;
  }

  lemma MulSucc(n: nat, m: nat)
    ensures (n + 1) * m == n * m + m
  {
  }

  /** Mixed-radix digits are unique. */
  lemma MixedRadixUnique(a: nat, b: nat, a2: nat, b2: nat, m: nat)
    requires b < m && b2 < m
    requires a * m + b == a2 * m + b2
    ensures a == a2 && b == b2
  {
    if a < a2 {
      MulMonotone(a + 1, a2, m);
    } else if a2 < a {
      MulMonotone(a2 + 1, a, m);
    }
  }

  /** The corrected offset never leaves a buffer of `BufferSize` floats, whatever the grid's shape. */
  lemma CellOffsetInBounds(q: nat, i: nat, j: nat, c: nat, numAnchor: nat, numGridW: nat, numGridH: nat, numClasses: nat)
    requires q < numAnchor && i < numGridH && j < numGridW && c < ChannelsPerCell(numClasses)
    ensures CellOffset(q, i, j, c, numGridW, numGridH, numClasses) < BufferSize(numAnchor, numGridW, numGridH, numClasses)
  {
    var off := ChannelsPerCell(numClasses);
    MixedRadixBound(q, i, numAnchor, numGridH);
    MixedRadixBound(q * numGridH + i, j, numAnchor * numGridH, numGridW);
    MixedRadixBound((q * numGridH + i) * numGridW + j, c, numAnchor * numGridH * numGridW, off);
    assert numAnchor * numGridH * numGridW * off == numAnchor * (numGridW * numGridH) * off;
  }

  /** Distinct (cell, channel) pairs have distinct corrected offsets, whatever the grid's shape. */
  lemma CellOffsetInjective(q: nat, i: nat, j: nat, c: nat, q2: nat, i2: nat, j2: nat, c2: nat,
                            numGridW: nat, numGridH: nat, numClasses: nat)
    requires i < numGridH && i2 < numGridH && j < numGridW && j2 < numGridW
    requires c < ChannelsPerCell(numClasses) && c2 < ChannelsPerCell(numClasses)
    requires CellOffset(q, i, j, c, numGridW, numGridH, numClasses) == CellOffset(q2, i2, j2, c2, numGridW, numGridH, numClasses)
    ensures q == q2 && i == i2 && j == j2 && c == c2
  {
    var off := ChannelsPerCell(numClasses);
    var row, row2 := q * numGridH + i, q2 * numGridH + i2;
    var cell, cell2 := row * numGridW + j, row2 * numGridW + j2;
    MixedRadixUnique(cell, c, cell2, c2, off);
    MixedRadixUnique(row, j, row2, j2, numGridW);
    MixedRadixUnique(q, i, q2, i2, numGridH);
  }

  /** On a square grid the offset as written is the row-major offset. */
  lemma OffsetOnSquareGrid(q: nat, i: nat, j: nat, c: nat, numGridW: nat, numGridH: nat, numClasses: nat)
    requires numGridW == numGridH
    ensures Offset(q, i, j, c, numGridW, numGridH, numClasses) == CellOffset(q, i, j, c, numGridW, numGridH, numClasses)
  {
    var off := ChannelsPerCell(numClasses);
    calc {
      CellOffset(q, i, j, c, numGridW, numGridH, numClasses);
      ((q * numGridH + i) * numGridW + j) * off + c;
      { assert (q * numGridH + i) * numGridW == q * (numGridW * numGridH) + i * numGridH; }
      (q * (numGridW * numGridH) + i * numGridH + j) * off + c;
      Offset(q, i, j, c, numGridW, numGridH, numClasses);
    }
  }

  /** The offset as written grows with each of its coordinates. */
  lemma OffsetMonotone(q: nat, i: nat, j: nat, c: nat, q2: nat, i2: nat, j2: nat, c2: nat,
                       numGridW: nat, numGridH: nat, numClasses: nat)
    requires q <= q2 && i <= i2 && j <= j2 && c <= c2
    ensures Offset(q, i, j, c, numGridW, numGridH, numClasses) <= Offset(q2, i2, j2, c2, numGridW, numGridH, numClasses)
  {
    var off := ChannelsPerCell(numClasses);
    MulMonotone(q, q2, numGridW * numGridH);
    MulMonotone(q * (numGridW * numGridH), q2 * (numGridW * numGridH), off);
    MulMonotone(i, i2, numGridH);
    MulMonotone(i * numGridH, i2 * numGridH, off);
    MulMonotone(j, j2, off);
  }

  /** On a square grid every read generate_proposals makes lies inside the tensor. */
  lemma OffsetInBounds(q: nat, i: nat, j: nat, c: nat, numAnchor: nat, numGridW: nat, numGridH: nat, numClasses: nat)
    requires numGridW == numGridH
    requires q < numAnchor && i < numGridH && j < numGridW && c < ChannelsPerCell(numClasses)
    ensures Offset(q, i, j, c, numGridW, numGridH, numClasses) < BufferSize(numAnchor, numGridW, numGridH, numClasses)
  {
    OffsetOnSquareGrid(q, i, j, c, numGridW, numGridH, numClasses);
    CellOffsetInBounds(q, i, j, c, numAnchor, numGridW, numGridH, numClasses);
  }

  /** On a square grid two distinct cells read disjoint channel blocks. */
  lemma OffsetDisjoint(q: nat, i: nat, j: nat, c: nat, q2: nat, i2: nat, j2: nat, c2: nat,
                       numGridW: nat, numGridH: nat, numClasses: nat)
    requires numGridW == numGridH
    requires i < numGridH && i2 < numGridH && j < numGridW && j2 < numGridW
    requires c < ChannelsPerCell(numClasses) && c2 < ChannelsPerCell(numClasses)
    requires (q, i, j) != (q2, i2, j2)
    ensures Offset(q, i, j, c, numGridW, numGridH, numClasses) != Offset(q2, i2, j2, c2, numGridW, numGridH, numClasses)
  {
    OffsetOnSquareGrid(q, i, j, c, numGridW, numGridH, numClasses);
    OffsetOnSquareGrid(q2, i2, j2, c2, numGridW, numGridH, numClasses);
    if CellOffset(q, i, j, c, numGridW, numGridH, numClasses) == CellOffset(q2, i2, j2, c2, numGridW, numGridH, numClasses) {
      CellOffsetInjective(q, i, j, c, q2, i2, j2, c2, numGridW, numGridH, numClasses);
    }
  }

  /** A grid one column wide and two rows high, one anchor, no classes: the tensor holds 10 floats,
      and channel 0 of cell (0, 1, 0) is read at index 10, one past its end. */
  lemma OffsetOutOfRangeOnTallGrid()
    ensures BufferSize(1, 1, 2, 0) == 10
    ensures Offset(0, 1, 0, 0, 1, 2, 0) == 10
  {
  }

  /** A grid three columns wide and two rows high: cell (0, 1, 0) reads the same floats as cell (0, 0, 2). */
  lemma OffsetAliasesOnWideGrid()
    ensures forall c: nat :: Offset(0, 1, 0, c, 3, 2, 0) == Offset(0, 0, 2, c, 3, 2, 0)
  {
  }
}
