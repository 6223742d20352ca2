/** The order in which generate_proposals visits grid cells (anchor, then row, then column), the
    list of visited cells a selection keeps, and the subsequence relation between such lists.
    The three nested loops visit the cells of a `numGridW` x `numGridH` grid in the order of their
    rank (q * numGridH + i) * numGridW + j, so the cells visited before a loop position are those of
    smaller rank. Nothing here depends on how a cell is selected: the selection is a parameter `keep`. */
module ScanOrder {
  import opened GridLayout

  /** Grid cell (q, i, j): anchor q, row i, column j. */
  datatype Cell = Cell(q: nat, i: nat, j: nat)

  /** The cell lies inside one anchor's grid. */
  predicate InPlane(c: Cell, numGridH: nat, numGridW: nat)
  {
    c.i < numGridH && c.j < numGridW
  }

  /** a * b as repeated addition. Ranks are built from it so that a loop proof advancing by one
      row or one anchor reasons about one addition at a time, not about products of variables. */
  function Mul(a: nat, b: nat): nat
  {
    if a == 0 then 0 else Mul(a - 1, b) + b
  }

  lemma {:induction false} MulIsProduct(a: nat, b: nat)
    ensures Mul(a, b) == a * b
  {
    if a > 0 {
      MulIsProduct(a - 1, b);
      MulSucc(a - 1, b);
    }
  }

  /** Number of cells the nested loops visit before cell c: (q * numGridH + i) * numGridW + j. */
  function Rank(c: Cell, numGridH: nat, numGridW: nat): nat
  {
    Mul(Mul(c.q, numGridH) + c.i, numGridW) + c.j
  }

  lemma RankProduct(c: Cell, numGridH: nat, numGridW: nat)
    ensures Rank(c, numGridH, numGridW) == (c.q * numGridH + c.i) * numGridW + c.j
  {
    MulIsProduct(c.q, numGridH);
    MulIsProduct(c.q * numGridH + c.i, numGridW);
  }

  /** The next row of an anchor starts one row width further on. */
  lemma RankNextRow(q: nat, i: nat, numGridH: nat, numGridW: nat)
    ensures Rank(Cell(q, i + 1, 0), numGridH, numGridW) == Rank(Cell(q, i, 0), numGridH, numGridW) + numGridW
  {
    assert Mul(Mul(q, numGridH) + i + 1, numGridW) == Mul(Mul(q, numGridH) + i, numGridW) + numGridW;
  }

  /** The next anchor starts where the row past the last row of an anchor would. */
  lemma RankNextAnchor(q: nat, numGridH: nat, numGridW: nat)
    ensures Rank(Cell(q + 1, 0, 0), numGridH, numGridW) == Rank(Cell(q, numGridH, 0), numGridH, numGridW)
  {
    assert Mul(q + 1, numGridH) == Mul(q, numGridH) + numGridH;
  }

  /** The cell the nested loops visit n-th (counting from 0). */
  function CellAt(n: nat, numGridH: nat, numGridW: nat): Cell
    requires numGridH > 0 && numGridW > 0
  {
    var row := n / numGridW;
    Cell(row / numGridH, row % numGridH, n % numGridW)
  }

  /** Strict lexicographic order on (q, i, j): the order of the three nested loops. */
  predicate ScanBefore(a: Cell, b: Cell)
  {
    a.q < b.q || (a.q == b.q && (a.i < b.i || (a.i == b.i && a.j < b.j)))
  }

  predicate InScanOrder(cs: seq<Cell>)
  {
    forall m, n :: 0 <= m < n < |cs| ==> ScanBefore(cs[m], cs[n])
  }

  /** Euclidean division recovers the digits of a * m + b. */
  lemma DivModDigits(a: nat, b: nat, m: nat)
    requires b < m
    ensures (a * m + b) / m == a && (a * m + b) % m == b
  {
    var n := a * m + b;
    MixedRadixUnique(n / m, n % m, a, b, m);
  }

  /** Lexicographic order of digit pairs is the order of the numbers they spell. */
  lemma LexRadix(a1: nat, b1: nat, a2: nat, b2: nat, m: nat)
    requires b1 < m && b2 < m
    ensures (a1 < a2 || (a1 == a2 && b1 < b2)) <==> a1 * m + b1 < a2 * m + b2
  {
    if a1 < a2 {
      MixedRadixBound(a1, b1, a2, m);
    } else if a2 < a1 {
      MixedRadixBound(a2, b2, a1, m);
    }
  }

  /** Euclidean division splits n into the digits of the n-th visited cell. */
  lemma CellAtDigits(n: nat, numGridH: nat, numGridW: nat)
    requires numGridH > 0 && numGridW > 0
    ensures var c := CellAt(n, numGridH, numGridW);
      InPlane(c, numGridH, numGridW) && (c.q * numGridH + c.i) * numGridW + c.j == n
  {
    var row := n / numGridW;
    assert n == row * numGridW + n % numGridW;
    assert row == (row / numGridH) * numGridH + row % numGridH;
  }

  /** The n-th visited cell lies in the grid and has rank n. */
  lemma RankOfCellAt(n: nat, numGridH: nat, numGridW: nat)
    requires numGridH > 0 && numGridW > 0
    ensures InPlane(CellAt(n, numGridH, numGridW), numGridH, numGridW)
    ensures Rank(CellAt(n, numGridH, numGridW), numGridH, numGridW) == n
  {
    CellAtDigits(n, numGridH, numGridW);
    RankProduct(CellAt(n, numGridH, numGridW), numGridH, numGridW);
  }

  /** A cell of the grid is the cell visited at its rank. */
  lemma CellAtRank(c: Cell, numGridH: nat, numGridW: nat)
    requires InPlane(c, numGridH, numGridW)
    ensures CellAt(Rank(c, numGridH, numGridW), numGridH, numGridW) == c
  {
    RankProduct(c, numGridH, numGridW);
    DivModDigits(c.q * numGridH + c.i, c.j, numGridW);
    DivModDigits(c.q, c.i, numGridH);
  }

  /** On cells of the grid, scan order is the order of ranks. */
  lemma ScanBeforeIffRankBelow(a: Cell, b: Cell, numGridH: nat, numGridW: nat)
    requires InPlane(a, numGridH, numGridW) && InPlane(b, numGridH, numGridW)
    ensures ScanBefore(a, b) <==> Rank(a, numGridH, numGridW) < Rank(b, numGridH, numGridW)
  {
    RankProduct(a, numGridH, numGridW);
    RankProduct(b, numGridH, numGridW);
    LexRadix(a.q, a.i, b.q, b.i, numGridH);
    LexRadix(a.q * numGridH + a.i, a.j, b.q * numGridH + b.i, b.j, numGridW);
    if a.q * numGridH + a.i == b.q * numGridH + b.i {
      MixedRadixUnique(a.q, a.i, b.q, b.i, numGridH);
    }
  }

  /** A cell of the grid is visited before the first cell of anchor `numAnchor` exactly when its anchor is below it. */
  lemma RankBelowGrid(c: Cell, numAnchor: nat, numGridH: nat, numGridW: nat)
    requires InPlane(c, numGridH, numGridW)
    ensures Rank(c, numGridH, numGridW) < Rank(Cell(numAnchor, 0, 0), numGridH, numGridW) <==> c.q < numAnchor
  {
    RankProduct(c, numGridH, numGridW);
    RankProduct(Cell(numAnchor, 0, 0), numGridH, numGridW);
    LexRadix(c.q, c.i, numAnchor, 0, numGridH);
    LexRadix(c.q * numGridH + c.i, c.j, numAnchor * numGridH, 0, numGridW);
  }

  /** The cells among the first n visited that `keep` selects, in visiting order. An empty grid
      has no cells to visit. */
  function ScanCells(keep: Cell -> bool, numGridH: nat, numGridW: nat, n: nat): (r: seq<Cell>)
    ensures |r| <= n
    ensures forall c :: c in r ==> InPlane(c, numGridH, numGridW) && Rank(c, numGridH, numGridW) < n && keep(c)
  {
    if n == 0 || numGridH == 0 || numGridW == 0 then []
    else
      var c := CellAt(n - 1, numGridH, numGridW);
      RankOfCellAt(n - 1, numGridH, numGridW);
      ScanCells(keep, numGridH, numGridW, n - 1) + (if keep(c) then [c] else [])
  }

  /** The scan holds every selected grid cell visited among the first n, and nothing else. */
  lemma {:induction false} ScanCellsMembers(keep: Cell -> bool, numGridH: nat, numGridW: nat, n: nat)
    ensures forall c :: c in ScanCells(keep, numGridH, numGridW, n) <==>
      InPlane(c, numGridH, numGridW) && Rank(c, numGridH, numGridW) < n && keep(c)
  {
    if n > 0 && numGridH > 0 && numGridW > 0 {
      ScanCellsMembers(keep, numGridH, numGridW, n - 1);
      forall c | InPlane(c, numGridH, numGridW) && Rank(c, numGridH, numGridW) == n - 1
        ensures c == CellAt(n - 1, numGridH, numGridW)
      {
        CellAtRank(c, numGridH, numGridW);
      }
    }
  }

  /** Concatenating two scan-ordered lists, all of whose left cells come first, keeps scan order. */
  lemma InScanOrderAppend(a: seq<Cell>, b: seq<Cell>)
    requires InScanOrder(a) && InScanOrder(b)
    requires forall c, d :: c in a && d in b ==> ScanBefore(c, d)
    ensures InScanOrder(a + b)
  {
    forall m, n | 0 <= m < n < |a + b| ensures ScanBefore((a + b)[m], (a + b)[n]) {
      if n < |a| {
      } else if m >= |a| {
        assert (a + b)[m] == b[m - |a|] && (a + b)[n] == b[n - |a|];
      } else {
        assert (a + b)[m] in a && (a + b)[n] in b;
      }
    }
  }

  /** The scan lists its cells in visiting order, each once. */
  lemma {:induction false} ScanCellsOrdered(keep: Cell -> bool, numGridH: nat, numGridW: nat, n: nat)
    ensures InScanOrder(ScanCells(keep, numGridH, numGridW, n))
  {
    if n > 0 && numGridH > 0 && numGridW > 0 {
      var before := ScanCells(keep, numGridH, numGridW, n - 1);
      var c := CellAt(n - 1, numGridH, numGridW);
      var emit := if keep(c) then [c] else [];
      ScanCellsOrdered(keep, numGridH, numGridW, n - 1);
      RankOfCellAt(n - 1, numGridH, numGridW);
      forall b, d | b in before && d in emit ensures ScanBefore(b, d) {
        ScanBeforeIffRankBelow(b, d, numGridH, numGridW);
      }
      InScanOrderAppend(before, emit);
    }
  }

  lemma AppendAssoc<T>(a: seq<T>, b: seq<T>, c: seq<T>)
    ensures a + b + c == a + (b + c)
  {
  }

  /** `a` is `b` with some elements removed, the rest in order. */
  predicate IsSubsequence<T(==)>(a: seq<T>, b: seq<T>)
    decreases |b|
  {
    a == []
    || (b != [] &&
        ((a[|a| - 1] == b[|b| - 1] && IsSubsequence(a[..|a| - 1], b[..|b| - 1]))
         || IsSubsequence(a, b[..|b| - 1])))
  }

  /** Appending the same element to both sides keeps a subsequence. */
  lemma SubsequenceSnocBoth<T>(a: seq<T>, b: seq<T>, x: T)
    requires IsSubsequence(a, b)
    ensures IsSubsequence(a + [x], b + [x])
  {
    assert (a + [x])[..|a|] == a && (b + [x])[..|b|] == b;
  }

  /** Appending an element to the longer side keeps a subsequence. */
  lemma SubsequenceSnocRight<T>(a: seq<T>, b: seq<T>, y: T)
    requires IsSubsequence(a, b)
    ensures IsSubsequence(a, b + [y])
  {
    assert (b + [y])[..|b|] == b;
  }

  /** Subsequences concatenate. */
  lemma {:induction false} SubsequenceAppend<T>(a1: seq<T>, b1: seq<T>, a2: seq<T>, b2: seq<T>)
    requires IsSubsequence(a1, b1) && IsSubsequence(a2, b2)
    ensures IsSubsequence(a1 + a2, b1 + b2)
    decreases |b2|
  {
    if b2 == [] {
      assert a2 == [];
      assert a1 + a2 == a1 && b1 + b2 == b1;
    } else {
      var b := b1 + b2;
      assert b[..|b| - 1] == b1 + b2[..|b2| - 1];
      if a2 != [] && a2[|a2| - 1] == b2[|b2| - 1] && IsSubsequence(a2[..|a2| - 1], b2[..|b2| - 1]) {
        var a := a1 + a2;
        assert a[..|a| - 1] == a1 + a2[..|a2| - 1];
        SubsequenceAppend(a1, b1, a2[..|a2| - 1], b2[..|b2| - 1]);
      } else {
        SubsequenceAppend(a1, b1, a2, b2[..|b2| - 1]);
      }
    }
  }

  /** A narrower selection keeps a subsequence of the scan. */
  lemma {:induction false} ScanCellsMonotone(fewer: Cell -> bool, more: Cell -> bool, numGridH: nat, numGridW: nat, n: nat)
    requires forall c :: fewer(c) ==> more(c)
    ensures IsSubsequence(ScanCells(fewer, numGridH, numGridW, n), ScanCells(more, numGridH, numGridW, n))
  {
    if n > 0 && numGridH > 0 && numGridW > 0 {
      var c := CellAt(n - 1, numGridH, numGridW);
      var emitFewer := if fewer(c) then [c] else [];
      var emitMore := if more(c) then [c] else [];
      ScanCellsMonotone(fewer, more, numGridH, numGridW, n - 1);
      assert IsSubsequence(emitFewer, emitMore) by {
        if fewer(c) {
          assert IsSubsequence(emitFewer[..0], emitMore[..0]);
        }
      }
      SubsequenceAppend(ScanCells(fewer, numGridH, numGridW, n - 1), ScanCells(more, numGridH, numGridW, n - 1),
                        emitFewer, emitMore);
    }
  }
}
