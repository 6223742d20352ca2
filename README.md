# yolov5-ppl.nn post-processing in Dafny

This project models the part of the yolov5-ppl.nn detector that turns the network's three raw
output tensors into detections. It has two parts:

- `generate_proposals` decodes one detection head. The head is a flat float buffer laid out as
  [anchor][row][column][channel], with `num_classes + 5` channels per grid cell. For each cell it:
  - picks the best class with a first-wins scan;
  - scores the cell as sigmoid(objectness) × sigmoid(best class logit);
  - keeps the cell when that confidence reaches the threshold;
  - decodes the anchor-relative box into integer corners;
  - appends the result to the caller's list, in anchor, row, column order.
- The sequential part of `Yolov5Impl::postprecess`:
  - returns early when there is no context or when a tensor's host conversion fails;
  - decodes the three scales (strides 8, 16 and 32, on 80×80, 40×40 and 20×20 grids, three anchors each);
  - concatenates their proposals in stride order;
  - packs the boxes and scores into the flat buffers that non-maximum suppression reads;
  - appends the proposals that suppression keeps, in keep-list order.

The modules follow the program's structure:

- `GridLayout` (grid_layout.dfy) has the buffer layout and the offset arithmetic. `Offset` is the
  index as the decoder computes it. `CellOffset` is the row-major index with the row width as row
  stride.
- `ScanOrder` (scan_order.dfy) has the visiting order of the three nested loops. A cell's rank is
  the number of cells visited before it. `ScanCells` is the list of visited cells that a selection
  keeps. The file also defines the subsequence relation.
- `Proposals` (proposals.dfy) is `generate_proposals`:
  - a functional specification: `KeptCells` lists the kept cells in scan order, and `Proposals` is
    their decoded boxes;
  - the lemmas about it;
  - the imperative decoder, `GenerateProposals` with `DecodeAnchor`, `DecodeRow`, `ScoreCell`,
    `ScanClasses` and `DecodeBox`, one method per loop level. It is proved to append exactly
    `Proposals` to the caller's list.
- `Yolov5` (yolov5.dfy) is `postprecess`. The engine is reduced to what the function observes:
  - whether a context exists;
  - for each output tensor, whether `ConvertToHost` succeeds and the floats its buffer holds.

  Non-maximum suppression is a function parameter. The only thing assumed of it is that it
  returns valid indices.

The float logistic function is a parameter `sigmoid: real -> real`, and values are `real`.
`pow(d * 2, 2)` is written as a product. Storing a float corner into the `int` fields of
`DetectRes` truncates toward zero, and this is modelled by `TruncToInt`.

The code does not check the tensor size. The model makes it a precondition (`ReadsInBounds`,
`TensorFits`): the code reads the buffer without checking, so a short buffer is not an error path.
The code has no check on thresholds, class count or anchor count, and neither does the model.
The decoder uses the row stride as written. See Findings.

## Model

| member | source | states |
|---|---|---|
| GridLayout.CellOffsetInBounds | src/utils.cpp:35-38 | With the row width as row stride, the index of every channel of every cell lies below num_anchor × area_grid × (num_classes + 5), for any grid shape |
| GridLayout.CellOffsetInjective | src/utils.cpp:35-38 | With the row width as row stride, distinct (anchor, row, column, channel) tuples get distinct indices, for any grid shape |
| GridLayout.OffsetOnSquareGrid | src/utils.cpp:35-38 | On a square grid, the index as the decoder computes it equals the row-major index |
| GridLayout.OffsetMonotone | src/utils.cpp:35-38 | The decoder's index grows with each of anchor, row, column and channel |
| GridLayout.OffsetInBounds | src/utils.cpp:21-58 | On a square grid, every read the decoder makes lies inside a buffer of num_anchor × area_grid × offset floats |
| GridLayout.OffsetDisjoint | src/utils.cpp:35-58 | On a square grid, two distinct cells never read the same float |
| GridLayout.OffsetOutOfRangeOnTallGrid | src/utils.cpp:35 | On a 1-wide, 2-high grid with one anchor and no classes, the buffer holds 10 floats, yet the decoder reads index 10 for cell (0, 1, 0) |
| GridLayout.OffsetAliasesOnWideGrid | src/utils.cpp:35 | On a 3-wide, 2-high grid, cells (0, 1, 0) and (0, 0, 2) read the same floats |
| ScanOrder.RankOfCellAt | src/utils.cpp:25-30 | The n-th cell the nested loops visit lies in the grid and has exactly n cells before it |
| ScanOrder.CellAtRank | src/utils.cpp:25-30 | Each grid cell is the one the loops visit at its rank, so the loops visit every cell exactly once |
| ScanOrder.ScanBeforeIffRankBelow | src/utils.cpp:25-30 | The loops visit a before b if and only if (q, i, j) of a is lexicographically below that of b |
| ScanOrder.RankBelowGrid | src/utils.cpp:25-30 | A cell is visited before the first cell of anchor n if and only if its anchor is below n |
| ScanOrder.ScanCells | src/utils.cpp:25-54 | The kept cells among the first n visited number at most n, and each lies in the grid, is selected and was visited before position n |
| ScanOrder.ScanCellsMembers | src/utils.cpp:25-54 | A cell is in the scan if and only if it lies in the grid, was visited before position n and is selected |
| ScanOrder.ScanCellsOrdered | src/utils.cpp:25-30 | The scan lists its cells in strictly increasing (q, i, j) order |
| ScanOrder.ScanCellsMonotone | src/utils.cpp:54 | A narrower selection yields a subsequence of the scan of a wider one |
| Proposals.CellInBounds | src/utils.cpp:35-58 | When the decoder's last read is in bounds, every channel of every grid cell is in bounds |
| Proposals.ReadsInBoundsIffEveryRead | src/utils.cpp:35-58 | The read bound holds if and only if every read of every cell lies inside the buffer |
| Proposals.SquareGridReadsInBounds | src/utils.cpp:20-22 | On a square grid, a buffer of `BufferSize` floats satisfies the read bound |
| Proposals.AnchorOf | src/utils.cpp:20-27 | For every anchor index below anchor.size() / 2, both anchor[2q] and anchor[2q + 1] lie inside the anchor list |
| Proposals.ClassScanIsFirstMax | src/utils.cpp:33-44 | The class scan's score bounds every logit and is at least -FLT_MAX. When the score beats -FLT_MAX, its index is the first class attaining it. Otherwise the index stays 0 |
| Proposals.ClassOfIsFirstMax | src/utils.cpp:33-44 | The same, for a cell's class channels 5 .. 4 + num_classes |
| Proposals.ScanClasses | src/utils.cpp:33-44 | The class loop returns exactly the class scan's (index, score) |
| Proposals.TruncToInt | src/utils.cpp:76-79 | Storing a corner into an int field truncates toward zero: it moves the value by less than one and never away from zero |
| Proposals.TruncOrdered | src/utils.cpp:70-79 | Truncation keeps corner order and adds less than one to their distance |
| Proposals.Center | src/utils.cpp:62-63 | With 0 < d < 1 and a positive stride, the centre lies strictly between (index - 0.5) × stride and (index + 1.5) × stride |
| Proposals.Extent | src/utils.cpp:65-66 | The size (2d)² × anchor is non-negative for a non-negative anchor, and below four anchor sizes when 0 < d < 1 |
| Proposals.Edges | src/utils.cpp:62-73 | The two edges are ordered, their midpoint lies in the cell's neighbourhood, and they are less than four anchor sizes apart |
| Proposals.DecodeCellLabel | src/utils.cpp:50-81 | A decoded proposal's label is a valid class index, and its probability is the cell's confidence, in (0, 1) when sigmoid is |
| Proposals.DecodeCellBox | src/utils.cpp:62-79 | A decoded proposal's integer corners are ordered, and each side is below four anchor sizes plus one |
| Proposals.KnownValueDecode | src/utils.cpp:33-81 | Example: a single cell with class logits (10, -10), zero deltas and anchor (10, 10) at stride 8 picks class 0 with confidence 0.5 × sigmoid(10). It is kept if and only if that confidence reaches the threshold, and it decodes to (-1, -1, 9, 9) |
| Proposals.KeptCellsMembers | src/utils.cpp:50-54 | A grid cell is kept if and only if its confidence is at least the threshold, so equality keeps it |
| Proposals.ProposalsAreKeptCellsInScanOrder | src/utils.cpp:25-83 | The proposals are the decoded kept cells, one each, in increasing (q, i, j) order, at most num_anchor × num_grid_h × num_grid_w of them. Each has prob at or above the threshold, and every kept cell contributes |
| Proposals.NoProposalsIffNothingKept | src/utils.cpp:54 | There are no proposals if and only if no grid cell reaches the threshold |
| Proposals.SubsequenceDecode | src/utils.cpp:54-83 | Decoding a subsequence of cells gives a subsequence of proposals |
| Proposals.RaisingThresholdGivesSubsequence | src/utils.cpp:54 | Raising the threshold yields a subsequence of the proposals emitted at the lower one |
| Proposals.ScoreCell | src/utils.cpp:33-50 | The cell's base index is the decoder's offset of channel 0. The class loop gives the cell's first-best class, and the confidence is the cell's confidence |
| Proposals.ProposalsStep | src/utils.cpp:50-83 | Visiting one more cell appends its decoded proposal if the cell is kept, and nothing otherwise |
| Proposals.DecodeBox | src/utils.cpp:55-81 | The box computation of a kept cell yields exactly the cell's decoded proposal |
| Proposals.DecodeRow | src/utils.cpp:30-86 | The column loop appends to the list, in column order, the decoded kept cells of the row, and leaves the earlier contents as they were |
| Proposals.DecodeAnchor | src/utils.cpp:29-87 | The row loop appends the decoded kept cells of the anchor's grid in (row, column) order |
| Proposals.GenerateProposals | src/utils.cpp:11-89 | generate_proposals leaves the caller's earlier contents in place and appends exactly `Proposals`, the decoded kept cells in scan order |
| Yolov5.ScalesAreSquareWithThreeAnchors | src/yolov5.cpp:169-171 | Each of the three scales postprecess decodes has three anchor pairs and a square grid. On a buffer of `BufferSize` floats, every decoder read is therefore in bounds |
| Yolov5.ScaleStep | src/yolov5.cpp:169-174 | One scale's block yields exactly that scale's proposals |
| Yolov5.NmsInputLayout | src/yolov5.cpp:240-250 | The box buffer has 4n slots and the score buffer n. Slots 4i .. 4i+3 hold proposal i's corners (x_min, y_min, x_max, y_max), and score slot i its prob |
| Yolov5.NmsInputSnoc | src/yolov5.cpp:243-250 | Packing one more proposal appends its four corners and its prob |
| Yolov5.PackNmsInput | src/yolov5.cpp:240-250 | The packing loop fills the two buffers with exactly the box and score layout above |
| Yolov5.GatherAppend | src/yolov5.cpp:260-262 | Gathering is compositional in the keep list: gathering along k1 then k2 gives the two gathered lists one after the other, so each kept index contributes its proposal in keep-list order, and repeated or unsorted indices are taken as they come |
| Yolov5.GatherKeepsProposals | src/yolov5.cpp:260-262 | Gathering returns only proposals that were there, and the identity keep list gives back all of them in order |
| Yolov5.GatherKept | src/yolov5.cpp:260-262 | The gather loop appends proposals[keep_index[k]] for k = 0 .. num_keep_box - 1 after the list's earlier contents |
| Yolov5.KeepBufferTooSmallAsWritten | src/yolov5.cpp:252 | With four proposals that all survive suppression, the keep buffer as allocated has one int64 slot for four indices |
| Yolov5.KeepSlotsAsWrittenBelowCount | src/yolov5.cpp:252 | Once there is a proposal, the keep buffer as allocated has fewer slots than proposals |
| Yolov5.SuppressAndGather | src/yolov5.cpp:238-262 | The suppression block returns a valid keep list and appends the kept proposals, in keep-list order, after the list's earlier contents |
| Yolov5.Postprocess | src/yolov5.cpp:140-281 | With no context, the result is RC_INVALID_VALUE and the list is unchanged. If any tensor's conversion fails, the result is -1 and the list is unchanged. Otherwise the proposals of strides 8, 16 and 32 are concatenated in that order, and exactly those that suppression keeps are appended in keep-list order. A tensor only has to fit its buffer size if the conversions before it, and its own, succeeded: a tensor that is never read is never constrained |

## Left out

- The ppl.nn engine is reduced to a `Context` value: runtime creation, input conversion, `Run`,
  tensor shapes and names. It is a foreign library.
- `ConvertToHost` fills a host copy that the decoder never reads, because the decoder reads the
  tensor's own buffer (`GetBufferPtr`). Only the conversion's success is modelled, and the buffer
  is `OutputTensor.buffer`.
- `preprocess`, `yolov5_network_detect`, the constructor, the destructor and the test driver are
  image I/O, engine set-up and resource handling, not part of the decoding.
- The non-maximum suppression algorithm is not modelled, because the header only declares it. It
  is the parameter `nms`. Its other arguments are not modelled: the box count converted to
  `uint32_t`, the `offset` argument 4, and its return code, which the source ignores. The model
  assumes (`NmsKeepsValidIndices`) that it returns at most n indices, each in [0, n). The source
  relies on this without checking.
- The float logistic function, `exp` and `pow` are exact reals, so float rounding is not modelled.
  `sigmoid` is a parameter, and `DecodeCellLabel` and `DecodeCellBox` assume only 0 < sigmoid(x) < 1.
- Proposals.TruncToInt: truncates any real. A float outside the `int` range, whose conversion is
  undefined in C++, is not modelled.
- Machine integer widths are not modelled. Grid sizes, class counts and offsets are unbounded
  naturals, so a negative grid size or an overflowing `int` offset cannot be expressed.
- `malloc` and `free` become fresh Dafny arrays. An allocation failure is not modelled.
- Printing and logging are left out.
- `postprecess` has no `return` on its success path. The model returns `Success` there.
- The header snapshot's `ModelParams` has no `prob_threshold` or `nms_threshold`, but the
  implementation reads both. `ModelParams` here has them.
- Proposals.DecodeCellBox: the centre's bounds are proved for the real-valued edges
  (`Proposals.Edges`), not for the truncated integer corners.
- Proposals.KnownValueDecode: covers the example's one cell. That the whole head then emits just
  that proposal follows from `ProposalsAreKeptCellsInScanOrder` and `NoProposalsIffNothingKept`,
  but is not stated as one lemma.

## Findings

| source | as written | input that shows it | evidently intended | confidence | as-written member | corrected member |
|---|---|---|---|---|---|---|
| src/utils.cpp:35 | The row stride is num_grid_h × offset | num_grid_w = 1, num_grid_h = 2, one anchor, no classes: cell (0, 1, 0) is read at index 10 of a 10-float buffer. num_grid_w = 3, num_grid_h = 2: cells (0, 1, 0) and (0, 0, 2) read the same floats | Row stride num_grid_w × offset | not executed | GridLayout.OffsetOutOfRangeOnTallGrid | GridLayout.CellOffsetInBounds |
| src/yolov5.cpp:252 | keep_index gets n × sizeof(int16_t) bytes but is used as int64_t slots, so n / 4 slots | Four proposals, all kept by suppression: one slot for four indices | n × sizeof(int64_t) bytes, one slot per proposal | not executed | Yolov5.KeepBufferTooSmallAsWritten | Yolov5.SuppressAndGather |

Both rows have a second as-written member. For the first row it is
`GridLayout.OffsetAliasesOnWideGrid`, which shows aliasing. For the second it is
`Yolov5.KeepSlotsAsWrittenBelowCount`, which shows the shortfall for every n > 0.
In the corrected member, `Yolov5.SuppressAndGather`, the keep buffer is `new int[KeepSlots(n)]`,
one slot per proposal. Every write of the keep list into it is an array access whose bounds the
verifier checks against the valid keep list suppression returns.

For the first row, `GridLayout.CellOffsetInjective` is also proved about the corrected index. The
decoder keeps the index as written, because every call in the program uses a square grid. On a
square grid `GridLayout.OffsetOnSquareGrid` proves it equal to the corrected index, so the
decoder's proofs hold for both.

For the second row, the keep buffer in `Yolov5.SuppressAndGather` has `Yolov5.KeepSlots` (one per
proposal) slots.
