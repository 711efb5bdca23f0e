# MIOpen RNN weight super-tensor test, modelled in Dafny

MIOpen stores all weight matrices and bias vectors of a recurrent network
in one flat "super-tensor". Its test `test/w_supertensor.cpp` checks the
library's slot accessors against that layout. It works in four steps:

- `fill_w_tensor` builds the buffer it expects. It walks the slots
  `(layer, layerID)` in the library's layout order, gives each slot the next
  consecutive range (a running `offset`), and fills that range with the tag
  `layer * 10 + layerID`. All weights come first, then, with biases, all
  biases in the same order.
- `setRNNLayer` writes every slot of the device buffer through
  `miopenSetRNNLayerParam` / `miopenSetRNNLayerBias`, in a different
  layer-major sweep.
- `getRNNLayer` reads every slot back and expects each element to be the
  slot's tag.
- `run` compares the two buffers element by element.

The project has these modules:

- `RnnConfig` (`rnn_config.dfy`): the network configuration, the gate-group
  count `nH`, the slots that exist, and the tag.
- `Enumeration` (`enumeration.dfy`): the two visiting orders as pure
  functions.
  - The order of `fill_w_tensor`, including the bidirectional index
    arithmetic `k % 2 + (k / 4) * 2` and the skip `break`.
  - The order of the accessor sweep.
  - Lemmas: both orders visit exactly the existing slots, each once. They
    coincide for unidirectional networks. For bidirectional networks they
    coincide exactly when there is no layer, or one layer with skip input.
- `Layout` (`layout.dfy`): a flat layout as a sequence of entries (a slot's
  weight or bias). An entry's range starts at the sum of the sizes before
  it. Lemmas:
  - the ranges tile the layout;
  - they never overlap;
  - every position has exactly one owner;
  - two layouts holding the same entries have the same size.
- `Buffer` (`buffer.dfy`): the buffer a layout paints with tags, and the
  slot accessors as functions on a buffer. The accessors return either the
  new buffer or values read, or one of the errors `SlotNotFound`,
  `BufferTooSmall` or `SizeMismatch`. Lemmas:
  - when each accessor succeeds;
  - reading what was just written returns it;
  - a write changes exactly the written entry's range.
- `FillTensor` (`fill_tensor.dfy`): the layout `fill_w_tensor` assumes, and
  the buffer it produces.
- `SuperTensor` (`supertensor.dfy`): the test as a class `SuperTensorTest`.
  - `weiDev` is the device buffer.
  - `FillWTensor` is an imperative method over an array; the routine's four
    nested loops share the `Emit` and step methods.
  - `SetRNNLayer` and `GetRNNLayer` are nested loops over the sweep. The
    inner loop over one virtual layer is its own method (`WriteLayer`,
    `CheckLayer`), and so are one slot's accessor calls (`WriteSlot`,
    `CheckSlotEntries`). A ghost `order` records the slots in the order the
    loops visit them, and it is proved equal to the sweep `SweepOrder`.
  - `Run` is the whole test.

  The accessors work under the library's own layout. It is a parameter
  (`layout`) that holds every existing entry exactly once, in any order.
  `Run`'s contract says what the test's checks amount to for that layout.

Slot sizes (`miopenGetRNNLayerParamSize`, `miopenGetRNNLayerBiasSize`) and
the buffer size (`miopenGetRNNParamsSize`) are parameters, counted in
elements.

The gate-group count is `1` for RELU, `3` for GRU and `4` for every other
mode, including TANH. The code is followed here in all three routines. A
TANH cell would have one gate group, as RELU does, but the test's parameter
sweep never selects TANH (`test/w_supertensor.cpp:78`).

## Model

| member | source | states |
|---|---|---|
| RnnConfig.GateGroups | test/w_supertensor.cpp:111 | the gate-group count lies between 1 and 4 (never zero); it is 1 exactly for RELU, 3 exactly for GRU, and 4 for LSTM and TANH |
| RnnConfig.TagIdentifiesSlot | test/w_supertensor.cpp:138 | two existing slots with the same tag `layer * 10 + layerID` are the same slot (no slot has more than 8 layerIDs) |
| Enumeration.BiStepFrom | test/w_supertensor.cpp:117-125 | the slots one bidirectional step emits from `j` on: `(k % 2 + (k / 4) * 2, layerId(j))` for each `j` below `nH` until the skip `break` (no contract; its properties are the lemmas below) |
| Enumeration.UniStep | test/w_supertensor.cpp:180-198 | the slots of one unidirectional step: layer `k`'s layerIDs `0 .. nH * skip - 1` (no contract; see StepMembership) |
| Enumeration.FillOrder | test/w_supertensor.cpp:113-199 | the order of one pass of fill_w_tensor, step after step (no contract; see FillOrderSlots) |
| Enumeration.SweepOrder | test/w_supertensor.cpp:236-245 | the order of the accessor sweep, virtual layer after virtual layer (no contract; see SweepOrderSlots) |
| Enumeration.BiStepAllOrNothing | test/w_supertensor.cpp:115-125 | the skip `break` is all-or-nothing: a bidirectional step emits no slot exactly in skip mode on the upper half (`k % 4 > 1`) of virtual layers 0 and 1; otherwise it emits all `nH` slots `(k % 2 + (k / 4) * 2, layerId(j))` in order |
| Enumeration.BiStepSound | test/w_supertensor.cpp:115-125 | every slot a bidirectional step emits exists and belongs to that step |
| Enumeration.BiStepComplete | test/w_supertensor.cpp:115-125 | every existing slot belonging to a bidirectional step is emitted by it |
| Enumeration.StepMembership | test/w_supertensor.cpp:113-199 | step `k` of the fill emits exactly the existing slots whose step index is `k`; in the unidirectional case layer `k` gets layerIDs `0 .. nH * skip - 1` |
| Enumeration.FillUpToFacts | test/w_supertensor.cpp:113-199 | the first `k` steps emit exactly the existing slots of step index below `k`, none twice |
| Enumeration.FillOrderSlots | test/w_supertensor.cpp:113-199 | one pass of fill_w_tensor visits exactly the existing slots, each once |
| Enumeration.SweepOrderSlots | test/w_supertensor.cpp:236-245 | the accessor sweep visits exactly the existing slots, each once |
| Enumeration.SameSlots | test/w_supertensor.cpp:236-245 | the fill order and the accessor sweep cover the same set of `(layer, layerID)` pairs, both without repetition |
| Enumeration.UnidirectionalOrdersAgree | test/w_supertensor.cpp:176-199 | for unidirectional networks the fill order and the sweep are the same sequence |
| Enumeration.BidirectionalOrdersAgree | test/w_supertensor.cpp:113-143 | for a bidirectional network the fill order and the sweep are the same sequence exactly when there is no layer, or one layer with skip input |
| Enumeration.BiLinearDiffer | test/w_supertensor.cpp:113-143 | bidirectional, linear input, at least one layer: at position `nH` the fill has reached `(1, 0)` while the sweep is still at `(0, nH)` |
| Enumeration.BiSkipDiffer | test/w_supertensor.cpp:113-143 | bidirectional, skip input, at least two layers: at position `3 * nH` the fill has reached `(3, 0)` while the sweep is still at `(2, nH)` |
| Enumeration.BiSkipFirstStep | test/w_supertensor.cpp:115-125 | bidirectional with skip input, steps 0 and 1 emit exactly the sweep's virtual layers 0 and 1 |
| Enumeration.BiOneSkipLayerAgree | test/w_supertensor.cpp:113-143 | bidirectional, skip input, one layer: the fill order and the sweep are the same sequence, since the `break` drops steps 2 and 3 entirely |
| Layout.TotalAppend | test/w_supertensor.cpp:141 | the offset after two runs of entries is the sum of their offsets |
| Layout.LayoutTiles | test/w_supertensor.cpp:136-141 | each range starts where the previous one ends, the first at 0, and the last ends at the final offset |
| Layout.RangesOrdered | test/w_supertensor.cpp:136-141 | an earlier entry's range ends no later than a later entry's range begins |
| Layout.Owner | test/w_supertensor.cpp:136-141 | every position below the final offset lies in the range of some entry |
| Layout.OwnerUnique | test/w_supertensor.cpp:136-141 | a position lies in exactly one entry's range |
| Layout.TotalSubset | test/w_supertensor.cpp:104-106 | a layout whose entries all occur in another layout, each once, is no larger than it |
| Layout.TotalSameEntries | test/w_supertensor.cpp:104-106 | two layouts holding the same entries, each once, have the same total size, whatever their order |
| Layout.LocateRange | test/w_supertensor.cpp:248-276 | an entry is found exactly when it is in the layout; its range has the entry's size and lies inside the layout |
| Layout.LocateOwner | test/w_supertensor.cpp:248-276 | the range of an entry holds exactly the positions whose owner is that entry |
| Layout.LocateDisjoint | test/w_supertensor.cpp:265-308 | distinct entries have disjoint ranges |
| Buffer.Paint | test/w_supertensor.cpp:136-141 | painting keeps the buffer's length; what each position holds afterwards is stated by PaintAt |
| Buffer.PaintAt | test/w_supertensor.cpp:136-139 | after painting, a position of the layout holds its owner's tag and a position past it keeps its value |
| Buffer.SetLayerSlot | test/w_supertensor.cpp:268-276 | a successful write returns a buffer of the same length; when it succeeds and what it writes are stated by the lemmas below |
| Buffer.GetLayerSlot | test/w_supertensor.cpp:343-351 | the read of one entry's range (no contract; see GetLayerSlotSucceeds and GetLayerSlotAt) |
| Buffer.SetLayerSlotSucceeds | test/w_supertensor.cpp:265-274 | a write succeeds exactly for an entry of the layout, a buffer holding the layout and data of the entry's size; otherwise the error is SlotNotFound, BufferTooSmall or SizeMismatch, checked in that order |
| Buffer.GetLayerSlotSucceeds | test/w_supertensor.cpp:337-346 | a read succeeds exactly for an entry of the layout and a buffer holding the layout, and returns as many elements as the entry's size; otherwise the error is SlotNotFound, then BufferTooSmall |
| Buffer.SetThenGet | test/w_supertensor.cpp:265-361 | reading an entry just written returns exactly the written data |
| Buffer.SetIndependent | test/w_supertensor.cpp:265-308 | writing one entry leaves what every other entry reads unchanged |
| Buffer.SetLayerSlotAt | test/w_supertensor.cpp:265-274 | a write sets exactly the positions owned by the entry to the written data and leaves every other position untouched |
| Buffer.GetLayerSlotAt | test/w_supertensor.cpp:337-350 | element `i` read from an entry is the buffer element at the entry's start plus `i`, a position owned by that entry |
| FillTensor.EntriesFacts | test/w_supertensor.cpp:113-224 | fill_w_tensor's layout holds every existing weight and, with bias, every existing bias, and nothing else, each once |
| FillTensor.LocateExists | test/w_supertensor.cpp:136-141 | fill_w_tensor's layout locates exactly the existing entries, each inside the final offset |
| FillTensor.LayoutSizeSplit | test/w_supertensor.cpp:109-224 | the final offset is the sum of all weight sizes plus all bias sizes |
| FillTensor.WeightsThenBiases | test/w_supertensor.cpp:145-174 | every weight range ends before every bias range begins |
| FillTensor.ExpectedAt | test/w_supertensor.cpp:107-141 | in the expected buffer, each position of the layout holds the tag of the slot that owns it and each position past the layout holds 0 |
| FillTensor.ExpectedSlot | test/w_supertensor.cpp:136-139 | every element of an existing entry's range holds that entry's tag |
| SuperTensor.LibraryLayoutSize | test/w_supertensor.cpp:104-109 | any layout holding every existing entry once is exactly as large as fill_w_tensor's final offset |
| SuperTensor.VisitNext | test/w_supertensor.cpp:236-245 | visiting `(layer, layerID)` appends that slot to the slots visited so far; after the layer's last layerID the sweep stands at the next layer's start |
| SuperTensor.VisitDone | test/w_supertensor.cpp:236-245 | the slots visited once every virtual layer is done are the whole sweep `SweepOrder` |
| SuperTensor.WriteStep | test/w_supertensor.cpp:265-274 | writing one more entry's tag vector into the partially written buffer adds exactly that entry's range |
| SuperTensor.SweptComplete | test/w_supertensor.cpp:236-312 | once every entry is written, the device buffer holds the tag buffer of the library's layout, and its old contents past the layout |
| SuperTensor.AgreesOnAll | test/w_supertensor.cpp:319-411 | all entries agreeing with their tags is the same as the whole layout part of the buffer equalling the tag buffer |
| SuperTensor.ReadBackAgrees | test/w_supertensor.cpp:353-361 | reading an entry succeeds, and every element read equals the tag exactly when every position the entry owns holds the tag |
| SuperTensor.SuperTensorTest.FillSlot | test/w_supertensor.cpp:136-139 | the range `offset .. offset + size - 1` is set to the tag and the rest of the array is unchanged |
| SuperTensor.SuperTensorTest.Emit | test/w_supertensor.cpp:127-141 | emitting one entry advances the offset by its size and extends the painted buffer by its range |
| SuperTensor.SuperTensorTest.BidirectionalStep | test/w_supertensor.cpp:115-142 | one bidirectional step, with its skip `break`, emits exactly the slots of `Step(cfg, k)` |
| SuperTensor.SuperTensorTest.UnidirectionalStep | test/w_supertensor.cpp:180-198 | one unidirectional step emits exactly layer `k`'s slots `0 .. nH * skip - 1` |
| SuperTensor.SuperTensorTest.Pass | test/w_supertensor.cpp:113-174 | a weight or bias pass appends the whole fill order to the painted layout and the offset |
| SuperTensor.SuperTensorTest.FillWTensor | test/w_supertensor.cpp:101-228 | the result is the expected buffer: every existing weight, then every existing bias, over consecutive ranges holding their tags, and 0 past them |
| SuperTensor.SuperTensorTest.WriteSlot | test/w_supertensor.cpp:248-309 | writing one slot's weight and, with bias, its bias adds exactly that slot's entries to the written part of the buffer |
| SuperTensor.SuperTensorTest.WriteLayer | test/w_supertensor.cpp:239-310 | writing one virtual layer adds that layer's entries to the written part and appends its slots, in sweep order, to `order` |
| SuperTensor.SuperTensorTest.SetRNNLayer | test/w_supertensor.cpp:230-317 | after the sweep of writes, the layout part of the device buffer equals the tag buffer of the library's layout, the rest is unchanged, the returned buffer is the device buffer, and the slots were visited in the order `SweepOrder` |
| SuperTensor.SuperTensorTest.CheckSlot | test/w_supertensor.cpp:337-361 | reading one entry back passes exactly when every position the entry owns holds its tag |
| SuperTensor.SuperTensorTest.CheckSlotEntries | test/w_supertensor.cpp:337-408 | reading one slot's weight and, with bias, its bias passes exactly when those entries hold their tags |
| SuperTensor.SuperTensorTest.CheckLayer | test/w_supertensor.cpp:328-409 | reading one virtual layer back passes exactly when that layer's entries hold their tags; its slots are appended, in sweep order, to `order` |
| SuperTensor.SuperTensorTest.GetRNNLayer | test/w_supertensor.cpp:319-411 | the read-back passes exactly when the layout part of the device buffer equals the tag buffer of the library's layout, and the slots were visited in the order `SweepOrder` |
| SuperTensor.SuperTensorTest.Run | test/w_supertensor.cpp:413-446 | the test passes exactly when fill_w_tensor's buffer agrees over the layout with the buffer the library's layout paints, and the device buffer past the layout started as zero |

## Left out

- The helper files `src/tmp_dir.cpp` and `src/Common.hpp` are not part of this model. They hold temporary-directory and process plumbing, and backend type definitions.
- The library's layout engine is not part of this model. The size queries `miopenGetRNNLayerParamSize`, `miopenGetRNNLayerBiasSize` and `miopenGetRNNParamsSize` are parameters. The library's layout order is the `layout` parameter.
- Buffer.SetLayerSlot, Buffer.GetLayerSlot: the library's accessor code is not part of this model. The model finds an entry by its position in `layout`, and fails with SlotNotFound, BufferTooSmall or SizeMismatch, checked in that order.
- Device handle calls (`handle.Create`, `handle.Write`, `handle.Read`), descriptor creation and `miopenSetRNNDescriptor` are left out. The device buffer is the sequence `weiDev`, and its initial contents are the constructor's `init`.
- The reads `miopenGetRNNLayerParam` / `miopenGetRNNLayerBias` with a null output that `setRNNLayer` makes before each write are left out; they copy nothing.
- Elements are stored as `float` and compared after `static_cast<int>`. The model stores integer tags, which these small tags survive exactly.
- The division of byte sizes by `sizeof(miopenFloat)` is a unit change; all sizes here are in elements.
- The 32-bit `int` offset and loop counters are unbounded integers here; overflow is not modelled.
- `EXPECT` becomes a boolean result (`ok`, `good`). Whether or not a failing `EXPECT` stops the test, the test passes exactly when every check holds, so the model combines the checks with `&&`.
- Test-harness plumbing is left out: parameter registration (`add`, `generate_data`) and the test driver.
- SuperTensor.SuperTensorTest.Run: it does not fix the library's layout order, so it does not state that every check passes. Passing is proved equivalent to fill_w_tensor's buffer agreeing with the buffer the library's layout paints. That holds trivially when the library uses fill_w_tensor's order (`layout == Entries(cfg)`).
- SuperTensor.SuperTensorTest.FillWTensor: it requires, as `Valid()` does through `LayoutFits`, that the buffer size the library reports holds the whole layout. The source never checks this. With a smaller size, the writes at `test/w_supertensor.cpp:138`, `169`, `194` and `219` would go past the end of `wei_h`, which is undefined behaviour and is not modelled.
- SuperTensor.LibraryLayout: it assumes the library addresses exactly the existing entries, each once. A library that addresses other entries, or misses some, is not modelled; the test would catch it, but `Run` states nothing about that case.
