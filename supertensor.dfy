/**
  The super-tensor test itself: it builds the expected weight buffer
  (`FillWTensor`), writes every slot of the device buffer through the
  accessors in its own sweep order (`SetRNNLayer`), compares the two buffers
  element by element and reads every slot back (`GetRNNLayer`), all driven
  by `Run`.

  The accessors work under the layout the library uses, which is not part
  of this model: it is the parameter `layout`, holding every existing entry
  exactly once, in the library's own order. `Run` states what the test's
  checks amount to for any such layout.
 */
module SuperTensor {
  import opened RnnConfig
  import opened Enumeration
  import opened Layout
  import opened Buffer
  import opened FillTensor

  /** The library's layout for `cfg`: every existing entry, and nothing else, exactly once. */
  ghost predicate LibraryLayout(cfg: Config, layout: seq<Entry>)
  {
    NoDup(layout) && forall e :: e in layout <==> IsEntry(cfg, e)
  }

  /** The library's layout is as large as the one fill_w_tensor assumes: the same entries, in some order. */
  lemma LibraryLayoutSize(cfg: Config, sz: SlotSizes, layout: seq<Entry>)
    requires LibraryLayout(cfg, layout)
    ensures Total(sz, layout) == LayoutSize(cfg, sz)
  {
    EntriesFacts(cfg);
    TotalSameEntries(sz, layout, Entries(cfg));
  }

  // ----- state of the device buffer during the accessor sweep -----

  /** The sweep of setRNNLayer / getRNNLayer has visited slot `s` before reaching (layer, layerID). */
  predicate Swept(s: Slot, layer: nat, layerID: nat)
  {
    s.layer < layer || (s.layer == layer && s.id < layerID)
  }

  /** Every existing entry is already in `seen` exactly when the sweep has passed its slot. */
  ghost predicate SweptUpTo(cfg: Config, seen: set<Entry>, layer: nat, layerID: nat)
  {
    forall e :: IsEntry(cfg, e) ==> (e in seen <==> Swept(e.slot, layer, layerID))
  }

  /** The entries the sweep writes or reads at one slot: its weight, and its bias when there are biases. */
  ghost function SlotEntries(cfg: Config, s: Slot): set<Entry>
  {
    if cfg.biasMode == WithBias then {Entry(s, Weight), Entry(s, Bias)} else {Entry(s, Weight)}
  }

  lemma SlotEntriesMembers(cfg: Config, s: Slot)
    ensures forall e :: e in SlotEntries(cfg, s) <==> e.slot == s && (e.kind == Weight || cfg.biasMode == WithBias)
  {
    forall e: Entry | e.slot == s && (e.kind == Weight || cfg.biasMode == WithBias)
      ensures e in SlotEntries(cfg, s)
    {
      assert e == Entry(e.slot, e.kind);
    }
  }

  /** Adding a slot's weight, then (with bias) its bias, adds the slot's entries. */
  lemma AddSlotEntries(cfg: Config, seen: set<Entry>, s: Slot)
    ensures seen + SlotEntries(cfg, s) ==
      if cfg.biasMode == WithBias then (seen + {Entry(s, Weight)}) + {Entry(s, Bias)} else seen + {Entry(s, Weight)}
  {
  }

  /** Visiting (layer, layerID) moves the sweep to the next layerID. */
  lemma SweepNextId(cfg: Config, seen: set<Entry>, layer: nat, layerID: nat)
    requires SweptUpTo(cfg, seen, layer, layerID)
    ensures SweptUpTo(cfg, seen + SlotEntries(cfg, Slot(layer, layerID)), layer, layerID + 1)
  {
    SlotEntriesMembers(cfg, Slot(layer, layerID));
  }

  /** The slots the sweep has visited before reaching (layer, layerID). */
  ghost function Visited(cfg: Config, layer: nat, layerID: nat): seq<Slot>
  {
    var sl := SweepLayer(cfg, layer);
    SweepUpTo(cfg, layer) + if layerID <= |sl| then sl[..layerID] else sl
  }

  /** Visiting (layer, layerID) extends the visited slots by that slot; past the last layerID, the next layer begins. */
  lemma VisitNext(cfg: Config, layer: nat, layerID: nat)
    requires layerID < IdCount(cfg, layer)
    ensures Visited(cfg, layer, layerID) + [Slot(layer, layerID)] == Visited(cfg, layer, layerID + 1)
    ensures layerID + 1 == IdCount(cfg, layer) ==> Visited(cfg, layer, layerID + 1) == Visited(cfg, layer + 1, 0)
  {
    var sl := SweepLayer(cfg, layer);
    assert sl[..layerID + 1] == sl[..layerID] + [Slot(layer, layerID)];
    assert sl[..IdCount(cfg, layer)] == sl;
    assert SweepLayer(cfg, layer + 1)[..0] == [];
  }

  /** Once the sweep is past its last layer, it has visited the whole sweep order. */
  lemma VisitDone(cfg: Config)
    ensures Visited(cfg, cfg.numLayer * Bi(cfg), 0) == SweepOrder(cfg)
  {
    assert SweepLayer(cfg, cfg.numLayer * Bi(cfg))[..0] == [];
  }

  /** Past the last layerID of a layer, the sweep is at the start of the next layer. */
  lemma SweepNextLayer(cfg: Config, seen: set<Entry>, layer: nat)
    requires SweptUpTo(cfg, seen, layer, IdCount(cfg, layer))
    ensures SweptUpTo(cfg, seen, layer + 1, 0)
  {
  }

  /** A finished sweep has visited every existing entry. */
  lemma SweepDone(cfg: Config, seen: set<Entry>)
    requires SweptUpTo(cfg, seen, cfg.numLayer * Bi(cfg), 0)
    ensures forall e :: IsEntry(cfg, e) ==> e in seen
  {
  }

  /** `init` with the range of every entry in `written` set to that entry's tag. */
  ghost function SweptBuffer(sz: SlotSizes, layout: seq<Entry>, init: seq<int>, written: set<Entry>): (r: seq<int>)
    ensures |r| == |init|
  {
    seq(|init|, p requires 0 <= p < |init| =>
      if p < Total(sz, layout) && layout[Owner(sz, layout, p)] in written then Tag(layout[Owner(sz, layout, p)].slot)
      else init[p])
  }

  /** The constant vector the test writes into a slot: `size` copies of the slot's tag. */
  function TagVector(size: nat, s: Slot): (v: seq<int>)
    ensures |v| == size && forall i :: 0 <= i < size ==> v[i] == Tag(s)
  {
    seq(size, i => Tag(s))
  }

  /** Writing one more entry's tag vector adds exactly that entry to the written ones. */
  lemma WriteStep(sz: SlotSizes, layout: seq<Entry>, init: seq<int>, written: set<Entry>, e: Entry)
    requires NoDup(layout) && e in layout && Total(sz, layout) <= |init|
    ensures SetLayerSlot(SweptBuffer(sz, layout, init, written), layout, sz, e, TagVector(Size(sz, e), e.slot))
         == Ok(SweptBuffer(sz, layout, init, written + {e}))
  {
    var before := SweptBuffer(sz, layout, init, written);
    var data := TagVector(Size(sz, e), e.slot);
    SetLayerSlotSucceeds(before, layout, sz, e, data);
    var after := SetLayerSlot(before, layout, sz, e, data).value;
    var want := SweptBuffer(sz, layout, init, written + {e});
    forall p | 0 <= p < |init| ensures after[p] == want[p] {
      SetLayerSlotAt(before, layout, sz, e, data, p);
    }
    assert after == want;
  }

  /** Once every entry of the layout is written, the device buffer holds the tag buffer on the layout. */
  lemma SweptComplete(sz: SlotSizes, layout: seq<Entry>, init: seq<int>, written: set<Entry>, p: nat)
    requires Total(sz, layout) <= |init|
    requires forall e :: e in layout ==> e in written
    requires p < |init|
    ensures SweptBuffer(sz, layout, init, written)[p] ==
      if p < Total(sz, layout) then TagBuffer(sz, layout, |init|)[p] else init[p]
  {
    PaintAt(sz, Zeros(|init|), layout, p);
    if p < Total(sz, layout) {
      assert layout[Owner(sz, layout, p)] in layout;
    }
  }

  /** Every position of the layout owned by an entry of `checked` holds that entry's tag. */
  ghost predicate AgreesOn(sz: SlotSizes, layout: seq<Entry>, buf: seq<int>, checked: set<Entry>)
    requires Total(sz, layout) <= |buf|
  {
    forall p :: 0 <= p < Total(sz, layout) && layout[Owner(sz, layout, p)] in checked ==>
      buf[p] == Tag(layout[Owner(sz, layout, p)].slot)
  }

  /** Every position owned by entry `e` holds `e`'s tag. */
  ghost predicate AgreesAt(sz: SlotSizes, layout: seq<Entry>, buf: seq<int>, e: Entry)
    requires Total(sz, layout) <= |buf|
  {
    forall p :: 0 <= p < Total(sz, layout) && layout[Owner(sz, layout, p)] == e ==> buf[p] == Tag(e.slot)
  }

  /** Checking one more entry: the buffer agrees on the larger set exactly when it agrees on both. */
  lemma AgreesOnAdd(sz: SlotSizes, layout: seq<Entry>, buf: seq<int>, checked: set<Entry>, e: Entry)
    requires Total(sz, layout) <= |buf|
    ensures AgreesOn(sz, layout, buf, checked + {e}) <==> AgreesOn(sz, layout, buf, checked) && AgreesAt(sz, layout, buf, e)
  {
  }

  /** Agreeing on every entry of the layout is agreeing with the tag buffer on the whole layout. */
  lemma AgreesOnAll(sz: SlotSizes, layout: seq<Entry>, buf: seq<int>, checked: set<Entry>)
    requires Total(sz, layout) <= |buf|
    requires forall e :: e in layout ==> e in checked
    ensures AgreesOn(sz, layout, buf, checked) <==>
      forall p :: 0 <= p < Total(sz, layout) ==> buf[p] == TagBuffer(sz, layout, |buf|)[p]
  {
    forall p | 0 <= p < Total(sz, layout)
      ensures TagBuffer(sz, layout, |buf|)[p] == Tag(layout[Owner(sz, layout, p)].slot)
      ensures layout[Owner(sz, layout, p)] in checked
    {
      PaintAt(sz, Zeros(|buf|), layout, p);
      assert layout[Owner(sz, layout, p)] in layout;
    }
  }

  /**
    Reading an entry of the layout back succeeds, and every element read
    equals the entry's tag exactly when the buffer agrees with the tag on
    the entry's whole range.
   */
  lemma ReadBackAgrees(sz: SlotSizes, layout: seq<Entry>, buf: seq<int>, e: Entry)
    requires NoDup(layout) && e in layout && Total(sz, layout) <= |buf|
    ensures GetLayerSlot(buf, layout, sz, e).Ok?
    ensures AgreesAt(sz, layout, buf, e) <==>
      forall q :: 0 <= q < |GetLayerSlot(buf, layout, sz, e).value| ==> GetLayerSlot(buf, layout, sz, e).value[q] == Tag(e.slot)
  {
    GetLayerSlotSucceeds(buf, layout, sz, e);
    if AgreesAt(sz, layout, buf, e) {
      ReadBackTags(sz, layout, buf, e);
    }
    if forall q :: 0 <= q < |GetLayerSlot(buf, layout, sz, e).value| ==> GetLayerSlot(buf, layout, sz, e).value[q] == Tag(e.slot) {
      TagsReadBack(sz, layout, buf, e);
    }
  }

  /** An entry that holds its tag reads back as its tag, element by element. */
  lemma ReadBackTags(sz: SlotSizes, layout: seq<Entry>, buf: seq<int>, e: Entry)
    requires NoDup(layout) && e in layout && Total(sz, layout) <= |buf|
    requires AgreesAt(sz, layout, buf, e)
    ensures GetLayerSlot(buf, layout, sz, e).Ok?
    ensures forall q :: 0 <= q < |GetLayerSlot(buf, layout, sz, e).value| ==> GetLayerSlot(buf, layout, sz, e).value[q] == Tag(e.slot)
  {
    GetLayerSlotSucceeds(buf, layout, sz, e);
    var out := GetLayerSlot(buf, layout, sz, e).value;
    forall q | 0 <= q < |out| ensures out[q] == Tag(e.slot) {
      GetLayerSlotAt(buf, layout, sz, e, q);
    }
  }

  /** An entry that reads back as its tag, element by element, holds its tag. */
  lemma TagsReadBack(sz: SlotSizes, layout: seq<Entry>, buf: seq<int>, e: Entry)
    requires NoDup(layout) && e in layout && Total(sz, layout) <= |buf|
    requires GetLayerSlot(buf, layout, sz, e).Ok?
    requires forall q :: 0 <= q < |GetLayerSlot(buf, layout, sz, e).value| ==> GetLayerSlot(buf, layout, sz, e).value[q] == Tag(e.slot)
    ensures AgreesAt(sz, layout, buf, e)
  {
    GetLayerSlotValue(buf, layout, sz, e);
    var out := GetLayerSlot(buf, layout, sz, e).value;
    var rg := Locate(layout, sz, e).value;
    forall p | 0 <= p < Total(sz, layout) && layout[Owner(sz, layout, p)] == e
      ensures buf[p] == Tag(e.slot)
    {
      LocateOwner(layout, sz, e, p);
      var q := p - rg.start;
      assert 0 <= q < |out| && out[q] == buf[p];
    }
  }

  // ----- the fill order, step by step -----

  /** Step `k` of a pass extends the entries emitted so far, and stays within the layout. */
  lemma PassStep(cfg: Config, before: seq<Entry>, k: nat, kind: Kind)
    requires k < StepCount(cfg)
    requires before + Tagged(FillOrder(cfg), kind) <= Entries(cfg)
    ensures (before + Tagged(FillUpTo(cfg, k), kind)) + Tagged(Step(cfg, k), kind)
         == before + Tagged(FillUpTo(cfg, k + 1), kind)
    ensures before + Tagged(FillUpTo(cfg, k + 1), kind) <= Entries(cfg)
  {
    TaggedAppend(FillUpTo(cfg, k), Step(cfg, k), kind);
    FillUpToPrefix(cfg, k + 1, StepCount(cfg));
    TaggedPrefix(FillUpTo(cfg, k + 1), FillOrder(cfg), kind);
  }

  class SuperTensorTest {
    const cfg: Config
    const sizes: SlotSizes
    /** The layout the library's accessors use. */
    const layout: seq<Entry>
    /** What miopenGetRNNParamsSize reports, in elements. */
    const paramsSize: nat
    /** The device weight buffer `wei_dev`. */
    var weiDev: seq<int>

    /** The size the library reports leaves room for every slot. */
    predicate LayoutFits()
    {
      Total(sizes, layout) <= paramsSize
    }

    ghost predicate Valid()
      reads this
    {
      LibraryLayout(cfg, layout) && LayoutFits() && |weiDev| == paramsSize
    }

    constructor (cfg: Config, sizes: SlotSizes, layout: seq<Entry>, paramsSize: nat, init: seq<int>)
      requires LibraryLayout(cfg, layout) && Total(sizes, layout) <= paramsSize && |init| == paramsSize
      ensures this.cfg == cfg && this.sizes == sizes && this.layout == layout && this.paramsSize == paramsSize
      ensures weiDev == init && Valid()
    {
      this.cfg := cfg;
      this.sizes := sizes;
      this.layout := layout;
      this.paramsSize := paramsSize;
      weiDev := init;
    }

    // ----- fill_w_tensor -----

    /** Set `size` elements of `wei` from `offset` on to `tag`. */
    method FillSlot(wei: array<int>, offset: nat, size: nat, tag: int)
      requires offset + size <= wei.Length
      modifies wei
      ensures wei[..] == FillRange(old(wei[..]), offset, size, tag)
    {
      var i := 0;
      while i < size
        invariant i <= size
        invariant forall q :: 0 <= q < wei.Length ==>
          wei[q] == if offset <= q < offset + i then tag else old(wei[q])
      {
        wei[offset + i] := tag;
        i := i + 1;
      }
    }

    /** Emit entry `e` at `offset`: the common body of the four inner loops of fill_w_tensor. */
    method Emit(wei: array<int>, offset: nat, ghost done: seq<Entry>, e: Entry, ghost bound: seq<Entry>)
      returns (offset': nat)
      requires Total(sizes, bound) <= paramsSize && wei.Length == paramsSize
      requires done + [e] <= bound
      requires offset == Total(sizes, done)
      requires wei[..] == Paint(sizes, Zeros(paramsSize), done)
      modifies wei
      ensures offset' == Total(sizes, done + [e])
      ensures wei[..] == Paint(sizes, Zeros(paramsSize), done + [e])
    {
      var size := if e.kind == Weight then sizes.param(e.slot) else sizes.bias(e.slot);
      assert size == Size(sizes, e);
      assert Total(sizes, done + [e]) == offset + size by {
        TotalSnoc(sizes, done, e);
      }
      assert offset + size <= wei.Length by {
        TotalPrefix(sizes, done + [e], bound);
      }
      assert Paint(sizes, Zeros(paramsSize), done + [e]) == FillRange(wei[..], offset, size, Tag(e.slot)) by {
        PaintSnoc(sizes, Zeros(paramsSize), done, e);
      }
      FillSlot(wei, offset, size, e.slot.layer * 10 + e.slot.id);
      offset' := offset + size;
    }

    /** Step `k` (one `j` loop) of the bidirectional branch of fill_w_tensor. */
    method BidirectionalStep(wei: array<int>, offset0: nat, ghost done0: seq<Entry>, k: nat, kind: Kind, ghost bound: seq<Entry>)
      returns (offset: nat, ghost done: seq<Entry>)
      requires cfg.direction == Bidirection
      requires Total(sizes, bound) <= paramsSize && wei.Length == paramsSize
      requires done0 + Tagged(Step(cfg, k), kind) <= bound
      requires offset0 == Total(sizes, done0)
      requires wei[..] == Paint(sizes, Zeros(paramsSize), done0)
      modifies wei
      ensures done == done0 + Tagged(Step(cfg, k), kind)
      ensures offset == Total(sizes, done)
      ensures wei[..] == Paint(sizes, Zeros(paramsSize), done)
    {
      var nH := GateGroups(cfg.mode);
      ghost var goal := done0 + Tagged(Step(cfg, k), kind);
      offset := offset0;
      done := done0;
      var j := 0;
      while j < nH
        invariant j <= nH
        invariant done + Tagged(BiStepFrom(cfg, k, j), kind) == goal
        invariant offset == Total(sizes, done)
        invariant wei[..] == Paint(sizes, Zeros(paramsSize), done)
      {
        var layer := k % 2 + (k / 4) * 2;
        var layerId := if k % 4 > 1 then j + nH else j;
        assert layer == BiLayer(k) && layerId == BiLayerId(cfg, k, j);
        if cfg.inMode == Skip && layer < 2 && layerId >= nH {
          assert BiStepFrom(cfg, k, j) == [] by { assert BiBreaks(cfg, k, j); }
          break;
        }
        var e := Entry(Slot(layer, layerId), kind);
        assert BiStepFrom(cfg, k, j) == [e.slot] + BiStepFrom(cfg, k, j + 1) by {
          assert !BiBreaks(cfg, k, j);
        }
        TaggedEmit(done, e.slot, BiStepFrom(cfg, k, j + 1), kind, goal);
        offset := Emit(wei, offset, done, e, bound);
        done := done + [e];
        j := j + 1;
      }
      assert done == goal by {
        assert BiStepFrom(cfg, k, j) == [];
        assert Tagged([], kind) == [];
      }
    }

    /** Step `k` (one `j` loop, over layer `k`) of the unidirectional branch of fill_w_tensor. */
    method UnidirectionalStep(wei: array<int>, offset0: nat, ghost done0: seq<Entry>, k: nat, kind: Kind, ghost bound: seq<Entry>)
      returns (offset: nat, ghost done: seq<Entry>)
      requires cfg.direction == Unidirection
      requires Total(sizes, bound) <= paramsSize && wei.Length == paramsSize
      requires done0 + Tagged(Step(cfg, k), kind) <= bound
      requires offset0 == Total(sizes, done0)
      requires wei[..] == Paint(sizes, Zeros(paramsSize), done0)
      modifies wei
      ensures done == done0 + Tagged(Step(cfg, k), kind)
      ensures offset == Total(sizes, done)
      ensures wei[..] == Paint(sizes, Zeros(paramsSize), done)
    {
      var nH := GateGroups(cfg.mode);
      ghost var goal := done0 + Tagged(Step(cfg, k), kind);
      offset := offset0;
      done := done0;
      var skip := if cfg.inMode == Skip && k < 1 then 1 else 2;
      var j := 0;
      while j < nH * skip
        invariant j <= nH * skip
        invariant done + Tagged(UniStep(cfg, k)[j..], kind) == goal
        invariant offset == Total(sizes, done)
        invariant wei[..] == Paint(sizes, Zeros(paramsSize), done)
      {
        var e := Entry(Slot(k, j), kind);
        assert UniStep(cfg, k)[j..] == [e.slot] + UniStep(cfg, k)[j + 1..];
        TaggedEmit(done, e.slot, UniStep(cfg, k)[j + 1..], kind, goal);
        offset := Emit(wei, offset, done, e, bound);
        done := done + [e];
        j := j + 1;
      }
      assert UniStep(cfg, k)[j..] == [];
    }

    /** One pass (weights or biases) of fill_w_tensor: step after step, each slot in fill order. */
    method Pass(wei: array<int>, offset0: nat, ghost before: seq<Entry>, kind: Kind)
      returns (offset: nat)
      requires LayoutSize(cfg, sizes) <= paramsSize && wei.Length == paramsSize
      requires before + Tagged(FillOrder(cfg), kind) <= Entries(cfg)
      requires offset0 == Total(sizes, before)
      requires wei[..] == Paint(sizes, Zeros(paramsSize), before)
      modifies wei
      ensures offset == Total(sizes, before + Tagged(FillOrder(cfg), kind))
      ensures wei[..] == Paint(sizes, Zeros(paramsSize), before + Tagged(FillOrder(cfg), kind))
    {
      offset := offset0;
      ghost var done := before;
      var steps := if cfg.direction == Bidirection then cfg.numLayer * 4 else cfg.numLayer;
      assert steps == StepCount(cfg);
      var k := 0;
      while k < steps
        invariant k <= steps
        invariant done == before + Tagged(FillUpTo(cfg, k), kind)
        invariant offset == Total(sizes, done)
        invariant wei[..] == Paint(sizes, Zeros(paramsSize), done)
      {
        PassStep(cfg, before, k, kind);
        if cfg.direction == Bidirection {
          offset, done := BidirectionalStep(wei, offset, done, k, kind, Entries(cfg));
        } else {
          offset, done := UnidirectionalStep(wei, offset, done, k, kind, Entries(cfg));
        }
        k := k + 1;
      }
    }

    /** The expected buffer: every weight slot, then every bias slot, each filled with its tag. */
    method FillWTensor() returns (weiH: seq<int>)
      requires LayoutSize(cfg, sizes) <= paramsSize
      ensures weiH == Expected(cfg, sizes, paramsSize)
    {
      var weiSz := paramsSize;
      var wei := new int[weiSz](q => 0);
      assert wei[..] == Paint(sizes, Zeros(weiSz), []);
      var offset := 0;
      var w := Weights(cfg);
      assert [] + w == w && w + Biases(cfg) == Entries(cfg);
      offset := Pass(wei, offset, [], Weight);
      if cfg.biasMode == WithBias {
        offset := Pass(wei, offset, w, Bias);
      }
      assert cfg.biasMode != WithBias ==> Entries(cfg) == w;
      weiH := wei[..];
    }

    // ----- setRNNLayer / getRNNLayer -----

    /**
      Write one slot through the accessor: its weight with its tag and then,
      with bias, its bias with its tag. Both writes land on the slot's own
      ranges of the library's layout.
     */
    method WriteSlot(s: Slot, ghost init: seq<int>, ghost written: set<Entry>) returns (ghost after: set<Entry>)
      requires Valid() && IsSlot(cfg, s) && |init| == paramsSize
      requires weiDev == SweptBuffer(sizes, layout, init, written)
      modifies this
      ensures Valid()
      ensures after == written + SlotEntries(cfg, s)
      ensures weiDev == SweptBuffer(sizes, layout, init, after)
    {
      var paramSize := sizes.param(s);
      var w := Entry(s, Weight);
      assert IsEntry(cfg, w);
      WriteStep(sizes, layout, init, written, w);
      var r := SetLayerSlot(weiDev, layout, sizes, w, TagVector(paramSize, s));
      if r.Ok? {
        weiDev := r.value;
      }
      after := written + {w};
      if cfg.biasMode == WithBias {
        var biasSize := sizes.bias(s);
        var b := Entry(s, Bias);
        assert IsEntry(cfg, b);
        WriteStep(sizes, layout, init, after, b);
        r := SetLayerSlot(weiDev, layout, sizes, b, TagVector(biasSize, s));
        if r.Ok? {
          weiDev := r.value;
        }
        after := after + {b};
      }
      AddSlotEntries(cfg, written, s);
    }

    /**
      Write every slot of virtual layer `layer`, layerID by layerID, each
      with its tag; `order` grows by the layer's slots in the sweep order.
     */
    method WriteLayer(layer: nat, ghost init: seq<int>, ghost written: set<Entry>, ghost order: seq<Slot>)
      returns (ghost after: set<Entry>, ghost order': seq<Slot>)
      requires Valid() && layer < cfg.numLayer * Bi(cfg) && |init| == paramsSize
      requires weiDev == SweptBuffer(sizes, layout, init, written)
      requires SweptUpTo(cfg, written, layer, 0) && order == Visited(cfg, layer, 0)
      modifies this
      ensures Valid() && weiDev == SweptBuffer(sizes, layout, init, after)
      ensures SweptUpTo(cfg, after, layer + 1, 0) && order' == Visited(cfg, layer + 1, 0)
    {
      var nH := GateGroups(cfg.mode);
      var bi := if cfg.direction == Bidirection then 2 else 1;
      var skip := 2;
      if cfg.inMode == Skip && layer < bi {
        skip := 1;
      }
      assert nH * skip == IdCount(cfg, layer);
      after := written;
      order' := order;
      var layerID := 0;
      while layerID < nH * skip
        invariant layerID <= nH * skip
        invariant Valid() && weiDev == SweptBuffer(sizes, layout, init, after)
        invariant SweptUpTo(cfg, after, layer, layerID)
        invariant order' == Visited(cfg, layer, layerID)
      {
        ghost var seen := after;
        after := WriteSlot(Slot(layer, layerID), init, after);
        SweepNextId(cfg, seen, layer, layerID);
        VisitNext(cfg, layer, layerID);
        order' := order' + [Slot(layer, layerID)];
        layerID := layerID + 1;
      }
      SweepNextLayer(cfg, after, layer);
    }

    /**
      Write every slot, layer by layer, through the accessors, each with its
      tag; with bias, each weight write is followed by the slot's bias write.
      Afterwards the layout part of the device buffer is the tag buffer of
      the library's layout and the rest is as before. `order` records the
      slots in the order visited: it is the sweep `SweepOrder`.
     */
    method SetRNNLayer() returns (weiSet: seq<int>, ghost order: seq<Slot>)
      requires Valid()
      modifies this
      ensures Valid()
      ensures forall p :: 0 <= p < paramsSize ==>
        weiDev[p] == if p < Total(sizes, layout) then TagBuffer(sizes, layout, paramsSize)[p] else old(weiDev[p])
      ensures weiSet == weiDev
      ensures order == SweepOrder(cfg)
    {
      ghost var init := weiDev;
      ghost var written: set<Entry> := {};
      order := [];
      assert order == Visited(cfg, 0, 0);
      assert weiDev == SweptBuffer(sizes, layout, init, written);
      var bi := if cfg.direction == Bidirection then 2 else 1;
      var layer := 0;
      while layer < cfg.numLayer * bi
        invariant layer <= cfg.numLayer * bi
        invariant Valid() && weiDev == SweptBuffer(sizes, layout, init, written)
        invariant SweptUpTo(cfg, written, layer, 0)
        invariant order == Visited(cfg, layer, 0)
      {
        written, order := WriteLayer(layer, init, written, order);
        layer := layer + 1;
      }
      SweepDone(cfg, written);
      VisitDone(cfg);
      forall p | 0 <= p < paramsSize
        ensures weiDev[p] == if p < Total(sizes, layout) then TagBuffer(sizes, layout, paramsSize)[p] else init[p]
      {
        SweptComplete(sizes, layout, init, written, p);
      }
      weiSet := weiDev;
    }

    /** Read entry `e` back and check every element against its tag. */
    method CheckSlot(e: Entry) returns (good: bool)
      requires Valid() && e in layout
      ensures good <==> AgreesAt(sizes, layout, weiDev, e)
    {
      ReadBackAgrees(sizes, layout, weiDev, e);
      var out := GetLayerSlot(weiDev, layout, sizes, e).value;
      good := true;
      var i := 0;
      while i < |out|
        invariant i <= |out|
        invariant good <==> forall q :: 0 <= q < i ==> out[q] == Tag(e.slot)
      {
        good := good && out[i] == e.slot.layer * 10 + e.slot.id;
        i := i + 1;
      }
    }

    /**
      Read one slot back through the accessor: its weight and, with bias, its
      bias. The result is true exactly when both hold their tag, so adding
      the slot's entries to those already checked keeps agreement iff it
      held before and the result is true.
     */
    method CheckSlotEntries(s: Slot, ghost checked: set<Entry>) returns (good: bool)
      requires Valid() && IsSlot(cfg, s)
      ensures AgreesOn(sizes, layout, weiDev, checked + SlotEntries(cfg, s)) <==>
        AgreesOn(sizes, layout, weiDev, checked) && good
    {
      var w := Entry(s, Weight);
      assert IsEntry(cfg, w);
      good := CheckSlot(w);
      AgreesOnAdd(sizes, layout, weiDev, checked, w);
      if cfg.biasMode == WithBias {
        var b := Entry(s, Bias);
        assert IsEntry(cfg, b);
        var g := CheckSlot(b);
        AgreesOnAdd(sizes, layout, weiDev, checked + {w}, b);
        good := good && g;
      }
      AddSlotEntries(cfg, checked, s);
    }

    /**
      Read back every slot of virtual layer `layer`, layerID by layerID. The
      result is true exactly when the layer's entries hold their tags;
      `order` grows by the layer's slots in the sweep order.
     */
    method CheckLayer(layer: nat, ghost checked: set<Entry>, ghost order: seq<Slot>)
      returns (good: bool, ghost after: set<Entry>, ghost order': seq<Slot>)
      requires Valid() && layer < cfg.numLayer * Bi(cfg)
      requires SweptUpTo(cfg, checked, layer, 0) && order == Visited(cfg, layer, 0)
      ensures SweptUpTo(cfg, after, layer + 1, 0) && order' == Visited(cfg, layer + 1, 0)
      ensures AgreesOn(sizes, layout, weiDev, after) <==> AgreesOn(sizes, layout, weiDev, checked) && good
    {
      var nH := GateGroups(cfg.mode);
      var bi := if cfg.direction == Bidirection then 2 else 1;
      var skip := 2;
      if cfg.inMode == Skip && layer < bi {
        skip := 1;
      }
      assert nH * skip == IdCount(cfg, layer);
      good := true;
      after := checked;
      order' := order;
      var layerID := 0;
      while layerID < nH * skip
        invariant layerID <= nH * skip
        invariant AgreesOn(sizes, layout, weiDev, after) <==> AgreesOn(sizes, layout, weiDev, checked) && good
        invariant SweptUpTo(cfg, after, layer, layerID)
        invariant order' == Visited(cfg, layer, layerID)
      {
        var g := CheckSlotEntries(Slot(layer, layerID), after);
        good := good && g;
        SweepNextId(cfg, after, layer, layerID);
        after := after + SlotEntries(cfg, Slot(layer, layerID));
        VisitNext(cfg, layer, layerID);
        order' := order' + [Slot(layer, layerID)];
        layerID := layerID + 1;
      }
      SweepNextLayer(cfg, after, layer);
    }

    /**
      Read every slot back in the sweep order (`order`, which is `SweepOrder`);
      the result is true exactly when the layout part of the device buffer
      equals the tag buffer.
     */
    method GetRNNLayer() returns (ok: bool, ghost order: seq<Slot>)
      requires Valid()
      ensures ok <==> forall p :: 0 <= p < Total(sizes, layout) ==> weiDev[p] == TagBuffer(sizes, layout, paramsSize)[p]
      ensures order == SweepOrder(cfg)
    {
      ghost var checked: set<Entry> := {};
      order := [];
      assert order == Visited(cfg, 0, 0);
      ok := true;
      var bi := if cfg.direction == Bidirection then 2 else 1;
      var layer := 0;
      while layer < cfg.numLayer * bi
        invariant layer <= cfg.numLayer * bi
        invariant ok <==> AgreesOn(sizes, layout, weiDev, checked)
        invariant SweptUpTo(cfg, checked, layer, 0)
        invariant order == Visited(cfg, layer, 0)
      {
        var good;
        good, checked, order := CheckLayer(layer, checked, order);
        ok := ok && good;
        layer := layer + 1;
      }
      SweepDone(cfg, checked);
      VisitDone(cfg);
      AgreesOnAll(sizes, layout, weiDev, checked);
    }

    // ----- run -----

    /**
      The whole test on the device buffer as it is. Every check passes exactly
      when the buffer fill_w_tensor builds agrees, over the layout, with the
      buffer the accessor writes leave behind under the library's layout, and
      the part of the device buffer past the layout was zero to begin with.
      The first holds whenever the library lays the buffer out as
      fill_w_tensor does (`layout == Entries(cfg)`); the second always holds
      when the library reports exactly the layout size.
     */
    method Run() returns (ok: bool)
      requires Valid()
      modifies this
      ensures Valid()
      ensures ok <==>
        && (forall p :: 0 <= p < paramsSize && p < LayoutSize(cfg, sizes) ==>
              Expected(cfg, sizes, paramsSize)[p] == TagBuffer(sizes, layout, paramsSize)[p])
        && (forall p :: LayoutSize(cfg, sizes) <= p < paramsSize ==> old(weiDev[p]) == 0)
    {
      LibraryLayoutSize(cfg, sizes, layout);
      var weiH := FillWTensor();
      var weiSet;
      ghost var setOrder;
      weiSet, setOrder := SetRNNLayer();
      ok := |weiH| == |weiSet|;
      var i := 0;
      while i < |weiH|
        invariant i <= |weiH| == |weiSet|
        invariant ok <==> forall q :: 0 <= q < i ==> weiH[q] == weiSet[q]
      {
        ok := ok && weiH[i] == weiSet[i];
        i := i + 1;
      }
      forall p | 0 <= p < paramsSize
        ensures weiH[p] == weiSet[p] <==>
          if p < LayoutSize(cfg, sizes) then Expected(cfg, sizes, paramsSize)[p] == TagBuffer(sizes, layout, paramsSize)[p]
          else old(weiDev[p]) == 0
      {
        ExpectedAt(cfg, sizes, paramsSize, p);
      }
      var got;
      ghost var getOrder;
      got, getOrder := GetRNNLayer();
      ok := ok && got;
    }
  }
}
