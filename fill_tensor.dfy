/**
  The layout `fill_w_tensor` expects and the buffer it builds: every weight
  slot in the fill order, then, with biases, every bias slot in the same
  order; each range holds its slot's tag.
 */
module FillTensor {
  import opened RnnConfig
  import opened Enumeration
  import opened Layout
  import opened Buffer

  /** The entries of one pass over `slots`. */
  function Tagged(slots: seq<Slot>, kind: Kind): (es: seq<Entry>)
    ensures |es| == |slots|
  {
    seq(|slots|, i requires 0 <= i < |slots| => Entry(slots[i], kind))
  }

  lemma TaggedAppend(a: seq<Slot>, b: seq<Slot>, kind: Kind)
    ensures Tagged(a + b, kind) == Tagged(a, kind) + Tagged(b, kind)
  {
  }

  lemma TaggedPrefix(a: seq<Slot>, b: seq<Slot>, kind: Kind)
    requires a <= b
    ensures Tagged(a, kind) <= Tagged(b, kind)
  {
    assert b == a + b[|a|..];
    TaggedAppend(a, b[|a|..], kind);
  }

  /** Emitting the first slot of the remaining ones keeps `done + rest` equal to the goal. */
  lemma TaggedEmit(done: seq<Entry>, s: Slot, tail: seq<Slot>, kind: Kind, goal: seq<Entry>)
    requires done + Tagged([s] + tail, kind) == goal
    ensures (done + [Entry(s, kind)]) + Tagged(tail, kind) == goal
    ensures done + [Entry(s, kind)] <= goal
  {
    TaggedAppend([s], tail, kind);
    assert Tagged([s], kind) == [Entry(s, kind)];
  }

  /** The weight entries of the first pass of fill_w_tensor. */
  function Weights(cfg: Config): seq<Entry>
  {
    Tagged(FillOrder(cfg), Weight)
  }

  /** The bias entries of the second pass of fill_w_tensor (none without bias). */
  function Biases(cfg: Config): seq<Entry>
  {
    if cfg.biasMode == WithBias then Tagged(FillOrder(cfg), Bias) else []
  }

  /** The whole layout: all weights, then all biases. */
  function Entries(cfg: Config): seq<Entry>
  {
    Weights(cfg) + Biases(cfg)
  }

  /** The entries that exist: existing slots, biases only with bias mode on. */
  predicate IsEntry(cfg: Config, e: Entry)
  {
    IsSlot(cfg, e.slot) && (e.kind == Weight || cfg.biasMode == WithBias)
  }

  lemma TaggedFacts(slots: seq<Slot>, kind: Kind)
    requires NoDup(slots)
    ensures forall e :: e in Tagged(slots, kind) <==> e.kind == kind && e.slot in slots
    ensures NoDup(Tagged(slots, kind))
  {
    var es := Tagged(slots, kind);
    forall e: Entry | e.kind == kind && e.slot in slots ensures e in es {
      var i :| 0 <= i < |slots| && slots[i] == e.slot;
      assert es[i] == e;
    }
  }

  /** The layout holds every existing weight and bias entry, and nothing else, each exactly once. */
  lemma EntriesFacts(cfg: Config)
    ensures forall e :: e in Entries(cfg) <==> IsEntry(cfg, e)
    ensures NoDup(Entries(cfg))
  {
    FillOrderSlots(cfg);
    TaggedFacts(FillOrder(cfg), Weight);
    TaggedFacts(FillOrder(cfg), Bias);
    NoDupAppend(Weights(cfg), Biases(cfg));
  }

  /** The final offset of fill_w_tensor: the sum of all weight sizes plus, with bias, all bias sizes. */
  function LayoutSize(cfg: Config, sz: SlotSizes): nat
  {
    Total(sz, Entries(cfg))
  }

  /** The layout locates exactly the existing entries, each inside the layout. */
  lemma LocateExists(cfg: Config, sz: SlotSizes, e: Entry)
    ensures Locate(Entries(cfg), sz, e).Some? <==> IsEntry(cfg, e)
    ensures IsEntry(cfg, e) ==>
      && Locate(Entries(cfg), sz, e).value.len == Size(sz, e)
      && Locate(Entries(cfg), sz, e).value.start + Size(sz, e) <= LayoutSize(cfg, sz)
  {
    EntriesFacts(cfg);
    LocateRange(Entries(cfg), sz, e);
  }

  /** The final offset of fill_w_tensor is the sum of all weight sizes plus the sum of all bias sizes. */
  lemma LayoutSizeSplit(cfg: Config, sz: SlotSizes)
    ensures LayoutSize(cfg, sz) == Total(sz, Weights(cfg)) + Total(sz, Biases(cfg))
  {
    TotalAppend(sz, Weights(cfg), Biases(cfg));
  }

  /** Every weight range ends before every bias range begins. */
  lemma WeightsThenBiases(cfg: Config, sz: SlotSizes, e: Entry)
    requires IsEntry(cfg, e)
    ensures Locate(Entries(cfg), sz, e).Some?
    ensures var r := Locate(Entries(cfg), sz, e).value;
      if e.kind == Weight then r.start + r.len <= Total(sz, Weights(cfg))
      else Total(sz, Weights(cfg)) <= r.start
  {
    var es := Entries(cfg);
    var w := Weights(cfg);
    EntriesFacts(cfg);
    var i := IndexOf(es, e).value;
    assert es[..|w|] == w;
    if e.kind == Weight {
      assert i < |w|;
      RangesOrdered(sz, es, i, |w|);
    } else {
      assert |w| <= i;
      assert es[..|w|] <= es[..i];
      TotalPrefix(sz, es[..|w|], es[..i]);
    }
  }

  /** The buffer fill_w_tensor returns for a buffer of `n` elements. */
  function Expected(cfg: Config, sz: SlotSizes, n: nat): seq<int>
  {
    TagBuffer(sz, Entries(cfg), n)
  }

  /**
    fill_w_tensor's buffer: every element of the layout holds the tag
    `layer * 10 + layerID` of the entry that owns it, and every element past
    the layout keeps its initial 0.
   */
  lemma ExpectedAt(cfg: Config, sz: SlotSizes, n: nat, p: nat)
    requires p < n
    ensures Expected(cfg, sz, n)[p] ==
      if p < LayoutSize(cfg, sz) then Tag(Entries(cfg)[Owner(sz, Entries(cfg), p)].slot) else 0
  {
    PaintAt(sz, Zeros(n), Entries(cfg), p);
  }

  /** The same, addressed by entry: an existing entry's range is filled with its tag. */
  lemma ExpectedSlot(cfg: Config, sz: SlotSizes, n: nat, e: Entry, p: nat)
    requires LayoutSize(cfg, sz) <= n
    requires IsEntry(cfg, e)
    ensures Locate(Entries(cfg), sz, e).Some?
    ensures var r := Locate(Entries(cfg), sz, e).value;
      r.start <= p < r.start + r.len ==> p < n && Expected(cfg, sz, n)[p] == Tag(e.slot)
  {
    EntriesFacts(cfg);
    LocateRange(Entries(cfg), sz, e);
    LocateOwner(Entries(cfg), sz, e, p);
    var r := Locate(Entries(cfg), sz, e).value;
    if r.start <= p < r.start + r.len {
      ExpectedAt(cfg, sz, n, p);
    }
  }
}
