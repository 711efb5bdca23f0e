/**
  The two orders in which the super-tensor test visits the slots of a
  configuration:

  - the layout order of `fill_w_tensor`: unidirectional networks go layer by
    layer; bidirectional ones go in steps `k < 4 * numLayer`, step `k` holding
    the gate groups of virtual layer `k % 2 + (k / 4) * 2`, the input
    layerIDs `0 .. nH - 1` when `k % 4 <= 1` and `nH .. 2 * nH - 1`
    otherwise, and a skip `break` that drops layerIDs `nH` and up of the
    first two virtual layers;
  - the sweep of `setRNNLayer` / `getRNNLayer`: virtual layer by virtual
    layer, each with `IdCount` layerIDs.

  Both visit exactly the slots of `IsSlot`, each once.
 */
module Enumeration {
  import opened RnnConfig

  // ----- layout order of fill_w_tensor -----

  /** Number of outer-loop steps of fill_w_tensor. */
  function StepCount(cfg: Config): nat
  {
    if cfg.direction == Bidirection then cfg.numLayer * 4 else cfg.numLayer
  }

  /** The unidirectional `skip` factor: 1 on the first layer in skip mode. */
  function UniSkip(cfg: Config, k: nat): nat
  {
    if cfg.inMode == Skip && k < 1 then 1 else 2
  }

  /** Unidirectional step `k`: layer `k`, layerIDs `0 .. nH * skip - 1`. */
  function UniStep(cfg: Config, k: nat): seq<Slot>
  {
    seq(GateGroups(cfg.mode) * UniSkip(cfg, k), j requires 0 <= j => Slot(k, j))
  }

  function BiLayer(k: nat): nat
  {
    k % 2 + (k / 4) * 2
  }

  function BiLayerId(cfg: Config, k: nat, j: nat): nat
  {
    if k % 4 > 1 then j + GateGroups(cfg.mode) else j
  }

  /** The condition of the skip `break` in the bidirectional inner loop. */
  predicate BiBreaks(cfg: Config, k: nat, j: nat)
  {
    cfg.inMode == Skip && BiLayer(k) < 2 && BiLayerId(cfg, k, j) >= GateGroups(cfg.mode)
  }

  /** Bidirectional step `k` from inner index `j` on, stopping at the `break`. */
  function BiStepFrom(cfg: Config, k: nat, j: nat): seq<Slot>
    decreases GateGroups(cfg.mode) - j
  {
    if j >= GateGroups(cfg.mode) || BiBreaks(cfg, k, j) then []
    else [Slot(BiLayer(k), BiLayerId(cfg, k, j))] + BiStepFrom(cfg, k, j + 1)
  }

  function Step(cfg: Config, k: nat): seq<Slot>
  {
    if cfg.direction == Bidirection then BiStepFrom(cfg, k, 0) else UniStep(cfg, k)
  }

  /** The slots emitted by the first `k` outer steps. */
  function FillUpTo(cfg: Config, k: nat): seq<Slot>
  {
    if k == 0 then [] else FillUpTo(cfg, k - 1) + Step(cfg, k - 1)
  }

  /** The whole layout order of one pass (weights, or biases) of fill_w_tensor. */
  function FillOrder(cfg: Config): seq<Slot>
  {
    FillUpTo(cfg, StepCount(cfg))
  }

  // ----- sweep of setRNNLayer / getRNNLayer -----

  function SweepLayer(cfg: Config, layer: nat): seq<Slot>
  {
    seq(IdCount(cfg, layer), id requires 0 <= id => Slot(layer, id))
  }

  function SweepUpTo(cfg: Config, layer: nat): seq<Slot>
  {
    if layer == 0 then [] else SweepUpTo(cfg, layer - 1) + SweepLayer(cfg, layer - 1)
  }

  function SweepOrder(cfg: Config): seq<Slot>
  {
    SweepUpTo(cfg, cfg.numLayer * Bi(cfg))
  }

  // ----- the skip break -----

  lemma {:induction false} BiStepShape(cfg: Config, k: nat, j: nat)
    requires j <= GateGroups(cfg.mode)
    ensures BiStepFrom(cfg, k, j) ==
      if BiBreaks(cfg, k, 0) then []
      else seq(GateGroups(cfg.mode) - j, i requires 0 <= i => Slot(BiLayer(k), BiLayerId(cfg, k, j + i)))
    decreases GateGroups(cfg.mode) - j
  {
    var nH := GateGroups(cfg.mode);
    if j < nH {
      assert BiBreaks(cfg, k, j) == BiBreaks(cfg, k, 0);
      BiStepShape(cfg, k, j + 1);
    }
  }

  /**
    The skip `break` is all-or-nothing: a bidirectional step emits either all
    `nH` gate groups of its virtual layer, in order, or none of them, and it
    emits none exactly in skip mode on the upper half (`k % 4 > 1`) of
    virtual layers 0 and 1.
   */
  lemma BiStepAllOrNothing(cfg: Config, k: nat)
    ensures var st := BiStepFrom(cfg, k, 0);
      && (st == [] <==> cfg.inMode == Skip && BiLayer(k) < 2 && k % 4 > 1)
      && (st != [] ==> |st| == GateGroups(cfg.mode))
      && forall j :: 0 <= j < |st| ==> st[j] == Slot(BiLayer(k), BiLayerId(cfg, k, j))
  {
    BiStepShape(cfg, k, 0);
  }

  // ----- which step emits a slot -----

  /** The outer step of fill_w_tensor that emits slot `s`. */
  function StepIndex(cfg: Config, s: Slot): nat
  {
    if cfg.direction == Bidirection then
      4 * (s.layer / 2) + 2 * (if s.id < GateGroups(cfg.mode) then 0 else 1) + s.layer % 2
    else s.layer
  }

  /** How `k` splits into a virtual layer and a half. */
  lemma BiLayerOf(k: nat)
    ensures BiLayer(k) / 2 == k / 4 && BiLayer(k) % 2 == k % 2
    ensures k == 4 * (k / 4) + 2 * (if k % 4 <= 1 then 0 else 1) + k % 2
  {
    var q, r := k / 4, k % 4;
    assert k == 4 * q + r;
    assert k % 2 == r % 2 by {
      assert k == 2 * (2 * q + r / 2) + r % 2;
    }
  }

  lemma BiStepSound(cfg: Config, k: nat, j: nat)
    requires cfg.direction == Bidirection && k < StepCount(cfg)
    requires j < |Step(cfg, k)|
    ensures IsSlot(cfg, Step(cfg, k)[j]) && StepIndex(cfg, Step(cfg, k)[j]) == k
  {
    var nH := GateGroups(cfg.mode);
    BiStepShape(cfg, k, 0);
    BiLayerOf(k);
    var s := Slot(BiLayer(k), BiLayerId(cfg, k, j));
    assert Step(cfg, k)[j] == s;
    assert j < nH && !BiBreaks(cfg, k, 0);
    assert s.layer < cfg.numLayer * 2;
    assert IdCount(cfg, s.layer) == nH || IdCount(cfg, s.layer) == nH + nH;
    assert k % 4 > 1 ==> IdCount(cfg, s.layer) == nH + nH;
  }

  lemma BiStepComplete(cfg: Config, k: nat, s: Slot)
    requires cfg.direction == Bidirection
    requires IsSlot(cfg, s) && StepIndex(cfg, s) == k
    ensures s in Step(cfg, k)
  {
    var nH := GateGroups(cfg.mode);
    BiStepShape(cfg, k, 0);
    var h := if s.id < nH then 0 else 1;
    var j := if s.id < nH then s.id else s.id - nH;
    assert k / 4 == s.layer / 2 && k % 4 == 2 * h + s.layer % 2 && k % 2 == s.layer % 2;
    assert BiLayer(k) == s.layer;
    assert BiLayerId(cfg, k, j) == s.id;
    assert !BiBreaks(cfg, k, 0);
    assert Step(cfg, k)[j] == s;
  }

  /** Step `k` emits exactly the slots whose `StepIndex` is `k`. */
  lemma StepMembership(cfg: Config, k: nat, s: Slot)
    requires k < StepCount(cfg)
    ensures s in Step(cfg, k) <==> IsSlot(cfg, s) && StepIndex(cfg, s) == k
  {
    if cfg.direction == Bidirection {
      if s in Step(cfg, k) {
        var j :| 0 <= j < |Step(cfg, k)| && Step(cfg, k)[j] == s;
        BiStepSound(cfg, k, j);
      }
      if IsSlot(cfg, s) && StepIndex(cfg, s) == k {
        BiStepComplete(cfg, k, s);
      }
    } else {
      if s in UniStep(cfg, k) {
        var j :| 0 <= j < |UniStep(cfg, k)| && UniStep(cfg, k)[j] == s;
      }
      if IsSlot(cfg, s) && StepIndex(cfg, s) == k {
        assert UniStep(cfg, k)[s.id] == s;
      }
    }
  }

  lemma NoDupStep(cfg: Config, k: nat)
    ensures NoDup(Step(cfg, k))
  {
    if cfg.direction == Bidirection {
      BiStepShape(cfg, k, 0);
      var st := BiStepFrom(cfg, k, 0);
      forall i, j | 0 <= i < j < |st| ensures st[i] != st[j] {
        assert st[i].id == BiLayerId(cfg, k, i) && st[j].id == BiLayerId(cfg, k, j);
      }
    }
  }

  lemma NoDupAppend<T>(a: seq<T>, b: seq<T>)
    requires NoDup(a) && NoDup(b)
    requires forall x :: x in a ==> x !in b
    ensures NoDup(a + b)
  {
    forall i, j | 0 <= i < j < |a + b| ensures (a + b)[i] != (a + b)[j] {
      if i < |a| && |a| <= j {
        assert (a + b)[i] in a && (a + b)[j] == b[j - |a|];
      }
    }
  }

  lemma {:induction false} FillUpToFacts(cfg: Config, k: nat)
    requires k <= StepCount(cfg)
    ensures forall s :: s in FillUpTo(cfg, k) <==> IsSlot(cfg, s) && StepIndex(cfg, s) < k
    ensures NoDup(FillUpTo(cfg, k))
  {
    if k > 0 {
      FillUpToFacts(cfg, k - 1);
      forall s ensures s in Step(cfg, k - 1) <==> IsSlot(cfg, s) && StepIndex(cfg, s) == k - 1 {
        StepMembership(cfg, k - 1, s);
      }
      NoDupStep(cfg, k - 1);
      NoDupAppend(FillUpTo(cfg, k - 1), Step(cfg, k - 1));
    }
  }

  /** The slots of the first `k` steps are a prefix of those of the first `k2` steps. */
  lemma {:induction false} FillUpToPrefix(cfg: Config, k: nat, k2: nat)
    requires k <= k2
    ensures FillUpTo(cfg, k) <= FillUpTo(cfg, k2)
    decreases k2
  {
    if k < k2 {
      FillUpToPrefix(cfg, k, k2 - 1);
    }
  }

  /** Every existing slot is emitted by some step of fill_w_tensor. */
  lemma StepIndexBound(cfg: Config, s: Slot)
    requires IsSlot(cfg, s)
    ensures StepIndex(cfg, s) < StepCount(cfg)
  {
    if cfg.direction == Bidirection {
      assert s.layer / 2 < cfg.numLayer;
    }
  }

  /** fill_w_tensor's layout order visits exactly the existing slots, each once. */
  lemma FillOrderSlots(cfg: Config)
    ensures forall s :: s in FillOrder(cfg) <==> IsSlot(cfg, s)
    ensures NoDup(FillOrder(cfg))
  {
    FillUpToFacts(cfg, StepCount(cfg));
    forall s | IsSlot(cfg, s) ensures StepIndex(cfg, s) < StepCount(cfg) {
      StepIndexBound(cfg, s);
    }
  }

  lemma {:induction false} SweepUpToFacts(cfg: Config, layer: nat)
    requires layer <= cfg.numLayer * Bi(cfg)
    ensures forall s :: s in SweepUpTo(cfg, layer) <==> IsSlot(cfg, s) && s.layer < layer
    ensures NoDup(SweepUpTo(cfg, layer))
  {
    if layer > 0 {
      SweepUpToFacts(cfg, layer - 1);
      var a, b := SweepUpTo(cfg, layer - 1), SweepLayer(cfg, layer - 1);
      forall s ensures s in b <==> IsSlot(cfg, s) && s.layer == layer - 1 {
        if IsSlot(cfg, s) && s.layer == layer - 1 {
          assert b[s.id] == s;
        }
      }
      NoDupAppend(a, b);
    }
  }

  /** The accessor sweep visits exactly the existing slots, each once. */
  lemma SweepOrderSlots(cfg: Config)
    ensures forall s :: s in SweepOrder(cfg) <==> IsSlot(cfg, s)
    ensures NoDup(SweepOrder(cfg))
  {
    SweepUpToFacts(cfg, cfg.numLayer * Bi(cfg));
  }

  /**
    The two enumerations cover the same set of slots, each without
    repetition, so one is a reordering of the other.
   */
  lemma SameSlots(cfg: Config)
    ensures forall s :: s in FillOrder(cfg) <==> s in SweepOrder(cfg)
    ensures NoDup(FillOrder(cfg)) && NoDup(SweepOrder(cfg))
  {
    FillOrderSlots(cfg);
    SweepOrderSlots(cfg);
  }

  lemma {:induction false} UniUpToAgree(cfg: Config, k: nat)
    requires cfg.direction == Unidirection
    ensures FillUpTo(cfg, k) == SweepUpTo(cfg, k)
  {
    if k > 0 {
      UniUpToAgree(cfg, k - 1);
      assert UniStep(cfg, k - 1) == SweepLayer(cfg, k - 1);
    }
  }

  /** For a unidirectional network the two orders are the same sequence. */
  lemma UnidirectionalOrdersAgree(cfg: Config)
    requires cfg.direction == Unidirection
    ensures FillOrder(cfg) == SweepOrder(cfg)
  {
    UniUpToAgree(cfg, cfg.numLayer);
  }

  /** The slots of the first `layer` layers of the sweep are a prefix of those of the first `layer2`. */
  lemma {:induction false} SweepUpToPrefix(cfg: Config, layer: nat, layer2: nat)
    requires layer <= layer2
    ensures SweepUpTo(cfg, layer) <= SweepUpTo(cfg, layer2)
    decreases layer2
  {
    if layer < layer2 {
      SweepUpToPrefix(cfg, layer, layer2 - 1);
    }
  }

  lemma FirstSteps(cfg: Config, k: nat)
    ensures FillUpTo(cfg, 1) == Step(cfg, 0)
    ensures FillUpTo(cfg, k + 1) == FillUpTo(cfg, k) + Step(cfg, k)
    ensures SweepUpTo(cfg, 1) == SweepLayer(cfg, 0)
    ensures SweepUpTo(cfg, k + 1) == SweepUpTo(cfg, k) + SweepLayer(cfg, k)
  {
    assert FillUpTo(cfg, 1) == [] + Step(cfg, 0);
    assert SweepUpTo(cfg, 1) == [] + SweepLayer(cfg, 0);
  }

  /** Linear input: at position `nH` the fill is already at virtual layer 1, the sweep still at layer 0. */
  lemma BiLinearDiffer(cfg: Config)
    requires cfg.direction == Bidirection && cfg.inMode == Linear && cfg.numLayer >= 1
    ensures var nH := GateGroups(cfg.mode);
      && nH < |FillOrder(cfg)| && FillOrder(cfg)[nH] == Slot(1, 0)
      && nH < |SweepOrder(cfg)| && SweepOrder(cfg)[nH] == Slot(0, nH)
  {
    var nH := GateGroups(cfg.mode);
    BiStepAllOrNothing(cfg, 0);
    BiStepAllOrNothing(cfg, 1);
    FirstSteps(cfg, 1);
    var f := FillUpTo(cfg, 2);
    assert f == Step(cfg, 0) + Step(cfg, 1);
    assert f[nH] == Step(cfg, 1)[0] == Slot(1, 0);
    FillUpToPrefix(cfg, 2, StepCount(cfg));
    var w := SweepUpTo(cfg, 1);
    assert w[nH] == SweepLayer(cfg, 0)[nH] == Slot(0, nH);
    SweepUpToPrefix(cfg, 1, cfg.numLayer * Bi(cfg));
  }

  /**
    Skip input, two layers or more: at position `3 * nH` the fill is at
    virtual layer 3, the sweep still at layer 2.
   */
  lemma BiSkipDiffer(cfg: Config)
    requires cfg.direction == Bidirection && cfg.inMode == Skip && cfg.numLayer >= 2
    ensures var nH := GateGroups(cfg.mode);
      && 3 * nH < |FillOrder(cfg)| && FillOrder(cfg)[3 * nH] == Slot(3, 0)
      && 3 * nH < |SweepOrder(cfg)| && SweepOrder(cfg)[3 * nH] == Slot(2, nH)
  {
    BiSkipFillAt(cfg);
    BiSkipSweepAt(cfg);
  }

  /** Skip input, two layers or more: steps 2 and 3 are empty, so position `3 * nH` falls in step 5. */
  lemma BiSkipFillAt(cfg: Config)
    requires cfg.direction == Bidirection && cfg.inMode == Skip && cfg.numLayer >= 2
    ensures var nH := GateGroups(cfg.mode);
      3 * nH < |FillOrder(cfg)| && FillOrder(cfg)[3 * nH] == Slot(3, 0)
  {
    var nH := GateGroups(cfg.mode);
    BiStepAllOrNothing(cfg, 0);
    BiStepAllOrNothing(cfg, 1);
    BiStepAllOrNothing(cfg, 2);
    BiStepAllOrNothing(cfg, 3);
    BiStepAllOrNothing(cfg, 4);
    BiStepAllOrNothing(cfg, 5);
    assert BiLayer(4) == 2 && BiLayer(5) == 3;
    FirstSteps(cfg, 1);
    FirstSteps(cfg, 2);
    FirstSteps(cfg, 3);
    FirstSteps(cfg, 4);
    FirstSteps(cfg, 5);
    var f := FillUpTo(cfg, 6);
    assert f == Step(cfg, 0) + Step(cfg, 1) + Step(cfg, 2) + Step(cfg, 3) + Step(cfg, 4) + Step(cfg, 5);
    assert Step(cfg, 2) == [] && Step(cfg, 3) == [];
    assert f[3 * nH] == Step(cfg, 5)[0] == Slot(3, 0);
    FillUpToPrefix(cfg, 6, StepCount(cfg));
  }

  /** Skip input, two layers or more: virtual layers 0 and 1 hold `nH` slots each, so position `3 * nH` falls in layer 2. */
  lemma BiSkipSweepAt(cfg: Config)
    requires cfg.direction == Bidirection && cfg.inMode == Skip && cfg.numLayer >= 2
    ensures var nH := GateGroups(cfg.mode);
      3 * nH < |SweepOrder(cfg)| && SweepOrder(cfg)[3 * nH] == Slot(2, nH)
  {
    var nH := GateGroups(cfg.mode);
    FirstSteps(cfg, 1);
    FirstSteps(cfg, 2);
    assert IdCount(cfg, 0) == nH && IdCount(cfg, 1) == nH && IdCount(cfg, 2) == 2 * nH;
    var w := SweepUpTo(cfg, 3);
    assert w == SweepLayer(cfg, 0) + SweepLayer(cfg, 1) + SweepLayer(cfg, 2);
    assert w[3 * nH] == SweepLayer(cfg, 2)[nH] == Slot(2, nH);
    SweepUpToPrefix(cfg, 3, cfg.numLayer * Bi(cfg));
  }

  /** In skip mode the first two steps of the fill are virtual layers 0 and 1 of the sweep, in order. */
  lemma BiSkipFirstStep(cfg: Config, k: nat)
    requires cfg.direction == Bidirection && cfg.inMode == Skip && k < 2
    ensures Step(cfg, k) == SweepLayer(cfg, k)
  {
    var nH := GateGroups(cfg.mode);
    BiStepAllOrNothing(cfg, k);
    assert BiLayer(k) == k;
    var st, sl := Step(cfg, k), SweepLayer(cfg, k);
    assert |st| == nH == |sl|;
    forall i | 0 <= i < nH ensures st[i] == sl[i] {
      assert BiLayerId(cfg, k, i) == i;
    }
  }

  /** Skip input, one layer: both orders are virtual layer 0, then virtual layer 1, ids `0 .. nH - 1`. */
  lemma BiOneSkipLayerAgree(cfg: Config)
    requires cfg.direction == Bidirection && cfg.inMode == Skip && cfg.numLayer == 1
    ensures FillOrder(cfg) == SweepOrder(cfg)
  {
    BiStepAllOrNothing(cfg, 2);
    BiStepAllOrNothing(cfg, 3);
    BiSkipFirstStep(cfg, 0);
    BiSkipFirstStep(cfg, 1);
    FirstSteps(cfg, 1);
    FirstSteps(cfg, 2);
    FirstSteps(cfg, 3);
    assert Step(cfg, 2) == [] && Step(cfg, 3) == [];
    assert FillUpTo(cfg, 4) == FillUpTo(cfg, 2);
  }

  /**
    For a bidirectional network the two orders are the same sequence exactly
    when there is no layer, or one layer in skip mode; otherwise the test
    writes the slots in an order different from the layout's.
   */
  lemma BidirectionalOrdersAgree(cfg: Config)
    requires cfg.direction == Bidirection
    ensures FillOrder(cfg) == SweepOrder(cfg) <==>
      cfg.numLayer == 0 || (cfg.numLayer == 1 && cfg.inMode == Skip)
  {
    if cfg.numLayer == 0 {
    } else if cfg.inMode == Linear {
      BiLinearDiffer(cfg);
    } else if cfg.numLayer == 1 {
      BiOneSkipLayerAgree(cfg);
    } else {
      BiSkipDiffer(cfg);
    }
  }
}
