/**
  Configuration of the recurrent network whose weight buffer the super-tensor
  test lays out, and the (layer, layerID) slots that configuration has.

  In the bidirectional case `layer` is the "virtual" layer index used by the
  accessors: 2 * physical layer + direction.
 */
module RnnConfig {

  datatype Mode = Relu | Tanh | Lstm | Gru
  datatype DirectionMode = Unidirection | Bidirection
  datatype InputMode = Linear | Skip
  datatype BiasMode = NoBias | WithBias

  datatype Config = Config(
    numLayer: nat,
    mode: Mode,
    direction: DirectionMode,
    inMode: InputMode,
    biasMode: BiasMode)

  /** One addressable matrix (or bias vector) of the buffer: `layer` and `layerID`. */
  datatype Slot = Slot(layer: nat, id: nat)

  /**
    Number of gate groups of a cell, the same rule in all three routines:
    1 for RELU, 3 for GRU, 4 for every other mode.
   */
  function GateGroups(mode: Mode): (n: nat)
    ensures 1 <= n <= 4
    ensures n == 1 <==> mode == Relu
    ensures n == 3 <==> mode == Gru
    ensures mode == Lstm || mode == Tanh ==> n == 4
  {
    if mode == Relu then 1 else if mode == Gru then 3 else 4
  }

  /** 2 when bidirectional, 1 otherwise (`bi` in the accessor sweeps). */
  function Bi(cfg: Config): (b: nat)
    ensures b == 1 || b == 2
  {
    if cfg.direction == Bidirection then 2 else 1
  }

  /** How many layerIDs the (virtual) layer carries: in skip mode the first `Bi` layers have no input matrices. */
  function IdCount(cfg: Config, layer: nat): nat
  {
    GateGroups(cfg.mode) * (if cfg.inMode == Skip && layer < Bi(cfg) then 1 else 2)
  }

  /** The slots that exist for a configuration. */
  predicate IsSlot(cfg: Config, s: Slot)
  {
    s.layer < cfg.numLayer * Bi(cfg) && s.id < IdCount(cfg, s.layer)
  }

  /** The value the test stores in every element of a slot: layer * 10 + layerID. */
  function Tag(s: Slot): int
  {
    s.layer * 10 + s.id
  }

  /** No element occurs twice. */
  predicate NoDup<T(==)>(s: seq<T>)
  {
    forall i, j :: 0 <= i < j < |s| ==> s[i] != s[j]
  }

  /** A slot never has more than 8 layerIDs, so the tag of an existing slot names it uniquely. */
  lemma TagIdentifiesSlot(cfg: Config, s: Slot, t: Slot)
    requires IsSlot(cfg, s) && IsSlot(cfg, t)
    requires Tag(s) == Tag(t)
    ensures s == t
  {
    assert s.id < 8 && t.id < 8;
  }
}
