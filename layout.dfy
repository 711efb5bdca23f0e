/**
  Flat layouts of a weight buffer. A layout is a sequence of entries (a
  slot's weight matrix or its bias vector); each entry owns the range that
  starts at the sum of the sizes of all entries before it.

  Slot sizes come from the library (`miopenGetRNNLayerParamSize`,
  `miopenGetRNNLayerBiasSize`), whose code is not part of this model; they
  are a parameter, counted in elements.
 */
module Layout {
  import opened RnnConfig

  datatype Kind = Weight | Bias
  datatype Entry = Entry(slot: Slot, kind: Kind)

  /** Element counts of every weight matrix and every bias vector, as the library reports them. */
  datatype SlotSizes = SlotSizes(param: Slot -> nat, bias: Slot -> nat)

  datatype Range = Range(start: nat, len: nat)

  datatype Option<T> = None | Some(value: T)

  function Size(sz: SlotSizes, e: Entry): nat
  {
    if e.kind == Weight then sz.param(e.slot) else sz.bias(e.slot)
  }

  // ----- offsets -----

  /** Sum of the sizes of a sequence of entries: the `offset` after emitting them. */
  function Total(sz: SlotSizes, es: seq<Entry>): nat
    decreases |es|
  {
    if es == [] then 0 else Total(sz, es[..|es| - 1]) + Size(sz, es[|es| - 1])
  }

  /** Where entry `i` begins: the total size of the entries before it. */
  function Start(sz: SlotSizes, es: seq<Entry>, i: nat): nat
    requires i <= |es|
  {
    Total(sz, es[..i])
  }

  lemma {:induction false} TotalAppend(sz: SlotSizes, a: seq<Entry>, b: seq<Entry>)
    ensures Total(sz, a + b) == Total(sz, a) + Total(sz, b)
    decreases |b|
  {
    if b == [] {
      assert a + b == a;
    } else {
      var b' := b[..|b| - 1];
      assert (a + b)[..|a + b| - 1] == a + b';
      TotalAppend(sz, a, b');
    }
  }

  lemma TotalPrefix(sz: SlotSizes, a: seq<Entry>, b: seq<Entry>)
    requires a <= b
    ensures Total(sz, a) <= Total(sz, b)
  {
    assert b == a + b[|a|..];
    TotalAppend(sz, a, b[|a|..]);
  }

  lemma TotalSnoc(sz: SlotSizes, a: seq<Entry>, e: Entry)
    ensures Total(sz, a + [e]) == Total(sz, a) + Size(sz, e)
  {
    assert (a + [e])[..|a|] == a;
  }

  /** Dropping position `i` of a sequence without duplicates drops exactly the entry there. */
  lemma RemoveAt(b: seq<Entry>, i: nat)
    requires NoDup(b) && i < |b|
    ensures NoDup(b[..i] + b[i + 1..])
    ensures forall e :: e in b[..i] + b[i + 1..] <==> e in b && e != b[i]
  {
    var b' := b[..i] + b[i + 1..];
    forall j | 0 <= j < |b'| ensures b'[j] == b[if j < i then j else j + 1] {
    }
    forall e | e in b && e != b[i] ensures e in b' {
      var j :| 0 <= j < |b| && b[j] == e;
      assert b'[if j < i then j else j - 1] == e;
    }
  }

  /** A layout whose entries all occur in another, each once, is no larger than it. */
  lemma {:induction false} TotalSubset(sz: SlotSizes, a: seq<Entry>, b: seq<Entry>)
    requires NoDup(a) && NoDup(b)
    requires forall e :: e in a ==> e in b
    ensures Total(sz, a) <= Total(sz, b)
    decreases |a|
  {
    if a != [] {
      var x := a[|a| - 1];
      assert x in b;
      var i :| 0 <= i < |b| && b[i] == x;
      var a', b' := a[..|a| - 1], b[..i] + b[i + 1..];
      RemoveAt(a, |a| - 1);
      assert a[..|a| - 1] + a[|a|..] == a';
      RemoveAt(b, i);
      forall e | e in a' ensures e in b' {
        assert e in a && e != x;
      }
      assert b == b[..i] + [x] + b[i + 1..];
      TotalAppend(sz, b[..i] + [x], b[i + 1..]);
      TotalSnoc(sz, b[..i], x);
      TotalAppend(sz, b[..i], b[i + 1..]);
      TotalSnoc(sz, a', x);
      assert a == a' + [x];
      TotalSubset(sz, a', b');
    }
  }

  /** Two layouts holding the same entries, each once, have the same total size. */
  lemma TotalSameEntries(sz: SlotSizes, a: seq<Entry>, b: seq<Entry>)
    requires NoDup(a) && NoDup(b)
    requires forall e :: e in a <==> e in b
    ensures Total(sz, a) == Total(sz, b)
  {
    TotalSubset(sz, a, b);
    TotalSubset(sz, b, a);
  }

  /**
    The ranges tile the layout: the first starts at 0, each next one starts
    where the previous ends, and the last ends at the total size.
   */
  lemma LayoutTiles(sz: SlotSizes, es: seq<Entry>)
    ensures Start(sz, es, 0) == 0
    ensures forall i :: 0 <= i < |es| ==> Start(sz, es, i + 1) == Start(sz, es, i) + Size(sz, es[i])
    ensures Start(sz, es, |es|) == Total(sz, es)
  {
    assert es[..|es|] == es;
    forall i | 0 <= i < |es| ensures Start(sz, es, i + 1) == Start(sz, es, i) + Size(sz, es[i]) {
      assert es[..i + 1] == es[..i] + [es[i]];
      TotalSnoc(sz, es[..i], es[i]);
    }
  }

  /** Earlier entries end no later than later entries begin: ranges never overlap. */
  lemma RangesOrdered(sz: SlotSizes, es: seq<Entry>, i: nat, j: nat)
    requires i < j <= |es|
    ensures Start(sz, es, i) + Size(sz, es[i]) <= Start(sz, es, j)
  {
    LayoutTiles(sz, es);
    assert Start(sz, es, i + 1) == Start(sz, es, i) + Size(sz, es[i]);
    assert es[..i + 1] <= es[..j];
    TotalPrefix(sz, es[..i + 1], es[..j]);
  }

  /** The entry whose range holds position `p`. */
  function Owner(sz: SlotSizes, es: seq<Entry>, p: nat): (i: nat)
    requires p < Total(sz, es)
    ensures i < |es|
    ensures Start(sz, es, i) <= p < Start(sz, es, i) + Size(sz, es[i])
    decreases |es|
  {
    var init := es[..|es| - 1];
    assert es[..|es| - 1] == init;
    if p >= Total(sz, init) then |es| - 1
    else
      var i := Owner(sz, init, p);
      assert init[..i] == es[..i];
      i
  }

  /** Only one range holds a position. */
  lemma OwnerUnique(sz: SlotSizes, es: seq<Entry>, i: nat, p: nat)
    requires i < |es|
    requires Start(sz, es, i) <= p < Start(sz, es, i) + Size(sz, es[i])
    ensures p < Total(sz, es)
    ensures Owner(sz, es, p) == i
  {
    RangesOrdered(sz, es, i, |es|);
    LayoutTiles(sz, es);
    var o := Owner(sz, es, p);
    if o < i {
      RangesOrdered(sz, es, o, i);
    } else if i < o {
      RangesOrdered(sz, es, i, o);
    }
  }

  // ----- addressing an entry -----

  function IndexOf(es: seq<Entry>, e: Entry): (r: Option<nat>)
    ensures r.None? <==> e !in es
    ensures r.Some? ==> r.value < |es| && es[r.value] == e
  {
    if es == [] then None
    else if es[0] == e then Some(0)
    else match IndexOf(es[1..], e)
      case None => None
      case Some(i) => Some(i + 1)
  }

  /** The range `layout` gives entry `e`, or None when `e` is not in it. */
  function Locate(layout: seq<Entry>, sz: SlotSizes, e: Entry): Option<Range>
  {
    match IndexOf(layout, e)
    case None => None
    case Some(i) => Some(Range(Start(sz, layout, i), Size(sz, e)))
  }

  /** An entry of the layout has a range of the entry's size inside the layout; any other has none. */
  lemma LocateRange(layout: seq<Entry>, sz: SlotSizes, e: Entry)
    ensures Locate(layout, sz, e).Some? <==> e in layout
    ensures e in layout ==>
      && Locate(layout, sz, e).value.len == Size(sz, e)
      && Locate(layout, sz, e).value.start + Locate(layout, sz, e).value.len <= Total(sz, layout)
  {
    if e in layout {
      var i := IndexOf(layout, e).value;
      RangesOrdered(sz, layout, i, |layout|);
      LayoutTiles(sz, layout);
    }
  }

  /**
    In a layout holding each entry once, the range of an entry holds exactly
    the positions whose owner is that entry.
   */
  lemma LocateOwner(layout: seq<Entry>, sz: SlotSizes, e: Entry, p: nat)
    requires NoDup(layout) && e in layout
    ensures Locate(layout, sz, e).Some?
    ensures var r := Locate(layout, sz, e).value;
      r.start <= p < r.start + r.len <==>
        p < Total(sz, layout) && layout[Owner(sz, layout, p)] == e
  {
    var i := IndexOf(layout, e).value;
    LocateRange(layout, sz, e);
    if Start(sz, layout, i) <= p < Start(sz, layout, i) + Size(sz, e) {
      OwnerUnique(sz, layout, i, p);
    }
    if p < Total(sz, layout) && layout[Owner(sz, layout, p)] == e {
      assert Owner(sz, layout, p) == i;
    }
  }

  /** Distinct entries have disjoint ranges, so writing one never touches another. */
  lemma LocateDisjoint(layout: seq<Entry>, sz: SlotSizes, e1: Entry, e2: Entry)
    requires e1 != e2
    requires e1 in layout && e2 in layout
    ensures Locate(layout, sz, e1).Some? && Locate(layout, sz, e2).Some?
    ensures var r1, r2 := Locate(layout, sz, e1).value, Locate(layout, sz, e2).value;
      r1.start + r1.len <= r2.start || r2.start + r2.len <= r1.start
  {
    var i, j := IndexOf(layout, e1).value, IndexOf(layout, e2).value;
    if i < j {
      RangesOrdered(sz, layout, i, j);
    } else {
      RangesOrdered(sz, layout, j, i);
    }
  }
}
