/**
  Buffers laid out by a layout.

  `Paint` fills each entry's range, in order, with the entry's tag: the way
  `fill_w_tensor` builds its buffer.

  `SetLayerSlot` / `GetLayerSlot` stand for the library's
  `miopenSetRNNLayerParam`/`miopenSetRNNLayerBias` and
  `miopenGetRNNLayerParam`/`miopenGetRNNLayerBias`: they copy an entry's
  elements into or out of the entry's range of the flat buffer, under the
  layout the library uses. The library's code is not part of this model:
  an entry is found by its position in `layout`, and an accessor fails with
  SlotNotFound, BufferTooSmall or SizeMismatch, checked in that order.
 */
module Buffer {
  import opened RnnConfig
  import opened Layout

  function Zeros(n: nat): (z: seq<int>)
    ensures |z| == n && forall q :: 0 <= q < n ==> z[q] == 0
  {
    seq(n, q => 0)
  }

  /** `buf` with positions `start .. start + len - 1` (those inside `buf`) set to `v`. */
  function FillRange(buf: seq<int>, start: nat, len: nat, v: int): (r: seq<int>)
    ensures |r| == |buf|
  {
    seq(|buf|, q requires 0 <= q < |buf| => if start <= q < start + len then v else buf[q])
  }

  /** Paint each entry's range with its tag, in order, starting at offset 0. */
  function Paint(sz: SlotSizes, buf: seq<int>, es: seq<Entry>): (r: seq<int>)
    ensures |r| == |buf|
    decreases |es|
  {
    if es == [] then buf
    else
      var init := es[..|es| - 1];
      var last := es[|es| - 1];
      FillRange(Paint(sz, buf, init), Total(sz, init), Size(sz, last), Tag(last.slot))
  }

  lemma PaintSnoc(sz: SlotSizes, buf: seq<int>, es: seq<Entry>, e: Entry)
    ensures Paint(sz, buf, es + [e]) == FillRange(Paint(sz, buf, es), Total(sz, es), Size(sz, e), Tag(e.slot))
  {
    assert (es + [e])[..|es|] == es;
  }

  /**
    After painting, a position inside the layout holds the tag of the entry
    that owns it; a position past the layout keeps its old value.
   */
  lemma {:induction false} PaintAt(sz: SlotSizes, buf: seq<int>, es: seq<Entry>, p: nat)
    requires p < |buf|
    ensures Paint(sz, buf, es)[p] ==
      if p < Total(sz, es) then Tag(es[Owner(sz, es, p)].slot) else buf[p]
    decreases |es|
  {
    if es != [] {
      var init := es[..|es| - 1];
      PaintAt(sz, buf, init, p);
      if p < Total(sz, init) {
        assert es[Owner(sz, es, p)] == init[Owner(sz, init, p)];
      }
    }
  }

  /** A buffer of `n` elements holding, over each entry's range, the entry's tag, and 0 past the layout. */
  function TagBuffer(sz: SlotSizes, layout: seq<Entry>, n: nat): (r: seq<int>)
    ensures |r| == n
  {
    Paint(sz, Zeros(n), layout)
  }

  // ----- slot accessors -----

  datatype Error = SlotNotFound | BufferTooSmall | SizeMismatch

  datatype Result<T> = Ok(value: T) | Err(error: Error)

  /** Write `data` over the range of entry `e`. */
  function SetLayerSlot(buf: seq<int>, layout: seq<Entry>, sz: SlotSizes, e: Entry, data: seq<int>): (r: Result<seq<int>>)
    ensures r.Ok? ==> |r.value| == |buf|
  {
    match Locate(layout, sz, e)
    case None => Err(SlotNotFound)
    case Some(rg) =>
      if |buf| < Total(sz, layout) then Err(BufferTooSmall)
      else if |data| != rg.len then Err(SizeMismatch)
      else
        assert rg.start + rg.len <= |buf| by { LocateRange(layout, sz, e); }
        Ok(buf[..rg.start] + data + buf[rg.start + rg.len..])
  }

  /** Read the elements of the range of entry `e`. */
  function GetLayerSlot(buf: seq<int>, layout: seq<Entry>, sz: SlotSizes, e: Entry): (r: Result<seq<int>>)
  {
    match Locate(layout, sz, e)
    case None => Err(SlotNotFound)
    case Some(rg) =>
      if |buf| < Total(sz, layout) then Err(BufferTooSmall)
      else
        assert rg.start + rg.len <= |buf| by { LocateRange(layout, sz, e); }
        Ok(buf[rg.start..rg.start + rg.len])
  }

  /**
    A write succeeds exactly for an entry of the layout, a buffer that holds
    the layout and data of the entry's size; otherwise the first failing
    check names the error.
   */
  lemma SetLayerSlotSucceeds(buf: seq<int>, layout: seq<Entry>, sz: SlotSizes, e: Entry, data: seq<int>)
    ensures SetLayerSlot(buf, layout, sz, e, data).Ok? <==>
      e in layout && Total(sz, layout) <= |buf| && |data| == Size(sz, e)
    ensures SetLayerSlot(buf, layout, sz, e, data).Err? ==>
      SetLayerSlot(buf, layout, sz, e, data).error ==
        if e !in layout then SlotNotFound
        else if |buf| < Total(sz, layout) then BufferTooSmall
        else SizeMismatch
  {
    LocateRange(layout, sz, e);
  }

  /** A read succeeds exactly for an entry of the layout and a buffer that holds the layout. */
  lemma GetLayerSlotSucceeds(buf: seq<int>, layout: seq<Entry>, sz: SlotSizes, e: Entry)
    ensures GetLayerSlot(buf, layout, sz, e).Ok? <==> e in layout && Total(sz, layout) <= |buf|
    ensures GetLayerSlot(buf, layout, sz, e).Ok? ==> |GetLayerSlot(buf, layout, sz, e).value| == Size(sz, e)
    ensures GetLayerSlot(buf, layout, sz, e).Err? ==>
      GetLayerSlot(buf, layout, sz, e).error == if e !in layout then SlotNotFound else BufferTooSmall
  {
    LocateRange(layout, sz, e);
  }

  lemma SetLayerSlotValue(buf: seq<int>, layout: seq<Entry>, sz: SlotSizes, e: Entry, data: seq<int>)
    requires SetLayerSlot(buf, layout, sz, e, data).Ok?
    ensures e in layout && Locate(layout, sz, e).Some?
    ensures var rg := Locate(layout, sz, e).value;
      && Total(sz, layout) <= |buf| && rg.start + rg.len <= |buf| && |data| == rg.len
      && SetLayerSlot(buf, layout, sz, e, data).value == buf[..rg.start] + data + buf[rg.start + rg.len..]
  {
    LocateRange(layout, sz, e);
  }

  lemma GetLayerSlotValue(buf: seq<int>, layout: seq<Entry>, sz: SlotSizes, e: Entry)
    requires GetLayerSlot(buf, layout, sz, e).Ok?
    ensures e in layout && Locate(layout, sz, e).Some?
    ensures var rg := Locate(layout, sz, e).value;
      && Total(sz, layout) <= |buf| && rg.start + rg.len <= |buf|
      && GetLayerSlot(buf, layout, sz, e).value == buf[rg.start..rg.start + rg.len]
  {
    LocateRange(layout, sz, e);
  }

  /** Reading an entry just written returns exactly what was written. */
  lemma SetThenGet(buf: seq<int>, layout: seq<Entry>, sz: SlotSizes, e: Entry, data: seq<int>)
    requires SetLayerSlot(buf, layout, sz, e, data).Ok?
    ensures GetLayerSlot(SetLayerSlot(buf, layout, sz, e, data).value, layout, sz, e) == Ok(data)
  {
    SetLayerSlotValue(buf, layout, sz, e, data);
    var rg := Locate(layout, sz, e).value;
    var b' := buf[..rg.start] + data + buf[rg.start + rg.len..];
    assert b'[rg.start..rg.start + rg.len] == data;
  }

  lemma SpliceKeeps(buf: seq<int>, start: nat, data: seq<int>, end: nat, lo: nat, hi: nat)
    requires start <= end <= |buf| && lo <= hi <= |buf|
    requires hi <= start || end <= lo
    requires |data| == end - start
    ensures (buf[..start] + data + buf[end..])[lo..hi] == buf[lo..hi]
  {
    var b' := buf[..start] + data + buf[end..];
    forall q | lo <= q < hi ensures b'[q] == buf[q] {
      if q < start {
        assert b'[q] == buf[..start][q];
      } else {
        assert b'[q] == buf[end..][q - end];
      }
    }
  }

  lemma SpliceAt(buf: seq<int>, start: nat, data: seq<int>, p: nat)
    requires start + |data| <= |buf| && p < |buf|
    ensures (buf[..start] + data + buf[start + |data|..])[p] ==
      if start <= p < start + |data| then data[p - start] else buf[p]
  {
  }

  /** Writing one entry leaves what every other entry reads unchanged. */
  lemma SetIndependent(buf: seq<int>, layout: seq<Entry>, sz: SlotSizes, e: Entry, data: seq<int>, other: Entry)
    requires SetLayerSlot(buf, layout, sz, e, data).Ok?
    requires other != e
    ensures GetLayerSlot(SetLayerSlot(buf, layout, sz, e, data).value, layout, sz, other) ==
            GetLayerSlot(buf, layout, sz, other)
  {
    SetLayerSlotValue(buf, layout, sz, e, data);
    var b' := SetLayerSlot(buf, layout, sz, e, data).value;
    if other in layout {
      var rg, ro := Locate(layout, sz, e).value, Locate(layout, sz, other).value;
      LocateDisjoint(layout, sz, e, other);
      LocateRange(layout, sz, other);
      GetLayerSlotValue(buf, layout, sz, other);
      GetLayerSlotValue(b', layout, sz, other);
      SpliceKeeps(buf, rg.start, data, rg.start + rg.len, ro.start, ro.start + ro.len);
    } else {
      LocateRange(layout, sz, other);
    }
  }

  /**
    In a layout holding each entry once, a successful write changes exactly
    the positions owned by the entry, setting them to the written data;
    everything else is untouched.
   */
  lemma SetLayerSlotAt(buf: seq<int>, layout: seq<Entry>, sz: SlotSizes, e: Entry, data: seq<int>, p: nat)
    requires NoDup(layout)
    requires SetLayerSlot(buf, layout, sz, e, data).Ok?
    requires p < |buf|
    ensures var b', rg := SetLayerSlot(buf, layout, sz, e, data).value, Locate(layout, sz, e).value;
      if p < Total(sz, layout) && layout[Owner(sz, layout, p)] == e
      then rg.start <= p < rg.start + |data| && b'[p] == data[p - rg.start]
      else b'[p] == buf[p]
  {
    SetLayerSlotValue(buf, layout, sz, e, data);
    var rg := Locate(layout, sz, e).value;
    SpliceAt(buf, rg.start, data, p);
    LocateOwner(layout, sz, e, p);
  }

  /** A read returns the entry's range of the buffer, position by position. */
  lemma GetLayerSlotAt(buf: seq<int>, layout: seq<Entry>, sz: SlotSizes, e: Entry, i: nat)
    requires NoDup(layout)
    requires GetLayerSlot(buf, layout, sz, e).Ok?
    requires i < |GetLayerSlot(buf, layout, sz, e).value|
    ensures var rg := Locate(layout, sz, e).value;
      && rg.start + i < Total(sz, layout)
      && layout[Owner(sz, layout, rg.start + i)] == e
      && GetLayerSlot(buf, layout, sz, e).value[i] == buf[rg.start + i]
  {
    GetLayerSlotValue(buf, layout, sz, e);
    var rg := Locate(layout, sz, e).value;
    LocateOwner(layout, sz, e, rg.start + i);
  }
}
