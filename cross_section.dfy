/** The position argument of `plot_accross` (dataproc/core/misc_graph.py:168-176):
    a scalar `pos` is expanded to one entry per data axis, a list must already
    have one, `None` entries become full slices, and indexing the data with the
    result keeps exactly the free axes. Modelled on shapes, not on the data. */
module CrossSection {
  import opened Outcome

  /** One entry of the index tuple: a full slice `slice(None, None)` or a fixed integer. */
  datatype Index = Full | At(i: int)

  /** `pos` as the caller gives it: a scalar (possibly None), or a list/tuple of entries. */
  datatype PosArg = Scalar(p: Option<int>) | Listed(entries: seq<Option<int>>)

  /** `[0]*n`; Python repeats a list zero times for any n <= 0. */
  function Zeros(n: int): (z: seq<Option<int>>)
    ensures |z| == if n < 0 then 0 else n
    ensures forall k :: 0 <= k < |z| ==> z[k] == Some(0)
  {
    if n <= 0 then [] else Zeros(n - 1) + [Some(0)]
  }

  /** Line 169: `[None] + [0]*(ndim-2) + [pos]` for a scalar, the list itself otherwise. */
  function Expand(pos: PosArg, ndim: nat): seq<Option<int>>
  {
    match pos
    case Scalar(p) => [None] + Zeros(ndim - 2) + [p]
    case Listed(e) => e
  }

  /** The Python values line 174 combines: booleans, None, integers and a slice object. */
  datatype PyValue = PyBool(b: bool) | PyNone | PyInt(n: int) | PySlice

  /** Python truthiness: False, None and 0 are falsy; a slice object is truthy. */
  predicate Truthy(v: PyValue)
  {
    match v
    case PyBool(b) => b
    case PyNone => false
    case PyInt(n) => n != 0
    case PySlice => true
  }

  /** `a and b`: `a` when it is falsy, `b` otherwise. */
  function PyAnd(a: PyValue, b: PyValue): PyValue
  {
    if Truthy(a) then b else a
  }

  /** `a or b`: `a` when it is truthy, `b` otherwise. */
  function PyOr(a: PyValue, b: PyValue): PyValue
  {
    if Truthy(a) then a else b
  }

  /** An entry of `pos` as a Python value. */
  function FromEntry(p: Option<int>): PyValue
  {
    if p.None? then PyNone else PyInt(p.value)
  }

  /** Line 174: `p is None and slice(None, None) or p`, evaluated with Python
      truthiness. The slice object is truthy, so None becomes a full slice;
      for any other entry the `and` yields False and the `or` yields the entry
      itself, so a falsy 0 is kept as well. */
  function AsIndex(p: Option<int>): (x: Index)
    ensures x.Full? <==> p.None?
    ensures p.Some? ==> x == At(p.value)
  {
    match PyOr(PyAnd(PyBool(p.None?), PySlice), FromEntry(p))
    case PySlice => Full
    case PyInt(n) => At(n)
    case _ => assert false; Full
  }

  /** Lines 168-174: the index tuple used on data with `ndim` axes, or the
      TypeError raised when the expanded `pos` has the wrong length. */
  function NormalisePos(pos: PosArg, ndim: nat): (r: Result<seq<Index>>)
    ensures pos.Scalar? ==> (r.Ok? <==> ndim >= 2)
    ensures pos.Listed? ==> (r.Ok? <==> |pos.entries| == ndim)
    ensures r.Err? && pos.Scalar? ==> r.error == DimensionMismatch(2, ndim)
    ensures r.Err? && pos.Listed? ==> r.error == DimensionMismatch(|pos.entries|, ndim)
    ensures r.Ok? ==> |r.value| == ndim
    ensures r.Ok? && pos.Listed? ==>
      forall k :: 0 <= k < ndim ==>
        (r.value[k] == Full <==> pos.entries[k].None?) &&
        (pos.entries[k].Some? ==> r.value[k] == At(pos.entries[k].value))
    ensures r.Ok? && pos.Scalar? ==>
      r.value[0] == Full && r.value[ndim - 1] == AsIndex(pos.p) &&
      forall k :: 0 < k < ndim - 1 ==> r.value[k] == At(0)
  {
    var e := Expand(pos, ndim);
    if |e| != ndim then Err(DimensionMismatch(|e|, ndim))
    else Ok(seq(|e|, k requires 0 <= k < |e| => AsIndex(e[k])))
  }

  /** numpy accepts an integer index i on an axis of size n when -n <= i < n. */
  predicate InRange(i: int, n: nat)
  {
    -(n as int) <= i < n
  }

  /** Every fixed entry lies within its axis. */
  predicate AllInRange(shape: seq<nat>, idx: seq<Index>)
    requires |idx| == |shape|
  {
    forall k :: 0 <= k < |idx| && idx[k].At? ==> InRange(idx[k].i, shape[k])
  }

  /** The sizes of the axes left free by `idx`, in order. */
  function FreeSizes(shape: seq<nat>, idx: seq<Index>): seq<nat>
    requires |idx| == |shape|
  {
    if |shape| == 0 then []
    else if idx[0].Full? then [shape[0]] + FreeSizes(shape[1..], idx[1..])
    else FreeSizes(shape[1..], idx[1..])
  }

  /** Number of free entries in `idx`. */
  function CountFree(idx: seq<Index>): nat
  {
    if |idx| == 0 then 0 else (if idx[0].Full? then 1 else 0) + CountFree(idx[1..])
  }

  /** The shape of `data[idx]` for the axes from `axis` on: integer entries
      drop their axis after a bounds check (the first failing axis is
      reported), full slices keep it. */
  function SliceShapeFrom(shape: seq<nat>, idx: seq<Index>, axis: nat): (r: Result<seq<nat>>)
    requires |idx| == |shape|
    ensures r.Ok? <==> AllInRange(shape, idx)
    ensures r.Ok? ==> r.value == FreeSizes(shape, idx)
    ensures r.Err? ==>
      r.error.IndexOutOfRange? && axis <= r.error.axis < axis + |shape| &&
      var k := r.error.axis - axis;
      idx[k] == At(r.error.index) && r.error.size == shape[k] &&
      !InRange(r.error.index, shape[k]) &&
      forall j :: 0 <= j < k && idx[j].At? ==> InRange(idx[j].i, shape[j])
    decreases |shape|
  {
    if |shape| == 0 then Ok([])
    else
      match idx[0]
      case Full =>
        (match SliceShapeFrom(shape[1..], idx[1..], axis + 1)
         case Ok(rest) => Ok([shape[0]] + rest)
         case Err(e) => Err(e))
      case At(i) =>
        if InRange(i, shape[0]) then SliceShapeFrom(shape[1..], idx[1..], axis + 1)
        else Err(IndexOutOfRange(axis, i, shape[0]))
  }

  /** Line 176: the shape of `accross = data[pos]`. */
  function SliceShape(shape: seq<nat>, idx: seq<Index>): (r: Result<seq<nat>>)
    requires |idx| == |shape|
    ensures r.Ok? <==> AllInRange(shape, idx)
    ensures r.Ok? ==> r.value == FreeSizes(shape, idx) && |r.value| == CountFree(idx)
  {
    FreeSizesLength(shape, idx);
    SliceShapeFrom(shape, idx, 0)
  }

  /** Indexing keeps one axis per free entry. */
  lemma {:induction false} FreeSizesLength(shape: seq<nat>, idx: seq<Index>)
    requires |idx| == |shape|
    ensures |FreeSizes(shape, idx)| == CountFree(idx)
  {
    if |shape| > 0 {
      FreeSizesLength(shape[1..], idx[1..]);
    }
  }

  /** With no free entry, nothing of the shape is kept. */
  lemma {:induction false} FreeSizesAllFixed(shape: seq<nat>, idx: seq<Index>)
    requires |idx| == |shape|
    requires forall k :: 0 <= k < |idx| ==> idx[k].At?
    ensures FreeSizes(shape, idx) == []
  {
    if |shape| > 0 {
      FreeSizesAllFixed(shape[1..], idx[1..]);
    }
  }

  /** With every entry free, the whole shape is kept. */
  lemma {:induction false} FreeSizesAllFree(shape: seq<nat>, idx: seq<Index>)
    requires |idx| == |shape|
    requires forall k :: 0 <= k < |idx| ==> idx[k].Full?
    ensures FreeSizes(shape, idx) == shape
  {
    if |shape| > 0 {
      FreeSizesAllFree(shape[1..], idx[1..]);
    }
  }

  /** A scalar `pos` on data with at least two axes cuts along the first
      axis: the slice is one-dimensional, as long as the first axis, provided
      the middle axes are not empty and `pos` lies within the last axis. */
  lemma ScalarPosCutsFirstAxis(shape: seq<nat>, p: int)
    requires |shape| >= 2
    requires forall k :: 0 < k < |shape| - 1 ==> shape[k] > 0
    requires InRange(p, shape[|shape| - 1])
    ensures NormalisePos(Scalar(Some(p)), |shape|).Ok?
    ensures SliceShape(shape, NormalisePos(Scalar(Some(p)), |shape|).value) == Ok([shape[0]])
  {
    var idx := NormalisePos(Scalar(Some(p)), |shape|).value;
    assert AllInRange(shape, idx);
    var r := SliceShape(shape, idx);
    assert r.Ok?;
    assert r.value == FreeSizes(shape, idx);
    FreeSizesAllFixed(shape[1..], idx[1..]);
    assert FreeSizes(shape, idx) == [shape[0]] + FreeSizes(shape[1..], idx[1..]);
    assert FreeSizes(shape, idx) == [shape[0]];
    assert r == Ok([shape[0]]);
  }

  /** A list `pos` of the wrong length is refused whatever its entries. */
  lemma ListedLengthDecides(entries: seq<Option<int>>, ndim: nat)
    ensures NormalisePos(Listed(entries), ndim).Err? <==> |entries| != ndim
  {
  }

  /** One-dimensional data never accepts a scalar `pos`: the expansion has two entries. */
  lemma ScalarRefusedOnOneAxis(p: Option<int>)
    ensures NormalisePos(Scalar(p), 1) == Err(DimensionMismatch(2, 1))
  {
  }
}
