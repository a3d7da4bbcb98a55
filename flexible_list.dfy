/** FlexibleList and HalfIndexList (datatypes.py:26-85): a list whose indices start
    at an arbitrary, possibly fractional, offset. Every index-taking operation first
    converts the logical index into a physical one and then hands it to the backing
    Python list; `index` reports physical positions shifted by one half. */
module FlexibleLists {
  import opened Results
  import opened PyList

  /** How far above an integer a converted index may lie and still be snapped to it. */
  const TOLERANCE: real := 0.05

  /** The start offset of every HalfIndexList. */
  const HALF: real := 0.5

  /** What `index` adds to a physical position, whatever the list's start. */
  const INDEX_SHIFT: real := 0.5

  /** The logical index `pop` uses when none is given. */
  const DEFAULT_POP: real := -0.5

  /** The fractional part of `x`: never negative, so the lower half of the
      converter's tolerance test always holds. */
  function Trailing(x: real): (t: real)
    ensures 0.0 <= t < 1.0
    ensures t == 0.0 <==> x == x.Floor as real
  {
    x - x.Floor as real
  }

  /** `_convert_index`: subtract the start; snap to the integer below when the
      fractional part is under the tolerance, and otherwise leave the number as it
      is, for the backing list to reject. */
  function ConvertIndex(index: real, start: real): (r: Subscript)
    ensures r.Phys? <==> Trailing(index - start) < TOLERANCE
    ensures r.Phys? ==> r.i == (index - start).Floor
    ensures r.Phys? ==> r.i as real <= index - start < r.i as real + TOLERANCE
    ensures r.OffGrid? ==> r.x == index - start && r.x != r.x.Floor as real
  {
    var x := index - start;
    var trailing := Trailing(x);
    if -TOLERANCE < trailing < TOLERANCE then Phys(x.Floor) else OffGrid(x)
  }

  /** What `_convert` is given: a single index, or a slice whose bounds are each
      optional and whose step is passed through. */
  datatype Key = Item(index: real) | Span(lo: Option<real>, hi: Option<real>, step: Option<int>)

  /** What `_convert` returns: a converted index or a slice of converted bounds. */
  datatype Converted = ItemAt(sub: Subscript) | SpanOf(lo: Option<Subscript>, hi: Option<Subscript>, step: Option<int>)

  function ConvertBound(b: Option<real>, start: real): Option<Subscript> {
    match b
    case None => None
    case Some(x) => Some(ConvertIndex(x, start))
  }

  /** `_convert`: a single index is converted; a slice has its start and stop
      converted independently, while absent bounds and the step pass through. */
  function Convert(key: Key, start: real): (r: Converted)
    ensures r.ItemAt? <==> key.Item?
    ensures key.Item? ==> r.sub == ConvertIndex(key.index, start)
    ensures key.Span? ==> r.step == key.step
    ensures key.Span? ==> (r.lo.None? <==> key.lo.None?) && (r.hi.None? <==> key.hi.None?)
    ensures key.Span? && key.lo.Some? ==> r.lo.value == ConvertIndex(key.lo.value, start)
    ensures key.Span? && key.hi.Some? ==> r.hi.value == ConvertIndex(key.hi.value, start)
  {
    match key
    case Item(i) => ItemAt(ConvertIndex(i, start))
    case Span(lo, hi, step) => SpanOf(ConvertBound(lo, start), ConvertBound(hi, start), step)
  }

  /** The start a new list gets: an explicit start wins; otherwise one half when
      the source is a HalfIndexList, and zero for anything else. */
  function InitialStart(start: Option<real>, fromHalfIndexList: bool): (s: real)
    ensures start.Some? ==> s == start.value
    ensures start.None? ==> (s == HALF <==> fromHalfIndexList)
    ensures start.None? ==> (s == 0.0 <==> !fromHalfIndexList)
  {
    match start
    case Some(x) => x
    case None => if fromHalfIndexList then HALF else 0.0
  }

  /** The iterable a list is built from: plain items, or another flexible list,
      whose class decides the default start. */
  datatype Source<T(==)> = Items(items: seq<T>) | Copy(list: FlexibleList<T>)

  class FlexibleList<T(==)> {
    /** The backing Python list, in physical order. */
    var data: seq<T>
    /** The logical index of the first element; fixed at construction. */
    const start: real
    /** Whether the object is a HalfIndexList rather than a plain FlexibleList. */
    const isHalfIndexList: bool

    /** `FlexibleList(iterable, start=None)` */
    constructor (source: Source<T>, start: Option<real>)
      ensures source.Items? ==> data == source.items
      ensures source.Copy? ==> data == source.list.data
      ensures this.start == InitialStart(start, source.Copy? && source.list.isHalfIndexList)
      ensures !isHalfIndexList
    {
      this.start := InitialStart(start, source.Copy? && source.list.isHalfIndexList);
      isHalfIndexList := false;
      data := if source.Copy? then source.list.data else source.items;
    }

    /** `HalfIndexList(iterable)`: always starts at one half. */
    constructor Half(source: Source<T>)
      ensures source.Items? ==> data == source.items
      ensures source.Copy? ==> data == source.list.data
      ensures start == HALF
      ensures isHalfIndexList
    {
      start := InitialStart(Some(HALF), source.Copy? && source.list.isHalfIndexList);
      isHalfIndexList := true;
      data := if source.Copy? then source.list.data else source.items;
    }

    /** `self[key]` for a single index. */
    function Get(key: real): (r: Result<T>)
      reads this
      ensures r == GetAt(data, ConvertIndex(key, start))
    {
      GetAt(data, Convert(Item(key), start).sub)
    }

    /** `self[lo:hi]`: the items of the contiguous slice between the converted bounds. */
    function GetRange(lo: Option<real>, hi: Option<real>): (r: Result<seq<T>>)
      reads this
      ensures r == GetSlice(data, ConvertBound(lo, start), ConvertBound(hi, start))
    {
      var c := Convert(Span(lo, hi, None), start);
      GetSlice(data, c.lo, c.hi)
    }

    /** `self[key] = value` for a single index. */
    method Set(key: real, value: T) returns (r: Outcome)
      modifies this
      ensures match SetAt(old(data), ConvertIndex(key, start), value)
              case Ok(s) => r == Done && data == s
              case Err(e) => r == Raised(e) && data == old(data)
    {
      match SetAt(data, Convert(Item(key), start).sub, value)
      case Ok(s) =>
        data := s;
        r := Done;
      case Err(e) =>
        r := Raised(e);
    }

    /** `self[lo:hi] = items` */
    method SetRange(lo: Option<real>, hi: Option<real>, items: seq<T>) returns (r: Outcome)
      modifies this
      ensures match SetSlice(old(data), ConvertBound(lo, start), ConvertBound(hi, start), items)
              case Ok(s) => r == Done && data == s
              case Err(e) => r == Raised(e) && data == old(data)
    {
      var c := Convert(Span(lo, hi, None), start);
      match SetSlice(data, c.lo, c.hi, items)
      case Ok(s) =>
        data := s;
        r := Done;
      case Err(e) =>
        r := Raised(e);
    }

    /** `del self[key]` for a single index. */
    method Delete(key: real) returns (r: Outcome)
      modifies this
      ensures match DeleteAt(old(data), ConvertIndex(key, start))
              case Ok(s) => r == Done && data == s
              case Err(e) => r == Raised(e) && data == old(data)
    {
      match DeleteAt(data, Convert(Item(key), start).sub)
      case Ok(s) =>
        data := s;
        r := Done;
      case Err(e) =>
        r := Raised(e);
    }

    /** `del self[lo:hi]` */
    method DeleteRange(lo: Option<real>, hi: Option<real>) returns (r: Outcome)
      modifies this
      ensures match DeleteSlice(old(data), ConvertBound(lo, start), ConvertBound(hi, start))
              case Ok(s) => r == Done && data == s
              case Err(e) => r == Raised(e) && data == old(data)
    {
      var c := Convert(Span(lo, hi, None), start);
      match DeleteSlice(data, c.lo, c.hi)
      case Ok(s) =>
        data := s;
        r := Done;
      case Err(e) =>
        r := Raised(e);
    }

    /** `insert(i, item)` */
    method Insert(i: real, item: T) returns (r: Outcome)
      modifies this
      ensures match InsertAt(old(data), ConvertIndex(i, start), item)
              case Ok(s) => r == Done && data == s
              case Err(e) => r == Raised(e) && data == old(data)
    {
      match InsertAt(data, Convert(Item(i), start).sub, item)
      case Ok(s) =>
        data := s;
        r := Done;
      case Err(e) =>
        r := Raised(e);
    }

    /** `pop(i)`: removes and returns the element at the converted index. */
    method Pop(i: real) returns (r: Result<T>)
      modifies this
      ensures match PopAt(old(data), ConvertIndex(i, start))
              case Ok((v, s)) => r == Ok(v) && data == s
              case Err(e) => r == Err(e) && data == old(data)
    {
      match PopAt(data, Convert(Item(i), start).sub)
      case Ok((v, s)) =>
        data := s;
        r := Ok(v);
      case Err(e) =>
        r := Err(e);
    }

    /** `pop()`: the default index is the constant -0.5, whatever the start. It
        names the last element exactly on a list starting in (0.45, 0.5], a
        HalfIndexList in particular; on a list starting at zero it stays off the
        grid and is rejected; other starts pop wherever -0.5 converts to. */
    method PopLast() returns (r: Result<T>)
      modifies this
      ensures match PopAt(old(data), ConvertIndex(DEFAULT_POP, start))
              case Ok((v, s)) => r == Ok(v) && data == s
              case Err(e) => r == Err(e) && data == old(data)
      ensures 0.45 < start <= HALF && old(data) != [] ==>
        r == Ok(old(data)[|old(data)| - 1]) && data == old(data)[..|old(data)| - 1]
      ensures 0.45 < start <= HALF && old(data) == [] ==> r == Err(OutOfRange) && data == old(data)
      ensures start == 0.0 ==> r == Err(NotAnInteger) && data == old(data)
    {
      ConvertHalfStep(start, -1);
      r := Pop(DEFAULT_POP);
    }

    /** `index(item, *args)`: the first physical position of `item` between the
        optional, unconverted bounds, plus one half, whatever the start. */
    function Index(item: T, lo: Option<int>, hi: Option<int>): (r: Result<real>)
      reads this
      ensures lo.None? && hi.None? ==> (r.Ok? <==> item in data)
      ensures r.Err? ==> r.error == NotInList
      ensures r.Ok? ==> exists p :: 0 <= p < |data| && data[p] == item && r.value == p as real + INDEX_SHIFT
      ensures r.Ok? && lo.None? ==> forall p :: 0 <= p < |data| && data[p] == item ==> r.value <= p as real + INDEX_SHIFT
      ensures r.Ok? <==> IndexOf(data, item, lo, hi).Ok?
      ensures r.Ok? ==> r.value == IndexOf(data, item, lo, hi).value as real + INDEX_SHIFT
    {
      match IndexOf(data, item, lo, hi)
      case Ok(p) => Ok(p as real + INDEX_SHIFT)
      case Err(e) => Err(e)
    }
  }

  /** An index exactly `n` steps past the start converts to physical `n`. */
  lemma ConvertOnGrid(start: real, n: int)
    ensures ConvertIndex(start + n as real, start) == Phys(n)
  {
  }

  /** Up to (not including) the tolerance above a grid point still converts to it. */
  lemma ConvertSnapsFromAbove(start: real, n: int, e: real)
    requires 0.0 <= e < TOLERANCE
    ensures ConvertIndex(start + n as real + e, start) == Phys(n)
  {
    var x := start + n as real + e - start;
    assert x == n as real + e;
    assert x.Floor == n;
  }

  /** Any amount below a grid point leaves the index off the grid: the tolerance is
      one-sided, since the fractional part of a number is never negative. */
  lemma ConvertRejectsFromBelow(start: real, n: int, e: real)
    requires 0.0 < e <= 1.0 - TOLERANCE
    ensures ConvertIndex(start + n as real - e, start) == OffGrid(n as real - e)
  {
    var x := start + n as real - e - start;
    assert x == (n - 1) as real + (1.0 - e);
    assert x.Floor == n - 1;
  }

  /** A half-step index `p + 0.5` reaches physical `p` exactly when the start lies
      in (0.45, 0.5]: true of every HalfIndexList, false of a list starting at zero. */
  lemma ConvertHalfStep(start: real, p: int)
    ensures ConvertIndex(p as real + INDEX_SHIFT, start) == Phys(p) <==> 0.45 < start <= HALF
  {
    var x := p as real + INDEX_SHIFT - start;
    if 0.45 < start <= HALF {
      assert p as real <= x < p as real + TOLERANCE;
      assert x.Floor == p;
    }
  }

  /** The element `k` places past the start is read at logical index `start + k`. */
  lemma GetAtLogical<T>(l: FlexibleList<T>, k: int)
    requires 0 <= k < |l.data|
    ensures l.Get(l.start + k as real) == Ok(l.data[k])
  {
    ConvertOnGrid(l.start, k);
  }

  /** Logical indices below the start count from the end, as negative Python indices do. */
  lemma GetFromEnd<T>(l: FlexibleList<T>, k: int)
    requires 1 <= k <= |l.data|
    ensures l.Get(l.start - k as real) == Ok(l.data[|l.data| - k])
  {
    ConvertOnGrid(l.start, -k);
  }

  /** On a list starting in (0.45, 0.5], a HalfIndexList in particular, reading at
      the index `index` reports gives the item back. */
  lemma IndexThenGet<T>(l: FlexibleList<T>, item: T)
    requires 0.45 < l.start <= HALF
    requires item in l.data
    ensures l.Index(item, None, None).Ok?
    ensures l.Get(l.Index(item, None, None).value) == Ok(item)
  {
    var p := IndexOf(l.data, item, None, None).value;
    ConvertHalfStep(l.start, p);
  }

  /** On a list starting in (-0.5, 0.45], one starting at zero in particular, the
      index `index` reports is off the grid and reading there raises a TypeError. */
  lemma IndexThenGetOffGrid<T>(l: FlexibleList<T>, item: T)
    requires -0.5 < l.start <= 0.45
    requires item in l.data
    ensures l.Index(item, None, None).Ok?
    ensures l.Get(l.Index(item, None, None).value) == Err(NotAnInteger)
  {
    var p := IndexOf(l.data, item, None, None).value;
    var x := p as real + INDEX_SHIFT - l.start;
    assert x == p as real + (HALF - l.start);
    assert x.Floor == p;
  }

  /** Inserting at a logical index and popping the same logical index gives the
      item back and restores the list. */
  lemma InsertThenPopLogical<T>(data: seq<T>, start: real, k: int, item: T)
    requires 0 <= k <= |data|
    ensures InsertAt(data, ConvertIndex(start + k as real, start), item).Ok?
    ensures var t := InsertAt(data, ConvertIndex(start + k as real, start), item).value;
      PopAt(t, ConvertIndex(start + k as real, start)) == Ok((item, data))
  {
    ConvertOnGrid(start, k);
    InsertThenPop(data, k, item);
  }
}
