/** The behaviour of Python's built-in list that the containers delegate to once an
    index has been converted: subscription, assignment, deletion, insert, pop,
    index and contiguous slicing, over an immutable `seq`. */
module PyList {
  import opened Results

  /** What reaches the backing list as a subscript: an integer, or a number with a
      fractional part, which every list operation rejects with a TypeError. */
  datatype Subscript = Phys(i: int) | OffGrid(x: real)

  /** An integer subscript is accepted when it is within the list counted from
      either end. */
  predicate InRange(i: int, n: int) {
    -n <= i < n
  }

  /** The position an in-range subscript denotes: negative ones count from the end. */
  function Wrap(i: int, n: int): (k: nat)
    requires InRange(i, n)
    ensures k < n && (k == i || k == i + n)
  {
    if i < 0 then i + n else i
  }

  /** The position a slice bound, list.insert or list.index argument denotes:
      negative ones count from the end, and anything outside the list is moved to
      its nearer end. */
  function Clamp(b: int, n: nat): (c: nat)
    ensures c <= n
    ensures 0 <= b <= n ==> c == b
    ensures -(n as int) <= b < 0 ==> c == b + n
    ensures b + n < 0 ==> c == 0
    ensures n < b ==> c == n
  {
    if b < 0 then (if b + n < 0 then 0 else b + n) else if b > n then n else b
  }

  /** `s[k]` */
  function GetAt<T>(s: seq<T>, k: Subscript): (r: Result<T>)
    ensures r.Ok? <==> k.Phys? && InRange(k.i, |s|)
    ensures r.Ok? ==> r.value == s[Wrap(k.i, |s|)]
    ensures r.Err? ==> r.error == if k.OffGrid? then NotAnInteger else OutOfRange
  {
    match k
    case OffGrid(_) => Err(NotAnInteger)
    case Phys(i) => if InRange(i, |s|) then Ok(s[Wrap(i, |s|)]) else Err(OutOfRange)
  }

  /** `s[k] = v`, giving the new list. */
  function SetAt<T>(s: seq<T>, k: Subscript, v: T): (r: Result<seq<T>>)
    ensures r.Ok? <==> k.Phys? && InRange(k.i, |s|)
    ensures r.Ok? ==> |r.value| == |s| && r.value[Wrap(k.i, |s|)] == v
    ensures r.Ok? ==> forall j :: 0 <= j < |s| && j != Wrap(k.i, |s|) ==> r.value[j] == s[j]
    ensures r.Err? ==> r.error == if k.OffGrid? then NotAnInteger else OutOfRange
  {
    match k
    case OffGrid(_) => Err(NotAnInteger)
    case Phys(i) => if InRange(i, |s|) then Ok(s[Wrap(i, |s|) := v]) else Err(OutOfRange)
  }

  /** `del s[k]`, giving the new list. */
  function DeleteAt<T>(s: seq<T>, k: Subscript): (r: Result<seq<T>>)
    ensures r.Ok? <==> k.Phys? && InRange(k.i, |s|)
    ensures r.Ok? ==> |r.value| == |s| - 1
    ensures r.Ok? ==> var w := Wrap(k.i, |s|); r.value[..w] == s[..w] && r.value[w..] == s[w + 1..]
    ensures r.Err? ==> r.error == if k.OffGrid? then NotAnInteger else OutOfRange
  {
    match k
    case OffGrid(_) => Err(NotAnInteger)
    case Phys(i) =>
      if InRange(i, |s|) then
        var w := Wrap(i, |s|);
        Ok(s[..w] + s[w + 1..])
      else Err(OutOfRange)
  }

  /** `s.insert(k, v)`, giving the new list: never out of range, since the position is clamped. */
  function InsertAt<T>(s: seq<T>, k: Subscript, v: T): (r: Result<seq<T>>)
    ensures r.Ok? <==> k.Phys?
    ensures r.Ok? ==> var p := Clamp(k.i, |s|);
      |r.value| == |s| + 1 && r.value[p] == v && r.value[..p] == s[..p] && r.value[p + 1..] == s[p..]
    ensures r.Err? ==> r.error == NotAnInteger
  {
    match k
    case OffGrid(_) => Err(NotAnInteger)
    case Phys(i) =>
      var p := Clamp(i, |s|);
      Ok(s[..p] + [v] + s[p..])
  }

  /** `s.pop(k)`: the removed element and the new list. */
  function PopAt<T>(s: seq<T>, k: Subscript): (r: Result<(T, seq<T>)>)
    ensures r.Ok? <==> k.Phys? && InRange(k.i, |s|)
    ensures r.Ok? ==> var w := Wrap(k.i, |s|);
      r.value.0 == s[w] && r.value.1 == s[..w] + s[w + 1..]
    ensures r.Err? ==> r.error == if k.OffGrid? then NotAnInteger else OutOfRange
  {
    match k
    case OffGrid(_) => Err(NotAnInteger)
    case Phys(i) =>
      if |s| == 0 then Err(OutOfRange)   // "pop from empty list"
      else if InRange(i, |s|) then
        var w := Wrap(i, |s|);
        Ok((s[w], s[..w] + s[w + 1..]))
      else Err(OutOfRange)               // "pop index out of range"
  }

  /** The first position in `[lo, hi)` holding `v`, if any. */
  function FirstFrom<T(==)>(s: seq<T>, v: T, lo: nat, hi: nat): (r: Option<nat>)
    requires hi <= |s|
    ensures r.Some? ==> lo <= r.value < hi && s[r.value] == v
    ensures r.Some? ==> forall j :: lo <= j < r.value ==> s[j] != v
    ensures r.None? ==> forall j :: lo <= j < hi ==> s[j] != v
    decreases hi - lo
  {
    if lo >= hi then None
    else if s[lo] == v then Some(lo)
    else FirstFrom(s, v, lo + 1, hi)
  }

  /** `s.index(v, lo, hi)`, each bound optional: the first physical position of `v`
      between the clamped bounds, or a ValueError. */
  function IndexOf<T(==)>(s: seq<T>, v: T, lo: Option<int>, hi: Option<int>): (r: Result<nat>)
    ensures r.Ok? ==> r.value < |s| && s[r.value] == v
    ensures r.Ok? ==> forall j :: LowBound(lo, |s|) <= j < r.value ==> s[j] != v
    ensures r.Ok? ==> LowBound(lo, |s|) <= r.value < HighBound(hi, |s|)
    ensures r.Err? ==> r.error == NotInList
    ensures r.Err? ==> forall j :: LowBound(lo, |s|) <= j < HighBound(hi, |s|) ==> s[j] != v
  {
    match FirstFrom(s, v, LowBound(lo, |s|), HighBound(hi, |s|))
    case Some(p) => Ok(p)
    case None => Err(NotInList)
  }

  /** Where list.index starts searching: 0 unless given. */
  function LowBound(lo: Option<int>, n: nat): nat {
    match lo
    case None => 0
    case Some(b) => Clamp(b, n)
  }

  /** Where list.index stops searching: the end unless given. */
  function HighBound(hi: Option<int>, n: nat): (b: nat)
    ensures b <= n
  {
    match hi
    case None => n
    case Some(b) => Clamp(b, n)
  }

  /** One bound of a contiguous slice: its default when absent, a TypeError when
      not an integer, and otherwise clamped into the list. */
  function SliceBound(b: Option<Subscript>, default: nat, n: nat): (r: Result<nat>)
    requires default <= n
    ensures r.Ok? <==> b.None? || b.value.Phys?
    ensures r.Ok? ==> r.value <= n
    ensures b.None? ==> r == Ok(default)
    ensures r.Err? ==> r.error == NotAnInteger
  {
    match b
    case None => Ok(default)
    case Some(OffGrid(_)) => Err(NotAnInteger)
    case Some(Phys(i)) => Ok(Clamp(i, n))
  }

  /** The clamped `[a, b)` range a contiguous slice `s[lo:hi]` covers; `b` is never below `a`. */
  function SliceRange(lo: Option<Subscript>, hi: Option<Subscript>, n: nat): (r: Result<(nat, nat)>)
    ensures r.Ok? <==> SliceBound(lo, 0, n).Ok? && SliceBound(hi, n, n).Ok?
    ensures r.Ok? ==> r.value.0 <= r.value.1 <= n
    ensures r.Ok? ==> r.value.0 == SliceBound(lo, 0, n).value
    ensures r.Ok? ==> r.value.1 == Max(SliceBound(lo, 0, n).value, SliceBound(hi, n, n).value)
    ensures r.Err? ==> r.error == NotAnInteger
  {
    match SliceBound(lo, 0, n)
    case Err(e) => Err(e)
    case Ok(a) =>
      match SliceBound(hi, n, n)
      case Err(e) => Err(e)
      case Ok(b) => Ok((a, Max(a, b)))
  }

  function Max(a: nat, b: nat): nat {
    if a < b then b else a
  }

  /** `s[lo:hi]` */
  function GetSlice<T>(s: seq<T>, lo: Option<Subscript>, hi: Option<Subscript>): (r: Result<seq<T>>)
    ensures r.Ok? <==> SliceRange(lo, hi, |s|).Ok?
    ensures r.Ok? ==> var (a, b) := SliceRange(lo, hi, |s|).value; r.value == s[a..b]
    ensures lo.None? && hi.None? ==> r == Ok(s)
    ensures r.Err? ==> r.error == NotAnInteger
  {
    match SliceRange(lo, hi, |s|)
    case Err(e) => Err(e)
    case Ok((a, b)) => assert s[0..|s|] == s; Ok(s[a..b])
  }

  /** `s[lo:hi] = items`: the covered range is replaced by `items`. */
  function SetSlice<T>(s: seq<T>, lo: Option<Subscript>, hi: Option<Subscript>, items: seq<T>): (r: Result<seq<T>>)
    ensures r.Ok? <==> SliceRange(lo, hi, |s|).Ok?
    ensures r.Ok? ==> var (a, b) := SliceRange(lo, hi, |s|).value;
      r.value == s[..a] + items + s[b..]
    ensures r.Err? ==> r.error == NotAnInteger
  {
    match SliceRange(lo, hi, |s|)
    case Err(e) => Err(e)
    case Ok((a, b)) => Ok(s[..a] + items + s[b..])
  }

  /** `del s[lo:hi]` */
  function DeleteSlice<T>(s: seq<T>, lo: Option<Subscript>, hi: Option<Subscript>): (r: Result<seq<T>>)
    ensures r.Ok? <==> SliceRange(lo, hi, |s|).Ok?
    ensures r.Ok? ==> var (a, b) := SliceRange(lo, hi, |s|).value;
      |r.value| == |s| - (b - a) && r.value == s[..a] + s[b..]
    ensures r.Err? ==> r.error == NotAnInteger
  {
    match SliceRange(lo, hi, |s|)
    case Err(e) => Err(e)
    case Ok((a, b)) => Ok(s[..a] + s[b..])
  }

  /** Inserting at a position and popping the same position gives back the item
      and the original list. */
  lemma InsertThenPop<T>(s: seq<T>, i: int, v: T)
    requires 0 <= i <= |s|
    ensures InsertAt(s, Phys(i), v).Ok?
    ensures PopAt(InsertAt(s, Phys(i), v).value, Phys(i)) == Ok((v, s))
  {
    var t := InsertAt(s, Phys(i), v).value;
    assert t == s[..i] + [v] + s[i..];
    assert t[..i] + t[i + 1..] == s;
  }

  /** Assigning at an index and reading it back gives the assigned value, and every
      other position reads as before. */
  lemma SetThenGet<T>(s: seq<T>, i: int, v: T, j: int)
    requires InRange(i, |s|) && InRange(j, |s|)
    ensures SetAt(s, Phys(i), v).Ok?
    ensures GetAt(SetAt(s, Phys(i), v).value, Phys(j))
         == if Wrap(i, |s|) == Wrap(j, |s|) then Ok(v) else GetAt(s, Phys(j))
  {
  }

  /** Deleting an index leaves the list popping that index leaves. */
  lemma DeleteIsPopWithoutResult<T>(s: seq<T>, k: Subscript)
    ensures DeleteAt(s, k).Ok? <==> PopAt(s, k).Ok?
    ensures DeleteAt(s, k).Ok? ==> DeleteAt(s, k).value == PopAt(s, k).value.1
  {
  }

  /** Writing a slice and reading the same range back gives the written items. */
  lemma SetSliceThenGet<T>(s: seq<T>, a: nat, b: nat, items: seq<T>)
    requires a <= b <= |s|
    ensures SetSlice(s, Some(Phys(a)), Some(Phys(b)), items).Ok?
    ensures var t := SetSlice(s, Some(Phys(a)), Some(Phys(b)), items).value;
      GetSlice(t, Some(Phys(a)), Some(Phys(a + |items|))) == Ok(items)
  {
    var t := s[..a] + items + s[b..];
    assert SliceRange(Some(Phys(a)), Some(Phys(b)), |s|) == Ok((a, b));
    assert SetSlice(s, Some(Phys(a)), Some(Phys(b)), items).value == t;
    assert SliceRange(Some(Phys(a)), Some(Phys(a + |items|)), |t|) == Ok((a, a + |items|));
    assert t[a..a + |items|] == items;
  }
}
