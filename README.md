# Compromise containers, modelled in Dafny

This project models the containers of `datatypes.py`. Each one bends the rules of a
standard Python list or dictionary in a small, fixed way:

- **FlexibleList / HalfIndexList**: a list whose logical indices begin at a `start`
  offset. The offset may be fractional, and is always 0.5 for a HalfIndexList.
  Every index-taking operation first converts the logical index with
  `_convert_index`, which subtracts `start`. If the fractional part of the result
  is below 0.05, it snaps to the integer below; otherwise the fractional value goes
  to the backing list, which rejects it with a `TypeError`. Slices have each bound
  converted this way. `index` reports the physical position plus 0.5, whatever the
  start.
- **SemiMutableSequence**: item assignment is gated. The first proposal of an
  `(index, value)` pair records it and raises `TypeError`. A second identical
  proposal writes the value and forgets the pair.
- **RandomDict**: a read draws `randrange(8)`. Draw 0 yields `None`; any other draw
  is a plain lookup.
- **SomethingElse**: a read of the first key in insertion order yields the value of
  the second key. A read of any other key yields the value of the first. Fewer than
  two keys is a `ValueError`.

Layout:

- `results.dfy` (module `Results`): the Python exceptions as values (`Error`),
  `Result`, `Outcome` and `Option`.
- `py_list.dfy` (module `PyList`): the built-in list behaviour the containers hand
  converted indices to. This covers subscription, assignment, deletion, `insert`,
  `pop`, `index` and contiguous slices, with Python's negative-index and clamping
  rules.
- `flexible_list.dfy` (module `FlexibleLists`): the converter, and the
  `FlexibleList` class. A HalfIndexList is the same class, built by the `Half`
  constructor.
- `semi_mutable.dfy` (module `SemiMutable`): the gating as a pure transition
  `Propose`, and the `SemiMutableSequence` class whose `SetItem` is proved to follow
  it.
- `mappings.dfy` (module `Mappings`): the two dictionary reads over an
  insertion-ordered dictionary.

Three points of the code worth knowing:

- The converter's tolerance is one-sided. The code tests
  `-0.05 < index - floor(index) < 0.05`, and the lower half of that test always
  holds. So values just above an integer snap, and values just below do not
  (`ConvertRejectsFromBelow`).
- `pop`'s default index is the constant `-0.5`, whatever the start. It names the
  last element on a HalfIndexList, and is rejected as off-grid on a list starting
  at 0 (`FlexibleList.PopLast`).
- SemiMutableSequence has no proposal threshold: the second identical proposal
  always commits, and a third raises again (`NextProposalOutcome`).

## Model

| member | source | states |
|---|---|---|
| `FlexibleLists.Trailing` | datatypes.py:70-71 | the fractional part is in [0, 1), so the `-0.05 <` half of the tolerance test is always true; it is 0 exactly on integers |
| `FlexibleLists.ConvertIndex` | datatypes.py:68-74 | the result is an integer exactly when the fractional part of `index - start` is below 0.05; that integer is the floor, lying at most 0.05 below `index - start`; otherwise `index - start` is returned unchanged, and it is not an integer |
| `FlexibleLists.Convert` | datatypes.py:60-66 | a single index is converted by `ConvertIndex`; for a slice, start and stop are converted independently, absent bounds stay absent and the step passes through unchanged |
| `FlexibleLists.InitialStart` | datatypes.py:27-33 | an explicit start wins; otherwise the start is 0.5 exactly when the source is a HalfIndexList, and 0 exactly when it is not |
| `FlexibleLists.FlexibleList.constructor` | datatypes.py:27-34 | the new list holds the source's items; its start follows `InitialStart`; it is not a HalfIndexList |
| `FlexibleLists.FlexibleList.Half` | datatypes.py:80-82 | a HalfIndexList holds the source's items and always has start 0.5 |
| `FlexibleLists.FlexibleList.Get` | datatypes.py:40-42 | reading a single index is the backing list's subscription at the converted index |
| `FlexibleLists.FlexibleList.GetRange` | datatypes.py:40-42 | reading a contiguous slice is the backing list's slice between the independently converted bounds |
| `FlexibleLists.FlexibleList.Set` | datatypes.py:36-38 | on success the list becomes the backing list's assignment at the converted index; on failure it is unchanged and the error is returned |
| `FlexibleLists.FlexibleList.SetRange` | datatypes.py:36-38 | the slice between the converted bounds is replaced by the items, or the list is unchanged and the error is returned |
| `FlexibleLists.FlexibleList.Delete` | datatypes.py:44-46 | on success the element at the converted index is removed; on failure the list is unchanged |
| `FlexibleLists.FlexibleList.DeleteRange` | datatypes.py:44-46 | the slice between the converted bounds is removed, or the list is unchanged and the error is returned |
| `FlexibleLists.FlexibleList.Insert` | datatypes.py:48-50 | the item is inserted at the clamped converted position; an off-grid index raises `TypeError` and leaves the list unchanged |
| `FlexibleLists.FlexibleList.Pop` | datatypes.py:56-58 | the element at the converted index is returned and removed, the rest keeping their order; or the error is returned and the list is unchanged |
| `FlexibleLists.FlexibleList.PopLast` | datatypes.py:56-58 | pops at the default index -0.5 converted with the list's start, whatever the start (on a start-1.5 list that is the second-to-last element); on a list starting in (0.45, 0.5], a HalfIndexList in particular, the last element is returned and the list shortened by one, with the rest kept in order (an empty list raises `IndexError`); on a start-0 list, `TypeError` and no change |
| `FlexibleLists.FlexibleList.Index` | datatypes.py:52-54 | the result is the first physical position holding the item between the clamped, unconverted bounds, plus 0.5; it succeeds exactly when such a position exists; with no bounds, exactly when the item is present; absence is a `ValueError` |
| `FlexibleLists.ConvertOnGrid` | datatypes.py:68-74 | the index `start + n` converts to physical `n` |
| `FlexibleLists.ConvertSnapsFromAbove` | datatypes.py:68-74 | an index less than 0.05 above `start + n` still converts to `n` |
| `FlexibleLists.ConvertRejectsFromBelow` | datatypes.py:69-74 | an index any amount (up to 0.95) below `start + n` stays off-grid: the tolerance is one-sided |
| `FlexibleLists.ConvertHalfStep` | datatypes.py:52-74 | the half-step index `p + 0.5` converts to physical `p` if and only if the start lies in (0.45, 0.5] |
| `FlexibleLists.GetAtLogical` | datatypes.py:40-42 | on any list, the element `k` places into the list is read at logical index `start + k` |
| `FlexibleLists.GetFromEnd` | datatypes.py:40-42 | logical index `start - k` reads the `k`-th element from the end |
| `FlexibleLists.IndexThenGet` | datatypes.py:52-54 | on a list starting in (0.45, 0.5], such as a HalfIndexList, reading at the index `index` returns gives the item back |
| `FlexibleLists.IndexThenGetOffGrid` | datatypes.py:52-54 | on a list starting in (-0.5, 0.45], such as one starting at 0, reading at that index raises `TypeError` |
| `FlexibleLists.InsertThenPopLogical` | datatypes.py:48-58 | inserting at a logical index and popping the same logical index returns the item and restores the list |
| `PyList.GetAt` | datatypes.py:42 | a backing-list read succeeds exactly for an integer in `[-len, len)`, and counts negative indices from the end; a non-integer is `TypeError`, anything else `IndexError` |
| `PyList.SetAt` | datatypes.py:38 | assignment succeeds under the same condition; it changes exactly the addressed element and keeps the length |
| `PyList.DeleteAt` | datatypes.py:46 | deletion succeeds under the same condition and removes exactly the addressed element, keeping the others in order |
| `PyList.InsertAt` | datatypes.py:50 | insert fails only on a non-integer; the position is clamped into the list, and the other elements keep their order |
| `PyList.PopAt` | datatypes.py:58 | pop succeeds under the same condition as a read; it returns the addressed element and the list without it |
| `PyList.FirstFrom` | datatypes.py:53 | the search finds the first position in the range holding the value, or reports that none does |
| `PyList.IndexOf` | datatypes.py:53 | `list.index` returns the first position holding the value between the clamped bounds, or `ValueError` when there is none |
| `PyList.SliceRange` | datatypes.py:62-64 | a slice fails only on a non-integer bound; absent bounds default to the ends; the covered range is clamped and never reversed |
| `PyList.GetSlice` | datatypes.py:42 | a contiguous slice read yields the covered range; with no bounds it yields the whole list |
| `PyList.SetSlice` | datatypes.py:38 | slice assignment replaces the covered range by the items |
| `PyList.DeleteSlice` | datatypes.py:46 | slice deletion removes the covered range |
| `PyList.InsertThenPop` | datatypes.py:48-58 | on the backing list, `pop(i)` undoes `insert(i, v)` and returns `v` |
| `PyList.SetThenGet` | datatypes.py:36-42 | after assigning at an index, that index reads the new value and every other index reads as before |
| `PyList.DeleteIsPopWithoutResult` | datatypes.py:44-58 | deletion and pop accept the same indices and leave the same list |
| `PyList.SetSliceThenGet` | datatypes.py:36-42 | after a slice assignment, the items written are read back from the same range |
| `SemiMutable.Propose` | datatypes.py:13-20 | an unseen pair raises the `TypeError` "SemiMutableSequence object does not support item assignment", leaves the data unchanged and records the pair; a recorded pair with an in-range index is written and forgotten, and nothing else changes; a recorded pair with an out-of-range index raises `IndexError` and stays recorded |
| `SemiMutable.SemiMutableSequence.constructor` | datatypes.py:9-11 | a new sequence holds the given data and has no pending pairs |
| `SemiMutable.SemiMutableSequence.SetItem` | datatypes.py:13-20 | the new data, pending pairs and outcome are exactly those of `Propose` on the old state |
| `SemiMutable.RepeatedProposals` | datatypes.py:13-20 | after `n` identical proposals of a fresh in-range pair, the pair is pending if and only if `n` is odd; the data holds the value from the second proposal on; every other pending pair is untouched |
| `SemiMutable.NextProposalOutcome` | datatypes.py:13-20 | the proposal after `n` identical ones commits if and only if `n` is odd: first raises, second commits, third raises again |
| `SemiMutable.FailedCommitStaysPending` | datatypes.py:15-17 | a recorded pair whose write is out of range raises `IndexError` and changes nothing, so it stays pending |
| `SemiMutable.DifferentValuesAreIndependent` | datatypes.py:14-19 | proposing `(i, v1)`, `(i, v2)`, `(i, v1)` commits `v1` on the third call and leaves only `(i, v2)` pending |
| `SemiMutable.AliasedIndicesDoNotCommit` | datatypes.py:14-15 | `(-1, v)` followed by `(len - 1, v)` are two different pairs: neither commits and both stay pending |
| `Mappings.RandomDictGet` | datatypes.py:88-90 | draw 0 gives None whether or not the key is present; any other draw gives the stored value, or `KeyError` when the key is absent |
| `Mappings.SevenDrawsInEight` | datatypes.py:90 | of the eight draws, exactly seven give the stored value and exactly one gives None; for an absent key, seven raise |
| `Mappings.SomethingElseGet` | datatypes.py:93-99 | fewer than two keys is a `ValueError` "SomethingElse needs at least two entries", and only then an error; reading the first key gives the second key's value; any other key, present or not, gives the first key's value |
| `Mappings.ThreeInsertions` | datatypes.py:93-99 | after inserting `a`, `b`, `c`: `a` reads `b`'s value; `b`, `c` and an absent key read `a`'s value; with zero keys a read raises, and with one key every read raises, for the present key and an absent one alike |
| `Mappings.RolesFollowRemoval` | datatypes.py:93-99 | the roles are recomputed on every read: after the first key is deleted, the old second key reads the old third key's value |

## Left out

- Randomness: the RandomDict draw `randrange(8)` is a parameter. The 1/8 frequency is
  stated as a count over the eight draws (`SevenDrawsInEight`), not as a statistical
  property.
- `EIGHT` is the integer 8. The numeric wrapper type of `number.py` is not part of
  this model.
- Floating point: indices and starts are exact reals. Binary rounding of `0.05`, or
  of a user-supplied start, is not modelled.
- Stepped (extended) slices on a FlexibleList. The converter passes the step through
  (`Convert`), but the list operations are modelled only for contiguous slices
  (`GetRange`, `SetRange`, `DeleteRange`).
- The containers a slice read builds. Python wraps a slice in a new container of the
  same class, which resets a custom start. The model returns the items only.
- Non-integer arguments to `index`'s optional bounds. They are passed to the backing
  list unconverted, and are modelled as integers.
- SemiMutableSequence with slice or non-integer indices, and unhashable values. The
  pending set is keyed on integer indices and values compared by equality.
- The inherited `UserList`/`UserDict` machinery: `sort`, `extend`, `+`, `*`,
  comparisons, `copy`, `remove`, `append` and iteration. Only the plain list and
  dictionary operations the overrides call are modelled. Dictionary insertion and
  deletion (`Put`, `Remove`) are included only to give SomethingElse its key order.
- The messages of exceptions raised by Python's own list and dict. Only their kinds
  are kept; the two messages the containers build themselves are kept verbatim.
- RandomDict: in Python, a stored `None` and the `None` from draw 0 look the same.
  The model keeps them apart: draw 0 gives `Ok(None)`, a lookup gives `Ok(Some(v))`.
- `PyList.InsertAt`, `PyList.PopAt`: indices are unbounded integers. CPython takes
  the index of `list.insert` and `list.pop` as a machine word, and raises
  `OverflowError` when its magnitude is 2**63 or more; the model clamps (insert) or
  reports `IndexError` (pop) instead. `floor` raising on an infinite or NaN index or
  start (datatypes.py:70-72) is not modelled either, since reals have no such values.
- `enumerate` (datatypes.py:102-105): it depends on how `__builtins__` resolves at
  run time.
- `__repr__` methods: these are string formatting only.
