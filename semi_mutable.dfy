/** SemiMutableSequence (datatypes.py:8-23): a list whose item assignment only
    takes effect when the same (index, value) pair is proposed a second time. The
    first proposal records the pair and raises a TypeError; the second writes the
    value and forgets the pair. Indices are passed to the backing list as given. */
module SemiMutable {
  import opened Results
  import opened PyList

  const REFUSAL: string := "SemiMutableSequence object does not support item assignment"

  /** The observable state: the backing list and the set of pending proposals. */
  datatype Gate<T(==)> = Gate(data: seq<T>, pending: set<(int, T)>)

  /** One `__setitem__(index, value)`: the new state and what the call returned.
      A pending pair is committed by writing it to the backing list and then
      discarding it; if the write raises, the discard is never reached. */
  function Propose<T(==)>(g: Gate<T>, index: int, value: T): (res: (Gate<T>, Outcome))
    ensures (index, value) !in g.pending ==>
      res.1 == Raised(AssignmentRefused(REFUSAL)) && res.0.data == g.data
      && res.0.pending == g.pending + {(index, value)}
    ensures (index, value) in g.pending && InRange(index, |g.data|) ==>
      res.1 == Done && res.0.pending == g.pending - {(index, value)}
      && |res.0.data| == |g.data| && res.0.data[Wrap(index, |g.data|)] == value
      && forall j :: 0 <= j < |g.data| && j != Wrap(index, |g.data|) ==> res.0.data[j] == g.data[j]
    ensures (index, value) in g.pending && !InRange(index, |g.data|) ==>
      res == (g, Raised(OutOfRange))
  {
    if (index, value) in g.pending then
      match SetAt(g.data, Phys(index), value)
      case Ok(s) => (Gate(s, g.pending - {(index, value)}), Done)
      case Err(e) => (g, Raised(e))
    else
      (Gate(g.data, g.pending + {(index, value)}), Raised(AssignmentRefused(REFUSAL)))
  }

  /** The state after proposing the same pair `n` times in a row. */
  function ProposeTimes<T(==)>(g: Gate<T>, index: int, value: T, n: nat): Gate<T>
    decreases n
  {
    if n == 0 then g else Propose(ProposeTimes(g, index, value, n - 1), index, value).0
  }

  class SemiMutableSequence<T(==)> {
    var data: seq<T>
    var updates: set<(int, T)>

    /** `SemiMutableSequence(data)`: nothing is pending yet. */
    constructor (data: seq<T>)
      ensures this.data == data && updates == {}
    {
      this.data := data;
      updates := {};
    }

    /** `self[index] = value` */
    method SetItem(index: int, value: T) returns (r: Outcome)
      modifies this
      ensures (Gate(data, updates), r) == Propose(Gate(old(data), old(updates)), index, value)
    {
      var update := (index, value);
      if update in updates {
        match SetAt(data, Phys(index), value)
        case Ok(s) =>
          data := s;
          updates := updates - {update};
          r := Done;
        case Err(e) =>
          r := Raised(e);
      } else {
        updates := updates + {update};
        r := Raised(AssignmentRefused(REFUSAL));
      }
    }
  }

  /** Starting from a state where the pair is not pending and its index is in range,
      the pair is pending after an odd number of proposals and not after an even
      one; the backing list holds the value from the second proposal on; and every
      other pending pair is untouched throughout. */
  lemma {:induction false} RepeatedProposals<T>(g: Gate<T>, index: int, value: T, n: nat)
    requires (index, value) !in g.pending
    requires InRange(index, |g.data|)
    ensures var h := ProposeTimes(g, index, value, n);
      ((index, value) in h.pending <==> n % 2 == 1)
      && h.data == (if n < 2 then g.data else g.data[Wrap(index, |g.data|) := value])
      && forall p :: p != (index, value) ==> (p in h.pending <==> p in g.pending)
  {
    if n > 0 {
      RepeatedProposals(g, index, value, n - 1);
      var h := ProposeTimes(g, index, value, n - 1);
      assert InRange(index, |h.data|);
      if n >= 2 {
        var k := Wrap(index, |g.data|);
        if n % 2 == 0 {
          assert h.data[k := value] == g.data[k := value];
        }
      }
    }
  }

  /** The proposal that follows `n` identical ones commits exactly when `n` is odd:
      the first raises, the second commits, the third raises again. */
  lemma NextProposalOutcome<T>(g: Gate<T>, index: int, value: T, n: nat)
    requires (index, value) !in g.pending
    requires InRange(index, |g.data|)
    ensures Propose(ProposeTimes(g, index, value, n), index, value).1
         == if n % 2 == 1 then Done else Raised(AssignmentRefused(REFUSAL))
  {
    RepeatedProposals(g, index, value, n);
  }

  /** A commit whose index is out of range raises an IndexError and leaves the
      pair pending, so every later identical proposal raises the same way. */
  lemma FailedCommitStaysPending<T>(g: Gate<T>, index: int, value: T)
    requires (index, value) in g.pending
    requires !InRange(index, |g.data|)
    ensures Propose(g, index, value) == (g, Raised(OutOfRange))
  {
  }

  /** Proposing a second value at the same index does not disturb the first pair:
      after (i, v1), (i, v2), (i, v1), the list holds v1 at i and only (i, v2) is
      left pending. */
  lemma DifferentValuesAreIndependent<T>(g: Gate<T>, index: int, v1: T, v2: T)
    requires g.pending == {}
    requires InRange(index, |g.data|)
    requires v1 != v2
    ensures var (g1, r1) := Propose(g, index, v1);
      var (g2, r2) := Propose(g1, index, v2);
      var (g3, r3) := Propose(g2, index, v1);
      r1.Raised? && r2.Raised? && r3 == Done
      && g3.data == g.data[Wrap(index, |g.data|) := v1]
      && g3.pending == {(index, v2)}
  {
    var (g1, r1) := Propose(g, index, v1);
    var (g2, r2) := Propose(g1, index, v2);
    assert g2.pending == {(index, v1), (index, v2)};
  }

  /** Pairs are keyed on the index as written: proposing at -1 and then at
      len - 1 names the same element but two different pairs, so neither commits. */
  lemma AliasedIndicesDoNotCommit<T>(g: Gate<T>, value: T)
    requires g.pending == {}
    requires |g.data| > 0
    ensures var (g1, r1) := Propose(g, -1, value);
      var (g2, r2) := Propose(g1, |g.data| - 1, value);
      r1.Raised? && r2.Raised? && g2.data == g.data
      && g2.pending == {(-1, value), (|g.data| - 1, value)}
  {
  }
}
