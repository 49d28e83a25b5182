/** The enhanced Iterator pattern: a `Range` over an arithmetic sequence whose
    iterators step forwards or backwards and support `peek`, `skip` and `reset`.
    Numbers are unbounded integers. */
module Iterators {
  import opened Common

  /** The three read-only fields of a `Range`: first value, inclusive bound, increment. */
  datatype Range = Range(start: int, end: int, step: int)

  /** A `Range` whose constructor returned: the step is never zero. */
  type ValidRange = r: Range | r.step != 0 witness Range(0, 0, 1)

  const StepZeroMessage := "step cannot be 0"

  /** `new Range(start, end, step)`: throws on a zero step, accepts every other step. */
  function NewRange(start: int, end: int, step: int := 1): (r: Result<ValidRange>)
    ensures r.Failure? <==> step == 0
    ensures r.Failure? ==> r.error == StepZeroMessage
    ensures r.Success? ==> r.value.start == start && r.value.end == end && r.value.step == step
  {
    if step == 0 then Failure(StepZeroMessage) else Success(Range(start, end, step))
  }

  /** The direction-dependent bound check of the iterator. */
  predicate InRange(r: ValidRange, value: int) {
    if r.step > 0 then value <= r.end else value >= r.end
  }

  /** How far `end` lies from `start` in the direction of travel (negative when
      `start` is already beyond `end`). */
  function Span(r: ValidRange): int {
    if r.step > 0 then r.end - r.start else r.start - r.end
  }

  /** The absolute size of one step. */
  function Stride(r: ValidRange): (s: int)
    ensures s > 0
  {
    if r.step > 0 then r.step else -r.step
  }

  /** How many values a full traversal yields. */
  function Count(r: ValidRange): nat {
    if Span(r) < 0 then 0 else Span(r) / Stride(r) + 1
  }

  /** The reference sequence: `start + k * step` for every k below `Count`. */
  function Values(r: ValidRange): seq<int> {
    seq(Count(r), k => r.start + k * r.step)
  }

  /** The values still ahead of a traversal that has taken `i` steps. */
  ghost function RemainingFrom(r: ValidRange, i: nat): seq<int> {
    if i < Count(r) then Values(r)[i..] else []
  }

  /** Taking `k` more steps drops the first `k` of what remained (all of it if fewer). */
  lemma RemainingFromAdvance(r: ValidRange, i: nat, k: nat)
    ensures var before := RemainingFrom(r, i);
            RemainingFrom(r, i + k) == before[if k < |before| then k else |before|..]
  {
  }

  /** One position reached by whole steps from `start`, advanced by more whole steps. */
  lemma Advance(r: ValidRange, i: nat, k: nat)
    ensures r.start + i * r.step + r.step * k == r.start + (i + k) * r.step
  {
    assert (i + k) * r.step == i * r.step + k * r.step;
  }

  lemma MulMonotone(a: int, b: int, s: int)
    requires a <= b && s >= 0
    ensures a * s <= b * s
  {
    assert b * s - a * s == (b - a) * s;
  }

  /** For a positive stride, `k` strides fit into `d` exactly when `k <= d / s`. */
  lemma StridesFit(k: nat, s: int, d: int)
    requires s > 0 && d >= 0
    ensures k * s <= d <==> k <= d / s
  {
    var q := d / s;
    assert d == q * s + d % s;
    if k <= q {
      MulMonotone(k, q, s);
    } else {
      MulMonotone(q + 1, k, s);
      assert (q + 1) * s == q * s + s;
    }
  }

  /** The bound check accepts `start + k * step` exactly for the first `Count` values of k. */
  lemma InRangeIffBeforeCount(r: ValidRange, k: nat)
    ensures InRange(r, r.start + k * r.step) <==> k < Count(r)
  {
    var s, d := Stride(r), Span(r);
    assert InRange(r, r.start + k * r.step) <==> k * s <= d by {
      if r.step < 0 {
        assert k * r.step == -(k * s);
      }
    }
    if d >= 0 {
      StridesFit(k, s, d);
    } else {
      assert k * s >= 0;
    }
  }

  /** Moving further in the direction of travel never re-enters the range. */
  lemma OutOfRangeStaysOut(r: ValidRange, value: int, n: nat)
    requires !InRange(r, value)
    ensures !InRange(r, value + r.step * n)
  {
    if r.step > 0 {
      assert r.step * n >= 0;
    } else {
      assert r.step * n == -(Stride(r) * n);
    }
  }

  /** `1 <= Count` exactly when the start value itself is in range. */
  lemma StartInRange(r: ValidRange)
    ensures InRange(r, r.start) <==> Count(r) > 0
  {
    InRangeIffBeforeCount(r, 0);
  }

  /** What `next` hands back: `{ done: true }` or `{ done: false, value }`. */
  datatype IteratorResult = Done | Yielded(value: int)

  /** The iterator object that `[Symbol.iterator]` of a `Range` returns; its closure
      variables `current` and `finished` are the fields. */
  class RangeIterator {
    const range: ValidRange
    var current: int
    var finished: bool
    /** How many steps `current` lies past `start`. */
    ghost var index: nat

    ghost predicate Valid()
      reads this
    {
      && current == range.start + index * range.step
      && (finished ==> !InRange(range, current))
    }

    /** What the following `next` produces, which is also what `peek` reports. */
    function Upcoming(): Option<int>
      reads this
    {
      if finished || !InRange(range, current) then None else Some(current)
    }

    /** The values a traversal from the present state still yields. */
    ghost function Remaining(): seq<int>
      reads this
    {
      RemainingFrom(range, index)
    }

    /** The upcoming value is the head of what remains, and nothing remains once finished. */
    lemma UpcomingIsHead()
      requires Valid()
      ensures Upcoming() == if Remaining() == [] then None else Some(Remaining()[0])
      ensures finished ==> Remaining() == []
    {
      InRangeIffBeforeCount(range, index);
    }

    constructor (r: ValidRange)
      ensures Valid() && range == r
      ensures current == r.start && !finished
      ensures Remaining() == Values(r)
    {
      range := r;
      current := r.start;
      finished := false;
      index := 0;
    }

    /** `next`: yields `current` and advances by exactly `step` while in range;
        otherwise reports done, sets `finished` and leaves `current` alone. */
    method Next() returns (res: IteratorResult)
      requires Valid()
      modifies this
      ensures Valid()
      ensures old(Upcoming()).None? ==> res == Done && finished && current == old(current)
      ensures old(Upcoming()).Some? ==>
                res == Yielded(old(current)) && !finished && current == old(current) + range.step
      ensures old(Remaining()) == [] ==> res == Done && Remaining() == []
      ensures old(Remaining()) != [] ==>
                res == Yielded(old(Remaining())[0]) && Remaining() == old(Remaining())[1..]
    {
      UpcomingIsHead();
      if finished {
        return Done;
      }
      if !InRange(range, current) {
        finished := true;
        return Done;
      }
      var value := current;
      current := current + range.step;
      index := index + 1;
      res := Yielded(value);
    }

    /** `peek`: the value the following `next` would yield, without moving. */
    method Peek() returns (v: Option<int>)
      requires Valid()
      ensures v == Upcoming()
      ensures v == if Remaining() == [] then None else Some(Remaining()[0])
    {
      UpcomingIsHead();
      if finished {
        return None;
      }
      if !InRange(range, current) {
        return None;
      }
      v := Some(current);
    }

    /** `reset`: back to `start` with `finished` cleared, so the full sequence replays. */
    method Reset()
      requires Valid()
      modifies this
      ensures Valid()
      ensures current == range.start && !finished
      ensures Remaining() == Values(range)
    {
      current := range.start;
      finished := false;
      index := 0;
    }

    /** `skip(n)`: advances by `step * max(0, n)` and sets `finished` once out of
        range; the same as `n` calls of `next` on what remains. */
    method Skip(n: int)
      requires Valid()
      modifies this
      ensures Valid()
      ensures current == old(current) + range.step * (if n > 0 then n else 0)
      ensures finished == (old(finished) || !InRange(range, current))
      ensures var k := if n > 0 then n else 0;
              Remaining() == old(Remaining())[if k < |old(Remaining())| then k else |old(Remaining())|..]
    {
      var steps := if n > 0 then n else 0;
      UpcomingIsHead();
      if finished {
        OutOfRangeStaysOut(range, current, steps);
      }
      Advance(range, index, steps);
      RemainingFromAdvance(range, index, steps);
      current := current + range.step * steps;
      index := index + steps;
      if !InRange(range, current) {
        finished := true;
      }
      InRangeIffBeforeCount(range, index);
    }

    /** The iterator's own `[Symbol.iterator]`: the very same object, not a fresh one. */
    method SelfIterator() returns (it: RangeIterator)
      ensures it == this
    {
      it := this;
    }

    /** A `for..of` loop over the iterator: calls `next` until it reports done and
        collects what was yielded. */
    method ForOf() returns (values: seq<int>)
      requires Valid()
      modifies this
      ensures Valid() && finished
      ensures values == old(Remaining())
      ensures Remaining() == []
    {
      ghost var all := Remaining();
      var it := SelfIterator();
      values := [];
      var res := it.Next();
      while res.Yielded?
        invariant it == this && Valid()
        invariant res.Yielded? ==> values + [res.value] + Remaining() == all
        invariant res.Done? ==> values == all && finished && Remaining() == []
        decreases |Remaining()|, res.Yielded?
      {
        ghost var before := Remaining();
        values := values + [res.value];
        res := it.Next();
        assert res.Yielded? ==> values + [res.value] + Remaining() == values + before by {
          if res.Yielded? {
            assert before == [res.value] + Remaining();
          }
        }
      }
    }
  }

  /** `[Symbol.iterator]` of a `Range`: every call creates a fresh, independent iterator. */
  method Iterate(r: ValidRange) returns (it: RangeIterator)
    ensures fresh(it)
    ensures it.Valid() && it.range == r && it.current == r.start && !it.finished
    ensures it.Remaining() == Values(r)
  {
    it := new RangeIterator(r);
  }

  /** A traversal from the start yields every value of the sequence, then stops. */
  lemma ValuesEnumerate(r: ValidRange)
    ensures forall k :: 0 <= k < |Values(r)| ==> InRange(r, Values(r)[k])
    ensures !InRange(r, r.start + |Values(r)| * r.step)
  {
    forall k | 0 <= k < |Values(r)|
      ensures InRange(r, Values(r)[k])
    {
      InRangeIffBeforeCount(r, k);
    }
    InRangeIffBeforeCount(r, Count(r));
  }

  /** `for (const i of new Range(1, 7, 2))` yields 1, 3, 5, 7. */
  method DemoAscending() returns (values: seq<int>)
    ensures values == [1, 3, 5, 7]
  {
    var made := NewRange(1, 7, 2);
    var it := Iterate(made.value);
    values := it.ForOf();
    assert Values(Range(1, 7, 2)) == [1, 3, 5, 7];
  }

  /** The manual walk over `new Range(10, 2, -2)`: peek, next, skip(2), peek, drain,
      then reset and a second full traversal. */
  method DemoManual() returns (firstPeek: Option<int>, first: IteratorResult,
                               afterSkip: Option<int>, rest: seq<int>, again: seq<int>)
    ensures firstPeek == Some(10) && first == Yielded(10)
    ensures afterSkip == Some(4) && rest == [4, 2]
    ensures again == [10, 8, 6, 4, 2]
  {
    var made := NewRange(10, 2, -2);
    var it := Iterate(made.value);
    assert Values(Range(10, 2, -2)) == [10, 8, 6, 4, 2];
    firstPeek := it.Peek();
    first := it.Next();
    it.Skip(2);
    afterSkip := it.Peek();
    rest := it.ForOf();
    it.Reset();
    again := it.ForOf();
  }

  /** Without `reset`, iterating an exhausted iterator again yields nothing. */
  method DemoExhausted() returns (first: seq<int>, second: seq<int>)
    ensures first == [1, 3, 5, 7] && second == []
  {
    var made := NewRange(1, 7, 2);
    var it := Iterate(made.value);
    assert Values(Range(1, 7, 2)) == [1, 3, 5, 7];
    first := it.ForOf();
    var self := it.SelfIterator();
    second := self.ForOf();
  }
}
