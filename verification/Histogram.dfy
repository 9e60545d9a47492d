/** A histogram meter: bucket boundaries made from the configured steps, a binary search per value. */
module Histogram {
  import opened Text

  predicate Increasing(s: seq<real>) {
    forall i, j :: 0 <= i < j < |s| ==> s[i] < s[j]
  }

  function Insert(s: seq<real>, x: real): seq<real> {
    if s == [] || x < s[0] then [x] + s
    else if x == s[0] then s
    else [s[0]] + Insert(s[1..], x)
  }

  /** `sorted(set(steps))`. */
  function Distinct(steps: seq<real>): seq<real> {
    if steps == [] then [] else Insert(Distinct(steps[1..]), steps[0])
  }

  lemma {:induction false} InsertKeeps(s: seq<real>, x: real)
    requires Increasing(s)
    ensures Increasing(Insert(s, x))
    ensures forall y :: y in Insert(s, x) <==> y == x || y in s
  {
    if s != [] && x > s[0] {
      InsertKeeps(s[1..], x);
      var r := Insert(s[1..], x);
      forall i | 0 <= i < |r| ensures s[0] < r[i] {
        assert r[i] in r;
      }
    }
  }

  lemma {:induction false} DistinctSorts(steps: seq<real>)
    ensures Increasing(Distinct(steps))
    ensures forall y :: y in Distinct(steps) <==> y in steps
  {
    if steps != [] {
      DistinctSorts(steps[1..]);
      InsertKeeps(Distinct(steps[1..]), steps[0]);
    }
  }

  /** The lower boundaries of the buckets: the minimum, then every distinct step above it. */
  function Boundaries(steps: seq<real>, minimum: real): (r: Result<seq<real>>) {
    if steps == [] then Raised
    else
      var s := Distinct(steps);
      if s == [] || s[0] < minimum then Raised
      else if s[0] != minimum then Ok([minimum] + s)
      else Ok(s)
  }

  lemma BoundariesAre(steps: seq<real>, minimum: real)
    ensures Boundaries(steps, minimum).Ok? <==> steps != [] && forall x :: x in steps ==> minimum <= x
    ensures Boundaries(steps, minimum).Ok? ==>
              var b := Boundaries(steps, minimum).value;
              b != [] && b[0] == minimum && Increasing(b) && forall y :: y in b <==> y == minimum || y in steps
  {
    DistinctSorts(steps);
    var s := Distinct(steps);
    if steps != [] {
      assert steps[0] in s;
      assert s[0] in s;
      assert forall x :: x in s ==> s[0] <= x;
      assert s[0] in steps;
      if s[0] > minimum {
        assert Increasing([minimum] + s);
      }
    }
  }

  /** Bucket i takes the values above its boundary, up to and including the next one. */
  predicate Falls(bounds: seq<real>, i: int, v: real) {
    0 <= i < |bounds| && bounds[i] < v && (i + 1 < |bounds| ==> v <= bounds[i + 1])
  }

  /** How many of the values fall into bucket i. */
  function Tally(bounds: seq<real>, i: int, values: seq<real>): nat {
    if values == [] then 0
    else Tally(bounds, i, values[..|values| - 1]) + if Falls(bounds, i, values[|values| - 1]) then 1 else 0
  }

  function Above(minimum: real, values: seq<real>): nat {
    if values == [] then 0
    else Above(minimum, values[..|values| - 1]) + if values[|values| - 1] > minimum then 1 else 0
  }

  lemma AddedOne(bounds: seq<real>, values: seq<real>, v: real)
    requires bounds != []
    ensures forall i :: Tally(bounds, i, values + [v]) == Tally(bounds, i, values) + if Falls(bounds, i, v) then 1 else 0
    ensures Above(bounds[0], values + [v]) == Above(bounds[0], values) + if v > bounds[0] then 1 else 0
  {
    assert (values + [v])[..|values + [v]| - 1] == values;
  }

  function Sum(counts: seq<int>): int {
    if counts == [] then 0 else Sum(counts[..|counts| - 1]) + counts[|counts| - 1]
  }

  lemma {:induction false} SumUpdate(counts: seq<int>, i: nat)
    requires i < |counts|
    ensures Sum(counts[i := counts[i] + 1]) == Sum(counts) + 1
  {
    var n := |counts| - 1;
    var updated := counts[i := counts[i] + 1];
    if i < n {
      assert updated[..n] == counts[..n][i := counts[..n][i] + 1];
      SumUpdate(counts[..n], i);
    } else {
      assert updated[..n] == counts[..n];
    }
  }

  lemma {:induction false} SumZeros(n: nat)
    ensures Sum(seq(n, _ => 0)) == 0
  {
    if n > 0 {
      assert seq(n, _ => 0)[..n - 1] == seq(n - 1, _ => 0);
      SumZeros(n - 1);
    }
  }

  /** Every bucket holds the tally of the values, and together they hold all above the minimum. */
  ghost predicate Tallied(bounds: seq<real>, counts: seq<int>, values: seq<real>) {
    && bounds != [] && |counts| == |bounds|
    && (forall i :: 0 <= i < |bounds| ==> counts[i] == Tally(bounds, i, values))
    && Sum(counts) == Above(bounds[0], values)
  }

  lemma CountsOne(bounds: seq<real>, counts: seq<int>, values: seq<real>, v: real, b: nat)
    requires Tallied(bounds, counts, values) && b < |bounds| && v > bounds[0]
    requires forall i :: Falls(bounds, i, v) <==> i == b
    ensures Tallied(bounds, counts[b := counts[b] + 1], values + [v])
  {
    AddedOne(bounds, values, v);
    SumUpdate(counts, b);
  }

  lemma CountsNone(bounds: seq<real>, counts: seq<int>, values: seq<real>, v: real)
    requires Tallied(bounds, counts, values) && v <= bounds[0]
    requires forall i :: !Falls(bounds, i, v)
    ensures Tallied(bounds, counts, values + [v])
  {
    AddedOne(bounds, values, v);
  }

  class Histogram {
    const bounds: seq<real>
    var counts: seq<int>
    ghost var added: seq<real>

    ghost predicate Valid()
      reads this
    {
      Increasing(bounds) && Tallied(bounds, counts, added)
    }

    constructor (boundaries: seq<real>)
      requires boundaries != [] && Increasing(boundaries)
      ensures Valid() && bounds == boundaries && added == []
    {
      bounds := boundaries;
      counts := seq(|boundaries|, _ => 0);
      added := [];
      SumZeros(|boundaries|);
    }

    /** The only bucket the value falls into, or none for a value not above the minimum. */
    method FindBucket(value: real) returns (bucket: Option<nat>)
      requires Valid()
      ensures bucket.None? <==> value <= bounds[0]
      ensures forall i :: Falls(bounds, i, value) <==> bucket.Some? && i == bucket.value
    {
      var left, right := 0, |bounds|;
      while left < right
        invariant 0 <= left <= right <= |bounds|
        invariant forall i :: 0 <= i < left ==> bounds[i] < value
        invariant forall i :: right <= i < |bounds| ==> value <= bounds[i]
      {
        var mid := (left + right) / 2;
        if bounds[mid] < value {
          left := mid + 1;
        } else {
          right := mid;
        }
      }
      return if left == 0 then None else Some(left - 1);
    }

    method AddValue(value: real)
      requires Valid()
      modifies this
      ensures Valid() && added == old(added) + [value]
    {
      var bucket := FindBucket(value);
      if bucket.Some? {
        assert Falls(bounds, bucket.value, value);
        CountsOne(bounds, counts, added, value, bucket.value);
        counts := counts[bucket.value := counts[bucket.value] + 1];
      } else {
        CountsNone(bounds, counts, added, value);
      }
      added := added + [value];
    }
  }
}
