/** `batchCheckEligibility`: the addresses are checked in contiguous slices of
    ten, each slice settled in full before the next begins, and every result
    is stored under its address in input order. */
module Batch {
  import opened Base
  import opened Eligibility

  const ChunkSize: nat := 10

  /** The input positions `[start, end)` checked together in one round. */
  datatype Slice = Slice(start: nat, end: nat)

  /** One batch request. `views(i)` is the state of both ledgers as the check
      of input position `i` reads it; checks run at different times and may
      see different states. */
  datatype BatchInput = BatchInput(addresses: seq<string>, circleId: int, views: nat -> Chains)

  datatype BatchRun = BatchRun(results: map<string, EligibilityCheck>, rounds: seq<Slice>)

  /** The slices the loop `for (i = from; i < n; i += 10)` cuts. */
  function SlicesFrom(from: nat, n: nat): seq<Slice>
    decreases n - from
  {
    if from >= n then []
    else [Slice(from, Min(from + ChunkSize, n))] + SlicesFrom(from + ChunkSize, n)
  }

  function Slices(n: nat): seq<Slice>
  {
    SlicesFrom(0, n)
  }

  /** Every slice lies inside the `n` input positions. */
  predicate Within(slices: seq<Slice>, n: nat)
  {
    forall k :: 0 <= k < |slices| ==> slices[k].start <= slices[k].end <= n
  }

  /** `results.set(keys[i], values[i])` for positions `lo .. hi-1`, in order. */
  function SetInOrder<V>(keys: seq<string>, values: seq<V>, acc: map<string, V>, lo: nat, hi: nat): map<string, V>
    requires |values| == |keys| && lo <= hi <= |keys|
    decreases hi
  {
    if hi == lo then acc
    else SetInOrder(keys, values, acc, lo, hi - 1)[keys[hi - 1] := values[hi - 1]]
  }

  /** The slice loop: each slice's results are all stored before the next
      slice is started. */
  function RunSlices<V>(keys: seq<string>, values: seq<V>, acc: map<string, V>, slices: seq<Slice>): map<string, V>
    requires |values| == |keys| && Within(slices, |keys|)
    decreases |slices|
  {
    if |slices| == 0 then acc
    else RunSlices(keys, values, SetInOrder(keys, values, acc, slices[0].start, slices[0].end), slices[1..])
  }

  /** Slice `k` of the loop starting at `from` covers `[from + 10k, min(from + 10k + 10, n))`,
      and there are as many slices as the ceiling of the remaining length over ten. */
  lemma {:induction false} SlicesFromShape(from: nat, n: nat)
    ensures |SlicesFrom(from, n)| == if from >= n then 0 else (n - from + ChunkSize - 1) / ChunkSize
    ensures forall k :: 0 <= k < |SlicesFrom(from, n)| ==>
      SlicesFrom(from, n)[k] == Slice(from + ChunkSize * k, Min(from + ChunkSize * k + ChunkSize, n))
    decreases n - from
  {
    if from < n {
      SlicesFromShape(from + ChunkSize, n);
      var rest := SlicesFrom(from + ChunkSize, n);
      forall k | 1 <= k < |SlicesFrom(from, n)|
        ensures SlicesFrom(from, n)[k] == Slice(from + ChunkSize * k, Min(from + ChunkSize * k + ChunkSize, n))
      {
        assert SlicesFrom(from, n)[k] == rest[k - 1];
      }
    }
  }

  lemma {:induction false} SlicesWithin(from: nat, n: nat)
    ensures Within(SlicesFrom(from, n), n)
    ensures forall k :: 0 <= k <= |SlicesFrom(from, n)| ==> Within(SlicesFrom(from, n)[..k], n)
    decreases n - from
  {
    if from < n {
      SlicesWithin(from + ChunkSize, n);
    }
  }

  /** The slicing of `n` positions: ceil(n/10) slices, slice `k` starting at
      `10k`, each holding between one and ten positions, and every position
      lying in the slice numbered `p / 10`. */
  lemma SlicesCover(n: nat)
    ensures |Slices(n)| == (n + ChunkSize - 1) / ChunkSize
    ensures forall k :: 0 <= k < |Slices(n)| ==>
      Slices(n)[k].start == ChunkSize * k && 1 <= Slices(n)[k].end - Slices(n)[k].start <= ChunkSize &&
      Slices(n)[k].end <= n
    ensures forall p :: 0 <= p < n ==>
      p / ChunkSize < |Slices(n)| && Slices(n)[p / ChunkSize].start <= p < Slices(n)[p / ChunkSize].end
  {
    SlicesFromShape(0, n);
  }

  /** The positions `lo .. hi-1`, in increasing order. */
  function Range(lo: nat, hi: nat): seq<nat>
    decreases hi - lo
  {
    if lo >= hi then [] else [lo] + Range(lo + 1, hi)
  }

  /** The positions the slices check, slice after slice. */
  function Positions(slices: seq<Slice>): seq<nat>
  {
    if |slices| == 0 then [] else Range(slices[0].start, slices[0].end) + Positions(slices[1..])
  }

  lemma {:induction false} RangeSplit(lo: nat, mid: nat, hi: nat)
    requires lo <= mid <= hi
    ensures Range(lo, mid) + Range(mid, hi) == Range(lo, hi)
    decreases mid - lo
  {
    if lo < mid {
      RangeSplit(lo + 1, mid, hi);
    }
  }

  /** Each input position is checked exactly once, and the slices take them
      in input order: their positions, concatenated, are `from .. n-1`. */
  lemma {:induction false} PositionsOfSlices(from: nat, n: nat)
    ensures Positions(SlicesFrom(from, n)) == Range(from, n)
    decreases n - from
  {
    if from < n {
      var mid := Min(from + ChunkSize, n);
      var s := SlicesFrom(from, n);
      assert s[1..] == SlicesFrom(from + ChunkSize, n);
      PositionsOfSlices(from + ChunkSize, n);
      if from + ChunkSize < n {
        RangeSplit(from, mid, n);
      }
    }
  }

  /** Storing positions `lo .. mid-1` and then `mid .. hi-1` is storing `lo .. hi-1`. */
  lemma {:induction false} SetInOrderSplit<V>(keys: seq<string>, values: seq<V>, acc: map<string, V>, lo: nat, mid: nat, hi: nat)
    requires |values| == |keys| && lo <= mid <= hi <= |keys|
    ensures SetInOrder(keys, values, SetInOrder(keys, values, acc, lo, mid), mid, hi) == SetInOrder(keys, values, acc, lo, hi)
    decreases hi
  {
    if hi > mid {
      SetInOrderSplit(keys, values, acc, lo, mid, hi - 1);
    }
  }

  /** Running the first `k` slices from `from` runs the first slice and then
      the first `k - 1` slices of the rest. */
  lemma RunSlicesUnfold<V>(keys: seq<string>, values: seq<V>, acc: map<string, V>, from: nat, k: nat)
    requires |values| == |keys| && from <= |keys|
    requires 0 < k <= |SlicesFrom(from, |keys|)|
    ensures from < |keys| && |SlicesFrom(from, |keys|)| == 1 + |SlicesFrom(from + ChunkSize, |keys|)|
    ensures k > 1 ==> from + ChunkSize < |keys|
    ensures Within(SlicesFrom(from, |keys|)[..k], |keys|)
    ensures Within(SlicesFrom(from + ChunkSize, |keys|)[..k - 1], |keys|)
    ensures RunSlices(keys, values, acc, SlicesFrom(from, |keys|)[..k]) ==
      RunSlices(keys, values, SetInOrder(keys, values, acc, from, Min(from + ChunkSize, |keys|)),
                SlicesFrom(from + ChunkSize, |keys|)[..k - 1])
  {
    var n := |keys|;
    SlicesWithin(from, n);
    SlicesWithin(from + ChunkSize, n);
    var rest := SlicesFrom(from + ChunkSize, n);
    assert SlicesFrom(from, n) == [Slice(from, Min(from + ChunkSize, n))] + rest;
    assert SlicesFrom(from, n)[..k][1..] == rest[..k - 1];
  }

  /** Running the first `k` slices from `from` stores positions `from .. min(from + 10k, n) - 1`
      in input order, exactly as one uninterrupted pass over them would. */
  lemma {:induction false} RunSlicesPrefix<V>(keys: seq<string>, values: seq<V>, acc: map<string, V>, from: nat, k: nat)
    requires |values| == |keys| && from <= |keys|
    requires k <= |SlicesFrom(from, |keys|)|
    ensures Within(SlicesFrom(from, |keys|)[..k], |keys|)
    ensures RunSlices(keys, values, acc, SlicesFrom(from, |keys|)[..k]) ==
      SetInOrder(keys, values, acc, from, Min(from + ChunkSize * k, |keys|))
    decreases k
  {
    SlicesWithin(from, |keys|);
    if k > 0 {
      var mid := Min(from + ChunkSize, |keys|);
      RunSlicesUnfold(keys, values, acc, from, k);
      if k == 1 {
        assert SlicesFrom(from + ChunkSize, |keys|)[..0] == [];
      } else {
        RunSlicesPrefix(keys, values, SetInOrder(keys, values, acc, from, mid), from + ChunkSize, k - 1);
        SetInOrderSplit(keys, values, acc, from, mid, Min(from + ChunkSize * k, |keys|));
      }
    }
  }

  /** The whole slice loop stores every position in input order. */
  lemma RunSlicesIsInOrder<V>(keys: seq<string>, values: seq<V>)
    requires |values| == |keys|
    ensures Within(Slices(|keys|), |keys|)
    ensures RunSlices(keys, values, map[], Slices(|keys|)) == SetInOrder(keys, values, map[], 0, |keys|)
  {
    var s := Slices(|keys|);
    SlicesFromShape(0, |keys|);
    RunSlicesPrefix(keys, values, map[], 0, |s|);
    assert s[..|s|] == s;
  }

  /** The stored keys are the stored addresses, added to those already present. */
  lemma {:induction false} SetInOrderKeys<V>(keys: seq<string>, values: seq<V>, acc: map<string, V>, lo: nat, hi: nat)
    requires |values| == |keys| && lo <= hi <= |keys|
    ensures SetInOrder(keys, values, acc, lo, hi).Keys == acc.Keys + set i | lo <= i < hi :: keys[i]
    decreases hi
  {
    if hi > lo {
      SetInOrderKeys(keys, values, acc, lo, hi - 1);
      var before := set i | lo <= i < hi - 1 :: keys[i];
      var after := set i | lo <= i < hi :: keys[i];
      assert after == before + {keys[hi - 1]};
    }
  }

  /** No later position repeats the key at position `i`. */
  predicate IsLastOccurrence(keys: seq<string>, i: nat)
    requires i < |keys|
  {
    forall j :: i < j < |keys| ==> keys[j] != keys[i]
  }

  /** Last write wins: a key stored at position `i` and not again before
      `hi` keeps the value of position `i`. */
  lemma {:induction false} SetInOrderLastWins<V>(keys: seq<string>, values: seq<V>, acc: map<string, V>, lo: nat, hi: nat, i: nat)
    requires |values| == |keys| && lo <= i < hi <= |keys|
    requires forall j :: i < j < hi ==> keys[j] != keys[i]
    ensures keys[i] in SetInOrder(keys, values, acc, lo, hi)
    ensures SetInOrder(keys, values, acc, lo, hi)[keys[i]] == values[i]
    decreases hi
  {
    if i < hi - 1 {
      SetInOrderLastWins(keys, values, acc, lo, hi - 1, i);
    }
  }

  /** The slice loop's map: exactly the input keys, each holding the value of
      its last occurrence. */
  lemma BatchMap<V>(keys: seq<string>, values: seq<V>)
    requires |values| == |keys|
    ensures Within(Slices(|keys|), |keys|)
    ensures RunSlices(keys, values, map[], Slices(|keys|)).Keys == set i | 0 <= i < |keys| :: keys[i]
    ensures forall i :: 0 <= i < |keys| && IsLastOccurrence(keys, i) ==>
      RunSlices(keys, values, map[], Slices(|keys|))[keys[i]] == values[i]
  {
    RunSlicesIsInOrder(keys, values);
    SetInOrderKeys(keys, values, map[], 0, |keys|);
    forall i | 0 <= i < |keys| && IsLastOccurrence(keys, i)
      ensures SetInOrder(keys, values, map[], 0, |keys|)[keys[i]] == values[i]
    {
      SetInOrderLastWins(keys, values, map[], 0, |keys|, i);
    }
  }

  /** The result of the check of input position `i`. */
  function CheckAt(b: BatchInput, i: nat): EligibilityCheck
    requires i < |b.addresses|
  {
    ValidateEligibility(b.views(i), b.addresses[i], b.circleId).check
  }

  /** The results of all checks, by input position. */
  function Checks(b: BatchInput): (r: seq<EligibilityCheck>)
    ensures |r| == |b.addresses|
  {
    seq(|b.addresses|, i requires 0 <= i < |b.addresses| => CheckAt(b, i))
  }

  /** The batch operation over all input positions. */
  function BatchCheckEligibility(b: BatchInput): (r: BatchRun)
    // the rounds are the slices of ten, ceil(n/10) of them, none larger than ten
    ensures |r.rounds| == (|b.addresses| + ChunkSize - 1) / ChunkSize
    ensures forall k :: 0 <= k < |r.rounds| ==>
      r.rounds[k].start == ChunkSize * k && 1 <= r.rounds[k].end - r.rounds[k].start <= ChunkSize
    // every input position is checked exactly once, in input order
    ensures Positions(r.rounds) == Range(0, |b.addresses|)
    // one entry per distinct input address, nothing else
    ensures r.results.Keys == set i | 0 <= i < |b.addresses| :: b.addresses[i]
    // a repeated address keeps the result of its last occurrence
    ensures forall i :: 0 <= i < |b.addresses| && IsLastOccurrence(b.addresses, i) ==>
      r.results[b.addresses[i]] == CheckAt(b, i)
  {
    SlicesCover(|b.addresses|);
    PositionsOfSlices(0, |b.addresses|);
    BatchMap(b.addresses, Checks(b));
    BatchRun(RunSlices(b.addresses, Checks(b), map[], Slices(|b.addresses|)), Slices(|b.addresses|))
  }

  /** Each slice is settled before the next: after the first `k` rounds the
      results hold exactly the first `min(10k, n)` positions, stored in order. */
  lemma SettledAfterRounds(b: BatchInput, k: nat)
    requires k <= |Slices(|b.addresses|)|
    ensures Within(Slices(|b.addresses|)[..k], |b.addresses|)
    ensures RunSlices(b.addresses, Checks(b), map[], Slices(|b.addresses|)[..k]) ==
      SetInOrder(b.addresses, Checks(b), map[], 0, Min(ChunkSize * k, |b.addresses|))
  {
    RunSlicesSettled(b.addresses, Checks(b), k);
  }

  /** `SettledAfterRounds` for any stored values. */
  lemma RunSlicesSettled<V>(keys: seq<string>, values: seq<V>, k: nat)
    requires |values| == |keys| && k <= |Slices(|keys|)|
    ensures Within(Slices(|keys|)[..k], |keys|)
    ensures RunSlices(keys, values, map[], Slices(|keys|)[..k]) ==
      SetInOrder(keys, values, map[], 0, Min(ChunkSize * k, |keys|))
  {
    RunSlicesPrefix(keys, values, map[], 0, k);
  }
}
