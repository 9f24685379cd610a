/**
 * Splitting a work list of circuits, each with its key, into batches no
 * larger than a backend accepts, and submitting every batch as one job.
 */
module Batching {
  import opened Wrappers
  import opened Jobs
  import opened Testing

  /** `BatchWithKey`: the circuits of one batch and their keys. */
  datatype BatchWithKey<C, K> = BatchWithKey(circuits: seq<C>, keys: seq<K>)

  /** `BatchJob`: the job that runs one batch, and the keys of its circuits. */
  datatype BatchJob<K> = BatchJob(job: Job, keys: seq<K>)

  /** `math.ceil(n / 0)` raises. */
  datatype BatchingError = ZeroDivisionError

  function Min(a: int, b: int): int
  {
    if a <= b then a else b
  }

  // ---------------------------------------------------------------- arithmetic

  /** `math.ceil(n / k)` for a non-zero `k`, in integer arithmetic. */
  function CeilDiv(n: nat, k: int): int
    requires k != 0
  {
    if k > 0 then (n + k - 1) / k else -(n / -k)
  }

  lemma {:induction false} MulStrict(a: nat, b: nat, k: nat)
    requires a < b
    ensures a * k + k <= b * k
    decreases b - a
  {
    if a + 1 < b {
      MulStrict(a + 1, b, k);
    }
    assert (a + 1) * k == a * k + k;
  }

  /** Euclidean division is determined by its defining inequalities. */
  lemma DivUnique(x: nat, k: nat, q: nat)
    requires k > 0 && q * k <= x < q * k + k
    ensures x / k == q
  {
    var q' := x / k;
    assert q' * k <= x < q' * k + k;
    if q' < q {
      MulStrict(q', q, k);
    } else if q' > q {
      MulStrict(q, q', k);
    }
  }

  /**
   * `CeilDiv` is the ceiling of the quotient: for a positive `k` the least
   * number of batches of `k` that holds `n` items, and never positive for a
   * negative `k`.
   */
  lemma CeilDivIsCeiling(n: nat, k: int)
    requires k != 0
    ensures k > 0 ==> CeilDiv(n, k) >= 0 && CeilDiv(n, k) * k >= n && (CeilDiv(n, k) - 1) * k < n
    ensures k < 0 ==> CeilDiv(n, k) <= 0
  {
    if k > 0 {
      var q := CeilDiv(n, k);
      assert q * k <= n + k - 1 < q * k + k;
      assert (q - 1) * k == q * k - k;
    }
  }

  /** Taking one batch off `rem > 0` items leaves one batch fewer. */
  lemma CeilDivStep(rem: nat, k: nat)
    requires rem > 0 && k > 0
    ensures CeilDiv(rem, k) >= 1
    ensures CeilDiv(rem - Min(k, rem), k) == CeilDiv(rem, k) - 1
  {
    if rem <= k {
      DivUnique(rem + k - 1, k, 1);
      DivUnique(k - 1, k, 0);
    } else {
      var q := (rem - 1) / k;
      assert q * k <= rem - 1 < q * k + k;
      DivUnique(rem - 1, k, q);
      DivUnique(rem + k - 1, k, q + 1);
    }
  }

  lemma CeilDivZero(k: nat)
    requires k > 0
    ensures CeilDiv(0, k) == 0
  {
    DivUnique(k - 1, k, 0);
  }

  // ---------------------------------------------------------------- specification

  /** `list(islice(it, k))`: at most `k` items from the front. */
  function Take<T>(s: seq<T>, k: nat): seq<T>
  {
    s[..Min(k, |s|)]
  }

  /** What remains of the iterator afterwards. */
  function Drop<T>(s: seq<T>, k: nat): seq<T>
  {
    s[Min(k, |s|)..]
  }

  /**
   * The batches for a positive limit `k`: one per slice of `k` circuits; the
   * keys are sliced alongside, from their own iterator, so that each batch
   * takes the next `k` keys.
   */
  function Chunks<C, K>(circuits: seq<C>, keys: seq<K>, k: nat): seq<BatchWithKey<C, K>>
    requires k > 0
    decreases |circuits|
  {
    if |circuits| == 0 then []
    else [BatchWithKey(Take(circuits, k), Take(keys, k))] + Chunks(Drop(circuits, k), Drop(keys, k), k)
  }

  /**
   * What `batch_circuits_with_keys` returns: without a limit, one batch with
   * everything; with a limit of 0, the division raises; with a negative
   * limit, the number of batches is not positive and there are none.
   */
  function Batches<C, K>(circuits: seq<C>, keys: seq<K>, maxCircuitsPerBatch: Option<int>): Result<seq<BatchWithKey<C, K>>, BatchingError>
  {
    match maxCircuitsPerBatch
    case None => Success([BatchWithKey(circuits, keys)])
    case Some(k) =>
      if k == 0 then Failure(ZeroDivisionError)
      else if k < 0 then Success([])
      else Success(Chunks(circuits, keys, k))
  }

  // ---------------------------------------------------------------- the split

  /** The batches from positions `c` and `i` on: the next slice, then the batches of the rest. */
  lemma ChunksFrom<C, K>(circuits: seq<C>, keys: seq<K>, k: nat, c: nat, i: nat)
    requires k > 0 && c < |circuits| && i <= |keys|
    ensures var ce := Min(c + k, |circuits|);
            var ke := Min(i + k, |keys|);
            Chunks(circuits[c..], keys[i..], k)
            == [BatchWithKey(circuits[c..ce], keys[i..ke])] + Chunks(circuits[ce..], keys[ke..], k)
  {
    var ce := Min(c + k, |circuits|);
    var ke := Min(i + k, |keys|);
    assert Take(circuits[c..], k) == circuits[c..ce];
    assert Take(keys[i..], k) == keys[i..ke];
    assert Drop(circuits[c..], k) == circuits[ce..];
    assert Drop(keys[i..], k) == keys[ke..];
  }

  /**
   * `batch_circuits_with_keys`: the number of batches is computed first, then
   * each batch takes the next slice from the circuits and from the keys.
   */
  method BatchCircuitsWithKeys<C, K>(circuits: seq<C>, keys: seq<K>, maxCircuitsPerBatch: Option<int>)
    returns (r: Result<seq<BatchWithKey<C, K>>, BatchingError>)
    ensures r == Batches(circuits, keys, maxCircuitsPerBatch)
  {
    if maxCircuitsPerBatch.None? {
      return Success([BatchWithKey(circuits, keys)]);
    }
    var k := maxCircuitsPerBatch.value;
    if k == 0 {
      return Failure(ZeroDivisionError);
    }
    var numBatches := CeilDiv(|circuits|, k);
    CeilDivIsCeiling(|circuits|, k);
    var batches: seq<BatchWithKey<C, K>> := [];
    var nextCircuit := 0;
    var nextKey := 0;
    var b := 0;
    while b < numBatches
      invariant k < 0 ==> b == 0 && batches == []
      invariant k > 0 ==> 0 <= b <= numBatches
      invariant nextCircuit <= |circuits| && nextKey <= |keys|
      invariant k > 0 ==> CeilDiv(|circuits| - nextCircuit, k) == numBatches - b
      invariant k > 0 ==> batches + Chunks(circuits[nextCircuit..], keys[nextKey..], k) == Chunks(circuits, keys, k)
      decreases numBatches - b
    {
      var rem := |circuits| - nextCircuit;
      if rem == 0 {
        CeilDivZero(k);
      }
      CeilDivStep(rem, k);
      var circuitEnd := Min(nextCircuit + k, |circuits|);
      var keyEnd := Min(nextKey + k, |keys|);
      var batch := BatchWithKey(circuits[nextCircuit..circuitEnd], keys[nextKey..keyEnd]);
      ChunksFrom(circuits, keys, k, nextCircuit, nextKey);
      assert batches + [batch] + Chunks(circuits[circuitEnd..], keys[keyEnd..], k)
          == batches + ([batch] + Chunks(circuits[circuitEnd..], keys[keyEnd..], k));
      batches := batches + [batch];
      nextCircuit := circuitEnd;
      nextKey := keyEnd;
      b := b + 1;
    }
    if k > 0 {
      if |circuits| - nextCircuit > 0 {
        CeilDivStep(|circuits| - nextCircuit, k);
      }
      assert batches == Chunks(circuits, keys, k);
    }
    return Success(batches);
  }

  // ---------------------------------------------------------------- properties of the split

  /** There are `ceil(n / k)` batches of `n` circuits. */
  lemma {:induction false} ChunkCount<C, K>(circuits: seq<C>, keys: seq<K>, k: nat)
    requires k > 0
    ensures |Chunks(circuits, keys, k)| == CeilDiv(|circuits|, k)
    decreases |circuits|
  {
    if |circuits| == 0 {
      CeilDivZero(k);
    } else {
      ChunkCount(Drop(circuits, k), Drop(keys, k), k);
      CeilDivStep(|circuits|, k);
    }
  }

  /** The `j`-th batch of a full stretch holds the `j`-th slice of `k` circuits and the `k` keys beside them. */
  lemma ChunkAt<C, K>(circuits: seq<C>, keys: seq<K>, k: nat, j: nat)
    requires k > 0 && |keys| == |circuits| && j * k + k <= |circuits|
    ensures j < |Chunks(circuits, keys, k)|
    ensures Chunks(circuits, keys, k)[j] == BatchWithKey(circuits[j * k..j * k + k], keys[j * k..j * k + k])
  {
    StrideIsProduct(j, k);
    ChunkAtOffset(circuits, keys, k, j, j * k);
  }

  /** The offset of the `j`-th batch, `j` strides of `k`, without a product. */
  function Stride(j: nat, k: nat): nat
  {
    if j == 0 then 0 else Stride(j - 1, k) + k
  }

  lemma {:induction false} StrideIsProduct(j: nat, k: nat)
    ensures Stride(j, k) == j * k
  {
    if j > 0 {
      StrideIsProduct(j - 1, k);
      MulPred(j, k);
    }
  }

  lemma MulPred(j: nat, k: nat)
    requires j > 0
    ensures (j - 1) * k == j * k - k
  {
  }

  lemma {:induction false} ChunkAtOffset<C, K>(circuits: seq<C>, keys: seq<K>, k: nat, j: nat, o: nat)
    requires k > 0 && |keys| == |circuits| && o == Stride(j, k) && o + k <= |circuits|
    ensures j < |Chunks(circuits, keys, k)|
    ensures Chunks(circuits, keys, k)[j] == BatchWithKey(circuits[o..o + k], keys[o..o + k])
  {
    var rest := Chunks(Drop(circuits, k), Drop(keys, k), k);
    assert Chunks(circuits, keys, k) == [BatchWithKey(Take(circuits, k), Take(keys, k))] + rest;
    if j > 0 {
      ChunkAtOffset(Drop(circuits, k), Drop(keys, k), k, j - 1, o - k);
      DropSlice(circuits, k, o);
      DropSlice(keys, k, o);
    }
  }

  lemma DropSlice<T>(s: seq<T>, k: nat, o: nat)
    requires k <= o && o + k <= |s|
    ensures Drop(s, k)[o - k..o] == s[o..o + k]
  {
  }

  /** Every batch but the last holds exactly `k` circuits; the last holds between 1 and `k`. */
  lemma {:induction false} ChunkSizes<C, K>(circuits: seq<C>, keys: seq<K>, k: nat)
    requires k > 0
    ensures var bs := Chunks(circuits, keys, k);
            && (forall j :: 0 <= j < |bs| - 1 ==> |bs[j].circuits| == k)
            && (|bs| > 0 ==> 1 <= |bs[|bs| - 1].circuits| <= k)
    decreases |circuits|
  {
    if |circuits| > 0 {
      var rest := Chunks(Drop(circuits, k), Drop(keys, k), k);
      ChunkSizes(Drop(circuits, k), Drop(keys, k), k);
      if |rest| > 0 {
        assert |Drop(circuits, k)| > 0;
      }
    }
  }

  function FlattenCircuits<C, K>(bs: seq<BatchWithKey<C, K>>): seq<C>
  {
    if |bs| == 0 then [] else bs[0].circuits + FlattenCircuits(bs[1..])
  }

  function FlattenKeys<C, K>(bs: seq<BatchWithKey<C, K>>): seq<K>
  {
    if |bs| == 0 then [] else bs[0].keys + FlattenKeys(bs[1..])
  }

  /**
   * The batches put together give back the circuits, and the keys as far as
   * the batches reach: all of them when there are no more keys than circuits.
   */
  lemma {:induction false} ChunksPartition<C, K>(circuits: seq<C>, keys: seq<K>, k: nat)
    requires k > 0
    ensures FlattenCircuits(Chunks(circuits, keys, k)) == circuits
    ensures FlattenKeys(Chunks(circuits, keys, k)) <= keys
    ensures |keys| <= |circuits| ==> FlattenKeys(Chunks(circuits, keys, k)) == keys
    decreases |circuits|
  {
    if |circuits| > 0 {
      var bs := Chunks(circuits, keys, k);
      ChunksPartition(Drop(circuits, k), Drop(keys, k), k);
      assert bs[1..] == Chunks(Drop(circuits, k), Drop(keys, k), k);
      assert circuits == Take(circuits, k) + Drop(circuits, k);
      assert keys == Take(keys, k) + Drop(keys, k);
      if |keys| <= |circuits| {
        assert |Drop(keys, k)| <= |Drop(circuits, k)|;
      }
    } else if |keys| <= |circuits| {
      assert keys == [];
    }
  }

  /** `list(zip(xs, ys))`. */
  function Zip<A, B>(xs: seq<A>, ys: seq<B>): (zs: seq<(A, B)>)
    ensures |zs| == Min(|xs|, |ys|)
    ensures forall i :: 0 <= i < |zs| ==> zs[i] == (xs[i], ys[i])
  {
    seq(Min(|xs|, |ys|), i requires 0 <= i < Min(|xs|, |ys|) => (xs[i], ys[i]))
  }

  /** The circuit-key pairs of every batch, in batch order. */
  function FlattenPairs<C, K>(bs: seq<BatchWithKey<C, K>>): seq<(C, K)>
  {
    if |bs| == 0 then [] else Zip(bs[0].circuits, bs[0].keys) + FlattenPairs(bs[1..])
  }

  /**
   * With one key per circuit, every batch has as many keys as circuits, and
   * pairing each batch's keys with its circuits gives exactly the original
   * pairing: the key at position j of a batch belongs to its j-th circuit.
   */
  lemma {:induction false} ChunksKeepCorrespondence<C, K>(circuits: seq<C>, keys: seq<K>, k: nat)
    requires k > 0 && |keys| == |circuits|
    ensures forall j :: 0 <= j < |Chunks(circuits, keys, k)| ==>
              |Chunks(circuits, keys, k)[j].circuits| == |Chunks(circuits, keys, k)[j].keys|
    ensures FlattenPairs(Chunks(circuits, keys, k)) == Zip(circuits, keys)
    decreases |circuits|
  {
    if |circuits| > 0 {
      var bs := Chunks(circuits, keys, k);
      ChunksKeepCorrespondence(Drop(circuits, k), Drop(keys, k), k);
      assert bs[1..] == Chunks(Drop(circuits, k), Drop(keys, k), k);
      forall j | 0 <= j < |bs|
        ensures |bs[j].circuits| == |bs[j].keys|
      {
        if j > 0 {
          assert bs[j] == bs[1..][j - 1];
        }
      }
      var m := Min(k, |circuits|);
      assert Zip(circuits, keys) == Zip(Take(circuits, k), Take(keys, k)) + Zip(Drop(circuits, k), Drop(keys, k)) by {
        forall i | 0 <= i < |circuits|
          ensures Zip(circuits, keys)[i] == (Zip(Take(circuits, k), Take(keys, k)) + Zip(Drop(circuits, k), Drop(keys, k)))[i]
        {
          if i >= m {
            assert Drop(circuits, k)[i - m] == circuits[i];
            assert Drop(keys, k)[i - m] == keys[i];
          }
        }
      }
    }
  }

  /** Number of circuits in each batch. */
  function Sizes<C, K>(bs: seq<BatchWithKey<C, K>>): (ns: seq<nat>)
    ensures |ns| == |bs| && forall j :: 0 <= j < |bs| ==> ns[j] == |bs[j].circuits|
  {
    seq(|bs|, j requires 0 <= j < |bs| => |bs[j].circuits|)
  }

  /** `k` for each full slice of `n`, then the remainder if any. */
  function ExpectedSizes(n: nat, k: nat): seq<nat>
    requires k > 0
    decreases n
  {
    if n == 0 then [] else [Min(k, n)] + ExpectedSizes(n - Min(k, n), k)
  }

  /** The batch sizes depend only on the number of circuits. */
  lemma {:induction false} ChunkSizesAreExpected<C, K>(circuits: seq<C>, keys: seq<K>, k: nat)
    requires k > 0
    ensures Sizes(Chunks(circuits, keys, k)) == ExpectedSizes(|circuits|, k)
    decreases |circuits|
  {
    if |circuits| > 0 {
      var bs := Chunks(circuits, keys, k);
      ChunkSizesAreExpected(Drop(circuits, k), Drop(keys, k), k);
      assert bs[1..] == Chunks(Drop(circuits, k), Drop(keys, k), k);
      assert Sizes(bs) == [Min(k, |circuits|)] + Sizes(bs[1..]);
    }
  }

  /** The batch sizes of the batching tests: 5 by 2, 10 by 3, 8 by 4, and 10 without a limit. */
  lemma BatchSizeExamples<C, K>(five: seq<C>, ten: seq<C>, eight: seq<C>, keys: seq<K>)
    requires |five| == 5 && |ten| == 10 && |eight| == 8
    ensures Batches(five, keys, Some(2)).Success? && Sizes(Batches(five, keys, Some(2)).value) == [2, 2, 1]
    ensures Batches(ten, keys, Some(3)).Success? && Sizes(Batches(ten, keys, Some(3)).value) == [3, 3, 3, 1]
    ensures Batches(eight, keys, Some(4)).Success? && Sizes(Batches(eight, keys, Some(4)).value) == [4, 4]
    ensures Batches(ten, keys, None).Success? && Sizes(Batches(ten, keys, None).value) == [10]
  {
    ChunkSizesAreExpected(five, keys, 2);
    ChunkSizesAreExpected(ten, keys, 3);
    ChunkSizesAreExpected(eight, keys, 4);
    assert ExpectedSizes(5, 2) == [2, 2, 1];
    assert ExpectedSizes(10, 3) == [3, 3, 3, 1];
    assert ExpectedSizes(8, 4) == [4, 4];
  }

  // ---------------------------------------------------------------- submission

  /** The circuits and shots of one `run` per batch, in batch order. */
  function Requests<C, K>(bs: seq<BatchWithKey<C, K>>, shots: nat): (rs: seq<(seq<C>, nat)>)
    ensures |rs| == |bs| && forall j :: 0 <= j < |bs| ==> rs[j] == (bs[j].circuits, shots)
  {
    seq(|bs|, j requires 0 <= j < |bs| => (bs[j].circuits, shots))
  }

  /** One more batch adds its request at the end. */
  lemma RequestsSnoc<C, K>(bs: seq<BatchWithKey<C, K>>, shots: nat, i: nat, before: seq<(seq<C>, nat)>)
    requires i < |bs|
    ensures before + Requests(bs[..i], shots) + [(bs[i].circuits, shots)] == before + Requests(bs[..i + 1], shots)
  {
    var r := Requests(bs[..i + 1], shots);
    assert r == Requests(bs[..i], shots) + [(bs[i].circuits, shots)];
  }

  /** The batch jobs of `bs` when the backend had issued `start` jobs before: the j-th is run `start + j`. */
  function Submitted<C, K>(backend: MockSimulator<C>, start: nat, bs: seq<BatchWithKey<C, K>>, shots: nat): (jobs: seq<BatchJob<K>>)
    ensures |jobs| == |bs|
    ensures forall j :: 0 <= j < |bs| ==> jobs[j] == BatchJob(backend.JobFor(start + j, bs[j].circuits, shots), bs[j].keys)
  {
    seq(|bs|, j requires 0 <= j < |bs| => BatchJob(backend.JobFor(start + j, bs[j].circuits, shots), bs[j].keys))
  }

  /** One more batch adds its job at the end. */
  lemma SubmittedSnoc<C, K>(backend: MockSimulator<C>, start: nat, bs: seq<BatchWithKey<C, K>>, shots: nat, i: nat, jobs: seq<BatchJob<K>>)
    requires i < |bs|
    requires jobs == Submitted(backend, start, bs[..i], shots)
    ensures jobs + [BatchJob(backend.JobFor(start + i, bs[i].circuits, shots), bs[i].keys)] == Submitted(backend, start, bs[..i + 1], shots)
  {
  }

  /**
   * `execute_in_batches`: one `run` per batch, in batch order, each with the
   * given number of shots; the i-th job carries the keys of the i-th batch.
   * A limit of 0 raises before anything is submitted.
   */
  method ExecuteInBatches<C, K>(backend: MockSimulator<C>, circuits: seq<C>, keys: seq<K>, shots: nat, batchSize: Option<int>)
    returns (r: Result<seq<BatchJob<K>>, BatchingError>)
    requires backend.Valid()
    modifies backend
    ensures backend.Valid()
    ensures r.Failure? <==> Batches(circuits, keys, batchSize).Failure?
    ensures r.Failure? ==> r.error == ZeroDivisionError && backend.jobCount == old(backend.jobCount) && backend.runs == old(backend.runs)
    ensures r.Success? ==>
              var bs := Batches(circuits, keys, batchSize).value;
              && backend.jobCount == old(backend.jobCount) + |bs|
              && r.value == Submitted(backend, old(backend.jobCount), bs, shots)
              && backend.runs == old(backend.runs) + Requests(bs, shots)
  {
    var batches := BatchCircuitsWithKeys(circuits, keys, batchSize);
    if batches.Failure? {
      return Failure(batches.error);
    }
    var jobs := SubmitBatches(backend, batches.value, shots);
    return Success(jobs);
  }

  /** The loop of `execute_in_batches`: one `run` per batch, in batch order. */
  method SubmitBatches<C, K>(backend: MockSimulator<C>, bs: seq<BatchWithKey<C, K>>, shots: nat) returns (jobs: seq<BatchJob<K>>)
    requires backend.Valid()
    modifies backend
    ensures backend.Valid()
    ensures backend.jobCount == old(backend.jobCount) + |bs|
    ensures jobs == Submitted(backend, old(backend.jobCount), bs, shots)
    ensures backend.runs == old(backend.runs) + Requests(bs, shots)
  {
    jobs := [];
    var i := 0;
    assert bs[..0] == [];
    while i < |bs|
      invariant 0 <= i <= |bs|
      invariant backend.Valid()
      invariant |jobs| == i
      invariant backend.jobCount == old(backend.jobCount) + i
      invariant jobs == Submitted(backend, old(backend.jobCount), bs[..i], shots)
      invariant backend.runs == old(backend.runs) + Requests(bs[..i], shots)
    {
      var batchJob := RunBatch(backend, bs[i], shots);
      RequestsSnoc(bs, shots, i, old(backend.runs));
      SubmittedSnoc(backend, old(backend.jobCount), bs, shots, i, jobs);
      jobs := jobs + [batchJob];
      i := i + 1;
    }
    assert bs[..i] == bs;
  }

  /** One `run` of the loop: the batch's circuits go out, and its keys stay beside the job. */
  method RunBatch<C, K>(backend: MockSimulator<C>, batch: BatchWithKey<C, K>, shots: nat) returns (batchJob: BatchJob<K>)
    requires backend.Valid()
    modifies backend
    ensures backend.Valid()
    ensures batchJob == BatchJob(backend.JobFor(old(backend.jobCount), batch.circuits, shots), batch.keys)
    ensures backend.jobCount == old(backend.jobCount) + 1
    ensures backend.runs == old(backend.runs) + [(batch.circuits, shots)]
  {
    var job := backend.Run(batch.circuits, shots);
    batchJob := BatchJob(job, batch.keys);
  }
}
