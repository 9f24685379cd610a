/** The marginal counter over a histogram of measured bitstrings. */
module Utils {
  import opened Wrappers
  import opened CommonModels

  /** The exceptions `count_specific_measurements` can raise. */
  datatype CountError = IndexError | ValueError

  /** Python's `s[index]` for one character: negative indices count from the end. */
  function CharAt(s: string, index: int): (r: Result<char, CountError>)
    ensures r.Success? <==> -|s| <= index < |s|
    ensures r.Success? ==> r.value == s[if index < 0 then index + |s| else index]
  {
    var k := if index < 0 then index + |s| else index;
    if 0 <= k < |s| then Success(s[k]) else Failure(IndexError)
  }

  predicate IsDigit(c: char)
  {
    '0' <= c <= '9'
  }

  /** Total of all counts of a histogram. */
  function Total(counts: Histogram): int
  {
    if |counts| == 0 then 0 else counts[0].1 + Total(counts[1..])
  }

  /** Every bitstring has a character at `index`, and that character is a decimal digit. */
  predicate Readable(counts: Histogram, index: int)
  {
    forall k :: 0 <= k < |counts| ==> CharAt(counts[k].0, index).Success? && IsDigit(CharAt(counts[k].0, index).value)
  }

  /** The character at `index` of every bitstring is 0 or 1. */
  predicate BinaryAt(counts: Histogram, index: int)
  {
    forall k :: 0 <= k < |counts| ==> CharAt(counts[k].0, index).Success? && IsBinaryDigit(CharAt(counts[k].0, index).value)
  }

  predicate NonNegativeCounts(counts: Histogram)
  {
    forall k :: 0 <= k < |counts| ==> counts[k].1 >= 0
  }

  /** The entries whose character at `index` is the digit `value`. */
  function Matching(counts: Histogram, index: int, value: int): (m: Histogram)
    ensures |m| <= |counts|
    ensures forall e :: e in m ==> e in counts
  {
    if |counts| == 0 then []
    else
      var c := CharAt(counts[0].0, index);
      var rest := Matching(counts[1..], index, value);
      if c.Success? && IsDigit(c.value) && c.value as int - '0' as int == value then [counts[0]] + rest else rest
  }

  /** Adding two counting outcomes: the first error wins, then the second's, and otherwise the sums add up. */
  function AddCounts(x: Result<int, CountError>, y: Result<int, CountError>): (r: Result<int, CountError>)
    ensures r.Success? <==> x.Success? && y.Success?
    ensures r.Success? ==> r.value == x.value + y.value
    ensures x.Failure? ==> r == x
  {
    match x
    case Failure(e) => Failure(e)
    case Success(u) => (
      match y
      case Failure(e) => Failure(e)
      case Success(v) => Success(u + v))
  }

  /** Adding outcomes is associative, errors included. */
  lemma AddCountsAssociative(x: Result<int, CountError>, y: Result<int, CountError>, z: Result<int, CountError>)
    ensures AddCounts(AddCounts(x, y), z) == AddCounts(x, AddCounts(y, z))
  {
  }

  /** What the first entry of a histogram adds to the count. */
  function CountHead(entry: (string, int), qubitIndex: int, qubitValue: int): (r: Result<int, CountError>)
    ensures r.Success? <==> CharAt(entry.0, qubitIndex).Success? && IsDigit(CharAt(entry.0, qubitIndex).value)
  {
    match CharAt(entry.0, qubitIndex)
    case Failure(e) => Failure(e)
    case Success(c) =>
      if !IsDigit(c) then Failure(ValueError)
      else Success(if c as int - '0' as int == qubitValue then entry.1 else 0)
  }

  /**
   * `count_specific_measurements`: the sum of the counts of the bitstrings
   * whose character at `qubitIndex` reads as `qubitValue`. The items are
   * visited in order, so the first unreadable bitstring decides the error.
   */
  function CountSpecificMeasurements(counts: Histogram, qubitIndex: int, qubitValue: int): (r: Result<int, CountError>)
    ensures r.Success? <==> Readable(counts, qubitIndex)
    ensures |counts| == 0 ==> r == Success(0)
    ensures r.Success? ==> r.value == Total(Matching(counts, qubitIndex, qubitValue))
    ensures r.Success? && NonNegativeCounts(counts) ==> 0 <= r.value <= Total(counts)
  {
    if |counts| == 0 then Success(0)
    else
      var head := CountHead(counts[0], qubitIndex, qubitValue);
      var rest := CountSpecificMeasurements(counts[1..], qubitIndex, qubitValue);
      assert head.Success? && rest.Success? ==> Readable(counts, qubitIndex) by {
        if head.Success? && rest.Success? {
          forall k | 1 <= k < |counts|
            ensures CharAt(counts[k].0, qubitIndex).Success? && IsDigit(CharAt(counts[k].0, qubitIndex).value)
          {
            assert counts[k] == counts[1..][k - 1];
          }
        }
      }
      AddCounts(head, rest)
  }

  /** One step of the count: the first entry, then the rest. */
  lemma CountStep(counts: Histogram, qubitIndex: int, qubitValue: int)
    requires |counts| > 0
    ensures CountSpecificMeasurements(counts, qubitIndex, qubitValue) ==
      AddCounts(CountHead(counts[0], qubitIndex, qubitValue), CountSpecificMeasurements(counts[1..], qubitIndex, qubitValue))
  {
  }

  /**
   * Counting over two histograms one after the other: the first histogram's
   * error wins, then the second's, and otherwise the two sums add up.
   */
  lemma {:induction false} CountAppend(a: Histogram, b: Histogram, qubitIndex: int, qubitValue: int)
    ensures CountSpecificMeasurements(a + b, qubitIndex, qubitValue) ==
      AddCounts(CountSpecificMeasurements(a, qubitIndex, qubitValue), CountSpecificMeasurements(b, qubitIndex, qubitValue))
  {
    if |a| == 0 {
      assert a + b == b;
    } else {
      var ab := a + b;
      assert ab[1..] == a[1..] + b;
      assert ab[0] == a[0];
      var head := CountHead(a[0], qubitIndex, qubitValue);
      var x := CountSpecificMeasurements(a[1..], qubitIndex, qubitValue);
      var y := CountSpecificMeasurements(b, qubitIndex, qubitValue);
      CountAppend(a[1..], b, qubitIndex, qubitValue);
      CountStep(a, qubitIndex, qubitValue);
      CountStep(ab, qubitIndex, qubitValue);
      AddCountsAssociative(head, x, y);
    }
  }

  /** One entry counts its own count exactly when its character at the index is the digit asked for. */
  lemma CountOne(bitstring: string, count: int, qubitIndex: int, qubitValue: int)
    ensures CountSpecificMeasurements([(bitstring, count)], qubitIndex, qubitValue) ==
      match CharAt(bitstring, qubitIndex)
      case Failure(e) => Failure(e)
      case Success(c) =>
        if !IsDigit(c) then Failure(ValueError)
        else Success(if c as int - '0' as int == qubitValue then count else 0)
  {
    assert [(bitstring, count)][1..] == [];
  }

  /** For binary bitstrings, the counts for 0 and for 1 at the same position add up to the total. */
  lemma {:induction false} ZeroAndOneCountsPartitionTotal(counts: Histogram, qubitIndex: int)
    requires BinaryAt(counts, qubitIndex)
    ensures CountSpecificMeasurements(counts, qubitIndex, 0).Success?
    ensures CountSpecificMeasurements(counts, qubitIndex, 1).Success?
    ensures CountSpecificMeasurements(counts, qubitIndex, 0).value
            + CountSpecificMeasurements(counts, qubitIndex, 1).value == Total(counts)
    decreases |counts|
  {
    if |counts| > 0 {
      assert BinaryAt(counts[1..], qubitIndex) by {
        forall k | 0 <= k < |counts[1..]|
          ensures CharAt(counts[1..][k].0, qubitIndex).Success? && IsBinaryDigit(CharAt(counts[1..][k].0, qubitIndex).value)
        {
          assert counts[1..][k] == counts[k + 1];
        }
      }
      ZeroAndOneCountsPartitionTotal(counts[1..], qubitIndex);
      CountStep(counts, qubitIndex, 0);
      CountStep(counts, qubitIndex, 1);
      var c := CharAt(counts[0].0, qubitIndex).value;
      assert c == '0' || c == '1';
      assert CountHead(counts[0], qubitIndex, 0).value + CountHead(counts[0], qubitIndex, 1).value == counts[0].1;
    }
  }

  /** The histograms of the utility tests. */
  lemma CountExamples()
    ensures CountSpecificMeasurements([("11", 30), ("01", 20), ("00", 5)], 0, 0) == Success(25)
    ensures CountSpecificMeasurements([("01", 20), ("00", 5)], 0, 1) == Success(0)
    ensures CountSpecificMeasurements([("01", 2), ("11", 5)], 1, 1) == Success(7)
  {
    ThreeEntryExample();
    SecondQubitZeroExample();
    SecondIndexExample();
  }

  /** The first histogram of the test, counted entry by entry. */
  lemma ThreeEntryExample()
    ensures CountSpecificMeasurements([("11", 30), ("01", 20), ("00", 5)], 0, 0) == Success(25)
  {
    var h1: Histogram := [("11", 30), ("01", 20), ("00", 5)];
    assert h1[1..] == [("01", 20), ("00", 5)];
    assert h1[1..][1..] == [("00", 5)];
    assert |h1[1..][1..][1..]| == 0;
    CountStep(h1, 0, 0);
    CountStep(h1[1..], 0, 0);
    CountStep(h1[1..][1..], 0, 0);
    assert CountHead(h1[0], 0, 0) == Success(0);
    assert CountHead(h1[1], 0, 0) == Success(20);
    assert CountHead(h1[2], 0, 0) == Success(5);
  }

  /** The second histogram of the test, counted entry by entry. */
  lemma SecondQubitZeroExample()
    ensures CountSpecificMeasurements([("01", 20), ("00", 5)], 0, 1) == Success(0)
  {
    var h2: Histogram := [("01", 20), ("00", 5)];
    assert h2[1..] == [("00", 5)];
    assert |h2[1..][1..]| == 0;
    CountStep(h2, 0, 1);
    CountStep(h2[1..], 0, 1);
    assert CountHead(h2[0], 0, 1) == Success(0);
    assert CountHead(h2[1], 0, 1) == Success(0);
  }

  /** The third histogram of the test, counted entry by entry. */
  lemma SecondIndexExample()
    ensures CountSpecificMeasurements([("01", 2), ("11", 5)], 1, 1) == Success(7)
  {
    var h3: Histogram := [("01", 2), ("11", 5)];
    assert h3[1..] == [("11", 5)];
    assert |h3[1..][1..]| == 0;
    CountStep(h3, 1, 1);
    CountStep(h3[1..], 1, 1);
    assert CountHead(h3[0], 1, 1) == Success(2);
    assert CountHead(h3[1], 1, 1) == Success(5);
  }
}
