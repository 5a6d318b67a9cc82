/**
 * Scores computed from the manual-entry form, and the record that form builds.
 *
 * The performance score is target + contribution - reduction, passed through Python's
 * `int()`.  The competency score is the mode of the raters' scores, via
 * `statistics.mode`, which (since Python 3.8) counts the values in order of first
 * appearance and returns the first value with the highest count; it raises only on an
 * empty list, and the fallback `min` of an empty list raises in turn.
 */
module FormScores {
  import opened Wrappers
  import opened Bucketing
  import opened Frames
  import opened Categories

  // ---------------------------------------------------------------------------
  // hitung_nilai_p

  /** Python's `int()` on a number: truncation toward zero. */
  function TruncateTowardZero(x: real): (r: int)
    ensures x >= 0.0 ==> 0 <= r && r as real <= x < r as real + 1.0
    ensures x < 0.0 ==> r <= 0 && r as real - 1.0 < x <= r as real
  {
    if x >= 0.0 then x.Floor else -((-x).Floor)
  }

  /**
   * `hitung_nilai_p`: int(target + contribution - reduction).  The score is the sum itself when
   * that is a whole number; otherwise the sum truncated toward zero.
   */
  function HitungNilaiP(sasaran: real, kontribusi: real, pengurangan: real): (r: int)
    ensures var x := sasaran + kontribusi - pengurangan; x == x.Floor as real ==> r as real == x
    ensures var x := sasaran + kontribusi - pengurangan; -1.0 < r as real - x < 1.0
    ensures var x := sasaran + kontribusi - pengurangan;
      (x >= 0.0 ==> 0 <= r && r as real <= x) && (x <= 0.0 ==> r <= 0 && x <= r as real)
  {
    TruncateTowardZero(sasaran + kontribusi - pengurangan)
  }

  /** On whole-number inputs the truncation does nothing: the score is target + contribution - reduction. */
  lemma HitungNilaiPOnIntegers(sasaran: int, kontribusi: int, pengurangan: int)
    ensures HitungNilaiP(sasaran as real, kontribusi as real, pengurangan as real)
      == sasaran + kontribusi - pengurangan
  {
  }

  /** With the form's bounds 0..110 on each input, the score lies between -110 and 220. */
  lemma HitungNilaiPOnFormInput(sasaran: int, kontribusi: int, pengurangan: int)
    requires 0 <= sasaran <= 110 && 0 <= kontribusi <= 110 && 0 <= pengurangan <= 110
    ensures -110 <= HitungNilaiP(sasaran as real, kontribusi as real, pengurangan as real) <= 220
  {
    HitungNilaiPOnIntegers(sasaran, kontribusi, pengurangan);
  }

  /** On integer inputs more contribution or less reduction never gives a worse P bucket. */
  lemma HitungNilaiPBucketMonotone(sasaran: int, k1: int, k2: int, r1: int, r2: int)
    requires k1 <= k2 && r2 <= r1
    ensures KategoriP(HitungNilaiP(sasaran as real, k2 as real, r2 as real) as real).1
      <= KategoriP(HitungNilaiP(sasaran as real, k1 as real, r1 as real) as real).1
  {
    var low := HitungNilaiP(sasaran as real, k1 as real, r1 as real);
    var high := HitungNilaiP(sasaran as real, k2 as real, r2 as real);
    assert low == sasaran + k1 - r1 && high == sasaran + k2 - r2;
    NumerisasiPMonotoneOnIntegers(low, high);
  }

  // ---------------------------------------------------------------------------
  // hitung_nilai_k

  /** Number of occurrences of x in s. */
  function Count(s: seq<int>, x: int): nat
  {
    multiset(s)[x]
  }

  /** m is a most frequent value of s. */
  ghost predicate IsMode(s: seq<int>, m: int)
  {
    m in s && forall x :: Count(s, x) <= Count(s, m)
  }

  /**
   * m is a most frequent value of s, and every other value with the same count appears
   * for the first time after m does: the value `statistics.mode` returns.
   */
  ghost predicate IsFirstMode(s: seq<int>, m: int)
  {
    && IsMode(s, m)
    && forall j :: 0 <= j < |s| && s[j] != m && Count(s, s[j]) == Count(s, m) ==> m in s[..j]
  }

  /** Index of the first occurrence of x in s. */
  function FirstIndex(s: seq<int>, x: int): (i: nat)
    requires x in s
    ensures i < |s| && s[i] == x && x !in s[..i]
  {
    if s[0] == x then 0 else
      var i := FirstIndex(s[1..], x) + 1;
      assert s[1..][..i - 1] == s[1..i];
      i
  }

  /** An occurrence before position j means the first occurrence is before j. */
  lemma FirstIndexBefore(s: seq<int>, x: int, j: nat)
    requires x in s && j <= |s|
    ensures x in s[..j] ==> FirstIndex(s, x) < j
  {
  }

  /** The two properties determine the result: a list has exactly one first mode. */
  lemma FirstModeUnique(s: seq<int>, m1: int, m2: int)
    requires IsFirstMode(s, m1) && IsFirstMode(s, m2)
    ensures m1 == m2
  {
    var i1, i2 := FirstIndex(s, m1), FirstIndex(s, m2);
    assert Count(s, m1) == Count(s, m2);
    FirstIndexBefore(s, m1, i2);
    FirstIndexBefore(s, m2, i1);
  }

  /** `Counter(ratings)`: the number of occurrences of every value that occurs. */
  method CountOccurrences(ratings: seq<int>) returns (counts: map<int, nat>)
    ensures forall x :: x in counts <==> x in ratings
    ensures forall x :: x in counts ==> counts[x] == Count(ratings, x)
  {
    counts := map[];
    var i := 0;
    while i < |ratings|
      invariant 0 <= i <= |ratings|
      invariant forall x :: x in counts <==> x in ratings[..i]
      invariant forall x :: x in counts ==> counts[x] == Count(ratings[..i], x)
    {
      var x := ratings[i];
      assert ratings[..i + 1] == ratings[..i] + [x];
      counts := counts[x := if x in counts then counts[x] + 1 else 1];
      i := i + 1;
    }
    assert ratings[..i] == ratings;
  }

  /**
   * `hitung_nilai_k`: the first most frequent rating.  None stands for the exception an
   * empty list raises (the fallback `min([])` raises too).  The fallback never returns a
   * value, so the "smallest" tie-break its comment describes does not happen.
   */
  method HitungNilaiK(ratings: seq<int>) returns (r: Option<int>)
    ensures r.None? <==> |ratings| == 0
    ensures r.Some? ==> IsFirstMode(ratings, r.value)
  {
    if |ratings| == 0 {
      return None;
    }
    var counts := CountOccurrences(ratings);
    // most_common(1): the first value, in order of appearance, with the highest count
    var best := ratings[0];
    var j := 1;
    while j < |ratings|
      invariant 1 <= j <= |ratings|
      invariant best in ratings[..j]
      invariant forall t :: 0 <= t < j ==> Count(ratings, ratings[t]) <= Count(ratings, best)
      invariant forall t ::
        (0 <= t < j && ratings[t] != best && Count(ratings, ratings[t]) == Count(ratings, best)) ==> best in ratings[..t]
    {
      var x := ratings[j];
      assert x in ratings;
      if counts[x] > counts[best] {
        best := x;
      }
      j := j + 1;
    }
    forall x ensures Count(ratings, x) <= Count(ratings, best) {
      if x in ratings {
        var t :| 0 <= t < |ratings| && ratings[t] == x;
      }
    }
    return Some(best);
  }

  /** A tie is broken by first appearance: [2, 1, 1, 2] has mode 2, not the smaller 1. */
  lemma TieGoesToFirstSeen()
    ensures IsFirstMode([2, 1, 1, 2], 2)
    ensures !IsFirstMode([2, 1, 1, 2], 1)
  {
    var s := [2, 1, 1, 2];
    assert multiset(s) == multiset{1, 1, 2, 2};
    assert s[..1] == [2];
    assert s[0] != 1 && Count(s, s[0]) == Count(s, 1) && 1 !in s[..0];
  }

  // ---------------------------------------------------------------------------
  // The record built for a manually entered employee

  datatype ManualRecord = ManualRecord(p: string, pNum: int, k: string, kNum: int)

  /**
   * The bucket fields of the manually entered record: the raw P bucketing with label
   * "P<n>" and the discrete K bucketing with label "K<n>".  On the form's integer inputs the
   * P bucket is never 0 and agrees with `kategori_p`, and a rating in 1..4 is its own bucket.
   */
  function ManualBuckets(nilaiP: int, nilaiK: int): (b: ManualRecord)
    ensures 1 <= b.pNum <= 5 && b.pNum == KategoriP(nilaiP as real).1
    ensures 0 <= b.kNum <= 4
    ensures b.p == BucketLabel('P', b.pNum) && b.k == BucketLabel('K', b.kNum)
    ensures 1 <= nilaiK <= 4 ==> b.kNum == nilaiK
    ensures !(1 <= nilaiK <= 4) ==> b.kNum == 0
  {
    PVariantsAgreeOnIntegers(nilaiP);
    var pNum := NumerisasiPRaw(nilaiP as real);
    var kNum := NumerisasiKRaw(nilaiK as real);
    ManualRecord(BucketLabel('P', pNum), pNum, BucketLabel('K', kNum), kNum)
  }

  /**
   * The category the post-processing step assigns to a manually entered record: the grid entry
   * of `kategori_p`'s bucket and the rating when the rating is in 1..4, otherwise "Kurang"
   * (its K bucket is then 0).
   */
  function ManualCategory(nilaiP: int, nilaiK: int): (c: Category)
    ensures 1 <= nilaiK <= 4 ==> c == EffectiveTable(KategoriP(nilaiP as real).1, nilaiK)
    ensures !(1 <= nilaiK <= 4) ==> c == Kurang
  {
    var b := ManualBuckets(nilaiP, nilaiK);
    AssignCategoryOnBuckets(b.pNum, b.kNum);
    AssignCategory(IntCell(b.pNum), IntCell(b.kNum))
  }

  /** Scores 105 and 2 give P1, K2 and "Istimewa"; scores 65 and 3 give P5, K3 and "Sedang". */
  lemma ManualExamples()
    ensures ManualBuckets(105, 2) == ManualRecord("P1", 1, "K2", 2)
    ensures ManualCategory(105, 2) == Istimewa
    ensures ManualBuckets(65, 3) == ManualRecord("P5", 5, "K3", 3)
    ensures ManualCategory(65, 3) == Sedang
  {
  }
}
