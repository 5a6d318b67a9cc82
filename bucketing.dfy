/**
 * Bucketing of the two raw scores into ordinal codes.
 *
 * The performance score P is a number (an integer from the input form, possibly a
 * fractional value from an uploaded spreadsheet); it is modelled as a `real`, since
 * the code only compares it against integer thresholds.  There are three copies of
 * the P bucketing, which agree on every integer and differ between the bands.
 *
 * The soft-competency score K has two genuinely different bucketings: a discrete
 * one (identity on the ratings 1..4, 0 otherwise) and an interval one ([1,2) -> 1,
 * ..., [4,5] -> 4, otherwise "not categorised").
 */
module Bucketing {
  import opened Wrappers

  // ---------------------------------------------------------------------------
  // Labels

  /** The decimal digit for 0..9, as used by an f-string on a small int. */
  function Digit(n: int): (c: char)
    requires 0 <= n <= 9
    ensures '0' <= c <= '9'
    ensures c as int - '0' as int == n
  {
    ('0' as int + n) as char
  }

  /** The label "<prefix><n>" for bucket n, as `f"P{n}"` and `f"K{n}"` build it. */
  function BucketLabel(prefix: char, n: int): string
    requires 0 <= n <= 9
  {
    [prefix, Digit(n)]
  }

  /**
   * A label names one bucket: two labels with the same prefix are equal only for the same
   * bucket, labels with different prefixes never coincide, and no label is the "not
   * categorised" text.
   */
  lemma BucketLabelDeterminesBucket(prefix: char, other: char, m: int, n: int)
    requires 0 <= m <= 9 && 0 <= n <= 9
    ensures BucketLabel(prefix, m) == BucketLabel(other, n) <==> prefix == other && m == n
    ensures BucketLabel(prefix, m) != NotCategorised
  {
    var a, b := BucketLabel(prefix, m), BucketLabel(other, n);
    if a == b {
      assert a[0] == b[0] && a[1] == b[1];
    }
    assert |NotCategorised| != |a|;
  }

  /** The label given to a competency value outside [1, 5]. */
  const NotCategorised: string := "Tidak termasuk kategori"

  // ---------------------------------------------------------------------------
  // Performance: the reference partition

  /** Lowest score that still belongs to performance band n, for n in 1..4 (band 5 is unbounded below). */
  function PLowerBound(n: int): real
    requires 1 <= n <= 4
  {
    [101.0, 91.0, 81.0, 71.0][n - 1]
  }

  /**
   * Band n of the HR metric: at least the band's lower bound (unless n == 5) and at
   * most one less than the next better band's lower bound (unless n == 1).
   */
  predicate InPBand(p: real, n: int)
  {
    && 1 <= n <= 5
    && (n == 5 || p >= PLowerBound(n))
    && (n == 1 || p <= PLowerBound(n - 1) - 1.0)
  }

  /** p lies in none of the five bands. */
  predicate InNoPBand(p: real)
  {
    !InPBand(p, 1) && !InPBand(p, 2) && !InPBand(p, 3) && !InPBand(p, 4) && !InPBand(p, 5)
  }

  /** The bands are pairwise disjoint, so the order of the tests in the source does not matter. */
  lemma PBandsDisjoint(p: real, n: int, m: int)
    requires InPBand(p, n) && InPBand(p, m)
    ensures n == m
  {
  }

  /** The values outside every band are exactly the four open gaps just below the lower bounds. */
  lemma NoPBandIsGap(p: real)
    ensures InNoPBand(p) <==>
      (100.0 < p < 101.0) || (90.0 < p < 91.0) || (80.0 < p < 81.0) || (70.0 < p < 71.0)
  {
  }

  // ---------------------------------------------------------------------------
  // Performance: the three bucketings

  /** `numerisasi_p_raw`: the band number, or 0 for a value between two bands. */
  function NumerisasiPRaw(p: real): (n: int)
    ensures 0 <= n <= 5
    ensures n != 0 ==> InPBand(p, n)
    ensures n == 0 <==> InNoPBand(p)
  {
    if p >= 101.0 then 1
    else if 91.0 <= p <= 100.0 then 2
    else if 81.0 <= p <= 90.0 then 3
    else if 71.0 <= p <= 80.0 then 4
    else if p <= 70.0 then 5
    else 0
  }

  /** The nested `numerisasi_p` of the upload path: as the raw one, but a value between bands falls to 5. */
  function NumerisasiP(p: real): (n: int)
    ensures 1 <= n <= 5
    ensures InPBand(p, n) || (InNoPBand(p) && n == 5)
    ensures n == (if NumerisasiPRaw(p) == 0 then 5 else NumerisasiPRaw(p))
  {
    if p >= 101.0 then 1
    else if 91.0 <= p <= 100.0 then 2
    else if 81.0 <= p <= 90.0 then 3
    else if 71.0 <= p <= 80.0 then 4
    else 5
  }

  /** `kategori_p` of the form path: the label and the bucket, which is the nested variant's. */
  function KategoriP(p: real): (r: (string, int))
    ensures r.1 == NumerisasiP(p)
    ensures 1 <= r.1 <= 5 && r.0 == BucketLabel('P', r.1)
  {
    if p >= 101.0 then ("P1", 1)
    else if 91.0 <= p <= 100.0 then ("P2", 2)
    else if 81.0 <= p <= 90.0 then ("P3", 3)
    else if 71.0 <= p <= 80.0 then ("P4", 4)
    else ("P5", 5)
  }

  /** On an integer score every variant returns the same bucket in 1..5 (never 0), with label "P<n>". */
  lemma PVariantsAgreeOnIntegers(p: int)
    ensures 1 <= NumerisasiPRaw(p as real) <= 5
    ensures NumerisasiPRaw(p as real) == NumerisasiP(p as real) == KategoriP(p as real).1
    ensures KategoriP(p as real).0 == BucketLabel('P', NumerisasiPRaw(p as real))
    ensures p >= 101 ==> NumerisasiPRaw(p as real) == 1
    ensures 91 <= p <= 100 ==> NumerisasiPRaw(p as real) == 2
    ensures 81 <= p <= 90 ==> NumerisasiPRaw(p as real) == 3
    ensures 71 <= p <= 80 ==> NumerisasiPRaw(p as real) == 4
    ensures p <= 70 ==> NumerisasiPRaw(p as real) == 5
  {
    NoPBandIsGap(p as real);
  }

  /** Between two bands the raw variant reports 0 while the other variants report the worst bucket. */
  lemma PVariantsDisagreeInGaps(p: real)
    requires (100.0 < p < 101.0) || (90.0 < p < 91.0) || (80.0 < p < 81.0) || (70.0 < p < 71.0)
    ensures NumerisasiPRaw(p) == 0
    ensures NumerisasiP(p) == 5 && KategoriP(p) == ("P5", 5)
  {
    NoPBandIsGap(p);
  }

  /** On integers a higher score never gives a worse (numerically larger) bucket. */
  lemma NumerisasiPMonotoneOnIntegers(p: int, q: int)
    requires p <= q
    ensures NumerisasiP(q as real) <= NumerisasiP(p as real)
  {
  }

  /** On reals the bucketing is not monotone: 100.5 is worse off than 95. */
  lemma NumerisasiPNotMonotoneOnReals()
    ensures NumerisasiP(100.5) == 5 && NumerisasiP(95.0) == 2
  {
  }

  // ---------------------------------------------------------------------------
  // Competency

  /** One of the four integer ratings, compared numerically as Python's `in [1, 2, 3, 4]` does. */
  predicate IsRating(k: real)
  {
    k == 1.0 || k == 2.0 || k == 3.0 || k == 4.0
  }

  /** `numerisasi_k_raw` (and its nested copy `numerisasi_k`): the rating itself, or 0. */
  function NumerisasiKRaw(k: real): (r: int)
    ensures 0 <= r <= 4
    ensures IsRating(k) ==> r as real == k
    ensures !IsRating(k) ==> r == 0
  {
    if k == 1.0 || k == 2.0 || k == 3.0 || k == 4.0 then k.Floor else 0
  }

  /** With the form's bounds 1..4 on an integer rating, the discrete bucketing is the identity. */
  lemma NumerisasiKRawOnFormInput(k: int)
    requires 1 <= k <= 4
    ensures NumerisasiKRaw(k as real) == k
  {
  }

  /**
   * `kategori_k`, also inlined in the batch loop: the interval bucketing.  The bucket is the
   * integer part of k, except that 5 itself still belongs to bucket 4; outside [1, 5]
   * there is no bucket.
   */
  function KategoriK(k: real): (r: (string, Option<int>))
    ensures r.1.Some? <==> 1.0 <= k <= 5.0
    ensures r.1.Some? ==> 1 <= r.1.value <= 4 && r.1.value as real <= k
    ensures r.1.Some? ==> k < r.1.value as real + 1.0 || (r.1.value == 4 && k == 5.0)
    ensures r.0 == if r.1.Some? then BucketLabel('K', r.1.value) else NotCategorised
  {
    if 1.0 <= k < 2.0 then ("K1", Some(1))
    else if 2.0 <= k < 3.0 then ("K2", Some(2))
    else if 3.0 <= k < 4.0 then ("K3", Some(3))
    else if 4.0 <= k <= 5.0 then ("K4", Some(4))
    else (NotCategorised, None)
  }

  /** On the four ratings the two competency bucketings agree. */
  lemma KVariantsAgreeOnRatings(k: real)
    requires IsRating(k)
    ensures KategoriK(k).1 == Some(NumerisasiKRaw(k))
  {
  }

  /**
   * Elsewhere they differ: a fractional value in [1, 5) or the value 5 gets a bucket from
   * the interval variant and 0 from the discrete one.
   */
  lemma KVariantsDisagreeOffRatings(k: real)
    requires 1.0 <= k <= 5.0 && !IsRating(k)
    ensures NumerisasiKRaw(k) == 0
    ensures KategoriK(k).1.Some? && KategoriK(k).1.value != 0
  {
  }
}
