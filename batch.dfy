/**
 * The bucketing loop of the upload path: one pass over the rows (after rows with a
 * missing score were dropped) that appends a P label, a P bucket, a K label and a K
 * bucket per row to four parallel lists, which then become the columns P, P_num, K and
 * K_num.  The loop repeats the `kategori_p` and `kategori_k` chains inline.
 */
module Batch {
  import opened Wrappers
  import opened Bucketing
  import opened Frames
  import opened Categories

  /** The two scores of one row. */
  datatype RawScore = RawScore(nilaiP: real, nilaiK: real)

  /**
   * The loop at the centre of the upload path.  Every list has one entry per row, and
   * entry i is what `kategori_p` and `kategori_k` give for row i.
   */
  method BucketRows(scores: seq<RawScore>)
    returns (pLabels: seq<string>, pNums: seq<int>, kLabels: seq<string>, kNums: seq<Option<int>>)
    ensures |pLabels| == |pNums| == |kLabels| == |kNums| == |scores|
    ensures forall i :: 0 <= i < |scores| ==>
      (pLabels[i], pNums[i]) == KategoriP(scores[i].nilaiP) && (kLabels[i], kNums[i]) == KategoriK(scores[i].nilaiK)
  {
    pLabels, pNums, kLabels, kNums := [], [], [], [];
    var i := 0;
    while i < |scores|
      invariant 0 <= i <= |scores|
      invariant |pLabels| == |pNums| == |kLabels| == |kNums| == i
      invariant forall j :: 0 <= j < i ==>
        (pLabels[j], pNums[j]) == KategoriP(scores[j].nilaiP) && (kLabels[j], kNums[j]) == KategoriK(scores[j].nilaiK)
    {
      var nilaiP, nilaiK := scores[i].nilaiP, scores[i].nilaiK;
      if nilaiP >= 101.0 {
        pLabels, pNums := pLabels + ["P1"], pNums + [1];
      } else if 91.0 <= nilaiP <= 100.0 {
        pLabels, pNums := pLabels + ["P2"], pNums + [2];
      } else if 81.0 <= nilaiP <= 90.0 {
        pLabels, pNums := pLabels + ["P3"], pNums + [3];
      } else if 71.0 <= nilaiP <= 80.0 {
        pLabels, pNums := pLabels + ["P4"], pNums + [4];
      } else {
        pLabels, pNums := pLabels + ["P5"], pNums + [5];
      }
      if 1.0 <= nilaiK < 2.0 {
        kLabels, kNums := kLabels + ["K1"], kNums + [Some(1)];
      } else if 2.0 <= nilaiK < 3.0 {
        kLabels, kNums := kLabels + ["K2"], kNums + [Some(2)];
      } else if 3.0 <= nilaiK < 4.0 {
        kLabels, kNums := kLabels + ["K3"], kNums + [Some(3)];
      } else if 4.0 <= nilaiK <= 5.0 {
        kLabels, kNums := kLabels + ["K4"], kNums + [Some(4)];
      } else {
        kLabels, kNums := kLabels + [NotCategorised], kNums + [None];
      }
      i := i + 1;
    }
  }

  const PColumn: string := "P"
  const KColumn: string := "K"

  /**
   * `processed_data[...] = list` for the four lists: every row gets the columns P, P_num, K
   * and K_num from entry i of the lists (a None bucket becomes a missing value), every
   * other column unchanged.
   */
  function WithBucketColumns(rows: seq<Row>, pLabels: seq<string>, pNums: seq<int>,
                             kLabels: seq<string>, kNums: seq<Option<int>>): (out: seq<Row>)
    requires |pLabels| == |pNums| == |kLabels| == |kNums| == |rows|
    ensures |out| == |rows|
    ensures forall i :: 0 <= i < |rows| ==>
      && out[i].Keys == rows[i].Keys + {PColumn, PNumColumn, KColumn, KNumColumn}
      && out[i][PColumn] == Text(pLabels[i]) && out[i][PNumColumn] == IntCell(pNums[i])
      && out[i][KColumn] == Text(kLabels[i]) && out[i][KNumColumn] == OptionCell(kNums[i])
      && (forall c :: c in rows[i] && c !in {PColumn, PNumColumn, KColumn, KNumColumn} ==> out[i][c] == rows[i][c])
  {
    seq(|rows|, i requires 0 <= i < |rows| =>
      rows[i][PColumn := Text(pLabels[i])][PNumColumn := IntCell(pNums[i])]
             [KColumn := Text(kLabels[i])][KNumColumn := OptionCell(kNums[i])])
  }

  /**
   * The category a row of the batch gets once its bucket columns reach `assign_category`.  A
   * competency score outside [1, 5] has no bucket, and its row gets "Kurang" whatever its
   * performance; inside [1, 5] the category is the grid entry of the two buckets.
   */
  function BatchCategory(s: RawScore): (c: Category)
    ensures !(1.0 <= s.nilaiK <= 5.0) ==> c == Kurang
    ensures 1.0 <= s.nilaiK <= 5.0 ==> c == EffectiveTable(KategoriP(s.nilaiP).1, KategoriK(s.nilaiK).1.value)
  {
    var p, k := KategoriP(s.nilaiP).1, KategoriK(s.nilaiK).1;
    var c := AssignCategory(IntCell(p), OptionCell(k));
    if k.Some? then AssignCategoryOnBuckets(p, k.value); c else c
  }

  /**
   * A fractional performance score between two bands gets the worst bucket, so it can land
   * below a lower score: 90.5 with K1 is "Kurang", while 90 with K1 is "Baik".
   */
  lemma BatchGapExample()
    ensures BatchCategory(RawScore(90.5, 1.0)) == Kurang
    ensures BatchCategory(RawScore(90.0, 1.0)) == Baik
  {
  }

  /** The score columns the loop reads. */
  const NilaiPColumn: string := "Nilai P"
  const NilaiKColumn: string := "Nilai K"

  /** A row whose two scores are present and numeric, as they are after the rows missing one are dropped. */
  predicate HasScores(row: Row)
  {
    NilaiPColumn in row && row[NilaiPColumn].Num? && NilaiKColumn in row && row[NilaiKColumn].Num?
  }

  /** The two scores of a row, as `row["Nilai P"]` and `row["Nilai K"]` read them. */
  function ScoreOf(row: Row): RawScore
    requires HasScores(row)
  {
    RawScore(row[NilaiPColumn].x, row[NilaiKColumn].x)
  }

  /**
   * The upload path from the bucketing loop to the category column, with the pickled
   * preprocessing and clustering steps between them left out: every row ends up with the
   * labels and buckets of its own two scores and the category of that pair, other columns
   * unchanged.
   */
  method BucketAndCategorize(rows: seq<Row>) returns (out: seq<Row>)
    requires forall i :: 0 <= i < |rows| ==> HasScores(rows[i])
    ensures |out| == |rows|
    ensures forall i :: 0 <= i < |rows| ==>
      && out[i].Keys == rows[i].Keys + {PColumn, PNumColumn, KColumn, KNumColumn, CategoryColumn}
      && out[i][PColumn] == Text(KategoriP(ScoreOf(rows[i]).nilaiP).0)
      && out[i][PNumColumn] == IntCell(KategoriP(ScoreOf(rows[i]).nilaiP).1)
      && out[i][KColumn] == Text(KategoriK(ScoreOf(rows[i]).nilaiK).0)
      && out[i][KNumColumn] == OptionCell(KategoriK(ScoreOf(rows[i]).nilaiK).1)
      && out[i][CategoryColumn] == Text(BatchCategory(ScoreOf(rows[i])).Label())
      && (forall c :: c in rows[i] && c !in {PColumn, PNumColumn, KColumn, KNumColumn, CategoryColumn} ==> out[i][c] == rows[i][c])
  {
    var scores := seq(|rows|, i requires 0 <= i < |rows| => ScoreOf(rows[i]));
    var pLabels, pNums, kLabels, kNums := BucketRows(scores);
    var bucketed := WithBucketColumns(rows, pLabels, pNums, kLabels, kNums);
    var categorized := Transform(bucketed);
    out := categorized.value;
  }
}
