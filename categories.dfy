/**
 * The category ("Nilai Kinerja") assigned to a pair of buckets (P_num, K_num), and the
 * post-processing step that adds it as a column to every row of a frame.
 *
 * The table is the dictionary display written in the transformer, evaluated as Python
 * evaluates a display: entries are stored left to right and a repeated key keeps the
 * value written last.  Pairs that are not keys fall back to "Kurang".
 */
module Categories {
  import opened Wrappers
  import opened Frames

  /** The six labels, from best to worst. */
  datatype Category = SangatIstimewa | Istimewa | BaikSekali | Baik | Sedang | Kurang
  {
    function Label(): string
    {
      match this
      case SangatIstimewa => "Sangat Istimewa"
      case Istimewa => "Istimewa"
      case BaikSekali => "Baik Sekali"
      case Baik => "Baik"
      case Sedang => "Sedang"
      case Kurang => "Kurang"
    }

    /** Position in the best-to-worst order: 0 is best. */
    function Rank(): nat
    {
      match this
      case SangatIstimewa => 0
      case Istimewa => 1
      case BaikSekali => 2
      case Baik => 3
      case Sedang => 4
      case Kurang => 5
    }
  }

  /** Distinct categories have distinct labels, so the written column determines the category. */
  lemma LabelInjective(c: Category, d: Category)
    requires c.Label() == d.Label()
    ensures c == d
  {
  }

  // ---------------------------------------------------------------------------
  // The dictionary display

  /** The dictionary built from the first n entries of a display, later entries overwriting earlier ones. */
  function DictOf<K, V>(entries: seq<(K, V)>, n: nat): map<K, V>
    requires n <= |entries|
  {
    if n == 0 then map[] else DictOf(entries, n - 1)[entries[n - 1].0 := entries[n - 1].1]
  }

  /** A key is in the dictionary exactly when some entry writes it. */
  lemma {:induction false} DictOfKeys<K, V>(entries: seq<(K, V)>, n: nat, k: K)
    requires n <= |entries|
    ensures k in DictOf(entries, n) <==> exists i :: 0 <= i < n && entries[i].0 == k
  {
    if n > 0 {
      DictOfKeys(entries, n - 1, k);
      if entries[n - 1].0 != k && k in DictOf(entries, n) {
        assert k in DictOf(entries, n - 1);
      }
    }
  }

  /** The value of a key is the one written by its last entry. */
  lemma {:induction false} DictOfLastWins<K, V>(entries: seq<(K, V)>, n: nat, i: nat)
    requires i < n <= |entries|
    requires forall j :: i < j < n ==> entries[j].0 != entries[i].0
    ensures entries[i].0 in DictOf(entries, n)
    ensures DictOf(entries, n)[entries[i].0] == entries[i].1
  {
    if i < n - 1 {
      DictOfLastWins(entries, n - 1, i);
    }
  }

  /** The entries of `category_mapping`, in the order they are written (key (4, 3) occurs twice). */
  const CategoryEntries: seq<((int, int), Category)> := [
    ((1, 1), SangatIstimewa), ((2, 1), SangatIstimewa),
    ((1, 2), Istimewa), ((2, 2), Istimewa), ((1, 3), Istimewa), ((1, 4), Istimewa),
    ((2, 3), BaikSekali), ((2, 4), BaikSekali),
    ((3, 1), Baik), ((3, 2), Baik), ((3, 3), Baik), ((3, 4), Baik),
    ((4, 1), Baik), ((4, 2), Baik), ((4, 3), Baik),
    ((4, 4), Sedang), ((4, 3), Sedang), ((5, 2), Sedang), ((5, 3), Sedang),
    ((5, 4), Kurang)
  ]

  /**
   * The dictionary `category_mapping`.  Evaluating the display entry by entry gives one key
   * per written pair, 19 in all, the repeated (4, 3) holding its second value.
   */
  function CategoryMapping(): (m: map<(int, int), Category>)
    ensures m == map[
      (1, 1) := SangatIstimewa, (2, 1) := SangatIstimewa,
      (1, 2) := Istimewa, (2, 2) := Istimewa, (1, 3) := Istimewa, (1, 4) := Istimewa,
      (2, 3) := BaikSekali, (2, 4) := BaikSekali,
      (3, 1) := Baik, (3, 2) := Baik, (3, 3) := Baik, (3, 4) := Baik,
      (4, 1) := Baik, (4, 2) := Baik,
      (4, 4) := Sedang, (4, 3) := Sedang, (5, 2) := Sedang, (5, 3) := Sedang,
      (5, 4) := Kurang]
  {
    var e := CategoryEntries;
    assert DictOf(e, 1) == map[e[0].0 := e[0].1];
    assert DictOf(e, 2) == DictOf(e, 1)[e[1].0 := e[1].1];
    assert DictOf(e, 3) == DictOf(e, 2)[e[2].0 := e[2].1];
    assert DictOf(e, 4) == DictOf(e, 3)[e[3].0 := e[3].1];
    assert DictOf(e, 5) == DictOf(e, 4)[e[4].0 := e[4].1];
    assert DictOf(e, 6) == DictOf(e, 5)[e[5].0 := e[5].1];
    assert DictOf(e, 7) == DictOf(e, 6)[e[6].0 := e[6].1];
    assert DictOf(e, 8) == DictOf(e, 7)[e[7].0 := e[7].1];
    assert DictOf(e, 9) == DictOf(e, 8)[e[8].0 := e[8].1];
    assert DictOf(e, 10) == DictOf(e, 9)[e[9].0 := e[9].1];
    assert DictOf(e, 11) == DictOf(e, 10)[e[10].0 := e[10].1];
    assert DictOf(e, 12) == DictOf(e, 11)[e[11].0 := e[11].1];
    assert DictOf(e, 13) == DictOf(e, 12)[e[12].0 := e[12].1];
    assert DictOf(e, 14) == DictOf(e, 13)[e[13].0 := e[13].1];
    assert DictOf(e, 15) == DictOf(e, 14)[e[14].0 := e[14].1];
    assert DictOf(e, 16) == DictOf(e, 15)[e[15].0 := e[15].1];
    assert DictOf(e, 17) == DictOf(e, 16)[e[16].0 := e[16].1];
    assert DictOf(e, 18) == DictOf(e, 17)[e[17].0 := e[17].1];
    assert DictOf(e, 19) == DictOf(e, 18)[e[18].0 := e[18].1];
    assert DictOf(e, 20) == DictOf(e, 19)[e[19].0 := e[19].1];
    DictOf(e, |e|)
  }

  /** The repeated key (4, 3) first maps to Baik and then to Sedang; the later value is the one kept. */
  lemma DuplicateKeyKeepsLast()
    ensures CategoryEntries[14] == ((4, 3), Baik) && CategoryEntries[16] == ((4, 3), Sedang)
    ensures (4, 3) in CategoryMapping() && CategoryMapping()[(4, 3)] == Sedang
  {
    DictOfLastWins(CategoryEntries, |CategoryEntries|, 16);
  }

  /** No entry writes the key (5, 1), so it is absent. */
  lemma PairFiveOneAbsent()
    ensures (5, 1) !in CategoryMapping()
  {
    DictOfKeys(CategoryEntries, |CategoryEntries|, (5, 1));
  }

  /**
   * The effective table as a grid: P bucket by row, K bucket by column.  It lists every pair in
   * 1..5 x 1..4; (5, 1) is not a key of the dictionary and shows the default.
   */
  function EffectiveTable(p: int, k: int): Category
    requires 1 <= p <= 5 && 1 <= k <= 4
  {
    match (p, k)
    case (1, 1) => SangatIstimewa  case (1, 2) => Istimewa  case (1, 3) => Istimewa  case (1, 4) => Istimewa
    case (2, 1) => SangatIstimewa  case (2, 2) => Istimewa  case (2, 3) => BaikSekali  case (2, 4) => BaikSekali
    case (3, 1) => Baik  case (3, 2) => Baik  case (3, 3) => Baik  case (3, 4) => Baik
    case (4, 1) => Baik  case (4, 2) => Baik  case (4, 3) => Sedang  case (4, 4) => Sedang
    case (5, 1) => Kurang  case (5, 2) => Sedang  case (5, 3) => Sedang  case (5, 4) => Kurang
  }

  // ---------------------------------------------------------------------------
  // assign_category

  /** `assign_category`: the dictionary's value for the pair, or "Kurang" when the pair is not a key. */
  function AssignCategory(pNum: Cell, kNum: Cell): (c: Category)
    ensures IntOf(pNum).None? || IntOf(kNum).None? ==> c == Kurang
  {
    match (IntOf(pNum), IntOf(kNum))
    case (Some(p), Some(k)) =>
      if (p, k) in CategoryMapping() then CategoryMapping()[(p, k)] else Kurang
    case _ => Kurang
  }

  /** On integer buckets the lookup is the grid inside 1..5 x 1..4 and "Kurang" everywhere else. */
  lemma AssignCategoryOnBuckets(p: int, k: int)
    ensures AssignCategory(IntCell(p), IntCell(k)) ==
      if 1 <= p <= 5 && 1 <= k <= 4 then EffectiveTable(p, k) else Kurang
  {
  }

  /**
   * The default cases: a missing or non-integral bucket, a P_num of 0, a K_num of 0 and the pair
   * (5, 1) all give "Kurang".
   */
  lemma AssignCategoryDefaults(pNum: Cell, kNum: Cell)
    ensures kNum.Missing? || pNum.Missing? ==> AssignCategory(pNum, kNum) == Kurang
    ensures (kNum.Num? && kNum.x != kNum.x.Floor as real) || (pNum.Num? && pNum.x != pNum.x.Floor as real) ==>
      AssignCategory(pNum, kNum) == Kurang
    ensures AssignCategory(IntCell(0), kNum) == Kurang
    ensures AssignCategory(pNum, IntCell(0)) == Kurang
    ensures AssignCategory(IntCell(5), IntCell(1)) == Kurang
  {
  }

  /** Over the table, a worse P bucket never gives a better category, whatever the K bucket. */
  lemma CategoryMonotoneInP(p: int, q: int, k: int)
    requires 1 <= p <= q <= 5 && 1 <= k <= 4
    ensures AssignCategory(IntCell(p), IntCell(k)).Rank() <= AssignCategory(IntCell(q), IntCell(k)).Rank()
  {
    AssignCategoryOnBuckets(p, k);
    AssignCategoryOnBuckets(q, k);
  }

  /**
   * For a fixed P bucket a worse K bucket never gives a better category, except in row 5,
   * where the absent pair (5, 1) falls to "Kurang" below (5, 2) = "Sedang".
   */
  lemma CategoryMonotoneInK(p: int, k: int, l: int)
    requires 1 <= p <= 5 && 1 <= k <= l <= 4
    ensures p != 5 || k != 1 ==>
      AssignCategory(IntCell(p), IntCell(k)).Rank() <= AssignCategory(IntCell(p), IntCell(l)).Rank()
    ensures AssignCategory(IntCell(5), IntCell(1)).Rank() > AssignCategory(IntCell(5), IntCell(2)).Rank()
  {
    AssignCategoryOnBuckets(p, k);
    AssignCategoryOnBuckets(p, l);
    AssignCategoryOnBuckets(5, 1);
    AssignCategoryOnBuckets(5, 2);
  }

  // ---------------------------------------------------------------------------
  // AssignCategoryTransformer.transform

  const PNumColumn: string := "P_num"
  const KNumColumn: string := "K_num"
  const CategoryColumn: string := "Nilai Kinerja"

  datatype FrameError = KeyError(column: string)

  predicate HasBuckets(row: Row)
  {
    PNumColumn in row && KNumColumn in row
  }

  /** The category of a row that has both bucket columns. */
  function RowCategory(row: Row): Category
    requires HasBuckets(row)
  {
    AssignCategory(row[PNumColumn], row[KNumColumn])
  }

  /**
   * `transform`: a copy of the rows in which every row gets the column "Nilai Kinerja" holding
   * its category's label, every other column unchanged.  Reading a bucket column that a row
   * lacks raises KeyError for that column, at the first such row.
   */
  method Transform(rows: seq<Row>) returns (r: Result<seq<Row>, FrameError>)
    ensures r.Success? <==> forall i :: 0 <= i < |rows| ==> HasBuckets(rows[i])
    ensures r.Success? ==> |r.value| == |rows|
    ensures r.Success? ==> forall i :: 0 <= i < |rows| ==>
      && r.value[i].Keys == rows[i].Keys + {CategoryColumn}
      && r.value[i][CategoryColumn] == Text(RowCategory(rows[i]).Label())
      && (forall c :: c in rows[i] && c != CategoryColumn ==> r.value[i][c] == rows[i][c])
    ensures r.Failure? ==> exists i ::
      && 0 <= i < |rows| && !HasBuckets(rows[i])
      && (forall j :: 0 <= j < i ==> HasBuckets(rows[j]))
      && r.error == KeyError(if PNumColumn !in rows[i] then PNumColumn else KNumColumn)
  {
    var out: seq<Row> := [];
    var i := 0;
    while i < |rows|
      invariant 0 <= i <= |rows|
      invariant |out| == i
      invariant forall j :: 0 <= j < i ==> HasBuckets(rows[j])
      invariant forall j :: 0 <= j < i ==>
        out[j] == rows[j][CategoryColumn := Text(RowCategory(rows[j]).Label())]
    {
      var row := rows[i];
      if PNumColumn !in row {
        return Failure(KeyError(PNumColumn));
      }
      if KNumColumn !in row {
        return Failure(KeyError(KNumColumn));
      }
      var category := AssignCategory(row[PNumColumn], row[KNumColumn]);
      out := out + [row[CategoryColumn := Text(category.Label())]];
      i := i + 1;
    }
    return Success(out);
  }
}
