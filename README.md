# Employee performance categorisation (SI-KERJA) — Dafny model

SI-KERJA is an HR dashboard. It turns an employee's performance score (P) and
soft-competency score (K) into ordinal buckets, P1..P5 and K1..K4. It then looks the pair of
buckets up in a fixed table to get a qualitative label, the "Nilai Kinerja": Sangat Istimewa,
Istimewa, Baik Sekali, Baik, Sedang or Kurang. This project models that logic from
`Deploy/DEPLOYFINAL.py` and proves properties of it:

- `Bucketing` (bucketing.dfy): the three copies of the P bucketing (`numerisasi_p_raw`, the
  nested `numerisasi_p`, `kategori_p`) and the two K bucketings: discrete
  (`numerisasi_k_raw`, and the nested `numerisasi_k`, which is a verbatim copy at lines
  235-236) and by interval (`kategori_k`). Scores are `real`s, because the code only compares
  them with integer thresholds. For each variant the model proves its band characterisation.
  It also proves where the variants agree (all integers; the four ratings) and where they
  differ (the open gaps between P bands; fractional K values and K = 5).
- `Frames` (frames.dfy): data-frame cells (number, string, NaN/None). Also how a cell
  compares with an integer dictionary key (2.0 matches 2; NaN, None and strings match
  nothing).
- `Categories` (categories.dfy): the `category_mapping` dictionary, evaluated as Python
  evaluates a dict display. Entries are stored left to right, and a repeated key keeps its
  last value, so key (4, 3) maps to Sedang, not Baik. Also `assign_category`, with its
  "Kurang" default, and `AssignCategoryTransformer.transform`, which adds the column to a
  copy of the rows.
- `FormScores` (form_scores.dfy): the manual-entry form. `hitung_nilai_p` is
  `int(a + b - c)`. `hitung_nilai_k` is `statistics.mode`, written as a counting loop and a
  selection loop. The form also builds a record with P/P_num/K/K_num fields.
- `Batch` (batch.dfy): the upload path's loop. It fills four parallel lists row by row, the
  lists become columns, and the category column follows.

Where the code disagrees with its own comments and display text, the model follows the code:

- The effective table maps (2, 2) to Istimewa (line 85), (2, 1) to Sangat Istimewa, and
  (4, 3) to Sedang. The duplicate key at line 104 overrides line 100.
- The markdown reference tables at lines 505-548 disagree with the dictionary. They are
  display text only and are not modelled.
- P bucketing is total in `numerisasi_p`, `kategori_p` and the batch loop. In
  `numerisasi_p_raw` it is not: a value strictly between two bands (100 < p < 101,
  90 < p < 91, 80 < p < 81, 70 < p < 71) gets 0.
- The comment at line 383 says ties in `hitung_nilai_k` go to the smallest value. Since
  Python 3.8, `statistics.mode` returns the first value seen among the most frequent and
  raises only on an empty list. In the model, ties go to the first value seen
  (`TieGoesToFirstSeen`), and an empty list is `None`, because the fallback `min([])` raises
  as well.

Also worth knowing: the first definition of `process_uploaded_data` (lines 206-249) is
redefined at line 631 before any caller runs, so the nested `numerisasi_p`/`numerisasi_k`
are never called. They are modelled anyway, for comparison.

## Model

| member | source | states |
|---|---|---|
| `Bucketing.NumerisasiPRaw` | Deploy/DEPLOYFINAL.py:152-165 | result in 0..5; a non-zero result is the band the score lies in; 0 exactly when the score lies in no band |
| `Bucketing.PBandsDisjoint` | Deploy/DEPLOYFINAL.py:154-163 | the five bands are pairwise disjoint, so the order of the elif tests does not change any result |
| `Bucketing.NoPBandIsGap` | Deploy/DEPLOYFINAL.py:152-165 | the scores in no band are exactly the four open gaps (100,101), (90,91), (80,81), (70,71) |
| `Bucketing.NumerisasiP` | Deploy/DEPLOYFINAL.py:223-233 | result in 1..5; it is the score's band, or 5 for a score in no band; equal to the raw variant with 0 replaced by 5 |
| `Bucketing.BucketLabelDeterminesBucket` | Deploy/DEPLOYFINAL.py:464-467 | a label `f"P{n}"` / `f"K{n}"` names one bucket: equal labels mean equal prefix and bucket, and no label is the "not categorised" text |
| `Bucketing.KategoriP` | Deploy/DEPLOYFINAL.py:389-399 | the bucket equals the nested variant's, lies in 1..5, and the label is "P" followed by the bucket digit |
| `Bucketing.PVariantsAgreeOnIntegers` | Deploy/DEPLOYFINAL.py:152-165 | on every integer score all three P variants return the same bucket in 1..5, never 0, following the bands >=101, 91-100, 81-90, 71-80, <=70, with label "P<n>" |
| `Bucketing.PVariantsDisagreeInGaps` | Deploy/DEPLOYFINAL.py:223-233 | in each gap between bands the raw variant returns 0, while the nested variant and `kategori_p` return 5 / ("P5", 5) |
| `Bucketing.NumerisasiPMonotoneOnIntegers` | Deploy/DEPLOYFINAL.py:223-233 | on integers a higher score never yields a larger (worse) bucket |
| `Bucketing.NumerisasiPNotMonotoneOnReals` | Deploy/DEPLOYFINAL.py:223-233 | on reals it is not: the higher 100.5 gets bucket 5 while 95 gets bucket 2 |
| `Bucketing.NumerisasiKRaw` | Deploy/DEPLOYFINAL.py:168-170 | numerically equal to its input when the input is 1, 2, 3 or 4, and 0 for every other value |
| `Bucketing.NumerisasiKRawOnFormInput` | Deploy/DEPLOYFINAL.py:453 | with the form's integer bounds 1..4 the discrete K bucketing is the identity |
| `Bucketing.KategoriK` | Deploy/DEPLOYFINAL.py:401-411 | a bucket exists exactly for 1 <= k <= 5; it is the integer part of k, except k = 5 gives 4; the label is "K<n>", or "Tidak termasuk kategori" with None |
| `Bucketing.KVariantsAgreeOnRatings` | Deploy/DEPLOYFINAL.py:401-411 | on the ratings 1..4 the interval bucketing gives Some of the discrete bucketing's result |
| `Bucketing.KVariantsDisagreeOffRatings` | Deploy/DEPLOYFINAL.py:235-236 | on a value in [1, 5] that is not a rating (fractional, or 5) the discrete bucketing gives 0 and the interval bucketing gives a bucket |
| `Frames.IntOf` | Deploy/DEPLOYFINAL.py:115 | a cell matches an integer dictionary key exactly when it is a number with an integral value, and then the key is that value |
| `Categories.LabelInjective` | Deploy/DEPLOYFINAL.py:118 | distinct categories have distinct label strings |
| `Categories.DictOfKeys` | Deploy/DEPLOYFINAL.py:78-111 | a key is in a dict built from a display exactly when some entry of the display writes it |
| `Categories.DictOfLastWins` | Deploy/DEPLOYFINAL.py:78-111 | a key's value is the one written by the last entry with that key |
| `Categories.DuplicateKeyKeepsLast` | Deploy/DEPLOYFINAL.py:100-104 | key (4, 3) is written first as Baik and later as Sedang, and the dictionary keeps Sedang |
| `Categories.PairFiveOneAbsent` | Deploy/DEPLOYFINAL.py:78-111 | no entry writes (5, 1), so it is not a key |
| `Categories.CategoryMapping` | Deploy/DEPLOYFINAL.py:78-111 | the dictionary, evaluated entry by entry from the display, has exactly 19 keys, the pairs of 1..5 x 1..4 other than (5, 1), with the values listed in the display |
| `Categories.AssignCategory` | Deploy/DEPLOYFINAL.py:114-115 | a P_num or K_num that matches no integer key (NaN, None, text, fractional) gives "Kurang" |
| `Categories.AssignCategoryOnBuckets` | Deploy/DEPLOYFINAL.py:114-115 | on integer buckets the result is the effective grid inside 1..5 x 1..4 and "Kurang" everywhere else |
| `Categories.AssignCategoryDefaults` | Deploy/DEPLOYFINAL.py:114-115 | a missing or non-integral K_num or P_num, P_num = 0, K_num = 0 and the pair (5, 1) all give "Kurang" |
| `Categories.CategoryMonotoneInP` | Deploy/DEPLOYFINAL.py:78-111 | for a fixed K bucket, a worse P bucket never gets a better category |
| `Categories.CategoryMonotoneInK` | Deploy/DEPLOYFINAL.py:78-111 | for a fixed P bucket, a worse K bucket never gets a better category, except that (5, 1) "Kurang" ranks below (5, 2) "Sedang" |
| `Categories.Transform` | Deploy/DEPLOYFINAL.py:74-120 | fails with KeyError, naming the column the first incomplete row lacks, exactly when some row lacks P_num or K_num; otherwise it keeps row count and order, adds "Nilai Kinerja" holding `assign_category(P_num, K_num)`'s label to each row, and leaves every other column unchanged |
| `FormScores.TruncateTowardZero` | Deploy/DEPLOYFINAL.py:364 | `int()` truncates toward zero: the result has the input's sign and lies within 1 of it, on the side of zero |
| `FormScores.HitungNilaiP` | Deploy/DEPLOYFINAL.py:363-364 | the score is target + contribution - reduction when that is a whole number, and otherwise that sum truncated toward zero (same sign, less than 1 away) |
| `FormScores.HitungNilaiPOnIntegers` | Deploy/DEPLOYFINAL.py:363-364 | on whole-number inputs the score is exactly target + contribution - reduction |
| `FormScores.HitungNilaiPOnFormInput` | Deploy/DEPLOYFINAL.py:358-364 | with the form's bounds 0..110 on each input the score lies between -110 and 220 |
| `FormScores.HitungNilaiPBucketMonotone` | Deploy/DEPLOYFINAL.py:363-364 | on integer inputs, more contribution or less reduction never gives a worse P bucket |
| `FormScores.CountOccurrences` | Deploy/DEPLOYFINAL.py:381 | the counter holds exactly the values that occur, each with its number of occurrences |
| `FormScores.HitungNilaiK` | Deploy/DEPLOYFINAL.py:379-383 | None (an exception) exactly for an empty list; otherwise a member of the list with maximal count, and no other value with that count appears first |
| `FormScores.FirstModeUnique` | Deploy/DEPLOYFINAL.py:379-383 | those properties determine the result uniquely |
| `FormScores.TieGoesToFirstSeen` | Deploy/DEPLOYFINAL.py:381-383 | for [2, 1, 1, 2] the mode is 2, the first seen, not the smaller 1 the comment names |
| `FormScores.ManualBuckets` | Deploy/DEPLOYFINAL.py:460-469 | the manual record's P bucket is in 1..5 and equals `kategori_p`'s; a rating in 1..4 is its own K bucket, anything else 0; labels are "P<n>" and "K<n>" |
| `FormScores.ManualExamples` | Deploy/DEPLOYFINAL.py:460-469 | scores (105, 2) give P1, K2 and "Istimewa"; scores (65, 3) give P5, K3 and "Sedang" |
| `FormScores.ManualCategory` | Deploy/DEPLOYFINAL.py:460-475 | the category given to a manual record is the grid entry of `kategori_p`'s bucket and the rating when the rating is in 1..4, and "Kurang" otherwise |
| `Batch.BucketRows` | Deploy/DEPLOYFINAL.py:711-747 | each of the four lists has one entry per row, and entry i equals `kategori_p` / `kategori_k` of row i's scores |
| `Batch.WithBucketColumns` | Deploy/DEPLOYFINAL.py:750-753 | every row gets P, P_num, K and K_num from entry i of the lists, a None bucket as a missing value, other columns unchanged |
| `Batch.BatchCategory` | Deploy/DEPLOYFINAL.py:733-747 | the category a batch row gets from its two scores: a K score outside [1, 5] gives "Kurang" whatever the P score; otherwise the category is the grid entry of the two buckets |
| `Batch.BatchGapExample` | Deploy/DEPLOYFINAL.py:716-730 | P = 90.5 with K = 1 falls to P5 and "Kurang", while P = 90 with K = 1 is P3 and "Baik" |
| `Batch.BucketAndCategorize` | Deploy/DEPLOYFINAL.py:703-759 | on rows whose "Nilai P" and "Nilai K" are numbers, after the loop, the column assignment and `transform`, every row holds in P, P_num, K and K_num the labels and buckets of its own two scores and in "Nilai Kinerja" the category of that pair; row count, order and other columns are unchanged |

## Left out

- The Streamlit UI, menu dispatch, logo, HTML and charts: presentation only.
- Excel/CSV reading and writing, downloads and the folder listing: file I/O.
- Loading the pickled pipelines, and the K-Means `predict` (cluster id): opaque external
  models. The `preprocessing_pipeline` applied before `transform` is pickled and not visible,
  and it runs on both paths: after the batch loop (line 757) and in `process_new_data` for
  the form (line 185, then `predict` at 188 and `transform` at 191).
- `Batch.BucketAndCategorize`, `Batch.BatchCategory` and `Batch.BatchGapExample` apply
  `transform` directly to the loop's columns, as if the pickled preprocessing left P_num and
  K_num unchanged. The upload path itself never shows "Kurang" for a row whose K score lies
  outside [1, 5]: its K_num is None (line 747), so a missing value reaches
  `kmeans_model.predict` (line 758). Unless the pickled preprocessing drops that row first,
  scikit-learn's K-Means rejects missing values, and the whole batch ends in the error
  message at line 814. That failure is not modelled.
- `FormScores.ManualCategory` and `FormScores.ManualExamples` likewise assume that the
  preprocessing in `process_new_data` (line 185) leaves the record's P_num and K_num
  unchanged before `transform` assigns the category.
- `Categories.Transform` models `AssignCategoryTransformer.transform` as it is written at
  lines 74-120. What runs at lines 191 and 759 is `clustering_pipeline.transform`, and
  `clustering_pipeline` is unpickled from "clustering_pipeline.pkl" (lines 143 and 199). The
  pipeline defined in the file and wrapping that class, `pipeline_clustering` (lines
  123-125), is never used. Line 139 declares `global AssignClusterTransformer`, a class the
  file does not define, so the pickle may hold a different transformer. The pickle's contents
  are not visible. `Batch.BucketAndCategorize`, `Batch.BatchCategory`,
  `Batch.BatchGapExample`, `FormScores.ManualCategory` and `FormScores.ManualExamples`
  assume that it holds `AssignCategoryTransformer` as written.
- `MissingValueHandler`, `DuplicateHandler`, `NumerisasiHandler`,
  `OutlierHandlerWinsorize`, the `dropna` calls and their row counts: pandas/scipy glue
  and float quantiles. `Batch.BucketAndCategorize` requires what the `dropna` at line 703
  leaves, both scores present, and further requires them to be numbers: a non-numeric
  score, which would make the comparisons raise, is not modelled.
- Name search (`str.contains`), the merge/rename/reordering of the result frame and the
  percentage counts: pandas glue and floats.
- The markdown reference tables (lines 505-548): static text that contradicts the
  effective dictionary.
- Column order: a row is a map from column names, so where pandas appends a new column is
  not modelled. The header of an empty frame is not modelled either.
- NaN as a score value: the comparisons in the bucketing functions are modelled on reals.
  NaN appears only as a missing cell in the bucket columns, where it matches no key.
- `FormScores.HitungNilaiK`: the form limits ratings to integers in 1..4; the model
  accepts any integers, and the result is then in 1..4 because it is a member of the list.
