# Record linkage of booking and agoda listings

This project models the record-linkage core of `Funzioni/funzioni.py`. The
core has two functions, `record_linkage_title` and `record_linkage_city_title`.
Each one links the listings of a booking table to those of an agoda table, in
five stages:

1. **Blocking.** A booking listing and an agoda listing are compared only when
   their processed titles (`titolo_processed`) start with the same character.
2. **Scoring and classification.** Each candidate pair gets a string
   similarity. The title variant keeps a pair when its title similarity is
   strictly above `soglia`. The city/title variant binarises the title and
   city similarities against 0.95 and 0.9 and keeps the pairs the ECM
   classifier predicts as matches. It ranks them by the mean of the two raw
   similarities.
3. **Conflict resolution, steps A-D.** Step A keeps a pair when its booking
   index occurs once among the accepted pairs and its agoda index occurs once
   among the rows left after the booking drop. Steps B and C keep the top-scoring pairs of every
   contested booking index and of every contested agoda index, ties included.
   Step D concatenates the three.
4. **Pair key.** Every row gets the key `"<index_booking>#<index_agoda>"`.
5. **Join and deduplication.** The attributes of both listings are attached
   by index, with `_booking`/`_agoda` suffixes. Identical rows are then removed.

Listings are addressed by their position in their table. The similarity
metric is the parameter `sim: (string, string) -> real`. The fitted
classifier is the parameter `predict: Agreement -> bool`, over the binarised
pattern.

Modules, one per stage:

- `Blocking` (blocking.dfy) holds the first-letter key and the candidate pairs.
- `Scoring` (scoring.dfy) holds the features, the threshold filter, the
  binarisation, the classifier's selection and the mean score.
- `Resolution` (resolution.dfy) holds steps A-D.
- `PairKeys` (pairkeys.dfy) holds the pair key and its parser.
- `Assembly` (assembly.dfy) holds the join.
- `Seqs` (seqs.dfy) holds `drop_duplicates`.
- `Records` (records.dfy) holds the listing types.
- `Linkage` (linkage.dfy) holds the two functions as methods. Each method is
  proved equal to a specification function (`LinkTitle`, `LinkCityTitle`),
  and the end-to-end lemmas are about those functions.

The state these functions change in place is modelled with two classes:

- `ListingFrame` is a caller's table. `record_linkage_title` writes the
  `id_booking`/`id_agoda` column into the caller's two frames and changes
  nothing else of theirs. Its `first_letter` column goes into the frame that
  `rename` returned, which is a new object, so the caller never sees it.
  `record_linkage_city_title` works on copies, so the caller's frames are left
  unchanged. Its method has no `modifies` clause.
- `MatchFrame` is the result table. `drop_duplicates(inplace=True)` is modelled
  by its method `DropDuplicates`.

### Behaviour worth noting

- **Empty titles.** `.str[0]` of an empty title is a missing value, and a
  missing blocking key joins no block. A listing with an empty title is
  therefore never compared (`Blocking.EmptyTitleNeverCompared`); it does not
  go to a block of its own.
- **Dominated pairs and 1:1.** The comment at lines 78-80 states that the
  correspondence must be 1:1 and that, of two matches for one location, the
  best one is kept. Step A tests agoda uniqueness only among the rows that
  survived the booking drop (line 86). As a result:
  - a pair beaten by another pair with the same agoda index can survive;
  - one agoda index can end up linked to two booking indices even when there
    are no ties.

  Separately, steps B and C are computed independently on the accepted pairs
  (lines 90-102), so a pair that wins both its contested booking group and its
  contested agoda group is kept by both, and the A/B/C union lists it twice
  (before `drop_duplicates`, line 154, removes the copy).

  `Resolution.ResolveIsNotOneToOne` exhibits all three on three pairs. What
  does hold is `Resolution.ResolveUndominatedOnOneSide`: every resolved pair
  is unbeaten on at least one of its two indices.
- **City similarity in the score.** `record_linkage_city_title` ranks by the
  mean of the title and city similarities (line 228), so city similarity
  decides between competing pairs, not only the classifier's input.
- **No fallback, no checks.** Conflicts are resolved only by steps A-D; there
  is no greedy one-to-one assignment. Nothing is checked about the thresholds
  or the columns, and `fs.fit` (line 224) is called with no guard.
  `record_linkage_city_title` overwrites the two thresholds it is given with
  0.95 and 0.9 (lines 191-192).

## Model

| member | source | states |
|---|---|---|
| `Blocking.Candidates` | Funzioni/funzioni.py:33-44 | A pair of positions is a candidate exactly when both positions exist and the two processed titles are non-empty and share their first character. Pairs from different blocks are never compared. |
| `Blocking.CandidatesNoDup` | Funzioni/funzioni.py:38-44 | The candidate index lists every compatible pair once. |
| `Blocking.EmptyTitleNeverCompared` | Funzioni/funzioni.py:33-34 | A listing whose processed title is empty (no first letter) is in no candidate pair. |
| `Scoring.Accept` | Funzioni/funzioni.py:66 | A scored pair is kept exactly when its similarity is strictly greater than `soglia`. A similarity equal to `soglia` is rejected. |
| `Scoring.Classify` | Funzioni/funzioni.py:218-225 | A feature row is a match exactly when the classifier accepts its binarised pattern (`name > cutoff`, `city > cutoff`). |
| `Scoring.Mean` | Funzioni/funzioni.py:228 | The ranking score, the mean of the two raw similarities, lies between them. |
| `Scoring.MeanScores` | Funzioni/funzioni.py:228-232 | One ranked row per matched feature row, with the same indices and a score between its title and city similarities. |
| `PairKeys.NatToString` | Funzioni/funzioni.py:71 | `astype(str)` of an index is a non-empty string of decimal digits without a leading zero, one digit exactly for indices below 10. |
| `PairKeys.PairKey` | Funzioni/funzioni.py:71 | The key is the decimal digits of the booking index, one `#`, then the digits of the agoda index: there is exactly one separator and both sides are non-empty (the same key is built at lines 118 and 272). |
| `PairKeys.FindHash` | Funzioni/funzioni.py:71 | Finds the first `#` of a key, or reports that there is none. |
| `PairKeys.PairKeyRoundTrip` | Funzioni/funzioni.py:71 | Parsing `index_booking + "#" + index_agoda` gives back both indices. |
| `PairKeys.PairKeyInjective` | Funzioni/funzioni.py:118 | Two pairs with the same key are the same pair, so the key identifies its pair (the re-merge on `pair` at line 297 relies on this). |
| `Resolution.Contested` | Funzioni/funzioni.py:90 | A table in which some index is contested has at least two rows. What `duplicated(subset=..., keep=False)` marks is characterised by `Resolution.ContestedExactly` (the same test is at lines 98, 248 and 257). |
| `Resolution.ContestedExactly` | Funzioni/funzioni.py:90 | An index is marked as duplicated exactly when two different rows carry it. |
| `Resolution.GroupMax` | Funzioni/funzioni.py:92-94 | The group maximum is the score of some row of the group, and no row of the group scores more. |
| `Resolution.UncontestedIn` | Funzioni/funzioni.py:85-86 | `drop_duplicates(keep=False)` keeps exactly the rows whose index occurs once, and never raises the number of rows with any index. |
| `Resolution.DropContested` | Funzioni/funzioni.py:85-86 | One `drop_duplicates(subset=..., keep=False)`: a row is kept exactly when its index on that side occurs once in the table it is applied to. |
| `Resolution.StepA` | Funzioni/funzioni.py:85-86 | A row survives step A exactly when its booking index occurs once among the accepted pairs and its agoda index occurs once among the survivors of the booking drop. |
| `Resolution.Best` | Funzioni/funzioni.py:88-102 | Every row kept by step B (or C) has a contested index, and no accepted pair with the same index scores more. |
| `Resolution.BestIn` | Funzioni/funzioni.py:90-102 | Keeps exactly the rows whose index is duplicated and whose score equals the group maximum. |
| `Resolution.Resolve` | Funzioni/funzioni.py:81-108 | Resolution never invents pairs: every output row is one of the accepted pairs. |
| `Resolution.CountOneUnique` | Funzioni/funzioni.py:85 | An index that occurs once among the accepted pairs identifies its row. |
| `Resolution.StepAOneToOne` | Funzioni/funzioni.py:85-86 | Step A's output is one-to-one: each booking index and each agoda index in it occurs exactly once. |
| `Resolution.BestExactly` | Funzioni/funzioni.py:90-102 | Steps B/C keep a pair exactly when its index is contested and no pair with that index outscores it. All ties are kept. |
| `Resolution.BestCoversContested` | Funzioni/funzioni.py:90-102 | Every contested booking index (step B) and every contested agoda index (step C) keeps at least one pair. |
| `Resolution.ResolveExactly` | Funzioni/funzioni.py:81-108 | A pair is in the union of A, B and C exactly when it is accepted and one of three holds: its booking index occurs once and its agoda index occurs once among the survivors of the booking drop; or it is the unbeaten pair of a contested booking index; or it is the unbeaten pair of a contested agoda index. |
| `Resolution.ResolveUndominatedOnOneSide` | Funzioni/funzioni.py:81-108 | Every resolved pair is unbeaten among the pairs sharing its booking index or among those sharing its agoda index. |
| `Resolution.ResolveOfNoConflicts` | Funzioni/funzioni.py:81-108 | When no index is contested, resolution returns the accepted pairs unchanged. |
| `Resolution.ResolveIsNotOneToOne` | Funzioni/funzioni.py:84-108 | On the pairs [0,0,0.9], [0,1,0.5], [1,0,0.5], the union is [1,0,0.5], [0,0,0.9], [0,0,0.9]. It lists a pair twice, keeps a dominated pair and links agoda 0 twice. |
| `Resolution.ContrivedStepA` | Funzioni/funzioni.py:85-86 | On the pairs above, step A keeps only [1,0,0.5]: the booking drop removes both rows of booking 0, after which agoda 0 occurs once. |
| `Resolution.ContrivedBest` | Funzioni/funzioni.py:90-102 | On the pairs above, steps B and C each keep only [0,0,0.9]. |
| `Assembly.Join` | Funzioni/funzioni.py:126-138 | Every joined row carries the shared attributes of the booking listing at `index_booking` (the `_booking` columns) and of the agoda listing at `index_agoda` (the `_agoda` columns), and the stay attributes of the agoda listing. It also carries the pair key of its two indices and comes from one resolved pair. Every pair with existing positions gives one row. |
| `Assembly.JoinRow` | Funzioni/funzioni.py:126-138 | The row of one resolved pair keeps its indices and score, and its key reads back as those two indices. |
| `Seqs.Distinct` | Funzioni/funzioni.py:154 | `drop_duplicates` leaves pairwise distinct rows, exactly the rows of its input, and no more of them. |
| `Seqs.DistinctOfNoDup` | Funzioni/funzioni.py:154 | A table without repeated rows is left as it is. |
| `Seqs.DistinctKeepsFirst` | Funzioni/funzioni.py:154 | keep='first': appending rows never disturbs the rows already kept. |
| `Linkage.ListingFrame.AddIdColumn` | Funzioni/funzioni.py:22-23 | Writes the id column, each row's own position, into the frame and leaves its listings as they are. |
| `Linkage.ListingFrame.Copy` | Funzioni/funzioni.py:172-173 | `copy()` gives a fresh frame with the same contents. |
| `Linkage.MatchFrame.DropDuplicates` | Funzioni/funzioni.py:154 | In place, the rows become `Distinct` of the old rows. |
| `Linkage.RecordLinkageTitle` | Funzioni/funzioni.py:6-155 | Writes the id columns into both caller frames, changes nothing else of theirs, and returns `LinkTitle` of their listings. |
| `Linkage.RecordLinkageCityTitle` | Funzioni/funzioni.py:157-315 | Returns `LinkCityTitle` of the caller's listings, which does not depend on the two thresholds passed in. The caller's frames are unchanged. |
| `Linkage.TitleScores` | Funzioni/funzioni.py:33-66 | Every accepted pair names existing positions and scores strictly above the threshold (the converse is `Linkage.TitleScoresExactly`). |
| `Linkage.LinkTitle` | Funzioni/funzioni.py:6-155 | The result of `record_linkage_title` has no repeated row, and every row names existing positions and scores strictly above the threshold (see also `Linkage.LinkTitleSound`). |
| `Linkage.CityTitleScores` | Funzioni/funzioni.py:186-232 | Every ranked pair names existing positions (its full characterisation is `Linkage.CityTitleScoresExactly`). |
| `Linkage.LinkCityTitle` | Funzioni/funzioni.py:157-315 | The result of `record_linkage_city_title` has no repeated row, and every row names existing positions (see also `Linkage.LinkCityTitleSound`). |
| `Linkage.TitleScoresExactly` | Funzioni/funzioni.py:33-66 | A pair is accepted exactly when its titles share a block and its title similarity, which is its score, is strictly above the threshold. |
| `Linkage.CityTitleScoresExactly` | Funzioni/funzioni.py:186-232 | A pair is scored exactly when its titles share a block and the classifier accepts the pattern (title similarity > 0.95, city similarity > 0.9); its score is the mean of the two raw similarities. |
| `Linkage.CityFeaturesExactly` | Funzioni/funzioni.py:204-209 | A feature row exists exactly for a pair in one block, and it carries that pair's title similarity and city similarity. |
| `Linkage.MeanScoresMember` | Funzioni/funzioni.py:228-232 | Each ranked row is a matched feature row with the mean of its two similarities as its score. |
| `Linkage.CityTitleScoreBetween` | Funzioni/funzioni.py:228 | A city/title score lies between the pair's title and city similarities. |
| `Linkage.TitleScoreInUnitInterval` | Funzioni/funzioni.py:54-66 | When the similarity metric is valued in [0, 1], as the comment at line 54 says, every accepted title score is in [0, 1]. |
| `Linkage.CityTitleScoreInUnitInterval` | Funzioni/funzioni.py:204-232 | When the similarity metric is valued in [0, 1], every city/title ranking score is in [0, 1]. |
| `Linkage.ResultPairKeysDistinct` | Funzioni/funzioni.py:107-154 | Even though the A/B/C union can repeat a pair, the returned rows are pairwise distinct and so are their pair keys, whenever a pair determines its score. |
| `Linkage.LinkTitleSound` | Funzioni/funzioni.py:6-155 | Every returned row of `record_linkage_title` comes from a pair in one block whose title similarity, its score, is above the threshold. The row carries the pair key and both listings' attributes. No two rows share a key. |
| `Linkage.ResultExactly` | Funzioni/funzioni.py:107-154 | A row is in the joined, deduplicated result exactly when it is the row of a resolved pair whose two positions exist. |
| `Linkage.LinkTitleExactly` | Funzioni/funzioni.py:6-155 | A row is returned by `record_linkage_title` exactly when it is the joined row of a pair that survived steps A-D. |
| `Linkage.LinkTitleKeepsUncontested` | Funzioni/funzioni.py:84-108 | When no index is contested among the accepted pairs, every accepted pair becomes a returned row. |
| `Linkage.NoCandidatesWithoutAgoda` | Funzioni/funzioni.py:44 | An empty agoda table gives no candidate pairs. |
| `Linkage.LinkTitleEmptyAgoda` | Funzioni/funzioni.py:44-155 | An empty agoda table gives an empty result. |
| `Linkage.LinkCityTitleExactly` | Funzioni/funzioni.py:157-315 | A row is returned by `record_linkage_city_title` exactly when it is the joined row of a pair that survived steps A-D. |
| `Linkage.LinkCityTitleSound` | Funzioni/funzioni.py:157-315 | Every returned row of `record_linkage_city_title` comes from a pair in one block that the classifier accepts on (title > 0.95, city > 0.9), whatever thresholds were passed. Its score is the mean of the two similarities. It carries the key and both listings' attributes. No two rows share a key. |

## Left out

- The Jaro-Winkler computation of `compare.string` (lines 50-60, 204-209) is library code that is not part of this model. It is the parameter `sim`.
- The ECM classifier's `fit`/`predict` (lines 223-225) is a foreign EM estimator over floating-point likelihoods. It is the parameter `predict`, standing for the fitted model's decision on each binarised pattern.
- Scores are exact reals. Floating-point rounding and missing values (NaN similarities, NaN comparisons) are not modelled.
- Index labels are taken to be the row positions 0..n-1 (a RangeIndex). Other index labels are not modelled.
- `Blocking.Candidates`: lists the pairs row by row (booking position, then agoda position). recordlinkage's own listing order is library code that is not part of this model. Membership and uniqueness are exact.
- `Resolution.BestIn`: keeps the rows in input order. `groupby(...).apply` returns the groups sorted by index, and that order is not reproduced. Which rows are kept, and how many times, is exact.
- `reset_index`, the renaming of `level_0`/`level_1` and of `titolo_processed`, the projection and reordering of the result's columns, and the no-op `head(1)` (line 188) are pandas mechanics with no effect on the rows. The unused `clean` import (line 3) is not modelled either.
- `Linkage.LinkCityTitle`: the re-merge with `single_scores` (lines 295-297) is not modelled. The city/title rows therefore carry the mean score but not the separate `name_similarity` and `città_similarity` columns. That merge adds one set of columns to each row and neither drops nor repeats rows, because three facts hold together: the feature table has one row per candidate pair (`Blocking.CandidatesNoDup`), every resolved pair is a feature row (`Linkage.CityTitleScoresExactly`), and keys identify pairs (`PairKeys.PairKeyInjective`).
- A missing column raises a `KeyError` in pandas. That failure is not modelled.
- `Linkage.LinkCityTitle`: the classifier is assumed to fit. `fs.fit` (line 224) is called with no guard, so a fit that fails ends `record_linkage_city_title` with an exception; the model's `predict` is total and that failure is not modelled.
