/** The two linkage functions, record_linkage_title and
    record_linkage_city_title, as methods over the caller's listing tables,
    each proved equal to a specification function whose properties are the
    lemmas below. */
module Linkage {
  import opened Seqs
  import opened PairKeys
  import opened Records
  import opened Blocking
  import opened Scoring
  import opened Resolution
  import opened Assembly

  /** A listing table handed over by the caller (a DataFrame). */
  class ListingFrame {
    var listings: seq<Listing>
    /** The id column (id_booking or id_agoda); empty until it is written. */
    var ids: seq<nat>

    constructor (listings: seq<Listing>)
      ensures this.listings == listings && ids == []
    {
      this.listings := listings;
      ids := [];
    }

    /** The id column holds each row's own position. */
    predicate IdsArePositions()
      reads this
    {
      |ids| == |listings| && forall i :: 0 <= i < |ids| ==> ids[i] == i
    }

    /** frame['id_...'] = frame.index */
    method AddIdColumn()
      modifies this
      ensures listings == old(listings)
      ensures IdsArePositions()
    {
      ids := seq(|listings|, (i: int) requires 0 <= i => i as nat);
    }

    /** frame.copy() */
    method Copy() returns (c: ListingFrame)
      ensures fresh(c)
      ensures c.listings == listings && c.ids == ids
    {
      c := new ListingFrame(listings);
      c.ids := ids;
    }
  }

  /** The result table while it is assembled. */
  class MatchFrame {
    var rows: seq<LinkedRow>

    constructor (rows: seq<LinkedRow>)
      ensures this.rows == rows
    {
      this.rows := rows;
    }

    /** drop_duplicates(inplace=True) */
    method DropDuplicates()
      modifies this
      ensures rows == Distinct(old(rows))
    {
      rows := Distinct(rows);
    }
  }

  // ------------------------------------------------------ specification

  /** Both positions exist and the two processed titles share a block. */
  predicate Compared(booking: seq<Listing>, agoda: seq<Listing>, b: nat, a: nat) {
    b < |booking| && a < |agoda| &&
    SameBlock(booking[b].processedTitle, agoda[a].processedTitle)
  }

  function TitleSimilarity(booking: seq<Listing>, agoda: seq<Listing>, sim: (string, string) -> real,
                           b: nat, a: nat): real
    requires b < |booking| && a < |agoda|
  {
    sim(booking[b].processedTitle, agoda[a].processedTitle)
  }

  function CitySimilarity(booking: seq<Listing>, agoda: seq<Listing>, sim: (string, string) -> real,
                          b: nat, a: nat): real
    requires b < |booking| && a < |agoda|
  {
    sim(booking[b].shared.city, agoda[a].shared.city)
  }

  function CandidatePairs(booking: seq<Listing>, agoda: seq<Listing>): (c: seq<Pair>)
    ensures InRange(c, |booking|, |agoda|)
  {
    Candidates(ProcessedTitles(booking), ProcessedTitles(agoda))
  }

  /** scores_df of record_linkage_title (steps 1-5). */
  function TitleScores(booking: seq<Listing>, agoda: seq<Listing>, sim: (string, string) -> real,
                       threshold: real): (r: seq<Scored>)
    ensures forall x :: x in r ==> x.booking < |booking| && x.agoda < |agoda| && x.score > threshold
  {
    Accept(TitleFeatures(CandidatePairs(booking, agoda), booking, agoda, sim), threshold)
  }

  /** The result of record_linkage_title. */
  function LinkTitle(booking: seq<Listing>, agoda: seq<Listing>, sim: (string, string) -> real,
                     threshold: real): (r: seq<LinkedRow>)
    ensures NoDup(r)
    ensures forall row :: row in r ==>
      row.indexBooking < |booking| && row.indexAgoda < |agoda| && row.score > threshold
  {
    Distinct(Join(Resolve(TitleScores(booking, agoda, sim, threshold)), booking, agoda))
  }

  /** scores_df of record_linkage_city_title (steps 1-6 and the mean). */
  function CityTitleScores(booking: seq<Listing>, agoda: seq<Listing>, sim: (string, string) -> real,
                           predict: Agreement -> bool): (r: seq<Scored>)
    ensures forall x :: x in r ==> x.booking < |booking| && x.agoda < |agoda|
  {
    var fs := CityFeatures(CandidatePairs(booking, agoda), booking, agoda, sim);
    FeaturesInRange(CandidatePairs(booking, agoda), booking, agoda, sim);
    MeanScores(Classify(fs, predict, NameCutoff, CityCutoff))
  }

  lemma FeaturesInRange(c: seq<Pair>, booking: seq<Listing>, agoda: seq<Listing>,
                        sim: (string, string) -> real)
    requires InRange(c, |booking|, |agoda|)
    ensures forall f :: f in CityFeatures(c, booking, agoda, sim) ==> f.booking < |booking| && f.agoda < |agoda|
  {
    var fs := CityFeatures(c, booking, agoda, sim);
    forall f | f in fs ensures f.booking < |booking| && f.agoda < |agoda| {
      var i :| 0 <= i < |fs| && fs[i] == f;
      assert c[i].booking < |booking| && c[i].agoda < |agoda|;
    }
  }

  /** The result of record_linkage_city_title. */
  function LinkCityTitle(booking: seq<Listing>, agoda: seq<Listing>, sim: (string, string) -> real,
                         predict: Agreement -> bool): (r: seq<LinkedRow>)
    ensures NoDup(r)
    ensures forall row :: row in r ==> row.indexBooking < |booking| && row.indexAgoda < |agoda|
  {
    Distinct(Join(Resolve(CityTitleScores(booking, agoda, sim, predict)), booking, agoda))
  }

  // ------------------------------------------------------------ methods

  /** record_linkage_title. It writes the id column into both of the caller's
      tables and changes nothing else of theirs. */
  method RecordLinkageTitle(agoda: ListingFrame, booking: ListingFrame, threshold: real,
                            sim: (string, string) -> real)
    returns (rows: seq<LinkedRow>)
    modifies booking, agoda
    ensures booking.listings == old(booking.listings) && agoda.listings == old(agoda.listings)
    ensures booking.IdsArePositions() && agoda.IdsArePositions()
    ensures rows == LinkTitle(old(booking.listings), old(agoda.listings), sim, threshold)
  {
    booking.AddIdColumn();
    agoda.AddIdColumn();
    var bookingTable, agodaTable := booking.listings, agoda.listings;
    // blocking on the first letter and candidate pairs
    var candidates := Candidates(ProcessedTitles(bookingTable), ProcessedTitles(agodaTable));
    // Jaro-Winkler similarity of the processed titles
    var features := TitleFeatures(candidates, bookingTable, agodaTable, sim);
    // threshold selection
    var scores := Accept(features, threshold);
    // A, B, C and D
    var matchA := StepA(scores);
    var bookingBest := Best(scores, BookingSide);
    var agodaBest := Best(scores, AgodaSide);
    var resolved := matchA + bookingBest + agodaBest;
    // the two merges, then drop_duplicates
    var frame := new MatchFrame(Join(resolved, bookingTable, agodaTable));
    frame.DropDuplicates();
    rows := frame.rows;
  }

  /** record_linkage_city_title. It works on copies, so the caller's tables are
      left as they were; the two thresholds it is given are replaced by the
      constant cutoffs before they are used. */
  method RecordLinkageCityTitle(bookingFrame: ListingFrame, agodaFrame: ListingFrame,
                                titleThreshold: real, cityThreshold: real,
                                sim: (string, string) -> real, predict: Agreement -> bool)
    returns (rows: seq<LinkedRow>)
    ensures rows == LinkCityTitle(bookingFrame.listings, agodaFrame.listings, sim, predict)
  {
    var booking := bookingFrame.Copy();
    var agoda := agodaFrame.Copy();
    booking.AddIdColumn();
    agoda.AddIdColumn();
    // lines 191-192: the thresholds passed in are replaced by the fixed cutoffs
    var titleCutoff, cityCutoff := NameCutoff, CityCutoff;
    var candidates := Candidates(ProcessedTitles(booking.listings), ProcessedTitles(agoda.listings));
    var features := CityFeatures(candidates, booking.listings, agoda.listings, sim);
    // binarisation and the classifier's matches
    var matches := Classify(features, predict, titleCutoff, cityCutoff);
    var scores := MeanScores(matches);
    var matchA := StepA(scores);
    var bookingBest := Best(scores, BookingSide);
    var agodaBest := Best(scores, AgodaSide);
    var resolved := matchA + bookingBest + agodaBest;
    var frame := new MatchFrame(Join(resolved, bookingFrame.listings, agodaFrame.listings));
    frame.DropDuplicates();
    rows := frame.rows;
  }

  // ------------------------------------------------------------- lemmas

  /** Blocking and the threshold together: a scored pair is kept exactly when
      its two titles share a block and their similarity is strictly above the
      threshold (a similarity equal to the threshold is rejected). */
  lemma TitleScoresExactly(booking: seq<Listing>, agoda: seq<Listing>, sim: (string, string) -> real,
                           threshold: real, x: Scored)
    ensures x in TitleScores(booking, agoda, sim, threshold) <==>
      Compared(booking, agoda, x.booking, x.agoda) &&
      x.score == TitleSimilarity(booking, agoda, sim, x.booking, x.agoda) &&
      x.score > threshold
  {
    var c := CandidatePairs(booking, agoda);
    var f := TitleFeatures(c, booking, agoda, sim);
    if x in f {
      var i :| 0 <= i < |f| && f[i] == x;
      assert c[i] in c;
    }
    if Compared(booking, agoda, x.booking, x.agoda) &&
       x.score == TitleSimilarity(booking, agoda, sim, x.booking, x.agoda) {
      var p := Pair(x.booking, x.agoda);
      assert p in c;
      var i :| 0 <= i < |c| && c[i] == p;
      assert f[i] == x;
    }
  }

  /** Classification and ranking of the city/title variant: a pair is scored
      exactly when its titles share a block and the classifier accepts its
      pattern title > 0.95, city > 0.9; its score is the mean of its two raw
      similarities. */
  lemma CityTitleScoresExactly(booking: seq<Listing>, agoda: seq<Listing>, sim: (string, string) -> real,
                               predict: Agreement -> bool, x: Scored)
    ensures x in CityTitleScores(booking, agoda, sim, predict) <==>
      Compared(booking, agoda, x.booking, x.agoda) &&
      var name := TitleSimilarity(booking, agoda, sim, x.booking, x.agoda);
      var city := CitySimilarity(booking, agoda, sim, x.booking, x.agoda);
      predict(Agreement(name > 0.95, city > 0.9)) && x.score == Mean(name, city)
  {
    var fs := CityFeatures(CandidatePairs(booking, agoda), booking, agoda, sim);
    var ms := Classify(fs, predict, NameCutoff, CityCutoff);
    MeanScoresMember(ms, x);
    if x in MeanScores(ms) {
      var f :| f in ms && x == Scored(f.booking, f.agoda, Mean(f.name, f.city));
      CityFeaturesExactly(booking, agoda, sim, f);
    }
    if Compared(booking, agoda, x.booking, x.agoda) {
      var name := TitleSimilarity(booking, agoda, sim, x.booking, x.agoda);
      var city := CitySimilarity(booking, agoda, sim, x.booking, x.agoda);
      var f := Features(x.booking, x.agoda, name, city);
      CityFeaturesExactly(booking, agoda, sim, f);
    }
  }

  lemma CityFeaturesExactly(booking: seq<Listing>, agoda: seq<Listing>, sim: (string, string) -> real,
                            f: Features)
    ensures f in CityFeatures(CandidatePairs(booking, agoda), booking, agoda, sim) <==>
      Compared(booking, agoda, f.booking, f.agoda) &&
      f.name == TitleSimilarity(booking, agoda, sim, f.booking, f.agoda) &&
      f.city == CitySimilarity(booking, agoda, sim, f.booking, f.agoda)
  {
    var c := CandidatePairs(booking, agoda);
    var fs := CityFeatures(c, booking, agoda, sim);
    if f in fs {
      var i :| 0 <= i < |fs| && fs[i] == f;
      assert c[i] in c;
    }
    if Compared(booking, agoda, f.booking, f.agoda) &&
       f.name == TitleSimilarity(booking, agoda, sim, f.booking, f.agoda) &&
       f.city == CitySimilarity(booking, agoda, sim, f.booking, f.agoda) {
      var p := Pair(f.booking, f.agoda);
      assert p in c;
      var i :| 0 <= i < |c| && c[i] == p;
      assert fs[i] == f;
    }
  }

  lemma MeanScoresMember(fs: seq<Features>, x: Scored)
    ensures x in MeanScores(fs) <==>
      exists f :: f in fs && x == Scored(f.booking, f.agoda, Mean(f.name, f.city))
  {
    var scores := MeanScores(fs);
    if x in scores {
      var i :| 0 <= i < |scores| && scores[i] == x;
      assert fs[i] in fs;
    }
    if f :| f in fs && x == Scored(f.booking, f.agoda, Mean(f.name, f.city)) {
      var i :| 0 <= i < |fs| && fs[i] == f;
      assert scores[i] == x;
    }
  }

  /** The score of a city/title pair lies between its two raw similarities. */
  lemma CityTitleScoreBetween(booking: seq<Listing>, agoda: seq<Listing>, sim: (string, string) -> real,
                              predict: Agreement -> bool, x: Scored)
    requires x in CityTitleScores(booking, agoda, sim, predict)
    ensures x.booking < |booking| && x.agoda < |agoda|
    ensures var name := TitleSimilarity(booking, agoda, sim, x.booking, x.agoda);
            var city := CitySimilarity(booking, agoda, sim, x.booking, x.agoda);
            (name <= x.score <= city) || (city <= x.score <= name)
  {
    CityTitleScoresExactly(booking, agoda, sim, predict, x);
  }

  /** With a similarity metric valued in [0, 1], as compare.string's is, every
      accepted title score is in [0, 1]. */
  lemma TitleScoreInUnitInterval(booking: seq<Listing>, agoda: seq<Listing>, sim: (string, string) -> real,
                                 threshold: real, x: Scored)
    requires forall t, u :: 0.0 <= sim(t, u) <= 1.0
    requires x in TitleScores(booking, agoda, sim, threshold)
    ensures 0.0 <= x.score <= 1.0
  {
    TitleScoresExactly(booking, agoda, sim, threshold, x);
  }

  /** With a similarity metric valued in [0, 1], every city/title ranking
      score is in [0, 1]. */
  lemma CityTitleScoreInUnitInterval(booking: seq<Listing>, agoda: seq<Listing>, sim: (string, string) -> real,
                                     predict: Agreement -> bool, x: Scored)
    requires forall t, u :: 0.0 <= sim(t, u) <= 1.0
    requires x in CityTitleScores(booking, agoda, sim, predict)
    ensures 0.0 <= x.score <= 1.0
  {
    CityTitleScoreBetween(booking, agoda, sim, predict, x);
  }

  /** A pair determines its score. */
  predicate ScoreIsFunctionOfPair(s: seq<Scored>) {
    forall x, y :: x in s && y in s && x.booking == y.booking && x.agoda == y.agoda ==> x == y
  }

  /** The rows of a result are pairwise distinct and so are their pair keys. */
  lemma ResultPairKeysDistinct(s: seq<Scored>, booking: seq<Listing>, agoda: seq<Listing>)
    requires ScoreIsFunctionOfPair(s)
    ensures var rows := Distinct(Join(Resolve(s), booking, agoda));
            NoDup(rows) &&
            forall i, j :: 0 <= i < j < |rows| ==> rows[i].pair != rows[j].pair
  {
    var rows := Distinct(Join(Resolve(s), booking, agoda));
    forall i, j | 0 <= i < j < |rows| ensures rows[i].pair != rows[j].pair {
      var r1, r2 := rows[i], rows[j];
      assert r1 in rows && r2 in rows;
      PairKeyInjective(r1.indexBooking, r1.indexAgoda, r2.indexBooking, r2.indexAgoda);
      var x1 := Scored(r1.indexBooking, r1.indexAgoda, r1.score);
      var x2 := Scored(r2.indexBooking, r2.indexAgoda, r2.score);
      assert x1 in s && x2 in s;
    }
  }

  /** Every row of record_linkage_title links a compared pair whose title
      similarity is above the threshold, carries that similarity, the pair key
      of its two indices and the attributes of the two listings at those
      indices; no two rows share a pair key. */
  lemma LinkTitleSound(booking: seq<Listing>, agoda: seq<Listing>, sim: (string, string) -> real,
                       threshold: real)
    ensures var rows := LinkTitle(booking, agoda, sim, threshold);
      (forall row :: row in rows ==>
        Compared(booking, agoda, row.indexBooking, row.indexAgoda) &&
        row.score == TitleSimilarity(booking, agoda, sim, row.indexBooking, row.indexAgoda) &&
        row.score > threshold &&
        row.pair == PairKey(row.indexBooking, row.indexAgoda) &&
        row.booking == booking[row.indexBooking].shared &&
        row.agoda == agoda[row.indexAgoda].shared &&
        row.stay == agoda[row.indexAgoda].stay) &&
      forall i, j :: 0 <= i < j < |rows| ==> rows[i].pair != rows[j].pair
  {
    var s := TitleScores(booking, agoda, sim, threshold);
    forall x | x in s ensures Compared(booking, agoda, x.booking, x.agoda) &&
      x.score == TitleSimilarity(booking, agoda, sim, x.booking, x.agoda) && x.score > threshold
    {
      TitleScoresExactly(booking, agoda, sim, threshold, x);
    }
    ResultPairKeysDistinct(s, booking, agoda);
  }

  /** A row is in the joined, deduplicated result exactly when it is the row of
      a resolved pair whose two positions exist. */
  lemma ResultExactly(s: seq<Scored>, booking: seq<Listing>, agoda: seq<Listing>, row: LinkedRow)
    ensures row in Distinct(Join(Resolve(s), booking, agoda)) <==>
      exists x :: x in Resolve(s) && x.booking < |booking| && x.agoda < |agoda| &&
        row == JoinRow(x, booking, agoda)
  {
    if row in Join(Resolve(s), booking, agoda) {
      var x := Scored(row.indexBooking, row.indexAgoda, row.score);
      assert row == JoinRow(x, booking, agoda);
    }
  }

  /** Every row of record_linkage_title is the row of a pair that survived
      steps A-D, and every such pair gives a row. */
  lemma LinkTitleExactly(booking: seq<Listing>, agoda: seq<Listing>, sim: (string, string) -> real,
                         threshold: real, row: LinkedRow)
    ensures row in LinkTitle(booking, agoda, sim, threshold) <==>
      exists x :: x in Resolve(TitleScores(booking, agoda, sim, threshold)) &&
        x.booking < |booking| && x.agoda < |agoda| && row == JoinRow(x, booking, agoda)
  {
    ResultExactly(TitleScores(booking, agoda, sim, threshold), booking, agoda, row);
  }

  /** Every row of record_linkage_city_title is the row of a pair that
      survived steps A-D, and every such pair gives a row. */
  lemma LinkCityTitleExactly(booking: seq<Listing>, agoda: seq<Listing>, sim: (string, string) -> real,
                             predict: Agreement -> bool, row: LinkedRow)
    ensures row in LinkCityTitle(booking, agoda, sim, predict) <==>
      exists x :: x in Resolve(CityTitleScores(booking, agoda, sim, predict)) &&
        x.booking < |booking| && x.agoda < |agoda| && row == JoinRow(x, booking, agoda)
  {
    ResultExactly(CityTitleScores(booking, agoda, sim, predict), booking, agoda, row);
  }

  /** When no index is contested among the accepted pairs, every one of them
      becomes a row of record_linkage_title. */
  lemma LinkTitleKeepsUncontested(booking: seq<Listing>, agoda: seq<Listing>,
                                  sim: (string, string) -> real, threshold: real, x: Scored)
    requires NoConflicts(TitleScores(booking, agoda, sim, threshold))
    requires x in TitleScores(booking, agoda, sim, threshold)
    ensures x.booking < |booking| && x.agoda < |agoda|
    ensures JoinRow(x, booking, agoda) in LinkTitle(booking, agoda, sim, threshold)
  {
    var s := TitleScores(booking, agoda, sim, threshold);
    assert x.booking < |booking| && x.agoda < |agoda| by {
      TitleScoresExactly(booking, agoda, sim, threshold, x);
    }
    UncontestedReachResult(s, booking, agoda, x);
  }

  lemma UncontestedReachResult(s: seq<Scored>, booking: seq<Listing>, agoda: seq<Listing>, x: Scored)
    requires NoConflicts(s)
    requires x in s && x.booking < |booking| && x.agoda < |agoda|
    ensures JoinRow(x, booking, agoda) in Distinct(Join(Resolve(s), booking, agoda))
  {
    ResolveOfNoConflicts(s);
  }

  lemma {:induction false} NoCandidatesWithoutAgoda(booking: seq<string>, agoda: seq<string>)
    requires |agoda| == 0
    ensures Candidates(booking, agoda) == []
    decreases |booking|
  {
    if |booking| > 0 {
      NoCandidatesWithoutAgoda(booking[..|booking| - 1], agoda);
    }
  }

  /** An empty agoda table gives an empty result. */
  lemma LinkTitleEmptyAgoda(booking: seq<Listing>, agoda: seq<Listing>,
                            sim: (string, string) -> real, threshold: real)
    requires |agoda| == 0
    ensures LinkTitle(booking, agoda, sim, threshold) == []
  {
    NoCandidatesWithoutAgoda(ProcessedTitles(booking), ProcessedTitles(agoda));
  }

  /** Every row of record_linkage_city_title links a compared pair that the
      classifier accepts on the pattern title > 0.95, city > 0.9, whatever
      thresholds were passed; its score is the mean of the two raw
      similarities; the other columns are as in record_linkage_title. */
  lemma LinkCityTitleSound(booking: seq<Listing>, agoda: seq<Listing>, sim: (string, string) -> real,
                           predict: Agreement -> bool)
    ensures var rows := LinkCityTitle(booking, agoda, sim, predict);
      (forall row :: row in rows ==>
        Compared(booking, agoda, row.indexBooking, row.indexAgoda) &&
        (var name := TitleSimilarity(booking, agoda, sim, row.indexBooking, row.indexAgoda);
         var city := CitySimilarity(booking, agoda, sim, row.indexBooking, row.indexAgoda);
         predict(Agreement(name > 0.95, city > 0.9)) && row.score == Mean(name, city)) &&
        row.pair == PairKey(row.indexBooking, row.indexAgoda) &&
        row.booking == booking[row.indexBooking].shared &&
        row.agoda == agoda[row.indexAgoda].shared &&
        row.stay == agoda[row.indexAgoda].stay) &&
      forall i, j :: 0 <= i < j < |rows| ==> rows[i].pair != rows[j].pair
  {
    var s := CityTitleScores(booking, agoda, sim, predict);
    forall x | x in s ensures Compared(booking, agoda, x.booking, x.agoda) &&
      var name := TitleSimilarity(booking, agoda, sim, x.booking, x.agoda);
      var city := CitySimilarity(booking, agoda, sim, x.booking, x.agoda);
      predict(Agreement(name > 0.95, city > 0.9)) && x.score == Mean(name, city)
    {
      CityTitleScoresExactly(booking, agoda, sim, predict, x);
    }
    ResultPairKeysDistinct(s, booking, agoda);
  }
}
