/** Similarity scoring and match classification of the candidate pairs. The
    string metric (compare.string's Jaro-Winkler in record_linkage_title) is the parameter `sim`; the
    fitted ECM classifier is the parameter `predict`. */
module Scoring {
  import opened Records
  import opened Blocking

  /** A row of scores_df: index_booking, index_agoda and the score that the
      conflict resolution ranks by. */
  datatype Scored = Scored(booking: nat, agoda: nat, score: real)

  /** A row of the feature table of record_linkage_city_title: the raw title
      similarity (name_similarity) and city similarity (città_similarity). */
  datatype Features = Features(booking: nat, agoda: nat, name: real, city: real)

  /** The binarisation cutoffs: record_linkage_city_title overwrites the
      thresholds it is given with these two constants. */
  const NameCutoff: real := 0.95
  const CityCutoff: real := 0.9

  /** compare.string on the processed titles, one score per candidate pair. */
  function TitleFeatures(c: seq<Pair>, booking: seq<Listing>, agoda: seq<Listing>,
                         sim: (string, string) -> real): seq<Scored>
    requires InRange(c, |booking|, |agoda|)
  {
    seq(|c|, i requires 0 <= i < |c| =>
      Scored(c[i].booking, c[i].agoda,
             sim(booking[c[i].booking].processedTitle, agoda[c[i].agoda].processedTitle)))
  }

  /** compare.string on the processed titles and on the city column. */
  function CityFeatures(c: seq<Pair>, booking: seq<Listing>, agoda: seq<Listing>,
                        sim: (string, string) -> real): seq<Features>
    requires InRange(c, |booking|, |agoda|)
  {
    seq(|c|, i requires 0 <= i < |c| =>
      Features(c[i].booking, c[i].agoda,
               sim(booking[c[i].booking].processedTitle, agoda[c[i].agoda].processedTitle),
               sim(booking[c[i].booking].shared.city, agoda[c[i].agoda].shared.city)))
  }

  /** features[features['name_similarity'] > soglia]: a pair is kept only when
      its score is strictly above the threshold, in the original order. */
  function Accept(s: seq<Scored>, threshold: real): (r: seq<Scored>)
    ensures forall x :: x in r <==> x in s && x.score > threshold
    ensures |r| <= |s|
    decreases |s|
  {
    if |s| == 0 then []
    else
      var rest := Accept(s[1..], threshold);
      if s[0].score > threshold then [s[0]] + rest else rest
  }

  /** A row of features_bin: whether each similarity passed its cutoff. */
  datatype Agreement = Agreement(name: bool, city: bool)

  /** features_bin: each similarity compared strictly against its cutoff. */
  function Binarise(f: Features, nameCutoff: real, cityCutoff: real): Agreement {
    Agreement(f.name > nameCutoff, f.city > cityCutoff)
  }

  /** fs.predict(features_bin): the pairs the classifier labels as matches. */
  function Classify(fs: seq<Features>, predict: Agreement -> bool,
                    nameCutoff: real, cityCutoff: real): (r: seq<Features>)
    ensures forall f :: f in r <==> f in fs && predict(Binarise(f, nameCutoff, cityCutoff))
    ensures |r| <= |fs|
    decreases |fs|
  {
    if |fs| == 0 then []
    else
      var rest := Classify(fs[1..], predict, nameCutoff, cityCutoff);
      if predict(Binarise(fs[0], nameCutoff, cityCutoff)) then [fs[0]] + rest else rest
  }

  /** mean(axis=1) of the two raw similarities: it lies between them. */
  function Mean(x: real, y: real): (m: real)
    ensures x <= y ==> x <= m <= y
    ensures y <= x ==> y <= m <= x
  {
    (x + y) / 2.0
  }

  /** scores_df of record_linkage_city_title: each matched pair ranked by the
      mean of its two similarities. */
  function MeanScores(fs: seq<Features>): (r: seq<Scored>)
    ensures |r| == |fs|
    ensures forall i :: 0 <= i < |r| ==>
      r[i].booking == fs[i].booking && r[i].agoda == fs[i].agoda &&
      ((fs[i].name <= r[i].score <= fs[i].city) || (fs[i].city <= r[i].score <= fs[i].name))
  {
    seq(|fs|, i requires 0 <= i < |fs| =>
      Scored(fs[i].booking, fs[i].agoda, Mean(fs[i].name, fs[i].city)))
  }
}
