/** Joining the resolved pairs back to the attributes of both tables: the two
    pd.merge calls, with the `_booking` and `_agoda` suffixes for the shared
    attributes and the stay attributes taken from the agoda table. */
module Assembly {
  import opened Wrappers
  import opened Seqs
  import opened PairKeys
  import opened Records
  import opened Scoring

  /** One row of the result table. */
  datatype LinkedRow = LinkedRow(
    pair: string,
    score: real,
    indexBooking: nat,
    indexAgoda: nat,
    booking: Shared,   // the *_booking columns
    agoda: Shared,     // the *_agoda columns
    stay: Stay)        // numero_notti, numero_persone, inizio_permanenza, fine_permanenza

  /** The row of one resolved pair: its key reads back as the pair's indices. */
  function JoinRow(x: Scored, booking: seq<Listing>, agoda: seq<Listing>): (r: LinkedRow)
    requires x.booking < |booking| && x.agoda < |agoda|
    ensures ParsePairKey(r.pair) == Some((x.booking, x.agoda))
    ensures r.indexBooking == x.booking && r.indexAgoda == x.agoda && r.score == x.score
  {
    PairKeyRoundTrip(x.booking, x.agoda);
    LinkedRow(PairKey(x.booking, x.agoda), x.score, x.booking, x.agoda,
              booking[x.booking].shared, agoda[x.agoda].shared, agoda[x.agoda].stay)
  }

  /** Both merges are inner joins on the position: a pair naming a position
      that does not exist is dropped, every other pair gives one row. */
  function Join(s: seq<Scored>, booking: seq<Listing>, agoda: seq<Listing>): (r: seq<LinkedRow>)
    ensures forall row :: row in r ==>
      row.indexBooking < |booking| && row.indexAgoda < |agoda| &&
      Scored(row.indexBooking, row.indexAgoda, row.score) in s &&
      row.pair == PairKey(row.indexBooking, row.indexAgoda) &&
      row.booking == booking[row.indexBooking].shared &&
      row.agoda == agoda[row.indexAgoda].shared &&
      row.stay == agoda[row.indexAgoda].stay
    ensures forall x :: x in s && x.booking < |booking| && x.agoda < |agoda| ==>
      JoinRow(x, booking, agoda) in r
    ensures (forall x :: x in s ==> x.booking < |booking| && x.agoda < |agoda|) ==> |r| == |s|
    decreases |s|
  {
    if |s| == 0 then []
    else
      var rest := Join(s[1..], booking, agoda);
      assert forall x :: x in s[1..] ==> x in s;
      if s[0].booking < |booking| && s[0].agoda < |agoda| then [JoinRow(s[0], booking, agoda)] + rest
      else rest
  }
}
