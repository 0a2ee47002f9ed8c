/** Blocking on the first letter of the processed title: only a booking and an
    agoda listing whose titles start with the same character are compared. */
module Blocking {
  import opened Wrappers
  import opened Seqs

  /** A candidate pair: a booking position and an agoda position. */
  datatype Pair = Pair(booking: nat, agoda: nat)

  /** The first_letter column, `.str[0]`: an empty title has no first letter
      (a missing value), and a missing key joins no block. */
  function FirstLetter(title: string): Option<char> {
    if |title| == 0 then None else Some(title[0])
  }

  predicate SameBlock(t: string, u: string) {
    FirstLetter(t).Some? && FirstLetter(t) == FirstLetter(u)
  }

  /** Every pair refers to a listing of each table. */
  predicate InRange(c: seq<Pair>, bookingCount: nat, agodaCount: nat) {
    forall i :: 0 <= i < |c| ==> c[i].booking < bookingCount && c[i].agoda < agodaCount
  }

  /** The candidate pairs of booking listing i (title t) with the agoda titles. */
  function RowPairs(i: nat, t: string, agoda: seq<string>): (r: seq<Pair>)
    ensures forall p :: p in r <==> p.booking == i && p.agoda < |agoda| && SameBlock(t, agoda[p.agoda])
    ensures InRange(r, i + 1, |agoda|)
    decreases |agoda|
  {
    if |agoda| == 0 then []
    else
      var j := |agoda| - 1;
      RowPairs(i, t, agoda[..j]) + (if SameBlock(t, agoda[j]) then [Pair(i, j)] else [])
  }

  /** indexer.block('first_letter') followed by indexer.index(booking, agoda):
      exactly the pairs of positions whose titles share a first letter. */
  function Candidates(booking: seq<string>, agoda: seq<string>): (r: seq<Pair>)
    ensures forall p :: p in r <==>
      p.booking < |booking| && p.agoda < |agoda| && SameBlock(booking[p.booking], agoda[p.agoda])
    ensures InRange(r, |booking|, |agoda|)
    decreases |booking|
  {
    if |booking| == 0 then []
    else
      var i := |booking| - 1;
      Candidates(booking[..i], agoda) + RowPairs(i, booking[i], agoda)
  }

  lemma {:induction false} RowPairsNoDup(i: nat, t: string, agoda: seq<string>)
    ensures NoDup(RowPairs(i, t, agoda))
    decreases |agoda|
  {
    if |agoda| > 0 {
      var j := |agoda| - 1;
      RowPairsNoDup(i, t, agoda[..j]);
      NoDupConcat(RowPairs(i, t, agoda[..j]), if SameBlock(t, agoda[j]) then [Pair(i, j)] else []);
    }
  }

  /** Each compatible pair is generated once, never twice. */
  lemma {:induction false} CandidatesNoDup(booking: seq<string>, agoda: seq<string>)
    ensures NoDup(Candidates(booking, agoda))
    decreases |booking|
  {
    if |booking| > 0 {
      var i := |booking| - 1;
      CandidatesNoDup(booking[..i], agoda);
      RowPairsNoDup(i, booking[i], agoda);
      NoDupConcat(Candidates(booking[..i], agoda), RowPairs(i, booking[i], agoda));
    }
  }

  /** A listing with an empty title takes part in no candidate pair. */
  lemma EmptyTitleNeverCompared(booking: seq<string>, agoda: seq<string>, p: Pair)
    requires (p.booking < |booking| && booking[p.booking] == []) || (p.agoda < |agoda| && agoda[p.agoda] == [])
    ensures p !in Candidates(booking, agoda)
  {
  }
}
