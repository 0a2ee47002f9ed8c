/** Conflict resolution, steps A-D, shared by both linkage functions. Step A
    keeps a pair when its booking index occurs once among the accepted pairs
    and its agoda index occurs once among the rows left after the booking
    drop; steps B and C keep, per
    contested booking index and per contested agoda index, every pair that
    reaches the group's maximum score, and step D concatenates the three. */
module Resolution {
  import opened Scoring

  /** Which index column a duplicate test or a grouping looks at. */
  datatype Side = BookingSide | AgodaSide

  function Key(x: Scored, side: Side): nat {
    match side
    case BookingSide => x.booking
    case AgodaSide => x.agoda
  }

  /** How many rows of s carry index k in the column of `side`. */
  function Count(s: seq<Scored>, side: Side, k: nat): (n: nat)
    ensures forall x :: x in s && Key(x, side) == k ==> n > 0
    ensures n <= |s|
    decreases |s|
  {
    if |s| == 0 then 0
    else (if Key(s[0], side) == k then 1 else 0) + Count(s[1..], side, k)
  }

  /** duplicated(subset=..., keep=False) marks index k. */
  predicate Contested(s: seq<Scored>, side: Side, k: nat): (r: bool)
    ensures r ==> |s| >= 2
  {
    Count(s, side, k) > 1
  }

  /** No row of s with the same index on `side` scores more than x. */
  predicate Undominated(s: seq<Scored>, x: Scored, side: Side) {
    forall y :: y in s && Key(y, side) == Key(x, side) ==> y.score <= x.score
  }

  /** row['score'].max() over the group of rows with index k. */
  function GroupMax(s: seq<Scored>, side: Side, k: nat): (m: real)
    requires Count(s, side, k) > 0
    ensures exists x :: x in s && Key(x, side) == k && x.score == m
    ensures forall x :: x in s && Key(x, side) == k ==> x.score <= m
    decreases |s|
  {
    if Key(s[0], side) != k then GroupMax(s[1..], side, k)
    else if Count(s[1..], side, k) == 0 then s[0].score
    else
      var m := GroupMax(s[1..], side, k);
      if s[0].score < m then m else s[0].score
  }

  /** The rows of t whose index on `side` occurs exactly once in `whole`. */
  function UncontestedIn(t: seq<Scored>, whole: seq<Scored>, side: Side): (r: seq<Scored>)
    ensures forall x :: x in r <==> x in t && Count(whole, side, Key(x, side)) == 1
    ensures forall other: Side, k: nat :: Count(r, other, k) <= Count(t, other, k)
    decreases |t|
  {
    if |t| == 0 then []
    else
      var rest := UncontestedIn(t[1..], whole, side);
      if Count(whole, side, Key(t[0], side)) == 1 then
        assert ([t[0]] + rest)[1..] == rest;
        [t[0]] + rest
      else rest
  }

  /** drop_duplicates(subset=..., keep=False). */
  function DropContested(s: seq<Scored>, side: Side): (r: seq<Scored>)
    ensures forall x :: x in r <==> x in s && Count(s, side, Key(x, side)) == 1
  {
    UncontestedIn(s, s, side)
  }

  /** Step A (two drops in sequence; the agoda drop looks only at the rows
      that survived the booking drop). */
  function StepA(s: seq<Scored>): (r: seq<Scored>)
    ensures forall x :: x in r <==>
      x in s && Count(s, BookingSide, x.booking) == 1 &&
      Count(DropContested(s, BookingSide), AgodaSide, x.agoda) == 1
  {
    DropContested(DropContested(s, BookingSide), AgodaSide)
  }

  /** The rows of t whose index on `side` is contested in `whole` and that
      reach their group's maximum there. */
  function BestIn(t: seq<Scored>, whole: seq<Scored>, side: Side): (r: seq<Scored>)
    ensures forall x :: x in r <==>
      x in t && Contested(whole, side, Key(x, side)) && x.score == GroupMax(whole, side, Key(x, side))
    decreases |t|
  {
    if |t| == 0 then []
    else
      var rest := BestIn(t[1..], whole, side);
      var k := Key(t[0], side);
      if Contested(whole, side, k) && t[0].score == GroupMax(whole, side, k) then [t[0]] + rest
      else rest
  }

  /** Steps B (side = BookingSide) and C (side = AgodaSide). */
  function Best(s: seq<Scored>, side: Side): (r: seq<Scored>)
    ensures forall x :: x in r ==> x in s && Contested(s, side, Key(x, side))
    ensures forall x :: x in r ==> Undominated(s, x, side)
  {
    BestIn(s, s, side)
  }

  /** Step D: the concatenation of A, B and C; a row may appear twice. */
  function Resolve(s: seq<Scored>): (r: seq<Scored>)
    ensures forall x :: x in r ==> x in s
  {
    StepA(s) + Best(s, BookingSide) + Best(s, AgodaSide)
  }

  /** The accepted pairs contain no conflict: every index occurs once. */
  predicate NoConflicts(s: seq<Scored>) {
    forall x :: x in s ==> Count(s, BookingSide, x.booking) == 1 && Count(s, AgodaSide, x.agoda) == 1
  }

  // ---------------------------------------------------------------- lemmas

  /** Count finds a row exactly when some position carries the index. */
  lemma {:induction false} CountPositive(s: seq<Scored>, side: Side, k: nat)
    ensures Count(s, side, k) > 0 <==> exists i :: 0 <= i < |s| && Key(s[i], side) == k
    decreases |s|
  {
    if |s| > 0 {
      CountPositive(s[1..], side, k);
      if Key(s[0], side) != k && Count(s[1..], side, k) > 0 {
        var i :| 0 <= i < |s[1..]| && Key(s[1..][i], side) == k;
        assert Key(s[i + 1], side) == k;
      }
      if i :| 0 <= i < |s| && Key(s[i], side) == k {
        if i > 0 {
          assert Key(s[1..][i - 1], side) == k;
        }
      }
    }
  }

  /** duplicated(subset=..., keep=False): an index is marked as duplicated
      exactly when two different rows carry it. */
  lemma {:induction false} ContestedExactly(s: seq<Scored>, side: Side, k: nat)
    ensures Contested(s, side, k) <==>
      exists i, j :: 0 <= i < j < |s| && Key(s[i], side) == k && Key(s[j], side) == k
    decreases |s|
  {
    if |s| > 0 {
      ContestedExactly(s[1..], side, k);
      CountPositive(s[1..], side, k);
      var t := s[1..];
      if Contested(s, side, k) {
        if Key(s[0], side) == k {
          var j :| 0 <= j < |t| && Key(t[j], side) == k;
          assert Key(s[j + 1], side) == k;
        } else {
          var i, j :| 0 <= i < j < |t| && Key(t[i], side) == k && Key(t[j], side) == k;
          assert Key(s[i + 1], side) == k && Key(s[j + 1], side) == k;
        }
      }
      if i, j :| 0 <= i < j < |s| && Key(s[i], side) == k && Key(s[j], side) == k {
        if i == 0 {
          assert Key(t[j - 1], side) == k;
        } else {
          assert Key(t[i - 1], side) == k && Key(t[j - 1], side) == k;
        }
      }
    }
  }

  /** An index that occurs once identifies its row. */
  lemma {:induction false} CountOneUnique(s: seq<Scored>, side: Side, k: nat, x: Scored, y: Scored)
    requires Count(s, side, k) == 1
    requires x in s && Key(x, side) == k
    requires y in s && Key(y, side) == k
    ensures x == y
    decreases |s|
  {
    assert s == [s[0]] + s[1..];
    if Key(s[0], side) == k {
      assert x !in s[1..] && y !in s[1..];
    } else {
      CountOneUnique(s[1..], side, k, x, y);
    }
  }

  /** Every index kept by step A occurs exactly once in its output, on both
      sides: step A on its own is one-to-one. */
  lemma StepAOneToOne(s: seq<Scored>, x: Scored)
    requires x in StepA(s)
    ensures Count(StepA(s), BookingSide, x.booking) == 1
    ensures Count(StepA(s), AgodaSide, x.agoda) == 1
  {
    var s1 := DropContested(s, BookingSide);
    assert Count(StepA(s), BookingSide, x.booking) <= Count(s1, BookingSide, x.booking);
    assert Count(StepA(s), AgodaSide, x.agoda) <= Count(s1, AgodaSide, x.agoda);
    assert Key(x, BookingSide) == x.booking && Key(x, AgodaSide) == x.agoda;
  }

  /** Steps B and C keep exactly the rows of a contested index that no row of
      the same index outscores; ties are all kept. */
  lemma BestExactly(s: seq<Scored>, side: Side, x: Scored)
    ensures x in Best(s, side) <==>
      x in s && Contested(s, side, Key(x, side)) && Undominated(s, x, side)
  {
    if x in s && Contested(s, side, Key(x, side)) && Undominated(s, x, side) {
      var m := GroupMax(s, side, Key(x, side));
      var y :| y in s && Key(y, side) == Key(x, side) && y.score == m;
      assert y.score <= x.score;
    }
  }

  /** Every contested index keeps at least one row. */
  lemma BestCoversContested(s: seq<Scored>, side: Side, k: nat)
    requires Contested(s, side, k)
    ensures exists x :: x in Best(s, side) && Key(x, side) == k
  {
    var m := GroupMax(s, side, k);
    var y :| y in s && Key(y, side) == k && y.score == m;
    assert y in Best(s, side);
  }

  /** Steps A-D stated on the accepted pairs alone. */
  lemma ResolveExactly(s: seq<Scored>, x: Scored)
    ensures x in Resolve(s) <==>
      x in s &&
      ((Count(s, BookingSide, x.booking) == 1 &&
        Count(DropContested(s, BookingSide), AgodaSide, x.agoda) == 1) ||
       (Contested(s, BookingSide, x.booking) && Undominated(s, x, BookingSide)) ||
       (Contested(s, AgodaSide, x.agoda) && Undominated(s, x, AgodaSide)))
  {
    BestExactly(s, BookingSide, x);
    BestExactly(s, AgodaSide, x);
  }

  /** Every resolved row is unbeaten on at least one of its two indices. */
  lemma ResolveUndominatedOnOneSide(s: seq<Scored>)
    ensures forall x :: x in Resolve(s) ==>
      Undominated(s, x, BookingSide) || Undominated(s, x, AgodaSide)
  {
    forall x | x in Resolve(s)
      ensures Undominated(s, x, BookingSide) || Undominated(s, x, AgodaSide)
    {
      ResolveExactly(s, x);
      if x in StepA(s) {
        forall y | y in s && Key(y, BookingSide) == Key(x, BookingSide)
          ensures y.score <= x.score
        {
          CountOneUnique(s, BookingSide, x.booking, x, y);
        }
      }
    }
  }

  lemma {:induction false} UncontestedAll(t: seq<Scored>, whole: seq<Scored>, side: Side)
    requires forall x :: x in t ==> Count(whole, side, Key(x, side)) == 1
    ensures UncontestedIn(t, whole, side) == t
    decreases |t|
  {
    if |t| > 0 {
      assert t[0] in t;
      forall x | x in t[1..] ensures Count(whole, side, Key(x, side)) == 1 {
        assert x in t;
      }
      UncontestedAll(t[1..], whole, side);
      assert [t[0]] + t[1..] == t;
    }
  }

  /** When no index is contested, resolution returns the accepted pairs
      unchanged. */
  lemma ResolveOfNoConflicts(s: seq<Scored>)
    requires NoConflicts(s)
    ensures Resolve(s) == s
  {
    UncontestedAll(s, s, BookingSide);
    UncontestedAll(s, s, AgodaSide);
    BestInNone(s, s, BookingSide);
    BestInNone(s, s, AgodaSide);
  }

  lemma {:induction false} BestInNone(t: seq<Scored>, whole: seq<Scored>, side: Side)
    requires forall x :: x in t ==> Count(whole, side, Key(x, side)) == 1
    ensures BestIn(t, whole, side) == []
    decreases |t|
  {
    if |t| > 0 {
      assert t[0] in t;
      forall x | x in t[1..] ensures Count(whole, side, Key(x, side)) == 1 {
        assert x in t;
      }
      BestInNone(t[1..], whole, side);
    }
  }

  /** Three accepted pairs: booking 0 is contested ([0, 0] and [0, 1]) and so
      is agoda 0 ([0, 0] and [1, 0]). */
  function Contrived(): seq<Scored> {
    [Scored(0, 0, 0.9), Scored(0, 1, 0.5), Scored(1, 0, 0.5)]
  }

  lemma ContrivedStepA()
    ensures StepA(Contrived()) == [Scored(1, 0, 0.5)]
  {
    var s := Contrived();
    assert Count(s, BookingSide, 0) == 2 && Count(s, BookingSide, 1) == 1;
    var s1 := [Scored(1, 0, 0.5)];
    assert DropContested(s, BookingSide) == s1;
    assert Count(s1, AgodaSide, 0) == 1;
  }

  lemma ContrivedBest(side: Side)
    ensures Best(Contrived(), side) == [Scored(0, 0, 0.9)]
  {
    var s := Contrived();
    assert Count(s, side, 0) == 2 && Count(s, side, 1) == 1;
    assert GroupMax(s, side, 0) == 0.9;
  }

  /** The concatenation of step D lists a row twice, keeps a row that another
      row of the same agoda index outscores, and links agoda index 0 to two
      booking indices: [1, 0] survives step A because its rival [0, 0] was
      dropped together with booking 0, and [0, 0] wins both B and C. */
  lemma ResolveIsNotOneToOne()
    ensures Resolve(Contrived()) == [Scored(1, 0, 0.5), Scored(0, 0, 0.9), Scored(0, 0, 0.9)]
  {
    ContrivedStepA();
    ContrivedBest(BookingSide);
    ContrivedBest(AgodaSide);
  }
}
