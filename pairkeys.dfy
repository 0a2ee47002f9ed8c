/** The pair identifier "<index_booking>#<index_agoda>" that both linkage
    functions attach to every matched row, built with astype(str). */
module PairKeys {
  import opened Wrappers

  predicate IsDigit(c: char) {
    '0' <= c <= '9'
  }

  predicate AllDigits(s: string) {
    forall i :: 0 <= i < |s| ==> IsDigit(s[i])
  }

  function DigitChar(d: nat): (c: char)
    requires d < 10
    ensures IsDigit(c)
  {
    (('0' as int) + d) as char
  }

  function DigitValue(c: char): (d: nat)
    requires IsDigit(c)
    ensures d < 10
  {
    (c as int) - ('0' as int)
  }

  /** The decimal text of a non-negative index, as str() writes it: at least
      one digit and no leading zero. */
  function NatToString(n: nat): (s: string)
    ensures |s| > 0 && AllDigits(s)
    ensures |s| > 1 ==> s[0] != '0'
    ensures n < 10 <==> |s| == 1
    decreases n
  {
    if n < 10 then [DigitChar(n)]
    else NatToString(n / 10) + [DigitChar(n % 10)]
  }

  /** Reads a string of decimal digits back as a number. */
  function ParseNat(s: string): nat
    requires AllDigits(s)
    decreases |s|
  {
    if |s| == 0 then 0
    else 10 * ParseNat(s[..|s| - 1]) + DigitValue(s[|s| - 1])
  }

  lemma {:induction false} ParseNatToString(n: nat)
    ensures ParseNat(NatToString(n)) == n
    decreases n
  {
    var s := NatToString(n);
    if n >= 10 {
      ParseNatToString(n / 10);
      assert s[..|s| - 1] == NatToString(n / 10);
    }
  }

  /** The pair key of a booking index and an agoda index: the decimal digits
      of both indices around a single '#'. */
  function PairKey(booking: nat, agoda: nat): (r: string)
    ensures var k := |NatToString(booking)|;
      0 < k < |r| - 1 && r[k] == '#' &&
      forall i :: 0 <= i < |r| && i != k ==> IsDigit(r[i])
  {
    NatToString(booking) + "#" + NatToString(agoda)
  }

  /** Position of the first '#' in s, if any. */
  function FindHash(s: string): (r: Option<nat>)
    ensures r.Some? ==> r.value < |s| && s[r.value] == '#' && '#' !in s[..r.value]
    ensures r.None? ==> '#' !in s
    decreases |s|
  {
    if |s| == 0 then None
    else if s[0] == '#' then Some(0)
    else
      match FindHash(s[1..])
      case None => None
      case Some(i) =>
        assert s[..i + 1] == [s[0]] + s[1..][..i];
        Some(i + 1)
  }

  /** Splits a pair key at its separator and reads both indices. */
  function ParsePairKey(key: string): Option<(nat, nat)> {
    match FindHash(key)
    case None => None
    case Some(i) =>
      var left, right := key[..i], key[i + 1..];
      if |left| > 0 && |right| > 0 && AllDigits(left) && AllDigits(right)
      then Some((ParseNat(left), ParseNat(right)))
      else None
  }

  /** A pair key can be read back as the two indices it was built from. */
  lemma PairKeyRoundTrip(booking: nat, agoda: nat)
    ensures ParsePairKey(PairKey(booking, agoda)) == Some((booking, agoda))
  {
    var b, a := NatToString(booking), NatToString(agoda);
    var key := PairKey(booking, agoda);
    assert '#' !in b by {
      forall i | 0 <= i < |b| ensures b[i] != '#' {
        assert IsDigit(b[i]);
      }
    }
    var i := FindHash(key).value;
    assert key[..i] == b;
    assert key[i + 1..] == a;
    ParseNatToString(booking);
    ParseNatToString(agoda);
  }

  /** Different pairs never share a key, so the key identifies its pair. */
  lemma PairKeyInjective(b1: nat, a1: nat, b2: nat, a2: nat)
    ensures PairKey(b1, a1) == PairKey(b2, a2) ==> b1 == b2 && a1 == a2
  {
    PairKeyRoundTrip(b1, a1);
    PairKeyRoundTrip(b2, a2);
  }
}
