/** The Ademco check digit: every message's digit weights add up to a multiple of 15. */
module AlarmChecksum {
  import opened Options

  datatype Mapping = Mapping(digit: char, weight: nat)

  const DIGITS_MAPPING: seq<Mapping> := [
    Mapping('0', 10), Mapping('1', 1), Mapping('2', 2), Mapping('3', 3), Mapping('4', 4), Mapping('5', 5),
    Mapping('6', 6), Mapping('7', 7), Mapping('8', 8), Mapping('9', 9), Mapping('*', 11), Mapping('#', 12),
    Mapping('A', 13), Mapping('B', 14), Mapping('C', 15)]

  /** The weight of a DTMF symbol; 'D' has none. */
  function Weight(c: char): Option<nat> {
    if c == '0' then Some(10)
    else if '1' <= c <= '9' then Some(c as int - '0' as int)
    else if c == '*' then Some(11)
    else if c == '#' then Some(12)
    else if 'A' <= c <= 'C' then Some(c as int - 'A' as int + 13)
    else None
  }

  const SYMBOLS: string := "1234567890*#ABC"

  /** A symbol's weight is its place on this list, counted from 1. */
  lemma WeightIsPlace(c: char, w: nat)
    ensures Weight(c) == Some(w) <==> 1 <= w <= 15 && SYMBOLS[w - 1] == c
  {
  }

  predicate InTable(digits: string) {
    forall i :: 0 <= i < |digits| ==> Weight(digits[i]).Some?
  }

  function Sum(digits: string): nat
    requires InTable(digits)
  {
    if digits == [] then 0 else Sum(digits[..|digits| - 1]) + Weight(digits[|digits| - 1]).value
  }

  predicate ChecksumOk(digits: string) {
    InTable(digits) && Sum(digits) % 15 == 0
  }

  /** The inner table search of the verifier. */
  method FindDigit(c: char) returns (i: nat)
    ensures i <= |DIGITS_MAPPING|
    ensures i < |DIGITS_MAPPING| ==> DIGITS_MAPPING[i].digit == c && Weight(c) == Some(DIGITS_MAPPING[i].weight)
    ensures i == |DIGITS_MAPPING| ==> Weight(c).None?
  {
    i := 0;
    while i < |DIGITS_MAPPING|
      invariant i <= |DIGITS_MAPPING|
      invariant forall j :: 0 <= j < i ==> DIGITS_MAPPING[j].digit != c
    {
      if DIGITS_MAPPING[i].digit == c {
        break;
      }
      i := i + 1;
    }
    TableIsComplete(c);
  }

  lemma TableIsComplete(c: char)
    ensures Weight(c).Some? ==> exists j :: 0 <= j < |DIGITS_MAPPING| && DIGITS_MAPPING[j].digit == c
  {
    if Weight(c).None? { return; }
    var j :=
      if c == '*' then 10 else if c == '#' then 11
      else if c >= 'A' then 12 + (c as int - 'A' as int) else c as int - '0' as int;
    assert DIGITS_MAPPING[j].digit == c;
  }

  /** ademco_verify_checksum over the first `expected` digits. */
  method VerifyChecksum(event: string, expected: nat) returns (ok: bool)
    requires expected <= |event|
    ensures ok == ChecksumOk(event[..expected])
  {
    var checksum := 0;
    var j := 0;
    while j < expected
      invariant j <= expected
      invariant InTable(event[..j]) && checksum == Sum(event[..j])
    {
      var i := FindDigit(event[j]);
      assert event[..expected][j] == event[j];
      if i >= |DIGITS_MAPPING| {
        return false;
      }
      assert event[..j + 1][..j] == event[..j];
      checksum := checksum + DIGITS_MAPPING[i].weight;
      j := j + 1;
    }
    ok := checksum % 15 == 0;
  }

  /** No two symbols have weights equal modulo 15. */
  lemma WeightsAreResidues(c: char, d: char)
    requires Weight(c).Some? && Weight(d).Some?
    ensures 1 <= Weight(c).value <= 15
    ensures Weight(c).value % 15 == Weight(d).value % 15 <==> c == d
  {
  }

  lemma {:induction false} SumOfUpdate(s: string, i: nat, c: char)
    requires InTable(s) && i < |s| && Weight(c).Some?
    ensures InTable(s[i := c])
    ensures Sum(s[i := c]) == Sum(s) - Weight(s[i]).value + Weight(c).value
  {
    var n := |s| - 1;
    if i == n {
      assert s[i := c][..n] == s[..n];
    } else {
      SumOfUpdate(s[..n], i, c);
      assert s[i := c][..n] == s[..n][i := c];
    }
  }

  /** Any single wrong digit in an accepted message is caught. */
  lemma SingleErrorDetected(s: string, i: nat, c: char)
    requires ChecksumOk(s) && i < |s| && c != s[i]
    ensures !ChecksumOk(s[i := c])
  {
    if Weight(c).Some? {
      SumOfUpdate(s, i, c);
      WeightsAreResidues(s[i], c);
      ResidueShift(Sum(s), Weight(s[i]).value, Weight(c).value);
    } else {
      assert s[i := c][i] == c;
    }
  }

  lemma ResidueShift(sum: int, a: int, b: int)
    requires sum % 15 == 0
    ensures (sum - a + b) % 15 == 0 <==> a % 15 == b % 15
  {
  }

  function CheckDigit(prefix: string): (c: char)
    requires InTable(prefix)
    ensures Weight(c).Some? && (Sum(prefix) + Weight(c).value) % 15 == 0
  {
    var w := 15 - Sum(prefix) % 15;
    if w == 10 then '0'
    else if w < 10 then '0' + w as char
    else if w == 11 then '*'
    else if w == 12 then '#'
    else 'A' + (w - 13) as char
  }

  /** Every prefix over the table has exactly one completing check digit. */
  lemma UniqueCheckDigit(prefix: string, c: char)
    requires InTable(prefix)
    ensures ChecksumOk(prefix + [c]) <==> c == CheckDigit(prefix)
  {
    var s, d := prefix + [c], CheckDigit(prefix);
    assert s[..|prefix|] == prefix;
    if Weight(c).Some? {
      WeightsAreResidues(c, d);
      ResidueShift(Sum(prefix) + Weight(d).value, Weight(d).value, Weight(c).value);
    } else {
      assert s[|prefix|] == c;
    }
  }

  /** The limit of the check: exchanging two digits is never caught. */
  lemma ExchangeUndetected(s: string, i: nat, j: nat)
    requires InTable(s) && i < |s| && j < |s|
    ensures ChecksumOk(s[i := s[j]][j := s[i]]) <==> ChecksumOk(s)
  {
    SumOfUpdate(s, i, s[j]);
    SumOfUpdate(s[i := s[j]], j, s[i]);
  }
}
