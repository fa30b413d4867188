/**
 * Character-level helpers: the ASCII case folding behind `ILIKE`, substring
 * search, and the decimal rendering of integers that f-strings perform when
 * an id is placed into an error message.
 */
module Text {

  /** ASCII lower-casing of one character; every other character is unchanged. */
  function LowerChar(c: char): char {
    if 'A' <= c <= 'Z' then (c as int - 'A' as int + 'a' as int) as char else c
  }

  /** ASCII lower-casing of a string, character by character. */
  function Lower(s: string): (r: string)
    ensures |r| == |s|
    ensures forall i :: 0 <= i < |s| ==> r[i] == LowerChar(s[i])
    ensures forall i :: 0 <= i < |r| ==> !('A' <= r[i] <= 'Z')
  {
    if s == [] then [] else [LowerChar(s[0])] + Lower(s[1..])
  }

  /** Folding twice folds no further. */
  lemma LowerIdempotent(s: string)
    ensures Lower(Lower(s)) == Lower(s)
  {
    assert forall i :: 0 <= i < |s| ==> LowerChar(LowerChar(s[i])) == LowerChar(s[i]);
  }

  /** `p` occurs in `s` starting at position `i`. */
  predicate OccursAt(p: string, s: string, i: int) {
    0 <= i && i + |p| <= |s| && s[i..i + |p|] == p
  }

  /** Substring test: the meaning of `LIKE '%p%'` when `p` holds no wildcard. */
  function Contains(s: string, p: string): (r: bool)
    ensures r <==> exists i :: OccursAt(p, s, i)
    decreases |s|
  {
    if |p| > |s| then false
    else if s[..|p|] == p then (assert OccursAt(p, s, 0); true)
    else
      var r := Contains(s[1..], p);
      assert s[0..|p|] == s[..|p|];
      OccursShift(p, s);
      r
  }

  /** Occurrences in `s[1..]` are the occurrences in `s` after position 0. */
  lemma OccursShift(p: string, s: string)
    requires |s| > 0
    ensures (exists i :: OccursAt(p, s[1..], i)) <==> (exists i :: i >= 1 && OccursAt(p, s, i))
  {
    forall i | OccursAt(p, s[1..], i) ensures OccursAt(p, s, i + 1) {
      assert s[1..][i..i + |p|] == s[i + 1..i + 1 + |p|];
    }
    forall i | i >= 1 && OccursAt(p, s, i) ensures OccursAt(p, s[1..], i - 1) {
      assert s[1..][i - 1..i - 1 + |p|] == s[i..i + |p|];
    }
  }

  /** The digit character for a value below ten. */
  function DigitChar(d: nat): (c: char)
    requires d < 10
    ensures '0' <= c <= '9' && c as int - '0' as int == d
  {
    ('0' as int + d) as char
  }

  predicate IsDigits(s: string) {
    |s| > 0 && forall i :: 0 <= i < |s| ==> '0' <= s[i] <= '9'
  }

  /** The decimal digits of a natural number, most significant first, without leading zeros. */
  function Digits(n: nat): (r: string)
    ensures IsDigits(r)
    ensures |r| > 1 ==> r[0] != '0'
  {
    if n < 10 then [DigitChar(n)] else Digits(n / 10) + [DigitChar(n % 10)]
  }

  /** How Python renders an int in an f-string: a minus sign for negatives, then the digits. */
  function Decimal(n: int): (r: string)
    ensures |r| > 0
  {
    if n < 0 then "-" + Digits(-n) else Digits(n)
  }

  /** The value a digit string denotes. */
  function DigitsValue(s: string): nat
    requires forall i :: 0 <= i < |s| ==> '0' <= s[i] <= '9'
  {
    if s == [] then 0 else DigitsValue(s[..|s| - 1]) * 10 + (s[|s| - 1] as int - '0' as int)
  }

  /** Reading a rendered integer back. */
  function ParseDecimal(s: string): int
    requires IsDigits(s) || (|s| > 1 && s[0] == '-' && IsDigits(s[1..]))
  {
    if s[0] == '-' then -(DigitsValue(s[1..]) as int) else DigitsValue(s)
  }

  lemma {:induction false} DigitsRoundTrip(n: nat)
    ensures DigitsValue(Digits(n)) == n
  {
    if n >= 10 {
      var d := Digits(n / 10);
      var s := d + [DigitChar(n % 10)];
      assert s[..|s| - 1] == d;
      DigitsRoundTrip(n / 10);
    }
  }

  /** Rendering loses nothing: the rendered text determines the integer. */
  lemma DecimalRoundTrip(n: int)
    ensures var s := Decimal(n);
      (IsDigits(s) || (|s| > 1 && s[0] == '-' && IsDigits(s[1..]))) && ParseDecimal(s) == n
  {
    if n < 0 {
      DigitsRoundTrip(-n);
      assert Decimal(n)[1..] == Digits(-n);
    } else {
      DigitsRoundTrip(n);
    }
  }

  /** A message made of a fixed prefix, a rendered id and a fixed suffix. */
  function Message(prefix: string, id: int, suffix: string): (m: string)
    ensures |m| == |prefix| + |Decimal(id)| + |suffix|
  {
    prefix + Decimal(id) + suffix
  }

  /** Two messages with the same prefix and suffix name the same id only if they are equal. */
  lemma MessageIdentifiesId(prefix: string, suffix: string, a: int, b: int)
    requires Message(prefix, a, suffix) == Message(prefix, b, suffix)
    ensures a == b
  {
    var ma, mb := Message(prefix, a, suffix), Message(prefix, b, suffix);
    assert ma[|prefix|..|ma| - |suffix|] == Decimal(a);
    assert mb[|prefix|..|mb| - |suffix|] == Decimal(b);
    DecimalRoundTrip(a);
    DecimalRoundTrip(b);
  }
}
