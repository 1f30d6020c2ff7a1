/** String helpers the command relies on: Go's strings.ToLower as far as it
    can matter for the ASCII keywords, strconv.Itoa / strconv.Atoi on decimal
    digit strings, strings.Join, and the reserved-character test on durable
    names. */
module Text {

  /** unicode.ToLower restricted to what can turn a rune into an ASCII letter:
      'A'..'Z', U+0130 (capital I with dot, lowered to 'i') and U+212A (the
      Kelvin sign, lowered to 'k'). Every other rune is either unchanged or
      lowered to a non-ASCII rune, which no keyword contains. */
  function LowerChar(c: char): char {
    if 'A' <= c <= 'Z' then (c as int + 32) as char
    else if c == '\U{0130}' then 'i'
    else if c == '\U{212A}' then 'k'
    else c
  }

  function UpperChar(c: char): char {
    if 'a' <= c <= 'z' then (c as int - 32) as char else c
  }

  /** strings.ToLower. */
  function Lower(s: string): (r: string)
    ensures |r| == |s|
  {
    if s == [] then [] else [LowerChar(s[0])] + Lower(s[1..])
  }

  /** strings.ToUpper over ASCII letters, used only to state case-insensitivity. */
  function Upper(s: string): (r: string)
    ensures |r| == |s|
  {
    if s == [] then [] else [UpperChar(s[0])] + Upper(s[1..])
  }

  /** Lowering forgets the ASCII case of every letter. */
  lemma {:induction false} LowerUpper(s: string)
    ensures Lower(Upper(s)) == Lower(s)
  {
    if s != [] {
      LowerUpper(s[1..]);
      assert Upper(s) == [UpperChar(s[0])] + Upper(s[1..]);
      assert Upper(s)[1..] == Upper(s[1..]);
    }
  }

  /** A word of lower-case ASCII letters is its own lower case. */
  lemma {:induction false} LowerOfLowercase(s: string)
    requires forall i | 0 <= i < |s| :: 'a' <= s[i] <= 'z'
    ensures Lower(s) == s
  {
    if s != [] {
      LowerOfLowercase(s[1..]);
    }
  }

  predicate IsDigit(c: char) {
    '0' <= c <= '9'
  }

  /** The regular expression `^\d+$` of Go's RE2: one or more ASCII digits. */
  predicate IsDigits(s: string) {
    |s| > 0 && forall i | 0 <= i < |s| :: IsDigit(s[i])
  }

  function DigitValue(c: char): nat
    requires IsDigit(c)
  {
    c as int - '0' as int
  }

  function DigitChar(d: nat): (c: char)
    requires d < 10
    ensures IsDigit(c) && DigitValue(c) == d
  {
    ('0' as int + d) as char
  }

  /** The number a string of decimal digits denotes (leading zeros allowed). */
  function DecimalValue(s: string): nat
    requires forall i | 0 <= i < |s| :: IsDigit(s[i])
  {
    if s == [] then 0 else DecimalValue(s[..|s| - 1]) * 10 + DigitValue(s[|s| - 1])
  }

  /** strconv.Atoi on a digit string, whose error the command ignores: a value
      beyond the range of Go's `int` comes back saturated at MAX_INT64. */
  function Atoi(s: string): (n: nat)
    requires IsDigits(s)
    ensures n <= 0x7FFF_FFFF_FFFF_FFFF
    ensures DecimalValue(s) <= 0x7FFF_FFFF_FFFF_FFFF ==> n == DecimalValue(s)
    ensures DecimalValue(s) > 0x7FFF_FFFF_FFFF_FFFF ==> n == 0x7FFF_FFFF_FFFF_FFFF
  {
    var v := DecimalValue(s);
    if v > 0x7FFF_FFFF_FFFF_FFFF then 0x7FFF_FFFF_FFFF_FFFF else v
  }

  /** strconv.Itoa on a non-negative number. */
  function DecimalString(n: nat): string {
    if n < 10 then [DigitChar(n)] else DecimalString(n / 10) + [DigitChar(n % 10)]
  }

  /** Itoa yields a digit string without a leading zero that denotes the
      number. */
  lemma {:induction false} DecimalRoundTrip(n: nat)
    ensures IsDigits(DecimalString(n))
    ensures DecimalValue(DecimalString(n)) == n
    ensures n > 0 ==> DecimalString(n)[0] != '0'
  {
    if n >= 10 {
      DecimalRoundTrip(n / 10);
      var s := DecimalString(n);
      assert s[..|s| - 1] == DecimalString(n / 10);
    }
  }

  /** Atoi reads back what Itoa writes, for every number in the range of
      Go's `int`. */
  lemma AtoiItoaRoundTrip(n: nat)
    requires n <= 0x7FFF_FFFF_FFFF_FFFF
    ensures IsDigits(DecimalString(n)) && Atoi(DecimalString(n)) == n
  {
    DecimalRoundTrip(n);
  }

  /** The durable-name test `\.|\*|>`: the name holds a subject separator or
      wildcard. */
  predicate HasReservedChar(s: string) {
    exists i | 0 <= i < |s| :: s[i] == '.' || s[i] == '*' || s[i] == '>'
  }

  /** strings.Join. */
  function Join(parts: seq<string>, sep: string): string {
    if |parts| == 0 then ""
    else if |parts| == 1 then parts[0]
    else parts[0] + sep + Join(parts[1..], sep)
  }

  /** Joining one more part appends the separator and that part. */
  lemma {:induction false} JoinSnoc(parts: seq<string>, x: string, sep: string)
    requires |parts| > 0
    ensures Join(parts + [x], sep) == Join(parts, sep) + sep + x
  {
    if |parts| == 1 {
      assert (parts + [x])[1..] == [x];
    } else {
      assert (parts + [x])[1..] == parts[1..] + [x];
      JoinSnoc(parts[1..], x, sep);
    }
  }
}
