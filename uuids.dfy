/**
  Universally unique identifiers and their canonical text form: 32 hexadecimal
  digits in groups of 8-4-4-4-12 separated by hyphens (section 3 of RFC 4122).
  Parsing accepts upper- and lower-case digits; formatting writes lower case.
 */
module Uuids {
  import opened Wrappers

  /** The value of one hexadecimal digit. */
  type Nibble = n: int | 0 <= n < 16

  /** A 128-bit identifier, as its 32 hexadecimal digits, most significant first. */
  type Uuid = s: seq<Nibble> | |s| == 32 witness seq(32, _ => 0)

  /** Length of the canonical text form. */
  const TextLength := 36

  /** The positions of the four hyphens in the canonical text form. */
  predicate IsHyphenPosition(i: int) {
    i == 8 || i == 13 || i == 18 || i == 23
  }

  /** The digit shown at a non-hyphen position i of the canonical text. */
  function DigitIndex(i: int): (j: int)
    requires 0 <= i < TextLength && !IsHyphenPosition(i)
    ensures 0 <= j < 32
  {
    if i < 8 then i
    else if i < 13 then i - 1
    else if i < 18 then i - 2
    else if i < 23 then i - 3
    else i - 4
  }

  /** The position in the canonical text at which digit j is shown. */
  function TextIndex(j: int): (i: int)
    requires 0 <= j < 32
    ensures 0 <= i < TextLength && !IsHyphenPosition(i) && DigitIndex(i) == j
  {
    if j < 8 then j
    else if j < 12 then j + 1
    else if j < 16 then j + 2
    else if j < 20 then j + 3
    else j + 4
  }

  predicate IsLowerHexChar(c: char) {
    '0' <= c <= '9' || 'a' <= c <= 'f'
  }

  predicate IsHexChar(c: char) {
    IsLowerHexChar(c) || 'A' <= c <= 'F'
  }

  /** The value of a hexadecimal digit character, in either case. */
  function HexValue(c: char): (r: Option<Nibble>)
    ensures r.Some? <==> IsHexChar(c)
  {
    if '0' <= c <= '9' then Some(c as int - '0' as int)
    else if 'a' <= c <= 'f' then Some(c as int - 'a' as int + 10)
    else if 'A' <= c <= 'F' then Some(c as int - 'A' as int + 10)
    else None
  }

  /** The lower-case character of a digit value; HexValue is its inverse. */
  function HexDigit(n: Nibble): (c: char)
    ensures IsLowerHexChar(c) && HexValue(c) == Some(n)
  {
    if n < 10 then ('0' as int + n) as char else ('a' as int + n - 10) as char
  }

  /** The lower-case form of a character; only 'A'..'F' matter here. */
  function LowerHexChar(c: char): char {
    if 'A' <= c <= 'F' then (c as int - 'A' as int + 'a' as int) as char else c
  }

  /** The canonical grammar, digits in either case. */
  predicate IsCanonical(s: string) {
    && |s| == TextLength
    && forall i :: 0 <= i < TextLength ==>
         if IsHyphenPosition(i) then s[i] == '-' else IsHexChar(s[i])
  }

  /** The canonical grammar with lower-case digits only: what formatting produces. */
  predicate IsLowerCanonical(s: string) {
    && |s| == TextLength
    && forall i :: 0 <= i < TextLength ==>
         if IsHyphenPosition(i) then s[i] == '-' else IsLowerHexChar(s[i])
  }

  /** A text with every upper-case hexadecimal digit lowered. */
  function Lowered(s: string): (r: string)
    ensures |r| == |s|
  {
    seq(|s|, i requires 0 <= i < |s| => LowerHexChar(s[i]))
  }

  /** The canonical text of an identifier (Python's str(uuid)). */
  function Format(u: Uuid): (s: string)
    ensures IsLowerCanonical(s)
    ensures forall j :: 0 <= j < 32 ==> HexValue(s[TextIndex(j)]) == Some(u[j])
  {
    seq(TextLength, i requires 0 <= i < TextLength =>
      if IsHyphenPosition(i) then '-' else HexDigit(u[DigitIndex(i)]))
  }

  /** The identifier a canonical text denotes, or None for any other text. */
  function Parse(s: string): (r: Option<Uuid>)
    ensures r.Some? <==> IsCanonical(s)
    ensures r.Some? ==> forall j :: 0 <= j < 32 ==> HexValue(s[TextIndex(j)]) == Some(r.value[j])
  {
    if IsCanonical(s) then
      Some(seq(32, j requires 0 <= j < 32 => HexValue(s[TextIndex(j)]).value))
    else
      None
  }

  /** Parsing undoes formatting: every identifier survives the text round trip. */
  lemma ParseFormat(u: Uuid)
    ensures Parse(Format(u)) == Some(u)
  {
    var s := Format(u);
    assert IsCanonical(s) by {
      forall i | 0 <= i < TextLength
        ensures if IsHyphenPosition(i) then s[i] == '-' else IsHexChar(s[i])
      {
      }
    }
    var v := Parse(s).value;
    forall j | 0 <= j < 32 ensures v[j] == u[j] {
      assert HexValue(s[TextIndex(j)]) == Some(u[j]);
    }
    assert v == u;
  }

  /** Formatting undoes parsing up to letter case: the text comes back lowered. */
  lemma FormatParse(s: string)
    requires IsCanonical(s)
    ensures Parse(s).Some? && Format(Parse(s).value) == Lowered(s)
  {
  }

  /** A lower-case canonical text is exactly the text of the identifier it denotes. */
  lemma FormatParseLower(s: string)
    requires IsLowerCanonical(s)
    ensures Parse(s).Some? && Format(Parse(s).value) == s
  {
  }

  /** Distinct identifiers have distinct texts. */
  lemma FormatInjective(u: Uuid, v: Uuid)
    requires Format(u) == Format(v)
    ensures u == v
  {
  }

  /** Texts that are not in the canonical grammar are not identifiers. */
  lemma ParseRejectsNonUuidText()
    ensures Parse("not-a-uuid") == None
    ensures Parse("invalid-uuid") == None
    ensures Parse("") == None
  {
  }
}
