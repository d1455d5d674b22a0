/** `countryCodeToFlag` of src/lib/countryFlags.ts: a two-letter ISO 3166-1 alpha-2 code
    becomes the pair of Unicode Regional Indicator Symbols that renders as its flag. */
module CountryFlags {
  import opened Wrappers

  /** A UTF-16 code unit: what JavaScript's `length` counts and `charCodeAt` returns. */
  type CodeUnit = x: int | 0 <= x < 0x1_0000

  /** Added to a code unit to reach the Regional Indicator block: 'A' (65) becomes U+1F1E6. */
  const Offset: int := 127397

  const FirstIndicator: int := 0x1F1E6
  const LastIndicator: int := 0x1F1FF

  predicate IsUpperUnit(u: CodeUnit) { 'A' as int <= u <= 'Z' as int }

  predicate IsLowerUnit(u: CodeUnit) { 'a' as int <= u <= 'z' as int }

  /** `toUpperCase` on one code unit, ASCII letters only. */
  function UpperUnit(u: CodeUnit): CodeUnit {
    if IsLowerUnit(u) then u - 32 else u
  }

  /** `toLowerCase` on one code unit, ASCII letters only. */
  function LowerUnit(u: CodeUnit): CodeUnit {
    if IsUpperUnit(u) then u + 32 else u
  }

  function LowerUnits(code: seq<CodeUnit>): seq<CodeUnit> {
    seq(|code|, i requires 0 <= i < |code| => LowerUnit(code[i]))
  }

  /** The code point `String.fromCodePoint` receives for one code unit of the upper-cased code.
      Every such value lies above the surrogate block and below U+110000, so it is a character. */
  function Indicator(u: CodeUnit): char {
    (UpperUnit(u) + Offset) as char
  }

  /** `countryCodeToFlag(countryCode)` (src/lib/countryFlags.ts:5-15): the empty string unless
      the code is exactly two code units long, otherwise two code points. No check is made
      that the units are letters. */
  function CountryCodeToFlag(code: seq<CodeUnit>): string {
    if |code| != 2 then "" else [Indicator(code[0]), Indicator(code[1])]
  }

  /** Reads a flag back into the upper-case code it was made from: the inverse of
      `CountryCodeToFlag` on upper-case letter codes. */
  function FlagToCountryCode(flag: string): Option<seq<CodeUnit>> {
    if |flag| == 2
       && FirstIndicator <= flag[0] as int <= LastIndicator
       && FirstIndicator <= flag[1] as int <= LastIndicator
    then Some([flag[0] as int - Offset, flag[1] as int - Offset])
    else None
  }

  /** Empty unless the input is two code units long; then exactly two code points, the
      i-th being the i-th unit of the upper-cased input plus 127397
      (src/lib/countryFlags.ts:6-14). */
  lemma FlagShape(code: seq<CodeUnit>)
    ensures var flag := CountryCodeToFlag(code);
      && (flag == "" <==> |code| != 2)
      && (|code| == 2 ==> |flag| == 2 && forall i :: 0 <= i < 2 ==> flag[i] as int == UpperUnit(code[i]) + Offset)
  {
  }

  /** ASCII letters of either case land in the Regional Indicator block U+1F1E6 to U+1F1FF. */
  lemma LettersBecomeIndicators(code: seq<CodeUnit>)
    requires |code| == 2 && forall i :: 0 <= i < 2 ==> IsUpperUnit(code[i]) || IsLowerUnit(code[i])
    ensures forall i :: 0 <= i < 2 ==>
      FirstIndicator <= CountryCodeToFlag(code)[i] as int <= LastIndicator
  {
  }

  /** Lower-case and upper-case spellings of a code give the same flag
      (src/lib/countryFlags.ts:8). */
  lemma FlagIgnoresCase(code: seq<CodeUnit>)
    ensures CountryCodeToFlag(LowerUnits(code)) == CountryCodeToFlag(code)
  {
    if |code| == 2 {
      assert UpperUnit(LowerUnit(code[0])) == UpperUnit(code[0]);
      assert UpperUnit(LowerUnit(code[1])) == UpperUnit(code[1]);
    }
  }

  /** A flag made from two upper-case letters reads back as that code, so distinct
      upper-case codes give distinct flags. */
  lemma FlagRoundTrip(code: seq<CodeUnit>)
    requires |code| == 2 && IsUpperUnit(code[0]) && IsUpperUnit(code[1])
    ensures FlagToCountryCode(CountryCodeToFlag(code)) == Some(code)
  {
    var flag := CountryCodeToFlag(code);
    assert flag[0] as int - Offset == code[0] && flag[1] as int - Offset == code[1];
    assert [code[0], code[1]] == code;
  }

  /** "nl" and "NL" both give U+1F1F3 U+1F1F1, the Dutch flag. */
  lemma NetherlandsExample()
    ensures CountryCodeToFlag(['N' as int, 'L' as int]) == "\U{1F1F3}\U{1F1F1}"
    ensures CountryCodeToFlag(['n' as int, 'l' as int]) == "\U{1F1F3}\U{1F1F1}"
  {
  }
}
