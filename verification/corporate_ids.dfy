/**
 * Corporate identifiers (automation-service/telegram_2fa.py): two letters from
 * the 24-letter alphabet without I and O, then six digits. `secrets.choice`
 * becomes a draw of indices, and the check `re.match(r"^[A-HJ-NP-Z]{2}\d{6}$", s)`
 * becomes a predicate with `\d` read as ASCII digits.
 */
module CorporateIds {
  import opened Common

  /** The i-th letter of `ascii_uppercase` once I and O are taken out. */
  function LetterAt(i: nat): (c: char)
    requires i < 24
    ensures 'A' <= c <= 'Z' && c != 'I' && c != 'O'
  {
    ('A' as int + i + (if i >= 8 then 1 else 0) + (if i >= 13 then 1 else 0)) as char
  }

  /** `''.join(c for c in string.ascii_uppercase if c not in 'IO')`. */
  const IdLetters: string := seq(24, i requires 0 <= i < 24 => LetterAt(i))

  const AsciiDigits: string := "0123456789"

  /** Where an alphabet letter sits in `IdLetters`. */
  function LetterIndex(c: char): nat
    requires 'A' <= c <= 'Z' && c != 'I' && c != 'O'
  {
    if c < 'I' then c as int - 'A' as int
    else if c < 'O' then c as int - 'A' as int - 1
    else c as int - 'A' as int - 2
  }

  /** The alphabet is exactly A..Z without I and O, with no letter twice. */
  lemma IdLettersExact(c: char)
    ensures c in IdLetters <==> 'A' <= c <= 'Z' && c != 'I' && c != 'O'
    ensures 'A' <= c <= 'Z' && c != 'I' && c != 'O' ==> LetterIndex(c) < 24 && IdLetters[LetterIndex(c)] == c
  {
    if 'A' <= c <= 'Z' && c != 'I' && c != 'O' {
      assert IdLetters[LetterIndex(c)] == c;
    }
  }

  /** The character class `[A-HJ-NP-Z]`. */
  predicate InLetterClass(c: char) {
    ('A' <= c <= 'H') || ('J' <= c <= 'N') || ('P' <= c <= 'Z')
  }

  predicate IsAsciiDigit(c: char) {
    '0' <= c <= '9'
  }

  /** Exactly two class letters followed by exactly six digits. */
  predicate IsIdFormat(s: string) {
    |s| == 8 && InLetterClass(s[0]) && InLetterClass(s[1]) && forall i :: 2 <= i < 8 ==> IsAsciiDigit(s[i])
  }

  /**
   * `re.match(r"^[A-HJ-NP-Z]{2}\d{6}$", s)`: Python's `$` also matches just before a
   * final newline, so one trailing `\n` is accepted.
   */
  predicate MatchesIdPattern(s: string) {
    IsIdFormat(s) || (|s| == 9 && s[8] == '\n' && IsIdFormat(s[..8]))
  }

  /** On input that went through `strip()` the pattern is exactly the identifier format. */
  lemma PatternOnStripped(s: string)
    requires Unpadded(s)
    ensures MatchesIdPattern(s) <==> IsIdFormat(s)
  {
  }

  /** The random choices behind one call of `generate_corporate_id`: indices `secrets.choice` picked. */
  datatype IdDraw = IdDraw(first: nat, second: nat, digits: seq<nat>)

  predicate ValidDraw(d: IdDraw) {
    d.first < 24 && d.second < 24 && |d.digits| == 6 && forall i :: 0 <= i < 6 ==> d.digits[i] < 10
  }

  function GenerateCorporateId(d: IdDraw): (id: string)
    requires ValidDraw(d)
    ensures IsIdFormat(id) && MatchesIdPattern(id)
  {
    [IdLetters[d.first], IdLetters[d.second]] + seq(6, i requires 0 <= i < 6 => AsciiDigits[d.digits[i]])
  }

  /** The draw that yields a given identifier. */
  function DrawFor(id: string): (d: IdDraw)
    requires IsIdFormat(id)
    ensures ValidDraw(d)
  {
    IdDraw(LetterIndex(id[0]), LetterIndex(id[1]), seq(6, i requires 0 <= i < 6 => id[i + 2] as int - '0' as int))
  }

  /** Every identifier of the right format can be generated, so the generator reaches the whole format. */
  lemma GenerateReachesFormat(id: string)
    requires IsIdFormat(id)
    ensures GenerateCorporateId(DrawFor(id)) == id
  {
    var g := GenerateCorporateId(DrawFor(id));
    IdLettersExact(id[0]);
    IdLettersExact(id[1]);
    forall i | 2 <= i < 8 ensures g[i] == id[i] {
      assert AsciiDigits[id[i] as int - '0' as int] == id[i];
    }
  }

  /** Different draws give different identifiers. */
  lemma GenerateInjective(d1: IdDraw, d2: IdDraw)
    requires ValidDraw(d1) && ValidDraw(d2)
    requires GenerateCorporateId(d1) == GenerateCorporateId(d2)
    ensures d1 == d2
  {
    var g1, g2 := GenerateCorporateId(d1), GenerateCorporateId(d2);
    assert LetterAt(d1.first) == g1[0] == g2[0] == LetterAt(d2.first);
    assert LetterAt(d1.second) == g1[1] == g2[1] == LetterAt(d2.second);
    forall i | 0 <= i < 6 ensures d1.digits[i] == d2.digits[i] {
      assert AsciiDigits[d1.digits[i]] == g1[i + 2] == g2[i + 2] == AsciiDigits[d2.digits[i]];
    }
  }
}
