/** Strings as the orchestrator handles them: ASCII case folding, trimming, character filters
    and substring search.  Only the JavaScript string operations the model needs. */
module Text {

  datatype Option<+T> = None | Some(value: T) {
    function Or(other: T): T {
      if Some? then value else other
    }
  }

  predicate IsDigit(ch: char) {
    '0' <= ch <= '9'
  }

  function DigitChar(d: nat): char
    requires d <= 9
  {
    ('0' as int + d) as char
  }

  predicate IsLetter(ch: char) {
    'a' <= ch <= 'z'
  }

  predicate IsSpace(ch: char) {
    ch == ' ' || ch == '\t' || ch == '\n' || ch == '\r'
  }

  function LowerChar(ch: char): char {
    if 'A' <= ch <= 'Z' then ((ch as int) + 32) as char else ch
  }

  function Lower(s: string): string {
    seq(|s|, i requires 0 <= i < |s| => LowerChar(s[i]))
  }

  function TrimLeft(s: string): string {
    if s != "" && IsSpace(s[0]) then TrimLeft(s[1..]) else s
  }

  function TrimRight(s: string): string {
    if s != "" && IsSpace(s[|s| - 1]) then TrimRight(s[..|s| - 1]) else s
  }

  function Trim(s: string): string {
    TrimRight(TrimLeft(s))
  }

  /** The characters of s that are digits, in order: `replace(/\D/g, "")`. */
  function Digits(s: string): string {
    if s == "" then ""
    else (if IsDigit(s[0]) then [s[0]] else []) + Digits(s[1..])
  }

  /** The digits and plus signs of s, in order: `replace(/[^\d+]/g, "")`. */
  function DigitsAndPlus(s: string): string {
    if s == "" then ""
    else (if IsDigit(s[0]) || s[0] == '+' then [s[0]] else []) + DigitsAndPlus(s[1..])
  }

  predicate StartsWith(s: string, prefix: string) {
    |prefix| <= |s| && s[..|prefix|] == prefix
  }

  predicate EndsWith(s: string, suffix: string) {
    |suffix| <= |s| && s[|s| - |suffix|..] == suffix
  }

  predicate OccursAt(s: string, part: string, i: nat) {
    i + |part| <= |s| && s[i..i + |part|] == part
  }

  /** `s.includes(part)`. */
  predicate Includes(s: string, part: string) {
    exists i: nat | i <= |s| :: OccursAt(s, part, i)
  }

  lemma EveryTextIncludesEmpty(s: string)
    ensures Includes(s, "")
  {
    assert OccursAt(s, "", 0);
  }
}
