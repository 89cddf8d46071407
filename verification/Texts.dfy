/** What the script code asks of text: trimming, prefixes, and searching, character by character. */
module Texts {
  import opened Outcomes

  /** The characters with the property White_Space of Unicode. */
  predicate White(c: char) {
    || '\U{0009}' <= c <= '\U{000D}' || c == ' ' || c == '\U{0085}' || c == '\U{00A0}' || c == '\U{1680}'
    || '\U{2000}' <= c <= '\U{200A}' || c == '\U{2028}' || c == '\U{2029}' || c == '\U{202F}' || c == '\U{205F}' || c == '\U{3000}'
  }

  function TrimStart(s: string, drop: char -> bool): string {
    if s != [] && drop(s[0]) then TrimStart(s[1..], drop) else s
  }

  function TrimEnd(s: string, drop: char -> bool): string {
    if s != [] && drop(s[|s| - 1]) then TrimEnd(s[..|s| - 1], drop) else s
  }

  function Trim(s: string): string {
    TrimEnd(TrimStart(s, White), White)
  }

  predicate StartsWith(s: string, prefix: string) {
    prefix <= s
  }

  predicate Contains(s: string, part: string) {
    StartsWith(s, part) || (s != [] && Contains(s[1..], part))
  }

  /** `trim_start_matches` with a text, which may be removed several times. */
  function TrimPrefixes(s: string, prefix: string): string
    requires prefix != []
    decreases |s|
  {
    if StartsWith(s, prefix) then TrimPrefixes(s[|prefix|..], prefix) else s
  }

  predicate AsciiDigit(c: char) {
    '0' <= c <= '9'
  }

  predicate AsciiPunctuation(c: char) {
    '!' <= c <= '/' || ':' <= c <= '@' || '[' <= c <= '`' || '{' <= c <= '~'
  }

  function AsciiLower(s: string): string {
    if s == [] then [] else [if 'A' <= s[0] <= 'Z' then s[0] - 'A' + 'a' else s[0]] + AsciiLower(s[1..])
  }

  function CountOf(s: string, what: char -> bool): nat {
    if s == [] then 0 else (if what(s[0]) then 1 else 0) + CountOf(s[1..], what)
  }

  /** The position of the first such character. */
  function Find(s: string, what: char -> bool): (r: Option<nat>)
    ensures r.Some? ==> r.value < |s| && what(s[r.value])
  {
    if s == [] then None
    else if what(s[0]) then Some(0)
    else
      var rest := Find(s[1..], what);
      if rest.None? then None else Some(rest.value + 1)
  }

  function Split(s: string, at: char -> bool): seq<string>
    decreases |s|
  {
    var i := Find(s, at);
    if i.None? then [s] else [s[..i.value]] + Split(s[i.value + 1..], at)
  }
}
