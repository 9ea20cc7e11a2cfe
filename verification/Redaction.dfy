// The redactor: secrets in free text and in JSON values become a marker.
module Redaction {
  import opened Types
  import opened Text

  const MARKER: string := "[REDACTED]"
  const BEARER: string := "Bearer"
  const NEEDLE: string := "Bearer "

  predicate IsSecretKeyName(key: string) {
    Lower(key) in ["api_key", "apikey", "secret", "password", "token", "authorization"]
  }

  predicate IsBase64Char(c: char) { IsAlphanumeric(c) || c == '+' || c == '/' || c == '=' }

  predicate IsBase64Special(c: char) { c == '+' || c == '/' || c == '=' }

  predicate IsAwsChar(c: char) { IsUpper(c) || IsDigit(c) }

  // The patterns that no whitespace can be part of, on a trimmed value.
  function TokenPattern(t: string): Option<string> {
    if StartsWith(t, "sk-") && RunLength(t[3..], IsAlphanumeric) >= 8 then Some("sk-key")
    else if StartsWith(t, "AKIA") && RunLength(t[4..], IsAwsChar) >= 12 then Some("aws-access-key")
    else if |t| >= 32 && forall i :: 0 <= i < |t| ==> IsHexDigit(t[i]) then Some("long-hex")
    else if |t| >= 24 && (exists i :: 0 <= i < |t| && IsBase64Special(t[i]))
            && forall i :: 0 <= i < |t| ==> IsBase64Char(t[i]) then
      Some("base64-blob")
    else None
  }

  predicate IsBearer(t: string) { StartsWith(t, "Bearer ") && Trim(t[7..]) != "" }

  function MatchSecretPattern(value: string): Option<string> {
    if IsBearer(Trim(value)) then Some("bearer") else TokenPattern(Trim(value))
  }

  // ----- one word -----

  predicate IsSeparator(c: char) { c == '=' || c == ':' }

  // A word of the form key=value or key:value, split at its first separator.
  function KeyLength(word: string): nat { RunLength(word, c => !IsSeparator(c)) }

  predicate IsKeyed(word: string) {
    var n := KeyLength(word);
    n < |word| && IsSecretKeyName(Trim(word[..n])) && Trim(word[n + 1..]) != ""
  }

  function RedactKeyed(word: string): string
    requires IsKeyed(word)
  {
    var n := KeyLength(word);
    Trim(word[..n]) + [word[n]] + MARKER
  }

  function CleanWord(w: string): string {
    if IsKeyed(w) then RedactKeyed(w)
    else if MatchSecretPattern(w).Some? then MARKER
    else w
  }

  function WordHits(w: string): seq<string> {
    if IsKeyed(w) then ["secret-key:" + Lower(Trim(w[..KeyLength(w)]))]
    else if MatchSecretPattern(w).Some? then [MatchSecretPattern(w).value]
    else []
  }

  // ----- a text as words and the whitespace between them -----

  datatype Doc = End(word: string) | Chunk(word: string, gap: char, rest: Doc)

  predicate Proper(d: Doc) {
    NoWhitespace(d.word) && (d.Chunk? ==> IsWhitespace(d.gap) && Proper(d.rest))
  }

  function ToText(d: Doc): string {
    match d
    case End(w) => w
    case Chunk(w, gap, rest) => w + [gap] + ToText(rest)
  }

  function WordLength(s: string): (n: nat)
    ensures n <= |s|
  {
    if s == "" || IsWhitespace(s[0]) then 0 else 1 + WordLength(s[1..])
  }

  function Parse(s: string): Doc
    decreases |s|
  {
    var n := WordLength(s);
    if n == |s| then End(s) else Chunk(s[..n], s[n], Parse(s[n + 1..]))
  }

  lemma {:induction false} WordEnds(s: string)
    ensures NoWhitespace(s[..WordLength(s)])
    ensures WordLength(s) < |s| ==> IsWhitespace(s[WordLength(s)])
  {
    if s != "" && !IsWhitespace(s[0]) {
      WordEnds(s[1..]);
      assert s[..WordLength(s)] == [s[0]] + s[1..][..WordLength(s[1..])];
    }
  }

  lemma {:induction false} WordLengthIs(s: string, n: nat)
    requires n <= |s| && NoWhitespace(s[..n]) && (n < |s| ==> IsWhitespace(s[n]))
    ensures WordLength(s) == n
  {
    if n > 0 {
      assert s[0] == s[..n][0];
      assert s[1..][..n - 1] == s[..n][1..];
      WordLengthIs(s[1..], n - 1);
    }
  }

  // Parsing and printing are inverse to each other.
  lemma {:induction false} TextOfParse(s: string)
    ensures Proper(Parse(s)) && ToText(Parse(s)) == s
    decreases |s|
  {
    var n := WordLength(s);
    WordEnds(s);
    if n == |s| {
      assert s[..n] == s;
    } else {
      TextOfParse(s[n + 1..]);
      assert s == s[..n] + [s[n]] + s[n + 1..];
    }
  }

  lemma {:induction false} ParseOfText(d: Doc)
    requires Proper(d)
    ensures Parse(ToText(d)) == d
  {
    var s := ToText(d);
    match d {
      case End(w) =>
        assert s[..|w|] == w;
        WordLengthIs(s, |w|);
      case Chunk(w, gap, rest) =>
        assert s[..|w|] == w && s[|w|] == gap && s[|w| + 1..] == ToText(rest);
        WordLengthIs(s, |w|);
        ParseOfText(rest);
    }
  }

  // ----- the two passes, word by word -----

  predicate EndsBearer(w: string) { |w| >= 6 && w[|w| - 6..] == BEARER }

  // Whether the word and the whitespace character behind it end in "Bearer ".
  predicate Flags(w: string, c: char) { EndsBearer(w) && c == ' ' }

  // A word right after "Bearer " is a token.
  function Token(w: string, flag: bool): string {
    if flag && w != "" then MARKER else w
  }

  function Marked(d: Doc, flag: bool): Doc {
    match d
    case End(w) => End(Token(w, flag))
    case Chunk(w, gap, rest) => Chunk(Token(w, flag), gap, Marked(rest, Flags(Token(w, flag), gap)))
  }

  function TokenHits(w: string, flag: bool): seq<string> {
    if flag && w != "" then ["bearer"] else []
  }

  function MarkedHits(d: Doc, flag: bool): seq<string> {
    match d
    case End(w) => TokenHits(w, flag)
    case Chunk(w, gap, rest) => TokenHits(w, flag) + MarkedHits(rest, Flags(Token(w, flag), gap))
  }

  function Cleaned(d: Doc): Doc {
    match d
    case End(w) => End(CleanWord(w))
    case Chunk(w, gap, rest) => Chunk(CleanWord(w), gap, Cleaned(rest))
  }

  function CleanedHits(d: Doc): seq<string> {
    match d
    case End(w) => WordHits(w)
    case Chunk(w, gap, rest) => WordHits(w) + CleanedHits(rest)
  }

  function RedactedDoc(d: Doc): Doc { Cleaned(Marked(d, false)) }

  function RedactedText(s: string): string { ToText(RedactedDoc(Parse(s))) }

  function TextHits(s: string): seq<string> {
    MarkedHits(Parse(s), false) + CleanedHits(Marked(Parse(s), false))
  }

  // ----- the first pass as a scan for "Bearer " -----

  predicate FirstNeedle(s: string, pos: nat) {
    OccursAt(s, NEEDLE, pos) && forall i :: 0 <= i < pos ==> !OccursAt(s, NEEDLE, i)
  }

  lemma NeedleParts(s: string, p: int)
    ensures OccursAt(s, NEEDLE, p) <==> 0 <= p && p + 7 <= |s| && s[p..p + 6] == BEARER && s[p + 6] == ' '
  {
    if 0 <= p && p + 7 <= |s| {
      var found := s[p..p + 7];
      assert found[..6] == s[p..p + 6] && found[6] == s[p + 6];
      assert NEEDLE[..6] == BEARER && NEEDLE[6] == ' ';
      assert found == found[..6] + [found[6]] && NEEDLE == NEEDLE[..6] + [NEEDLE[6]];
    }
  }

  // A needle never lies across the whitespace that ends a word, except with
  // its own space.
  lemma NeedleInChunk(w: string, gap: char, t: string, p: nat)
    requires NoWhitespace(w) && IsWhitespace(gap)
    ensures OccursAt(w + [gap] + t, NEEDLE, p) <==>
      (p + 6 == |w| && Flags(w, gap)) || (p >= |w| + 1 && OccursAt(t, NEEDLE, p - |w| - 1))
  {
    var s := w + [gap] + t;
    NeedleParts(s, p);
    if p + 7 <= |s| {
      if p >= |w| + 1 {
        NeedleParts(t, p - |w| - 1);
        assert s[p..p + 6] == t[p - |w| - 1..p - |w| + 5];
      } else if p + 6 == |w| {
        assert s[p..p + 6] == w[p..];
      } else if p + 6 < |w| {
        assert s[p + 6] == w[p + 6];
      } else {
        assert s[|w|] == s[p..p + 6][|w| - p] == gap;
        assert !IsWhitespace(BEARER[|w| - p]);
      }
    }
  }

  lemma NeedleBehind(w: string, gap: char, t: string, pos: nat)
    requires NoWhitespace(w) && IsWhitespace(gap) && FirstNeedle(w + [gap] + t, pos)
    ensures if pos + 6 == |w| then Flags(w, gap) else pos >= |w| + 1 && FirstNeedle(t, pos - |w| - 1) && !Flags(w, gap)
  {
    NeedleInChunk(w, gap, t, pos);
    if pos + 6 != |w| {
      if Flags(w, gap) { NeedleInChunk(w, gap, t, |w| - 6); }
      forall i | 0 <= i < pos - |w| - 1 ensures !OccursAt(t, NEEDLE, i) {
        NeedleInChunk(w, gap, t, |w| + 1 + i);
      }
    }
  }

  lemma CopyChunk(w: string, gap: char, t: string, q: nat, tail: string)
    requires q <= |t|
    ensures w + [gap] + (t[..q] + tail) == (w + [gap] + t)[..|w| + 1 + q] + tail
    ensures (w + [gap] + t)[|w| + 1 + q..] == t[q..]
  {
    assert (w + [gap] + t)[..|w| + 1 + q] == w + [gap] + t[..q];
  }

  // What the text up to and including its first "Bearer " contributes: itself;
  // a token follows.
  lemma {:induction false} FirstBearer(d: Doc, pos: nat) returns (after: Doc)
    requires Proper(d) && FirstNeedle(ToText(d), pos)
    ensures Proper(after) && pos + 7 <= |ToText(d)| && ToText(after) == ToText(d)[pos + 7..]
    ensures ToText(Marked(d, false)) == ToText(d)[..pos + 7] + ToText(Marked(after, true))
    ensures MarkedHits(d, false) == MarkedHits(after, true)
  {
    match d
    case End(w) =>
      NeedleParts(w, pos);
      assert IsWhitespace(w[pos + 6]);
      after := d;
    case Chunk(w, gap, rest) =>
      var t := ToText(rest);
      NeedleBehind(w, gap, t, pos);
      if pos + 6 == |w| {
        after := rest;
        CopyChunk(w, gap, t, 0, ToText(Marked(rest, true)));
      } else {
        after := FirstBearer(rest, pos - |w| - 1);
        CopyChunk(w, gap, t, pos - |w| + 6, ToText(Marked(after, true)));
      }
  }

  lemma {:induction false} NoBearer(d: Doc)
    requires Proper(d) && forall i :: 0 <= i ==> !OccursAt(ToText(d), NEEDLE, i)
    ensures Marked(d, false) == d && MarkedHits(d, false) == []
  {
    match d
    case End(w) =>
    case Chunk(w, gap, rest) =>
      var t := ToText(rest);
      assert ToText(d) == w + [gap] + t;
      if Flags(w, gap) { NeedleInChunk(w, gap, t, |w| - 6); }
      forall i | 0 <= i ensures !OccursAt(t, NEEDLE, i) {
        NeedleInChunk(w, gap, t, |w| + 1 + i);
        assert !OccursAt(ToText(d), NEEDLE, |w| + 1 + i);
      }
      NoBearer(rest);
  }

  lemma MarkerIsNotBearer()
    ensures !EndsBearer(MARKER) && !EndsBearer("")
  {
    assert MARKER[|MARKER| - 6..][5] == ']' && BEARER[5] == 'r';
  }

  // After "Bearer ": no token, or one that becomes the marker.
  lemma AfterBearer(d: Doc) returns (rest: Doc)
    requires Proper(d)
    ensures Proper(rest) && WordLength(ToText(d)) == |d.word| && ToText(rest) == ToText(d)[|d.word|..]
    ensures ToText(Marked(d, true)) == (if d.word == "" then "" else MARKER) + ToText(Marked(rest, false))
    ensures MarkedHits(d, true) == TokenHits(d.word, true) + MarkedHits(rest, false)
  {
    hide EndsBearer, WordLength;
    MarkerIsNotBearer();
    match d
    case End(w) =>
      rest := End("");
      WordLengthIs(w, |w|);
    case Chunk(w, gap, r) =>
      rest := Chunk("", gap, r);
      var s := ToText(d);
      assert s[..|w|] == w && s[|w|] == gap;
      WordLengthIs(s, |w|);
      Glue(if w == "" then "" else MARKER, "" + [gap], ToText(Marked(r, false)));
  }

  // The scan has emitted `out` and reported `hits`; `d` is still to do.
  predicate Scanning(whole: Doc, out: string, hits: seq<string>, d: Doc) {
    && Proper(d)
    && out + ToText(Marked(d, false)) == ToText(Marked(whole, false))
    && hits + MarkedHits(d, false) == MarkedHits(whole, false)
  }

  lemma ScanTurn(whole: Doc, out: string, hits: seq<string>, d: Doc, pos: nat) returns (next: Doc)
    requires Scanning(whole, out, hits, d) && FirstNeedle(ToText(d), pos)
    ensures pos + 7 <= |ToText(d)|
    ensures var after := ToText(d)[pos + 7..];
            var n := WordLength(after);
            && ToText(next) == after[n..]
            && Scanning(whole, out + ToText(d)[..pos + 7] + (if n == 0 then "" else MARKER),
                        hits + (if n == 0 then [] else ["bearer"]), next)
  {
    var after := FirstBearer(d, pos);
    next := AfterBearer(after);
    var copied, token := ToText(d)[..pos + 7], if after.word == "" then "" else MARKER;
    Glue(out, copied, token + ToText(Marked(next, false)));
    Glue(out + copied, token, ToText(Marked(next, false)));
    Glue(hits, TokenHits(after.word, true), MarkedHits(next, false));
  }

  // ----- the loops -----

  class RedactionReport {
    var redactedCount: nat
    var patternsFound: seq<string>

    constructor ()
      ensures redactedCount == 0 && patternsFound == []
    {
      redactedCount, patternsFound := 0, [];
    }

    method Add(pattern: string)
      modifies this
      ensures Reports(this, [pattern])
    {
      redactedCount := redactedCount + 1;
      patternsFound := patternsFound + [pattern];
    }
  }

  // The report has grown by exactly these findings.
  twostate predicate Reports(report: RedactionReport, hits: seq<string>)
    reads report
  {
    report.redactedCount == old(report.redactedCount) + |hits|
      && report.patternsFound == old(report.patternsFound) + hits
  }

  lemma ScanStart(text: string) returns (d: Doc)
    ensures d == Parse(text) && ToText(d) == text && Scanning(d, "", [], d)
  {
    d := Parse(text);
    TextOfParse(text);
    assert "" + ToText(Marked(d, false)) == ToText(Marked(d, false));
    assert [] + MarkedHits(d, false) == MarkedHits(d, false);
  }

  lemma ScanEnd(whole: Doc, out: string, hits: seq<string>, d: Doc)
    requires Scanning(whole, out, hits, d) && forall i :: 0 <= i ==> !OccursAt(ToText(d), NEEDLE, i)
    ensures out + ToText(d) == ToText(Marked(whole, false)) && hits == MarkedHits(whole, false)
  {
    NoBearer(d);
  }

  method RedactBearerSubstrings(text: string, report: RedactionReport) returns (out: string)
    modifies report
    ensures out == ToText(Marked(Parse(text), false)) && Reports(report, MarkedHits(Parse(text), false))
  {
    hide Marked, MarkedHits, Parse, ToText, Scanning, WordLength, OccursAt;
    ghost var whole := ScanStart(text);
    ghost var d, hits: seq<string> := whole, [];
    out := "";
    var rest := text;
    var pos := FindFrom(rest, NEEDLE, 0);
    while pos.Some?
      invariant pos.Some? ==> FirstNeedle(rest, pos.value)
      invariant pos.None? ==> forall i :: 0 <= i ==> !OccursAt(rest, NEEDLE, i)
      invariant rest == ToText(d) && Scanning(whole, out, hits, d)
      invariant Reports(report, hits)
      decreases |rest|
    {
      d := ScanTurn(whole, out, hits, d, pos.value);
      var after := rest[pos.value + 7..];
      var tokenLength := WordLength(after);
      out := out + rest[..pos.value + 7];
      assert out + "" == out && hits + [] == hits;
      if tokenLength > 0 {
        report.Add("bearer");
        hits := hits + ["bearer"];
        out := out + MARKER;
      }
      rest := after[tokenLength..];
      pos := FindFrom(rest, NEEDLE, 0);
    }
    ScanEnd(whole, out, hits, d);
    out := out + rest;
  }

  method RedactKeyedToken(word: string, report: RedactionReport) returns (r: Option<string>)
    modifies report
    ensures r == if IsKeyed(word) then Some(RedactKeyed(word)) else None
    ensures Reports(report, if IsKeyed(word) then WordHits(word) else [])
  {
    hide IsSecretKeyName, Lower, Trim;
    var sep := KeyLength(word);
    if sep == |word| { return None; }
    var key := Trim(word[..sep]);
    if !IsSecretKeyName(key) { return None; }
    var value := word[sep + 1..];
    if Trim(value) == "" { return None; }
    report.Add("secret-key:" + Lower(key));
    r := Some(key + [word[sep]] + MARKER);
  }

  method RedactWord(word: string, report: RedactionReport) returns (out: string)
    modifies report
    ensures out == CleanWord(word) && Reports(report, WordHits(word))
  {
    var keyed := RedactKeyedToken(word, report);
    if keyed.Some? { return keyed.value; }
    match MatchSecretPattern(word) {
      case Some(pattern) =>
        report.Add(pattern);
        out := MARKER;
      case None => out := word;
    }
  }

  predicate Cleaning(whole: Doc, out: string, hits: seq<string>, d: Doc) {
    && Proper(d)
    && out + ToText(Cleaned(d)) == ToText(Cleaned(whole))
    && hits + CleanedHits(d) == CleanedHits(whole)
  }

  lemma CleanTurn(whole: Doc, out: string, hits: seq<string>, d: Doc)
    requires Cleaning(whole, out, hits, d)
    ensures var s := ToText(d);
            && WordLength(s) == |d.word| && s[..|d.word|] == d.word
            && (d.Chunk? ==>
                  && |d.word| < |s| && s[|d.word|] == d.gap && s[|d.word| + 1..] == ToText(d.rest)
                  && Cleaning(whole, out + CleanWord(d.word) + [d.gap], hits + WordHits(d.word), d.rest))
  {
    hide CleanWord, WordHits, WordLength;
    var s := ToText(d);
    match d
    case End(w) => WordLengthIs(s, |w|);
    case Chunk(w, gap, rest) =>
      assert s[..|w|] == w && s[|w|] == gap && s[|w| + 1..] == ToText(rest);
      WordLengthIs(s, |w|);
      Glue(out, CleanWord(w) + [gap], ToText(Cleaned(rest)));
      Glue(out, CleanWord(w), [gap]);
      Glue(hits, WordHits(w), CleanedHits(rest));
  }

  method RedactWords(text: string, report: RedactionReport) returns (out: string)
    modifies report
    ensures out == ToText(Cleaned(Parse(text))) && Reports(report, CleanedHits(Parse(text)))
  {
    hide CleanWord, WordHits;
    TextOfParse(text);
    out := "";
    var rest := text;
    ghost var d, hits: seq<string> := Parse(text), [];
    var n := WordLength(rest);
    while n < |rest|
      invariant n == WordLength(rest) && rest == ToText(d) && Cleaning(Parse(text), out, hits, d)
      invariant Reports(report, hits)
      decreases |rest|
    {
      CleanTurn(Parse(text), out, hits, d);
      var word := RedactWord(rest[..n], report);
      out := out + word + [rest[n]];
      hits := hits + WordHits(rest[..n]);
      rest := rest[n + 1..];
      d := d.rest;
      n := WordLength(rest);
    }
    CleanTurn(Parse(text), out, hits, d);
    var word := RedactWord(rest, report);
    out := out + word;
  }

  lemma {:induction false} MarkedIsProper(d: Doc, flag: bool)
    requires Proper(d)
    ensures Proper(Marked(d, flag))
  {
    if d.Chunk? { MarkedIsProper(d.rest, Flags(Token(d.word, flag), d.gap)); }
  }

  // Free text: first the tokens behind "Bearer ", then single words.
  method RedactText(text: string, report: RedactionReport) returns (out: string)
    modifies report
    ensures out == RedactedText(text) && Reports(report, TextHits(text))
  {
    hide CleanWord, WordHits, Parse;
    var marked := RedactBearerSubstrings(text, report);
    TextOfParse(text);
    MarkedIsProper(Parse(text), false);
    ParseOfText(Marked(Parse(text), false));
    out := RedactWords(marked, report);
  }
}
