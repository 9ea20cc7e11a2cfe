// What redaction guarantees: it reaches a fixpoint, it leaves no secret behind,
// and it disturbs nothing else.
module RedactionLaws {
  import opened Types
  import opened Text
  import opened Redaction

  // ----- single words -----

  lemma MarkerIsAWord()
    ensures NoWhitespace(MARKER) && MARKER != "" && MARKER[0] == '['
    ensures forall i :: 0 <= i < |MARKER| ==> !IsSeparator(MARKER[i])
  {
  }

  lemma MarkerFacts()
    ensures NoWhitespace(MARKER) && MARKER != "" && Trim(MARKER) == MARKER && !EndsBearer(MARKER)
    ensures MARKER[0] == '[' && forall i :: 0 <= i < |MARKER| ==> !IsSeparator(MARKER[i])
  {
    hide Trim, EndsBearer, MARKER;
    MarkerIsAWord();
    TrimWord(MARKER);
    MarkerIsNotBearer();
  }

  lemma KeyLengthIs(w: string, n: nat)
    requires n <= |w| && (forall i :: 0 <= i < n ==> !IsSeparator(w[i])) && (n < |w| ==> IsSeparator(w[n]))
    ensures KeyLength(w) == n
  {
    var k := KeyLength(w);
  }

  lemma KeyEnds(w: string)
    ensures var n := KeyLength(w);
            n <= |w| && (forall i :: 0 <= i < n ==> !IsSeparator(w[i])) && (n < |w| ==> IsSeparator(w[n]))
  {
  }

  lemma PrefixChar(s: string, prefix: string, i: nat)
    requires i < |prefix|
    ensures StartsWith(s, prefix) ==> i < |s| && s[i] == prefix[i]
  {
    if StartsWith(s, prefix) { assert s[i] == s[..|prefix|][i]; }
  }

  // No secret name begins like a token pattern.
  lemma SecretNames(key: string)
    requires IsSecretKeyName(key)
    ensures |key| >= 5 && LowerChar(key[1]) != 'k'
  {
    var l := Lower(key);
    assert l[1] == LowerChar(key[1]);
  }

  // A value with a bracket in it is no token; nor is one whose second
  // character is neither k nor K.
  lemma BracketIsNoToken(t: string, i: nat)
    requires |t| >= 2 && LowerChar(t[1]) != 'k' && i < |t| && t[i] == '['
    ensures TokenPattern(t).None?
  {
    PrefixChar(t, "sk-", 1);
    PrefixChar(t, "AKIA", 1);
    assert !IsHexDigit(t[i]) && !IsBase64Char(t[i]);
  }

  lemma WordIsNoBearer(w: string)
    requires NoWhitespace(w)
    ensures MatchSecretPattern(w) == TokenPattern(w)
  {
    TrimWord(w);
    PrefixChar(w, "Bearer ", 6);
  }

  lemma MarkerIsClean()
    ensures CleanWord(MARKER) == MARKER && MatchSecretPattern(MARKER).None?
  {
    hide MatchSecretPattern, TokenPattern, IsSecretKeyName, KeyLength, Trim;
    MarkerFacts();
    WordIsNoBearer(MARKER);
    BracketIsNoToken(MARKER, 0);
    KeyLengthIs(MARKER, |MARKER|);
  }

  // What cleaning does to a key=value word: the same key stands before the
  // marker, and cleaning it again finds the same.
  lemma KeyedIsStable(w: string)
    requires NoWhitespace(w) && IsKeyed(w)
    ensures KeyLength(w) < |w|
    ensures var r := RedactKeyed(w);
            && r == w[..KeyLength(w) + 1] + MARKER && NoWhitespace(r)
            && IsKeyed(r) && RedactKeyed(r) == r && MatchSecretPattern(r).None?
  {
    hide MatchSecretPattern, TokenPattern, IsSecretKeyName, Lower, Trim, KeyLength, MARKER;
    var n := KeyLength(w);
    var key, r := w[..n], RedactKeyed(w);
    KeyEnds(w);
    TrimWord(key);
    MarkerFacts();
    SecretNames(key);
    assert w[..n + 1] == key + [w[n]];
    assert r[..n] == key && r[n + 1..] == MARKER && r[n] == w[n];
    KeyLengthIs(r, n);
    WordIsNoBearer(r);
    assert r[n + 1] == MARKER[0] && r[1] == key[1];
    BracketIsNoToken(r, n + 1);
  }

  // A cleaned word is settled: clean, no longer a secret, and never longer
  // than a step away from what it was.
  predicate Settled(w: string, r: string) {
    && NoWhitespace(r) && CleanWord(r) == r && MatchSecretPattern(r).None?
    && (r == "" <==> w == "")
    && (r == w || (|r| >= |MARKER| && r[|r| - |MARKER|..] == MARKER))
  }

  lemma KeyedSettles(w: string)
    requires NoWhitespace(w) && IsKeyed(w)
    ensures Settled(w, RedactKeyed(w))
  {
    hide IsKeyed, MatchSecretPattern, KeyLength, MARKER, RedactKeyed;
    MarkerFacts();
    KeyedIsStable(w);
    KeyEnds(w);
    var r, front := RedactKeyed(w), w[..KeyLength(w) + 1];
    assert r[|front|..] == MARKER;
  }

  lemma CleanWordSettles(w: string)
    requires NoWhitespace(w)
    ensures Settled(w, CleanWord(w))
  {
    hide IsKeyed, MatchSecretPattern, MARKER, RedactKeyed;
    if IsKeyed(w) {
      KeyedSettles(w);
    } else if MatchSecretPattern(w).Some? {
      MarkerFacts();
      MarkerIsClean();
      EmptyIsNoSecret();
    }
  }

  lemma NoHitNoChange(w: string)
    requires WordHits(w) == []
    ensures CleanWord(w) == w
  {
    hide IsKeyed, MatchSecretPattern, Lower, Trim, KeyLength;
  }

  lemma EmptyIsNoSecret()
    ensures !IsKeyed("") && MatchSecretPattern("").None?
  {
    TrimWord("");
  }

  lemma MarkedEndIsNotBearer(r: string)
    requires |r| >= |MARKER| && r[|r| - |MARKER|..] == MARKER
    ensures !EndsBearer(r)
  {
    var last := r[|r| - 6..][5];
    assert last == r[|r| - 1] == r[|r| - |MARKER|..][|MARKER| - 1] == MARKER[|MARKER| - 1];
  }

  // ----- whole texts -----

  // What a second redaction sees: every word settled, every token the marker.
  predicate Redacted(d: Doc, flag: bool) {
    && Token(d.word, flag) == d.word && CleanWord(d.word) == d.word && MatchSecretPattern(d.word).None?
    && (d.Chunk? ==> Redacted(d.rest, Flags(d.word, d.gap)))
  }

  // A weaker flag demands less.
  lemma {:induction false} RedactedWeaker(d: Doc, flag: bool)
    requires Redacted(d, true)
    ensures Redacted(d, flag)
  {
  }

  lemma TokenSettles(w: string, flag: bool)
    requires NoWhitespace(w)
    ensures var r := CleanWord(Token(w, flag));
            Token(r, flag) == r && Settled(Token(w, flag), r) && (r == "" <==> w == "")
  {
    hide CleanWord, MatchSecretPattern, MARKER, EndsBearer;
    MarkerFacts();
    MarkerIsClean();
    CleanWordSettles(Token(w, flag));
  }

  // Flags survive cleaning only where the word was left alone.
  lemma FlagsAfterCleaning(w: string, r: string, gap: char)
    requires Settled(w, r) && Flags(r, gap)
    ensures Flags(w, gap)
  {
    hide CleanWord, MatchSecretPattern, EndsBearer;
    if r != w { MarkedEndIsNotBearer(r); }
  }

  lemma {:induction false} RedactionRedacts(d: Doc, flag: bool)
    requires Proper(d)
    ensures var r := Cleaned(Marked(d, flag)); Proper(r) && Redacted(r, flag)
  {
    hide CleanWord, MatchSecretPattern, EndsBearer, Token, Flags;
    TokenSettles(d.word, flag);
    if d.Chunk? {
      var w := Token(d.word, flag);
      var r := CleanWord(w);
      RedactionRedacts(d.rest, Flags(w, d.gap));
      if Flags(r, d.gap) { FlagsAfterCleaning(w, r, d.gap); }
      if Flags(w, d.gap) { RedactedWeaker(Cleaned(Marked(d.rest, true)), Flags(r, d.gap)); }
    }
  }

  lemma {:induction false} RedactedIsFixed(d: Doc, flag: bool)
    requires Redacted(d, flag)
    ensures Cleaned(Marked(d, flag)) == d
  {
    if d.Chunk? { RedactedIsFixed(d.rest, Flags(d.word, d.gap)); }
  }

  // Redacting a text twice is redacting it once.
  lemma RedactionIsIdempotent(s: string)
    ensures RedactedText(RedactedText(s)) == RedactedText(s)
  {
    TextOfParse(s);
    RedactionRedacts(Parse(s), false);
    var r := RedactedDoc(Parse(s));
    ParseOfText(r);
    RedactedIsFixed(r, false);
  }

  // The words of a text.
  function Words(d: Doc): seq<string> {
    match d
    case End(w) => [w]
    case Chunk(w, _, rest) => [w] + Words(rest)
  }

  lemma {:induction false} RedactedWords(d: Doc, flag: bool, i: nat)
    requires Redacted(d, flag) && i < |Words(d)|
    ensures MatchSecretPattern(Words(d)[i]).None? && CleanWord(Words(d)[i]) == Words(d)[i]
  {
    if d.Chunk? && i > 0 { RedactedWords(d.rest, Flags(d.word, d.gap), i - 1); }
  }

  lemma CleanKeyedWord(w: string)
    requires NoWhitespace(w) && CleanWord(w) == w && IsKeyed(w)
    ensures w[KeyLength(w) + 1..] == MARKER
  {
    hide MatchSecretPattern, IsKeyed, KeyLength;
    KeyEnds(w);
    KeyedIsStable(w);
    var n := KeyLength(w);
    assert (w[..n + 1] + MARKER)[n + 1..] == MARKER;
  }

  // A word that no secret can be read from.
  predicate IsClean(w: string) {
    MatchSecretPattern(w).None? && (IsKeyed(w) ==> w[KeyLength(w) + 1..] == MARKER)
  }

  lemma {:induction false} RedactedWordIsClean(d: Doc, flag: bool, i: nat)
    requires Proper(d) && Redacted(d, flag) && i < |Words(d)|
    ensures IsClean(Words(d)[i])
  {
    hide MatchSecretPattern, IsKeyed, KeyLength, CleanWord;
    RedactedWords(d, flag, i);
    WordsAreProper(d, i);
    if IsKeyed(Words(d)[i]) { CleanKeyedWord(Words(d)[i]); }
  }

  lemma RedactedParse(s: string)
    ensures var d := Parse(RedactedText(s)); Proper(d) && Redacted(d, false)
  {
    hide Redacted, Marked, Cleaned;
    TextOfParse(s);
    RedactionRedacts(Parse(s), false);
    ParseOfText(RedactedDoc(Parse(s)));
  }

  // No word of the output matches a secret pattern, and none is a secret
  // key with anything but the marker behind it.
  lemma NoSecretWordRemains(s: string, i: nat)
    requires i < |Words(Parse(RedactedText(s)))|
    ensures IsClean(Words(Parse(RedactedText(s)))[i])
  {
    hide IsClean, Redacted, RedactedText, Words, Parse;
    RedactedParse(s);
    RedactedWordIsClean(Parse(RedactedText(s)), false, i);
  }

  lemma {:induction false} WordsAreProper(d: Doc, i: nat)
    requires Proper(d) && i < |Words(d)|
    ensures NoWhitespace(Words(d)[i])
  {
    if d.Chunk? && i > 0 { WordsAreProper(d.rest, i - 1); }
  }

  lemma {:induction false} RedactedNeedle(d: Doc, flag: bool, p: nat)
    requires Proper(d) && Redacted(d, flag) && OccursAt(ToText(d), NEEDLE, p)
    ensures var after := ToText(d)[p + 7..]; var token := after[..WordLength(after)]; token == "" || token == MARKER
  {
    hide CleanWord, MatchSecretPattern, EndsBearer, WordLength;
    match d
    case End(w) =>
      NeedleParts(w, p);
      assert false;
    case Chunk(w, gap, rest) =>
      var t := ToText(rest);
      NeedleInChunk(w, gap, t, p);
      if p + 6 == |w| && Flags(w, gap) {
        assert ToText(d)[p + 7..] == t;
        TextStartsWithWord(rest);
      } else {
        RedactedNeedle(rest, Flags(w, gap), p - |w| - 1);
        assert ToText(d)[p + 7..] == t[p - |w| + 6..];
      }
  }

  lemma TextStartsWithWord(d: Doc)
    requires Proper(d)
    ensures WordLength(ToText(d)) == |d.word| && ToText(d)[..|d.word|] == d.word
  {
    var s := ToText(d);
    match d
    case End(w) => WordLengthIs(s, |w|);
    case Chunk(w, gap, rest) =>
      assert s[..|w|] == w && s[|w|] == gap;
      WordLengthIs(s, |w|);
  }

  // Wherever "Bearer " occurs in the output, what follows is the marker or no
  // token at all.
  lemma BearerTokensAreMarked(s: string, p: nat)
    requires OccursAt(RedactedText(s), NEEDLE, p)
    ensures var after := RedactedText(s)[p + 7..]; var token := after[..WordLength(after)];
            token == "" || token == MARKER
  {
    TextOfParse(s);
    RedactionRedacts(Parse(s), false);
    RedactedNeedle(RedactedDoc(Parse(s)), false, p);
  }

  // The whitespace of a text, in order.
  function Gaps(d: Doc): string {
    match d
    case End(_) => ""
    case Chunk(_, gap, rest) => [gap] + Gaps(rest)
  }

  lemma {:induction false} GapsAreKept(d: Doc, flag: bool)
    ensures Gaps(Cleaned(Marked(d, flag))) == Gaps(d)
  {
    if d.Chunk? { GapsAreKept(d.rest, Flags(Token(d.word, flag), d.gap)); }
  }

  // Every whitespace character stays, in its order; between them stand as many
  // words as before, and empty ones stay empty.
  lemma WhitespaceIsKept(s: string)
    ensures Gaps(Parse(RedactedText(s))) == Gaps(Parse(s))
  {
    TextOfParse(s);
    RedactionRedacts(Parse(s), false);
    ParseOfText(RedactedDoc(Parse(s)));
    GapsAreKept(Parse(s), false);
  }

  lemma {:induction false} NothingFoundNothingChanged(d: Doc, flag: bool)
    requires Proper(d) && MarkedHits(d, flag) == [] && CleanedHits(Marked(d, flag)) == []
    ensures Cleaned(Marked(d, flag)) == d
  {
    hide CleanWord, WordHits, MatchSecretPattern, EndsBearer;
    NoHitNoChange(d.word);
    if d.Chunk? { NothingFoundNothingChanged(d.rest, Flags(d.word, d.gap)); }
  }

  // A report that did not grow means an unchanged text.
  lemma EmptyReportMeansUnchanged(s: string)
    requires TextHits(s) == []
    ensures RedactedText(s) == s
  {
    TextOfParse(s);
    NothingFoundNothingChanged(Parse(s), false);
  }
}
