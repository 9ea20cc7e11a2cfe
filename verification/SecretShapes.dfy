// What the redactor takes for a secret, spelt out character by character, and
// what it therefore removes from a text or a JSON value, what it keeps, and
// what it reports.
module SecretShapes {
  import opened Types
  import opened Text
  import opened Redaction
  import opened RedactionLaws
  import opened RedactionJson

  // ----- the shapes -----

  predicate LetterOrDigit(c: char) { '0' <= c <= '9' || 'a' <= c <= 'z' || 'A' <= c <= 'Z' }

  // "sk-" and eight letters or digits; anything may follow.
  predicate SkKey(w: string) {
    |w| >= 11 && w[0] == 's' && w[1] == 'k' && w[2] == '-' && forall i :: 3 <= i < 11 ==> LetterOrDigit(w[i])
  }

  // "AKIA" and twelve capitals or digits; anything may follow.
  predicate AwsKey(w: string) {
    |w| >= 16 && w[0] == 'A' && w[1] == 'K' && w[2] == 'I' && w[3] == 'A'
    && forall i :: 4 <= i < 16 ==> 'A' <= w[i] <= 'Z' || '0' <= w[i] <= '9'
  }

  predicate LongHex(w: string) {
    |w| >= 32 && forall i :: 0 <= i < |w| ==> '0' <= w[i] <= '9' || 'a' <= w[i] <= 'f' || 'A' <= w[i] <= 'F'
  }

  predicate IsPlusSlashEquals(c: char) { c == '+' || c == '/' || c == '=' }

  predicate Base64Blob(w: string) {
    && |w| >= 24 && (exists i :: 0 <= i < |w| && IsPlusSlashEquals(w[i]))
    && forall i :: 0 <= i < |w| ==> LetterOrDigit(w[i]) || IsPlusSlashEquals(w[i])
  }

  predicate TokenShape(w: string) { SkKey(w) || AwsKey(w) || LongHex(w) || Base64Blob(w) }

  function ShapeName(w: string): string
    requires TokenShape(w)
  {
    if SkKey(w) then "sk-key" else if AwsKey(w) then "aws-access-key" else if LongHex(w) then "long-hex"
    else "base64-blob"
  }

  // Equal up to the case of ASCII letters; the second text has none in capitals.
  predicate SameLetters(a: string, name: string) {
    && |a| == |name|
    && forall i :: 0 <= i < |a| ==> a[i] == name[i] || ('A' <= a[i] <= 'Z' && a[i] as int + 32 == name[i] as int)
  }

  // The secret name that a key spells.
  function SecretName(key: string): Option<string> {
    if SameLetters(key, "api_key") then Some("api_key")
    else if SameLetters(key, "apikey") then Some("apikey")
    else if SameLetters(key, "secret") then Some("secret")
    else if SameLetters(key, "password") then Some("password")
    else if SameLetters(key, "token") then Some("token")
    else if SameLetters(key, "authorization") then Some("authorization")
    else None
  }

  // A secret name, then = or :, then something.
  predicate AssignsAt(w: string, n: int) {
    0 <= n < |w| - 1 && (w[n] == '=' || w[n] == ':') && SecretName(w[..n]).Some?
  }

  // ----- they are what the redactor looks for -----

  lemma RunReaches(s: string, p: char -> bool, k: nat)
    ensures RunLength(s, p) >= k <==> k <= |s| && forall i :: 0 <= i < k ==> p(s[i])
  {
  }

  lemma SkExactly(t: string)
    ensures StartsWith(t, "sk-") && RunLength(t[3..], IsAlphanumeric) >= 8 <==> SkKey(t)
  {
    if |t| >= 3 {
      RunReaches(t[3..], IsAlphanumeric, 8);
      assert t[..3] == [t[0], t[1], t[2]];
      assert forall i :: 3 <= i < |t| ==> t[i] == t[3..][i - 3];
    }
  }

  lemma AwsExactly(t: string)
    ensures StartsWith(t, "AKIA") && RunLength(t[4..], IsAwsChar) >= 12 <==> AwsKey(t)
  {
    if |t| >= 4 {
      RunReaches(t[4..], IsAwsChar, 12);
      assert t[..4] == [t[0], t[1], t[2], t[3]];
      assert forall i :: 4 <= i < |t| ==> t[i] == t[4..][i - 4];
    }
  }

  lemma TokenExactly(t: string)
    ensures TokenPattern(t) == if TokenShape(t) then Some(ShapeName(t)) else None
  {
    hide SkKey, AwsKey, RunLength, StartsWith;
    SkExactly(t);
    AwsExactly(t);
  }

  lemma LowerIs(key: string, name: string)
    requires forall i :: 0 <= i < |name| ==> !IsUpper(name[i])
    ensures Lower(key) == name <==> SameLetters(key, name)
  {
    if SameLetters(key, name) {
      assert forall i :: 0 <= i < |key| ==> LowerChar(key[i]) == name[i];
    } else if |key| == |name| {
      var i :| 0 <= i < |key| && !(key[i] == name[i] || (IsUpper(key[i]) && key[i] as int + 32 == name[i] as int));
      assert LowerChar(key[i]) != name[i];
    }
  }

  lemma NameExactly(key: string)
    ensures IsSecretKeyName(key) <==> SecretName(key).Some?
    ensures SecretName(key).Some? ==> Lower(key) == SecretName(key).value
  {
    hide SameLetters, Lower;
    LowerIs(key, "api_key");
    LowerIs(key, "apikey");
    LowerIs(key, "secret");
    LowerIs(key, "password");
    LowerIs(key, "token");
    LowerIs(key, "authorization");
  }

  // A secret name holds no separator.
  lemma NameHasNoSeparator(key: string, i: nat)
    requires SecretName(key).Some? && i < |key|
    ensures !IsSeparator(key[i])
  {
  }

  lemma KeyedExactly(w: string)
    requires NoWhitespace(w)
    ensures IsKeyed(w) <==> AssignsAt(w, KeyLength(w))
    ensures forall n :: AssignsAt(w, n) ==> n == KeyLength(w)
  {
    hide SecretName, IsSecretKeyName, KeyLength, Trim;
    var n := KeyLength(w);
    KeyEnds(w);
    TrimWord(w[..n]);
    NameExactly(w[..n]);
    if n < |w| { TrimWord(w[n + 1..]); }
    forall k | AssignsAt(w, k) ensures k == n {
      forall i | 0 <= i < k ensures !IsSeparator(w[i]) {
        NameHasNoSeparator(w[..k], i);
        assert w[..k][i] == w[i];
      }
    }
  }

  // ----- words of a text, by position -----

  // A longest stretch without whitespace.
  predicate WordAt(s: string, p: int, q: int) {
    && 0 <= p <= q <= |s| && (forall i :: p <= i < q ==> !IsWhitespace(s[i]))
    && (p == 0 || IsWhitespace(s[p - 1])) && (q == |s| || IsWhitespace(s[q]))
  }

  lemma FirstWordIs(w: string, gap: char, t: string, p: int, q: int)
    requires NoWhitespace(w) && IsWhitespace(gap) && WordAt(w + [gap] + t, p, q) && p <= |w|
    ensures p == 0 && q == |w| && (w + [gap] + t)[p..q] == w
  {
    var s := w + [gap] + t;
    assert s[|w|] == gap;
    assert forall k :: 0 <= k < |w| ==> s[k] == w[k];
    hide IsWhitespace;
  }

  lemma LaterWordIs(w: string, gap: char, t: string, p: int, q: int)
    requires WordAt(w + [gap] + t, p, q) && p > |w|
    ensures var n := |w| + 1; WordAt(t, p - n, q - n) && (w + [gap] + t)[p..q] == t[p - n..q - n]
  {
    hide IsWhitespace;
    var s, n := w + [gap] + t, |w| + 1;
    assert s[n..] == t;
    assert s[p..q] == s[n..][p - n..q - n];
    assert forall k :: 0 <= k < |t| ==> t[k] == s[k + n];
    assert p > n ==> s[p - 1] == t[p - n - 1];
  }

  lemma {:induction false} WordIsListed(d: Doc, p: int, q: int) returns (i: nat)
    requires Proper(d) && WordAt(ToText(d), p, q)
    ensures i < |Words(d)| && Words(d)[i] == ToText(d)[p..q]
  {
    hide IsWhitespace;
    match d
    case End(w) =>
      i := 0;
      assert w[p..q] == w;
    case Chunk(w, gap, rest) =>
      hide WordAt;
      if p <= |w| {
        i := 0;
        FirstWordIs(w, gap, ToText(rest), p, q);
      } else {
        LaterWordIs(w, gap, ToText(rest), p, q);
        var j := WordIsListed(rest, p - |w| - 1, q - |w| - 1);
        i := j + 1;
      }
  }

  // ----- nothing leaks -----

  // Not a token, and whatever a secret name is given is the marker.
  ghost predicate LeaksNothing(w: string) {
    !TokenShape(w) && forall n :: AssignsAt(w, n) ==> w[n + 1..] == "[REDACTED]"
  }

  lemma CleanLeaksNothing(w: string)
    requires NoWhitespace(w) && IsClean(w)
    ensures LeaksNothing(w)
  {
    hide TokenPattern, TokenShape, IsKeyed, KeyLength, AssignsAt;
    WordIsNoBearer(w);
    TokenExactly(w);
    KeyedExactly(w);
  }

  // No word of a redacted text, wherever it stands, has one of the four shapes
  // or gives a secret name anything but the marker.
  lemma NothingLeaks(s: string, p: int, q: int)
    requires WordAt(RedactedText(s), p, q)
    ensures LeaksNothing(RedactedText(s)[p..q])
  {
    hide RedactedText, Parse, LeaksNothing, IsClean, Words, ToText;
    var r := RedactedText(s);
    TextOfParse(r);
    var i := WordIsListed(Parse(r), p, q);
    NoSecretWordRemains(s, i);
    CleanLeaksNothing(r[p..q]);
  }

  // ----- every word, exactly -----

  // No token shape, and no secret name that is given anything.
  ghost predicate Harmless(w: string) { !TokenShape(w) && forall n :: !AssignsAt(w, n) }

  predicate EndsInBearer(w: string) { |w| >= 6 && w[|w| - 6..] == "Bearer" }

  // Whether word i stands one space behind a word that ends in "Bearer" and is
  // not itself swallowed as such a word's token.
  predicate Behind(ws: seq<string>, gaps: string, first: bool, i: nat)
    requires i < |ws| && |ws| == |gaps| + 1
  {
    if i == 0 then first
    else gaps[i - 1] == ' ' && EndsInBearer(ws[i - 1]) && !Behind(ws, gaps, first, i - 1)
  }

  // What becomes of one word.
  ghost predicate IsRedactionOf(r: string, w: string, behind: bool) {
    if behind && w != "" then r == "[REDACTED]"
    else
      && (forall n :: AssignsAt(w, n) ==> r == w[..n + 1] + "[REDACTED]")
      && ((forall n :: !AssignsAt(w, n)) ==> r == if TokenShape(w) then "[REDACTED]" else w)
  }

  lemma {:induction false} WordsAndGaps(d: Doc)
    ensures |Words(d)| == |Gaps(d)| + 1
  {
    if d.Chunk? { WordsAndGaps(d.rest); }
  }

  // The first word of the rest inherits what the word before it decides.
  lemma BehindNext(w: string, gap: char, behind: bool)
    ensures Flags(Token(w, behind), gap) <==> gap == ' ' && EndsInBearer(w) && !behind
  {
    MarkerIsNotBearer();
  }

  lemma {:induction false} BehindShift(ws: seq<string>, gaps: string, first: bool, i: nat)
    requires 1 <= i < |ws| && |ws| == |gaps| + 1
    ensures Behind(ws, gaps, first, i)
         == Behind(ws[1..], gaps[1..], gaps[0] == ' ' && EndsInBearer(ws[0]) && !first, i - 1)
  {
    hide EndsInBearer;
    if i > 1 { BehindShift(ws, gaps, first, i - 1); }
  }

  lemma {:induction false} MarkedWord(d: Doc, first: bool, i: nat)
    requires i < |Words(d)|
    ensures |Words(d)| == |Gaps(d)| + 1 && |Words(Marked(d, first))| == |Words(d)|
    ensures Words(Marked(d, first))[i] == Token(Words(d)[i], Behind(Words(d), Gaps(d), first, i))
  {
    hide EndsInBearer, Flags, Token;
    WordsAndGaps(d);
    if d.Chunk? {
      BehindNext(d.word, d.gap, first);
      var next := Flags(Token(d.word, first), d.gap);
      if i > 0 {
        BehindShift(Words(d), Gaps(d), first, i);
        MarkedWord(d.rest, next, i - 1);
      } else {
        MarkedWord(d.rest, next, 0);
      }
    }
  }

  lemma {:induction false} CleanedWord(d: Doc, i: nat)
    requires i < |Words(d)|
    ensures |Words(Cleaned(d))| == |Words(d)| && Words(Cleaned(d))[i] == CleanWord(Words(d)[i])
  {
    hide CleanWord;
    if d.Chunk? { CleanedWord(d.rest, if i > 0 then i - 1 else 0); }
  }

  lemma CleanedIsRedaction(w: string, behind: bool)
    requires NoWhitespace(w)
    ensures IsRedactionOf(CleanWord(Token(w, behind)), w, behind)
  {
    hide IsKeyed, MatchSecretPattern, KeyLength, TokenShape, AssignsAt, RedactKeyed, TokenPattern;
    MarkerIsClean();
    WordIsNoBearer(w);
    TokenExactly(w);
    KeyedExactly(w);
    if IsKeyed(w) { KeyedIsStable(w); }
  }

  // Between the same whitespace stand as many words as before, and each is what
  // the shapes say: the marker behind "Bearer ", the key and the marker where a
  // secret name is given something, the marker for a token, and otherwise the
  // word itself.
  lemma EveryWord(s: string, i: nat)
    requires i < |Words(Parse(s))|
    ensures var d, r := Parse(s), Parse(RedactedText(s));
            && |Words(r)| == |Words(d)| == |Gaps(d)| + 1 && Gaps(r) == Gaps(d)
            && IsRedactionOf(Words(r)[i], Words(d)[i], Behind(Words(d), Gaps(d), false, i))
  {
    hide CleanWord, Token, IsRedactionOf, Behind, Marked, Cleaned, ToText, Words, Gaps;
    var d := Parse(s);
    TextOfParse(s);
    RedactionRedacts(d, false);
    ParseOfText(RedactedDoc(d));
    WhitespaceIsKept(s);
    MarkedWord(d, false, i);
    CleanedWord(Marked(d, false), i);
    WordsAreProper(d, i);
    CleanedIsRedaction(Words(d)[i], Behind(Words(d), Gaps(d), false, i));
  }

  // ----- the report, exactly -----

  // What one word adds to the report.
  ghost function Finding(w: string): seq<string> {
    if exists n :: AssignsAt(w, n) then
      var n :| AssignsAt(w, n);
      ["secret-key:" + SecretName(w[..n]).value]
    else if TokenShape(w) then [ShapeName(w)]
    else []
  }

  // First the tokens behind "Bearer ", then the other words, in order.
  function BearerFindings(ws: seq<string>, gaps: string, first: bool): seq<string>
    requires |ws| == |gaps| + 1
  {
    (if first && ws[0] != "" then ["bearer"] else [])
    + if gaps == "" then []
      else BearerFindings(ws[1..], gaps[1..], gaps[0] == ' ' && EndsInBearer(ws[0]) && !first)
  }

  ghost function WordFindings(ws: seq<string>, gaps: string, first: bool): seq<string>
    requires |ws| == |gaps| + 1
  {
    (if first && ws[0] != "" then [] else Finding(ws[0]))
    + if gaps == "" then []
      else WordFindings(ws[1..], gaps[1..], gaps[0] == ' ' && EndsInBearer(ws[0]) && !first)
  }

  lemma MarkerFindsNothing()
    ensures WordHits(MARKER) == []
  {
    hide MatchSecretPattern, KeyLength, IsSecretKeyName, Trim;
    MarkerIsClean();
    MarkerFacts();
    KeyLengthIs(MARKER, |MARKER|);
  }

  lemma FindingExactly(w: string)
    requires NoWhitespace(w)
    ensures WordHits(w) == Finding(w)
  {
    hide IsKeyed, MatchSecretPattern, KeyLength, TokenShape, TokenPattern, Trim, IsSecretKeyName, SecretName, Lower;
    WordIsNoBearer(w);
    TokenExactly(w);
    KeyedExactly(w);
    var n := KeyLength(w);
    KeyEnds(w);
    TrimWord(w[..n]);
    NameExactly(w[..n]);
  }

  lemma {:induction false} DocReport(d: Doc, first: bool)
    requires Proper(d)
    ensures |Words(d)| == |Gaps(d)| + 1
    ensures MarkedHits(d, first) == BearerFindings(Words(d), Gaps(d), first)
    ensures CleanedHits(Marked(d, first)) == WordFindings(Words(d), Gaps(d), first)
  {
    hide EndsInBearer, EndsBearer, Finding, WordHits, MARKER;
    WordsAndGaps(d);
    MarkerFindsNothing();
    FindingExactly(d.word);
    if d.Chunk? {
      BehindNext(d.word, d.gap, first);
      WordsAndGaps(d.rest);
      assert Words(d)[1..] == Words(d.rest) && Gaps(d)[1..] == Gaps(d.rest);
      DocReport(d.rest, Flags(Token(d.word, first), d.gap));
    }
  }

  // The report of a text is the list of its findings.
  lemma ReportExactly(s: string)
    ensures var ws, gaps := Words(Parse(s)), Gaps(Parse(s));
            |ws| == |gaps| + 1 && TextHits(s) == BearerFindings(ws, gaps, false) + WordFindings(ws, gaps, false)
  {
    hide Words, Gaps, MarkedHits, CleanedHits, Marked, BearerFindings, WordFindings;
    TextOfParse(s);
    DocReport(Parse(s), false);
  }

  // No word behind "Bearer ", and every word harmless.
  ghost predicate HarmlessWords(ws: seq<string>, gaps: string, first: bool)
    requires |ws| == |gaps| + 1
  {
    forall i :: 0 <= i < |ws| ==> (Behind(ws, gaps, first, i) ==> ws[i] == "") && Harmless(ws[i])
  }

  lemma FindingIsEmpty(w: string)
    ensures Finding(w) == [] <==> Harmless(w)
  {
  }

  lemma {:induction false} NoFindings(ws: seq<string>, gaps: string, first: bool)
    requires |ws| == |gaps| + 1
    ensures BearerFindings(ws, gaps, first) + WordFindings(ws, gaps, first) == [] <==> HarmlessWords(ws, gaps, first)
    decreases |gaps|
  {
    hide EndsInBearer, Finding, Harmless;
    FindingIsEmpty(ws[0]);
    if gaps != "" {
      var next := gaps[0] == ' ' && EndsInBearer(ws[0]) && !first;
      NoFindings(ws[1..], gaps[1..], next);
      forall i | 1 <= i < |ws|
        ensures ws[i] == ws[1..][i - 1] && Behind(ws, gaps, first, i) == Behind(ws[1..], gaps[1..], next, i - 1)
      {
        BehindShift(ws, gaps, first, i);
      }
    }
  }

  // A text draws no finding, and so stays as it is, exactly if it has no word
  // behind "Bearer " and only harmless ones.
  lemma NothingFoundExactly(s: string)
    ensures var ws, gaps := Words(Parse(s)), Gaps(Parse(s));
            |ws| == |gaps| + 1 && (TextHits(s) == [] <==> HarmlessWords(ws, gaps, false))
    ensures TextHits(s) == [] ==> RedactedText(s) == s
  {
    hide Words, Gaps, TextHits, HarmlessWords, BearerFindings, WordFindings, RedactedText;
    ReportExactly(s);
    NoFindings(Words(Parse(s)), Gaps(Parse(s)), false);
    if TextHits(s) == [] { EmptyReportMeansUnchanged(s); }
  }

  // ----- JSON values -----

  // "Bearer " and something that is not blank.
  predicate BearerHeader(t: string) {
    && |t| >= 7 && t[..7] == "Bearer "
    && exists i :: 7 <= i < |t| && !IsWhitespace(t[i])
  }

  // A string that is taken for a secret as a whole.
  predicate WholeSecret(s: string) { BearerHeader(Trim(s)) || TokenShape(Trim(s)) }

  // A non-empty string under a secret name.
  predicate NamedSecret(s: string, parentKey: Option<string>) {
    s != "" && parentKey.Some? && SecretName(parentKey.value).Some?
  }

  lemma TrimIsBlank(t: string)
    ensures Trim(t) == "" <==> forall i :: 0 <= i < |t| ==> IsWhitespace(t[i])
  {
    if i :| 0 <= i < |t| && !IsWhitespace(t[i]) { TrimHasContent(t, i); }
  }

  lemma BearerExactly(t: string)
    ensures IsBearer(t) <==> BearerHeader(t)
  {
    hide Trim;
    if |t| >= 7 {
      TrimIsBlank(t[7..]);
      assert forall i :: 7 <= i < |t| ==> t[i] == t[7..][i - 7];
    }
  }

  lemma SecretExactly(s: string)
    ensures MatchSecretPattern(s)
         == if BearerHeader(Trim(s)) then Some("bearer")
            else if TokenShape(Trim(s)) then Some(ShapeName(Trim(s))) else None
  {
    hide Trim, IsBearer, BearerHeader, TokenPattern, TokenShape;
    BearerExactly(Trim(s));
    TokenExactly(Trim(s));
  }

  // One string: the marker if it stands under a secret name or is a secret as a
  // whole, and otherwise its text redacted word by word.
  lemma StringExactly(s: string, parentKey: Option<string>)
    ensures RedactedString(s, parentKey)
         == if NamedSecret(s, parentKey) || WholeSecret(s) then "[REDACTED]" else RedactedText(s)
    ensures StringHits(s, parentKey)
         == if NamedSecret(s, parentKey) then ["secret-key:" + SecretName(parentKey.value).value]
            else if BearerHeader(Trim(s)) then ["bearer"]
            else if TokenShape(Trim(s)) then [ShapeName(Trim(s))]
            else TextHits(s)
  {
    hide Trim, BearerHeader, TokenShape, MatchSecretPattern, IsSecretKeyName, SecretName, RedactedText, TextHits, Lower;
    SecretExactly(s);
    if parentKey.Some? { NameExactly(parentKey.value); }
  }

  // Nothing leaks at any depth: under a secret name stands the marker or
  // nothing; elsewhere no string is a secret as a whole, and no word leaks.
  ghost predicate LeakFree(v: Json, parentKey: Option<string>)
    decreases v
  {
    match v
    case Str(s) =>
      && (NamedSecret(s, parentKey) ==> s == "[REDACTED]") && !WholeSecret(s)
      && forall p, q :: WordAt(s, p, q) ==> LeaksNothing(s[p..q])
    case Arr(items) => forall i :: 0 <= i < |items| ==> LeakFree(items[i], None)
    case Obj(fields) => forall i :: 0 <= i < |fields| ==> LeakFree(fields[i].value, Some(fields[i].key))
    case _ => true
  }

  lemma {:induction false} NoSecretsMeansLeakFree(v: Json, parentKey: Option<string>)
    requires NoSecrets(v, parentKey)
    ensures LeakFree(v, parentKey)
    decreases v
  {
    match v
    case Str(s) => StringIsLeakFree(s, parentKey);
    case Arr(items) =>
      forall i | 0 <= i < |items| ensures LeakFree(items[i], None) { NoSecretsMeansLeakFree(items[i], None); }
    case Obj(fields) =>
      forall i | 0 <= i < |fields| ensures LeakFree(fields[i].value, Some(fields[i].key)) {
        NoSecretsMeansLeakFree(fields[i].value, Some(fields[i].key));
      }
    case _ =>
  }

  lemma StringIsLeakFree(s: string, parentKey: Option<string>)
    requires NoSecrets(Str(s), parentKey)
    ensures LeakFree(Str(s), parentKey)
  {
    hide Trim, BearerHeader, TokenShape, MatchSecretPattern, IsSecretKeyName, SecretName, LeaksNothing, IsClean, Words,
      Parse, ToText;
    SecretExactly(s);
    if parentKey.Some? { NameExactly(parentKey.value); }
    TextOfParse(s);
    forall p, q | WordAt(s, p, q) ensures LeaksNothing(s[p..q]) {
      var i := WordIsListed(Parse(s), p, q);
      CleanLeaksNothing(s[p..q]);
    }
  }

  // No redacted value leaks.
  lemma NothingLeaksInside(v: Json, parentKey: Option<string>)
    ensures LeakFree(RedactedValue(v, parentKey), parentKey)
  {
    hide NoSecrets, LeakFree, RedactedValue;
    NoSecretsRemain(v, parentKey);
    NoSecretsMeansLeakFree(RedactedValue(v, parentKey), parentKey);
  }

  // Nothing under a secret name, no secret string, no finding in any text.
  ghost predicate HarmlessValue(v: Json, parentKey: Option<string>)
    decreases v
  {
    match v
    case Str(s) =>
      var ws, gaps := Words(Parse(s)), Gaps(Parse(s));
      !NamedSecret(s, parentKey) && !WholeSecret(s) && |ws| == |gaps| + 1 && HarmlessWords(ws, gaps, false)
    case Arr(items) => forall i :: 0 <= i < |items| ==> HarmlessValue(items[i], None)
    case Obj(fields) => forall i :: 0 <= i < |fields| ==> HarmlessValue(fields[i].value, Some(fields[i].key))
    case _ => true
  }

  // A value draws no finding, and so stays as it is, exactly if it is harmless.
  lemma HarmlessExactly(v: Json, parentKey: Option<string>)
    ensures Hits(v, parentKey) == [] <==> HarmlessValue(v, parentKey)
    ensures HarmlessValue(v, parentKey) ==> RedactedValue(v, parentKey) == v
  {
    hide HarmlessValue, Hits, RedactedValue;
    if Hits(v, parentKey) == [] {
      NoHitsMeansHarmless(v, parentKey);
      NoHitsUnchanged(v, parentKey);
    }
    if HarmlessValue(v, parentKey) {
      HarmlessMeansNoHits(v, parentKey);
      NoHitsUnchanged(v, parentKey);
    }
  }

  lemma StringHarmless(s: string, parentKey: Option<string>)
    ensures StringHits(s, parentKey) == [] <==> HarmlessValue(Str(s), parentKey)
  {
    hide Trim, BearerHeader, TokenShape, SecretName, TextHits, Words, Gaps, Parse, HarmlessWords, StringHits;
    StringExactly(s, parentKey);
    NothingFoundExactly(s);
  }

  lemma {:induction false} NoHitsMeansHarmless(v: Json, parentKey: Option<string>)
    requires Hits(v, parentKey) == []
    ensures HarmlessValue(v, parentKey)
    decreases v
  {
    hide StringHits, HarmlessWords, WholeSecret, NamedSecret;
    match v {
      case Str(s) => StringHarmless(s, parentKey);
      case Arr(items) =>
        forall i | 0 <= i < |items| ensures HarmlessValue(items[i], None) {
          NoChildHits(v, |items|, i);
          NoHitsMeansHarmless(items[i], None);
        }
      case Obj(fields) =>
        forall i | 0 <= i < |fields| ensures HarmlessValue(fields[i].value, Some(fields[i].key)) {
          NoChildHits(v, |fields|, i);
          NoHitsMeansHarmless(fields[i].value, Some(fields[i].key));
        }
      case _ =>
    }
  }

  lemma {:induction false} HarmlessMeansNoHits(v: Json, parentKey: Option<string>)
    requires HarmlessValue(v, parentKey)
    ensures Hits(v, parentKey) == []
    decreases v, 1, 0
  {
    hide StringHits, HarmlessWords, WholeSecret, NamedSecret;
    match v {
      case Str(s) => StringHarmless(s, parentKey);
      case Arr(items) => HarmlessChildren(v, |items|);
      case Obj(fields) => HarmlessChildren(v, |fields|);
      case _ =>
    }
  }

  lemma {:induction false} HarmlessChildren(v: Json, k: nat)
    requires ((v.Arr? && k <= |v.items|) || (v.Obj? && k <= |v.fields|)) && HarmlessValue(v, None)
    ensures ChildHits(v, k) == []
    decreases v, 0, k
  {
    hide Hits;
    if k > 0 {
      HarmlessChildren(v, k - 1);
      if v.Arr? {
        HarmlessMeansNoHits(v.items[k - 1], None);
      } else {
        HarmlessMeansNoHits(v.fields[k - 1].value, Some(v.fields[k - 1].key));
      }
    }
  }
}
