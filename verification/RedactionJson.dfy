// Redaction of JSON values: strings under secret keys, strings that are
// secrets, and secrets embedded in strings.
module RedactionJson {
  import opened Types
  import opened Text
  import opened Redaction
  import opened RedactionLaws

  // ----- a text does not become a secret by being redacted -----

  predicate Blank(d: Doc) { d.word == "" && (d.Chunk? ==> Blank(d.rest)) }

  // The text from its first non-empty word on.
  function Lead(d: Doc): Doc {
    if d.Chunk? && d.word == "" then Lead(d.rest) else d
  }

  lemma TrimDropsSpace(c: char, t: string)
    requires IsWhitespace(c)
    ensures Trim("" + [c] + t) == Trim(t)
  {
    assert ("" + [c] + t)[1..] == t;
  }

  lemma {:induction false} TrimOfLead(d: Doc)
    requires Proper(d)
    ensures Proper(Lead(d)) && Trim(ToText(d)) == Trim(ToText(Lead(d)))
    ensures Blank(d) <==> Lead(d) == End("")
    ensures Lead(d).word == "" ==> Lead(d).End?
  {
    if d.Chunk? && d.word == "" {
      TrimDropsSpace(d.gap, ToText(d.rest));
      TrimOfLead(d.rest);
    }
  }

  // A text is blank exactly when nothing of it is left after trimming.
  lemma {:induction false} BlankText(d: Doc)
    requires Proper(d) && Blank(d)
    ensures forall i :: 0 <= i < |ToText(d)| ==> IsWhitespace(ToText(d)[i])
  {
    if d.Chunk? { BlankText(d.rest); }
  }

  lemma {:induction false} NonBlankText(d: Doc) returns (i: nat)
    requires Proper(d) && !Blank(d)
    ensures i < |ToText(d)| && !IsWhitespace(ToText(d)[i])
  {
    if d.word != "" {
      i := 0;
      assert ToText(d)[0] == d.word[0];
    } else {
      var j := NonBlankText(d.rest);
      i := j + 1;
      assert ToText(d) == [d.gap] + ToText(d.rest);
    }
  }

  lemma TrimFrom(s: string)
    requires s != "" && !IsWhitespace(s[0])
    ensures Trim(s) == TrimEnd(s)
  {
  }

  lemma TakeChar(s: string, n: nat)
    requires 0 < n <= |s|
    ensures s[..n][n - 1] == s[n - 1]
  {
  }

  lemma DropChar(s: string, m: nat, i: nat)
    requires m <= i < |s|
    ensures s[m..][i - m] == s[i]
  {
  }

  lemma TrimEndIs(s: string, k: nat)
    requires 0 < k <= |s| && !IsWhitespace(s[k - 1]) && forall i :: k <= i < |s| ==> IsWhitespace(s[i])
    ensures TrimEnd(s) == s[..k]
  {
    if TrimEnd(s) != "" { TakeChar(s, |TrimEnd(s)|); }
  }

  lemma TextParts(d: Doc)
    requires Proper(d) && d.word != ""
    ensures var s, n := ToText(d), |d.word|;
            && n <= |s| && s[..n] == d.word && s[0] == d.word[0] && s[n - 1] == d.word[n - 1]
            && !IsWhitespace(s[0]) && !IsWhitespace(s[n - 1])
            && (d.End? ==> |s| == n) && (d.Chunk? ==> n < |s| && s[n] == d.gap && s[n + 1..] == ToText(d.rest))
  {
    var s, n := ToText(d), |d.word|;
    assert s[..n] == d.word;
    assert s[0] == s[..n][0] && s[n - 1] == s[..n][n - 1];
  }

  // The trimmed text of a document that starts with a word: the word alone
  // when nothing but whitespace follows ...
  lemma HeadAlone(d: Doc)
    requires Proper(d) && d.word != "" && (d.Chunk? ==> Blank(d.rest))
    ensures Trim(ToText(d)) == d.word
  {
    hide ToText;
    var s, n := ToText(d), |d.word|;
    TextParts(d);
    TrimFrom(s);
    if d.Chunk? {
      BlankText(d.rest);
      forall i | n <= i < |s| ensures IsWhitespace(s[i]) {
        if i > n { assert s[i] == s[n + 1..][i - n - 1]; }
      }
    }
    TrimEndIs(s, n);
  }

  // ... and the word, its gap and more when another word follows.
  lemma HeadFollowed(d: Doc)
    requires Proper(d) && d.word != "" && d.Chunk? && !Blank(d.rest)
    ensures var t, n := Trim(ToText(d)), |d.word|;
            n + 1 < |t| && t[..n] == d.word && t[n] == d.gap && !IsWhitespace(t[|t| - 1])
  {
    hide ToText;
    var s, n := ToText(d), |d.word|;
    TextParts(d);
    TrimFrom(s);
    var i := NonBlankText(d.rest);
    assert s[n + 1 + i] == s[n + 1..][i];
    var t := TrimEnd(s);
    assert |t| > n + 1 + i;
    assert t[..n] == s[..n];
  }

  lemma TrimHasContent(t: string, i: nat)
    requires i < |t| && !IsWhitespace(t[i])
    ensures Trim(t) != ""
  {
    var a := TrimStart(t);
    assert i >= |t| - |a|;
    assert a[i - (|t| - |a|)] == t[i];
  }

  // A whole text is a bearer header exactly when it starts with the word
  // "Bearer", a space, and something else to come.
  predicate BearerDoc(d: Doc) { d.word == BEARER && d.Chunk? && d.gap == ' ' && !Blank(d.rest) }

  lemma BearerStarts(t: string)
    requires IsBearer(t)
    ensures |t| >= 7 && t[..6] == BEARER && t[6] == ' '
  {
    hide Trim;
    assert t[..7][..6] == t[..6] && t[..7][6] == t[6];
    assert NEEDLE[..6] == BEARER;
  }

  lemma BearerIsDoc(d: Doc)
    requires Proper(d) && d.word != "" && IsBearer(Trim(ToText(d)))
    ensures BearerDoc(d)
  {
    hide Trim, ToText;
    var t, n := Trim(ToText(d)), |d.word|;
    BearerStarts(t);
    if d.Chunk? && !Blank(d.rest) {
      HeadFollowed(d);
      SameWord(t, d.word, n);
    } else {
      HeadAlone(d);
      assert false;
    }
  }

  // Two descriptions of the first word of t agree.
  lemma SameWord(t: string, w: string, n: nat)
    requires n == |w| && n < |t| && t[..n] == w && NoWhitespace(w) && IsWhitespace(t[n])
    requires |t| >= 7 && t[..6] == BEARER && t[6] == ' '
    ensures w == BEARER
  {
    WordLengthIs(t, n);
    WordLengthIs(t, 6);
  }

  lemma DocIsBearer(d: Doc)
    requires Proper(d) && BearerDoc(d)
    ensures IsBearer(Trim(ToText(d)))
  {
    hide Trim, ToText;
    var t := Trim(ToText(d));
    HeadFollowed(d);
    assert t[..7] == t[..6] + [t[6]] == NEEDLE;
    assert t[7..][|t| - 8] == t[|t| - 1];
    TrimHasContent(t[7..], |t| - 8);
  }

  lemma {:induction false} RunAtLeast(s: string, p: char -> bool, k: nat)
    requires k <= |s| && forall i :: 0 <= i < k ==> p(s[i])
    ensures RunLength(s, p) >= k
  {
    if k > 0 { RunAtLeast(s[1..], p, k - 1); }
  }

  // A prefixed run lies wholly inside the first word.
  lemma RunInWord(t: string, n: nat, prefix: string, p: char -> bool, k: nat)
    requires n < |t| && IsWhitespace(t[n]) && NoWhitespace(prefix) && forall c: char :: p(c) ==> !IsWhitespace(c)
    requires StartsWith(t, prefix) && RunLength(t[|prefix|..], p) >= k
    ensures StartsWith(t[..n], prefix) && RunLength(t[..n][|prefix|..], p) >= k
  {
    var m := |prefix|;
    if n < m { PrefixChar(t, prefix, n); }
    if m <= n { DropChar(t, m, n); }
    assert t[..n][..m] == t[..m];
    RunAtLeast(t[..n][m..], p, k);
  }

  lemma TokenInWord(t: string, n: nat)
    requires n < |t| && IsWhitespace(t[n]) && TokenPattern(t[..n]).None?
    ensures TokenPattern(t).None?
  {
    if StartsWith(t, "sk-") && RunLength(t[3..], IsAlphanumeric) >= 8 { RunInWord(t, n, "sk-", IsAlphanumeric, 8); }
    if StartsWith(t, "AKIA") && RunLength(t[4..], IsAwsChar) >= 12 { RunInWord(t, n, "AKIA", IsAwsChar, 12); }
    assert !IsHexDigit(t[n]) && !IsBase64Char(t[n]);
  }

  // If the first word of a text is no token, the trimmed text is none.
  lemma TokenText(d: Doc)
    requires Proper(d) && d.word != "" && TokenPattern(d.word).None?
    ensures TokenPattern(Trim(ToText(d))).None?
  {
    hide TokenPattern, Trim, ToText;
    if d.Chunk? && !Blank(d.rest) {
      HeadFollowed(d);
      TokenInWord(Trim(ToText(d)), |d.word|);
    } else {
      HeadAlone(d);
    }
  }

  // ----- redacting a text that is not a secret as a whole -----

  lemma EmptyWord()
    ensures CleanWord("") == "" && !EndsBearer("")
  {
    hide MatchSecretPattern, IsKeyed;
    EmptyIsNoSecret();
  }

  // Redaction keeps which words are empty, and where the text begins.
  lemma {:induction false} RedactionKeepsBlanks(d: Doc, flag: bool)
    requires Proper(d)
    ensures Blank(Cleaned(Marked(d, flag))) <==> Blank(d)
  {
    hide CleanWord, EndsBearer, Settled, Token;
    TokenSettles(d.word, flag);
    if d.Chunk? { RedactionKeepsBlanks(d.rest, Flags(Token(d.word, flag), d.gap)); }
  }

  lemma {:induction false} RedactionKeepsLead(d: Doc)
    requires Proper(d)
    ensures Lead(Cleaned(Marked(d, false))) == Cleaned(Marked(Lead(d), false))
  {
    hide CleanWord, EndsBearer, Settled;
    TokenSettles(d.word, false);
    EmptyWord();
    if d.Chunk? && d.word == "" { RedactionKeepsLead(d.rest); }
  }

  lemma WordKept(w: string, r: string)
    requires Settled(w, r) && r == BEARER
    ensures w == BEARER
  {
    hide CleanWord, MatchSecretPattern;
  }

  lemma HeadDoesNotBecomeSecret(d: Doc)
    requires Proper(d) && d.word != "" && !IsBearer(Trim(ToText(d)))
    ensures MatchSecretPattern(ToText(Cleaned(Marked(d, false)))).None?
  {
    hide CleanWord, TokenPattern, Trim, IsBearer, ToText, EndsBearer;
    var r := Cleaned(Marked(d, false));
    RedactionRedacts(d, false);
    TokenSettles(d.word, false);
    WordIsNoBearer(r.word);
    TokenText(r);
    if IsBearer(Trim(ToText(r))) {
      BearerIsDoc(r);
      WordKept(d.word, r.word);
      RedactionKeepsBlanks(d.rest, Flags(d.word, d.gap));
      DocIsBearer(d);
    }
  }

  // A text that is no secret as a whole does not become one by being redacted.
  lemma RedactionMakesNoSecret(s: string)
    requires MatchSecretPattern(s).None?
    ensures MatchSecretPattern(RedactedText(s)).None?
  {
    hide MatchSecretPattern, Trim, ToText, Marked, Cleaned, Parse;
    var d := Parse(s);
    TextOfParse(s);
    RedactionRedacts(d, false);
    TrimOfLead(d);
    TrimOfLead(RedactedDoc(d));
    RedactionKeepsLead(d);
    LeadMakesNoSecret(Lead(d), s);
    SameTrimSamePattern(RedactedText(s), ToText(Cleaned(Marked(Lead(d), false))));
  }

  lemma SameTrimSamePattern(a: string, b: string)
    requires Trim(a) == Trim(b)
    ensures MatchSecretPattern(a) == MatchSecretPattern(b)
  {
    hide Trim, TokenPattern, IsBearer;
  }

  lemma LeadMakesNoSecret(l: Doc, s: string)
    requires Proper(l) && (l.word == "" ==> l.End?) && Trim(s) == Trim(ToText(l)) && MatchSecretPattern(s).None?
    ensures MatchSecretPattern(ToText(Cleaned(Marked(l, false)))).None?
  {
    hide Trim, TokenPattern, IsBearer, CleanWord, EndsBearer;
    if l.word == "" {
      EmptyWord();
      EmptyIsNoSecret();
    } else {
      HeadDoesNotBecomeSecret(l);
    }
  }

  // ----- JSON values -----

  datatype Field = Field(key: string, value: Json)

  datatype Json =
    | Null
    | Bool(b: bool)
    | Number(text: string)
    | Str(s: string)
    | Arr(items: seq<Json>)
    | Obj(fields: seq<Field>)

  predicate UnderSecretKey(s: string, parentKey: Option<string>) {
    parentKey.Some? && IsSecretKeyName(parentKey.value) && s != ""
  }

  function RedactedString(s: string, parentKey: Option<string>): string {
    if UnderSecretKey(s, parentKey) || MatchSecretPattern(s).Some? then MARKER else RedactedText(s)
  }

  function StringHits(s: string, parentKey: Option<string>): seq<string> {
    if UnderSecretKey(s, parentKey) then ["secret-key:" + Lower(parentKey.value)]
    else if MatchSecretPattern(s).Some? then [MatchSecretPattern(s).value]
    else TextHits(s)
  }

  function RedactedValue(v: Json, parentKey: Option<string>): Json
    decreases v
  {
    match v
    case Str(s) => Str(RedactedString(s, parentKey))
    case Arr(items) => Arr(seq(|items|, i requires 0 <= i < |items| => RedactedValue(items[i], None)))
    case Obj(fields) =>
      Obj(seq(|fields|, i requires 0 <= i < |fields| =>
              Field(fields[i].key, RedactedValue(fields[i].value, Some(fields[i].key)))))
    case _ => v
  }

  // The findings of the first k children, in order.
  function ChildHits(v: Json, k: nat): seq<string>
    requires (v.Arr? && k <= |v.items|) || (v.Obj? && k <= |v.fields|)
    decreases v, k
  {
    if k == 0 then []
    else
      ChildHits(v, k - 1)
      + (if v.Arr? then Hits(v.items[k - 1], None) else Hits(v.fields[k - 1].value, Some(v.fields[k - 1].key)))
  }

  function Hits(v: Json, parentKey: Option<string>): seq<string>
    decreases v
  {
    match v
    case Str(s) => StringHits(s, parentKey)
    case Arr(items) => ChildHits(v, |items|)
    case Obj(fields) => ChildHits(v, |fields|)
    case _ => []
  }

  method RedactInnerDeep(v: Json, parentKey: Option<string>, report: RedactionReport) returns (r: Json)
    modifies report
    ensures r == RedactedValue(v, parentKey) && Reports(report, Hits(v, parentKey))
    decreases v, 1
  {
    hide RedactedString, StringHits;
    match v {
      case Str(s) =>
        var out := RedactString(s, parentKey, report);
        r := Str(out);
      case Arr(_) => r := RedactItems(v, report);
      case Obj(_) => r := RedactFields(v, report);
      case _ => r := v;
    }
  }

  method RedactItems(v: Json, report: RedactionReport) returns (r: Json)
    requires v.Arr?
    modifies report
    ensures r == RedactedValue(v, None) && Reports(report, Hits(v, None))
    decreases v, 0
  {
    hide RedactedString, StringHits;
    var out: seq<Json> := [];
    for i := 0 to |v.items|
      invariant |out| == i && forall k :: 0 <= k < i ==> out[k] == RedactedValue(v.items[k], None)
      invariant Reports(report, ChildHits(v, i))
    {
      var item := RedactInnerDeep(v.items[i], None, report);
      out := out + [item];
    }
    r := Arr(out);
  }

  method RedactFields(v: Json, report: RedactionReport) returns (r: Json)
    requires v.Obj?
    modifies report
    ensures r == RedactedValue(v, None) && Reports(report, Hits(v, None))
    decreases v, 0
  {
    hide RedactedString, StringHits;
    var out: seq<Field> := [];
    for i := 0 to |v.fields|
      invariant |out| == i
      invariant forall k :: 0 <= k < i ==>
                out[k] == Field(v.fields[k].key, RedactedValue(v.fields[k].value, Some(v.fields[k].key)))
      invariant Reports(report, ChildHits(v, i))
    {
      var value := RedactInnerDeep(v.fields[i].value, Some(v.fields[i].key), report);
      out := out + [Field(v.fields[i].key, value)];
    }
    r := Obj(out);
  }

  method RedactString(s: string, parentKey: Option<string>, report: RedactionReport) returns (out: string)
    modifies report
    ensures out == RedactedString(s, parentKey) && Reports(report, StringHits(s, parentKey))
  {
    hide IsSecretKeyName, MatchSecretPattern, RedactedText, TextHits, Lower;
    if parentKey.Some? && IsSecretKeyName(parentKey.value) && s != "" {
      report.Add("secret-key:" + Lower(parentKey.value));
      return MARKER;
    }
    match MatchSecretPattern(s) {
      case Some(pattern) =>
        report.Add(pattern);
        out := MARKER;
      case None => out := RedactText(s, report);
    }
  }

  // ----- what holds of every redacted value -----

  lemma EmptyTextIsFixed()
    ensures RedactedText("") == ""
  {
    hide CleanWord;
    EmptyWord();
  }

  lemma MarkerTextIsFixed()
    ensures RedactedText(MARKER) == MARKER
  {
    hide CleanWord, MARKER;
    MarkerFacts();
    MarkerIsClean();
    ParseOfText(End(MARKER));
    assert ToText(End(MARKER)) == MARKER;
  }

  lemma StringIsIdempotent(s: string, parentKey: Option<string>)
    ensures var r := RedactedString(s, parentKey); RedactedString(r, parentKey) == r
  {
    hide MatchSecretPattern, RedactedText, IsSecretKeyName, MARKER;
    MarkerIsClean();
    MarkerFacts();
    MarkerTextIsFixed();
    if !UnderSecretKey(s, parentKey) && MatchSecretPattern(s).None? {
      RedactionMakesNoSecret(s);
      RedactionIsIdempotent(s);
      EmptyTextIsFixed();
    }
  }

  // Redacting a value twice is redacting it once.
  lemma {:induction false} ValueIsIdempotent(v: Json, parentKey: Option<string>)
    ensures RedactedValue(RedactedValue(v, parentKey), parentKey) == RedactedValue(v, parentKey)
    decreases v
  {
    hide RedactedString;
    match v {
      case Str(s) => StringIsIdempotent(s, parentKey);
      case Arr(items) =>
        forall i | 0 <= i < |items|
          ensures RedactedValue(RedactedValue(items[i], None), None) == RedactedValue(items[i], None) {
          ValueIsIdempotent(items[i], None);
        }
      case Obj(fields) =>
        forall i | 0 <= i < |fields|
          ensures var f := fields[i];
                  RedactedValue(RedactedValue(f.value, Some(f.key)), Some(f.key)) == RedactedValue(f.value, Some(f.key))
        {
          ValueIsIdempotent(fields[i].value, Some(fields[i].key));
        }
      case _ =>
    }
  }

  // The same shape: only strings may differ.
  predicate SameShape(a: Json, b: Json)
    decreases a
  {
    match (a, b)
    case (Str(_), Str(_)) => true
    case (Arr(xs), Arr(ys)) => |xs| == |ys| && forall i :: 0 <= i < |xs| ==> SameShape(xs[i], ys[i])
    case (Obj(xs), Obj(ys)) =>
      |xs| == |ys| && forall i :: 0 <= i < |xs| ==> xs[i].key == ys[i].key && SameShape(xs[i].value, ys[i].value)
    case (_, _) => a == b
  }

  lemma {:induction false} ShapeIsKept(v: Json, parentKey: Option<string>)
    ensures SameShape(v, RedactedValue(v, parentKey))
    decreases v
  {
    hide RedactedString;
    match v {
      case Str(_) =>
      case Arr(items) =>
        forall i | 0 <= i < |items| ensures SameShape(items[i], RedactedValue(items[i], None)) {
          ShapeIsKept(items[i], None);
        }
      case Obj(fields) =>
        forall i | 0 <= i < |fields|
          ensures SameShape(fields[i].value, RedactedValue(fields[i].value, Some(fields[i].key))) {
          ShapeIsKept(fields[i].value, Some(fields[i].key));
        }
      case _ =>
    }
  }

  // No string left at any depth is a secret: under a secret key stands only
  // the marker or nothing, elsewhere no string or word of a string matches.
  predicate NoSecrets(v: Json, parentKey: Option<string>)
    decreases v
  {
    match v
    case Str(s) =>
      && (UnderSecretKey(s, parentKey) ==> s == MARKER)
      && MatchSecretPattern(s).None?
      && forall i :: 0 <= i < |Words(Parse(s))| ==> IsClean(Words(Parse(s))[i])
    case Arr(items) => forall i :: 0 <= i < |items| ==> NoSecrets(items[i], None)
    case Obj(fields) => forall i :: 0 <= i < |fields| ==> NoSecrets(fields[i].value, Some(fields[i].key))
    case _ => true
  }

  lemma StringHasNoSecrets(s: string, parentKey: Option<string>)
    ensures NoSecrets(Str(RedactedString(s, parentKey)), parentKey)
  {
    hide MatchSecretPattern, IsClean, RedactedText, IsSecretKeyName, Words, Parse, MARKER;
    MarkerIsClean();
    MarkerTextIsFixed();
    if !UnderSecretKey(s, parentKey) && MatchSecretPattern(s).None? {
      RedactionMakesNoSecret(s);
      EmptyTextIsFixed();
      forall i | 0 <= i < |Words(Parse(RedactedText(s)))| ensures IsClean(Words(Parse(RedactedText(s)))[i]) {
        NoSecretWordRemains(s, i);
      }
    } else {
      forall i | 0 <= i < |Words(Parse(RedactedText(MARKER)))| ensures IsClean(Words(Parse(RedactedText(MARKER)))[i]) {
        NoSecretWordRemains(MARKER, i);
      }
    }
  }

  lemma {:induction false} NoSecretsRemain(v: Json, parentKey: Option<string>)
    ensures NoSecrets(RedactedValue(v, parentKey), parentKey)
    decreases v
  {
    hide RedactedString;
    match v {
      case Str(s) => StringHasNoSecrets(s, parentKey);
      case Arr(items) =>
        forall i | 0 <= i < |items| ensures NoSecrets(RedactedValue(items[i], None), None) {
          NoSecretsRemain(items[i], None);
        }
      case Obj(fields) =>
        forall i | 0 <= i < |fields|
          ensures NoSecrets(RedactedValue(fields[i].value, Some(fields[i].key)), Some(fields[i].key)) {
          NoSecretsRemain(fields[i].value, Some(fields[i].key));
        }
      case _ =>
    }
  }

  // An empty report means an unchanged value.
  lemma {:induction false} NoHitsUnchanged(v: Json, parentKey: Option<string>)
    requires Hits(v, parentKey) == []
    ensures RedactedValue(v, parentKey) == v
    decreases v
  {
    hide RedactedText, MatchSecretPattern, TextHits, IsSecretKeyName, Lower;
    match v {
      case Str(s) => if TextHits(s) == [] { EmptyReportMeansUnchanged(s); }
      case Arr(items) =>
        forall i | 0 <= i < |items| ensures RedactedValue(items[i], None) == items[i] {
          NoChildHits(v, |items|, i);
          NoHitsUnchanged(items[i], None);
        }
      case Obj(fields) =>
        forall i | 0 <= i < |fields| ensures RedactedValue(fields[i].value, Some(fields[i].key)) == fields[i].value {
          NoChildHits(v, |fields|, i);
          NoHitsUnchanged(fields[i].value, Some(fields[i].key));
        }
      case _ =>
    }
  }

  lemma {:induction false} NoChildHits(v: Json, k: nat, i: nat)
    requires ((v.Arr? && k <= |v.items|) || (v.Obj? && k <= |v.fields|)) && i < k && ChildHits(v, k) == []
    ensures if v.Arr? then Hits(v.items[i], None) == [] else Hits(v.fields[i].value, Some(v.fields[i].key)) == []
    decreases k
  {
    if i < k - 1 { NoChildHits(v, k - 1, i); }
  }
}
