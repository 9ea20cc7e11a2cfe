// Idempotency keys in their normal form `scope:id`.
module Idempotency {
  import opened Types
  import opened Text

  const MAX_KEY_LEN: nat := 128
  const DEFAULT_SCOPE: string := "default"

  // Lengths are counted in bytes of UTF-8.
  function CharBytes(c: char): nat {
    var n := c as int;
    if n < 0x80 then 1 else if n < 0x800 then 2 else if n < 0x10000 then 3 else 4
  }

  function ByteLength(s: string): nat {
    if s == "" then 0 else ByteLength(s[..|s| - 1]) + CharBytes(s[|s| - 1])
  }

  predicate IsIdChar(c: char) { IsAlphanumeric(c) || c == '-' || c == '_' || c == '.' || c == ':' || c == '@' }

  // The position of the first colon, or the length if there is none.
  function ColonAt(s: string): (n: nat)
    ensures n <= |s| && (forall i :: 0 <= i < n ==> s[i] != ':') && (n < |s| ==> s[n] == ':')
  {
    if s == "" || s[0] == ':' then 0 else 1 + ColonAt(s[1..])
  }

  predicate IsScoped(t: string) { ColonAt(t) < |t| }

  function ScopeOf(t: string): string {
    if IsScoped(t) then Lower(Trim(t[..ColonAt(t)])) else DEFAULT_SCOPE
  }

  function IdOf(t: string): string {
    if IsScoped(t) then Trim(t[ColonAt(t) + 1..]) else t
  }

  function NormalizeKey(raw: string): Result<string, ActionError> {
    var t := Trim(raw);
    if t == "" then Err(Proof("idempotency_key must not be empty"))
    else if ByteLength(t) > MAX_KEY_LEN then Err(Proof("idempotency_key too long"))
    else if exists i :: 0 <= i < |IdOf(t)| && !IsIdChar(IdOf(t)[i]) then Err(Proof("invalid character"))
    else Ok(ScopeOf(t) + ":" + IdOf(t))
  }

  // Letters, digits and five signs.
  predicate AllowedId(id: string) {
    forall i :: 0 <= i < |id| ==>
      || '0' <= id[i] <= '9' || 'a' <= id[i] <= 'z' || 'A' <= id[i] <= 'Z'
      || id[i] == '-' || id[i] == '_' || id[i] == '.' || id[i] == ':' || id[i] == '@'
  }

  // The first colon of a text.
  predicate FirstColon(t: string, n: int) {
    0 <= n < |t| && t[n] == ':' && forall i :: 0 <= i < n ==> t[i] != ':'
  }

  // A key is accepted exactly if, trimmed, it is not empty, has at most 128
  // bytes, and its id -- what stands behind the first colon, trimmed, or all of
  // it if there is none -- has allowed characters only; and then its normal form
  // is the lower-cased scope, or the default one, a colon and the id.
  lemma AcceptedExactly(raw: string)
    ensures var t := Trim(raw);
            NormalizeKey(raw).Ok? <==>
              && t != "" && ByteLength(t) <= 128
              && (forall n :: FirstColon(t, n) ==> AllowedId(Trim(t[n + 1..])))
              && ((forall n :: !FirstColon(t, n)) ==> AllowedId(t))
    ensures var t := Trim(raw);
            NormalizeKey(raw).Ok? ==>
              && (forall n :: FirstColon(t, n) ==>
                    NormalizeKey(raw) == Ok(Lower(Trim(t[..n])) + ":" + Trim(t[n + 1..])))
              && ((forall n :: !FirstColon(t, n)) ==> NormalizeKey(raw) == Ok("default:" + t))
    ensures NormalizeKey(raw).Err? ==> NormalizeKey(raw).error.Proof?
  {
    hide Trim, Lower, ByteLength;
    var t := Trim(raw);
    assert IsScoped(t) ==> FirstColon(t, ColonAt(t));
    assert forall n :: FirstColon(t, n) ==> n == ColonAt(t);
    assert "default" + ":" + t == "default:" + t;
  }

  // ----- what trimming and lower-casing do to lengths and colons -----

  lemma {:induction false} ByteLengthConcat(a: string, b: string)
    ensures ByteLength(a + b) == ByteLength(a) + ByteLength(b)
  {
    if b == "" {
      assert a + b == a;
    } else {
      assert (a + b)[..|a + b| - 1] == a + b[..|b| - 1];
      ByteLengthConcat(a, b[..|b| - 1]);
    }
  }

  lemma ByteLengthOfSlice(s: string, i: nat, j: nat)
    requires i <= j <= |s|
    ensures ByteLength(s[i..j]) <= ByteLength(s)
  {
    assert s == s[..i] + (s[i..j] + s[j..]);
    ByteLengthConcat(s[..i], s[i..j] + s[j..]);
    ByteLengthConcat(s[i..j], s[j..]);
  }

  lemma TrimIsSlice(s: string) returns (i: nat, j: nat)
    ensures i <= j <= |s| && Trim(s) == s[i..j]
  {
    hide TrimStart, TrimEnd;
    var a := TrimStart(s);
    i := |s| - |a|;
    j := i + |TrimEnd(a)|;
    assert s[i..j] == s[i..][..j - i];
  }

  lemma ByteLengthOfTrim(s: string)
    ensures ByteLength(Trim(s)) <= ByteLength(s)
  {
    var i, j := TrimIsSlice(s);
    ByteLengthOfSlice(s, i, j);
  }

  lemma {:induction false} ByteLengthOfLower(s: string)
    ensures ByteLength(Lower(s)) == ByteLength(s)
  {
    if s != "" {
      var n := |s| - 1;
      ByteLengthOfLower(s[..n]);
      assert Lower(s)[..n] == Lower(s[..n]);
    }
  }

  predicate Trimmed(s: string) { s != "" ==> !IsWhitespace(s[0]) && !IsWhitespace(s[|s| - 1]) }

  lemma TrimmedIsTrim(s: string)
    ensures Trimmed(s) <==> Trim(s) == s
    ensures Trimmed(Trim(s))
  {
    var a := TrimStart(s);
    var b := TrimEnd(a);
    assert b != "" ==> b[0] == a[0];
  }

  lemma LowerKeepsTrimmed(s: string)
    requires Trimmed(s)
    ensures Trimmed(Lower(s))
  {
  }

  predicate ColonFree(s: string) { forall i :: 0 <= i < |s| ==> s[i] != ':' }

  lemma ScopeIsPlain(t: string)
    ensures ColonFree(ScopeOf(t)) && Trimmed(ScopeOf(t)) && Lower(ScopeOf(t)) == ScopeOf(t)
  {
    if IsScoped(t) {
      var left := t[..ColonAt(t)];
      var i, j := TrimIsSlice(left);
      TrimmedIsTrim(left);
      LowerKeepsTrimmed(Trim(left));
      LowerIsIdempotent(Trim(left));
    } else {
      assert Lower(DEFAULT_SCOPE) == DEFAULT_SCOPE;
    }
  }

  // A colon-free scope can be read back from scope:id.
  lemma SplitAgain(scope: string, id: string)
    requires ColonFree(scope)
    ensures var s := scope + ":" + id; ColonAt(s) == |scope| && s[..|scope|] == scope && s[|scope| + 1..] == id
  {
    var s := scope + ":" + id;
    var n := ColonAt(s);
    assert s[|scope|] == ':';
    assert s[..|scope|] == scope;
    assert forall i :: 0 <= i < |scope| ==> s[i] == scope[i];
  }

  lemma NormalFormIsTrimmed(scope: string, id: string)
    requires Trimmed(scope) && Trimmed(id)
    ensures Trim(scope + ":" + id) == scope + ":" + id
  {
    var s := scope + ":" + id;
    assert s[0] == if scope == "" then ':' else scope[0];
    assert s[|s| - 1] == if id == "" then ':' else id[|id| - 1];
    TrimmedIsTrim(s);
  }

  // How long the normal form is: no longer than the key when the key has a
  // scope, eight bytes longer when it has none.
  lemma NormalFormLength(t: string)
    requires Trimmed(t)
    ensures var n := ByteLength(ScopeOf(t) + ":" + IdOf(t));
            if IsScoped(t) then n <= ByteLength(t) else n == ByteLength(t) + 8
  {
    hide Trim, Lower, ByteLength;
    if IsScoped(t) {
      var left, right := t[..ColonAt(t)], t[ColonAt(t) + 1..];
      ByteLengthOfTrim(left);
      ByteLengthOfLower(Trim(left));
      ByteLengthOfTrim(right);
      assert t == left + ":" + right;
      JoinedLength(left, right);
      JoinedLength(Lower(Trim(left)), Trim(right));
    } else {
      JoinedLength(DEFAULT_SCOPE, t);
      ByteLengthOfLetters(DEFAULT_SCOPE);
    }
  }

  lemma JoinedLength(a: string, b: string)
    ensures ByteLength(a + ":" + b) == ByteLength(a) + 1 + ByteLength(b)
  {
    ByteLengthConcat(a + ":", b);
    ByteLengthConcat(a, ":");
    OneByte(":");
  }

  lemma OneByte(s: string)
    requires |s| == 1 && CharBytes(s[0]) == 1
    ensures ByteLength(s) == 1
  {
    assert s[..0] == "";
  }

  lemma {:induction false} ByteLengthOfLetters(s: string)
    requires forall i :: 0 <= i < |s| ==> CharBytes(s[i]) == 1
    ensures ByteLength(s) == |s|
  {
    if s != "" { ByteLengthOfLetters(s[..|s| - 1]); }
  }

  // ----- the two laws -----

  // Normalising an accepted key again changes nothing, except that the normal
  // form of an unscoped key of more than 120 bytes is itself rejected.
  lemma NormalizingTwice(raw: string)
    requires NormalizeKey(raw).Ok?
    ensures var t, key := Trim(raw), NormalizeKey(raw).value;
            NormalizeKey(key) == if !IsScoped(t) && ByteLength(t) > 120 then Err(Proof("idempotency_key too long"))
                                 else Ok(key)
  {
    hide Trim, Lower, ByteLength, IsIdChar, ScopeOf, IdOf;
    var t := Trim(raw);
    var scope, id := ScopeOf(t), IdOf(t);
    var key := scope + ":" + id;
    TrimmedIsTrim(raw);
    ScopeIsPlain(t);
    IdIsTrimmed(t);
    NormalFormIsTrimmed(scope, id);
    NormalFormLength(t);
    NormalFormParts(scope, id);
  }

  lemma IdIsTrimmed(t: string)
    requires Trimmed(t)
    ensures Trimmed(IdOf(t))
  {
    if IsScoped(t) { TrimmedIsTrim(t[ColonAt(t) + 1..]); }
  }

  lemma NormalFormParts(scope: string, id: string)
    requires ColonFree(scope) && Trimmed(scope) && Lower(scope) == scope && Trimmed(id)
    ensures ScopeOf(scope + ":" + id) == scope && IdOf(scope + ":" + id) == id
  {
    hide Trim, Lower, ColonAt, Trimmed;
    SplitAgain(scope, id);
    TrimmedIsTrim(scope);
    TrimmedIsTrim(id);
  }

  // Two accepted keys share a normal form exactly when their trimmed ids are
  // equal and their lower-cased scopes are, an absent scope being the default.
  lemma KeysCollideExactly(a: string, b: string)
    requires NormalizeKey(a).Ok? && NormalizeKey(b).Ok?
    ensures NormalizeKey(a) == NormalizeKey(b)
            <==> ScopeOf(Trim(a)) == ScopeOf(Trim(b)) && IdOf(Trim(a)) == IdOf(Trim(b))
  {
    hide Trim, ByteLength, ScopeOf, IdOf, IsIdChar;
    ScopeIsPlain(Trim(a));
    ScopeIsPlain(Trim(b));
    SplitAgain(ScopeOf(Trim(a)), IdOf(Trim(a)));
    SplitAgain(ScopeOf(Trim(b)), IdOf(Trim(b)));
  }
}
