// The scan for assignments such as `token: x` in manifest texts.
module SecretScan {
  import opened Types
  import opened Text

  const FIELD_NAMES: seq<string> := ["api_key", "apikey", "secret", "password", "token", "passwd"]

  predicate IsTokenChar(c: char) { IsAlphanumeric(c) || c == '-' || c == '_' }

  function TrimQuotes(s: string): string
    decreases |s|
  {
    if s != "" && (s[0] == '"' || s[0] == '\'') then TrimQuotes(s[1..]) else s
  }

  // `= value` or `: value`, with optional whitespace and quotes before the value.
  predicate AssignmentHasValue(after: string) {
    var a := TrimStart(after);
    && a != "" && (a[0] == '=' || a[0] == ':')
    && var rest := TrimQuotes(TrimStart(a[1..])); rest != "" && IsTokenChar(rest[0])
  }

  // The field name is not the tail of a longer word.
  predicate Boundary(s: string, i: nat)
    requires i <= |s|
  {
    i == 0 || (!IsAlphanumeric(s[i - 1]) && s[i - 1] != '_')
  }

  predicate AssignsAt(s: string, name: string, i: nat) {
    OccursAt(s, name, i) && Boundary(s, i) && AssignmentHasValue(s[i + |name|..])
  }

  ghost predicate Assigns(s: string, name: string) { exists i: nat :: AssignsAt(s, name, i) }

  predicate IsWordChar(c: char) { IsAlphanumeric(c) || c == '_' }

  // A name of word characters only.
  predicate IsWord(name: string) {
    name != "" && forall d :: 0 <= d < |name| ==> IsWordChar(name[d])
  }

  // An occurrence that begins inside another one has a word character before
  // it, so it is at no boundary: skipping past an occurrence skips no assignment.
  lemma NothingIsSkipped(s: string, name: string, i: nat, j: nat)
    requires IsWord(name) && OccursAt(s, name, i) && i < j < i + |name|
    ensures !AssignsAt(s, name, j)
  {
    hide AssignmentHasValue;
    assert s[j - 1] == s[i..i + |name|][j - 1 - i];
  }

  lemma FieldNamesAreWords(k: nat)
    requires k < |FIELD_NAMES|
    ensures IsWord(FIELD_NAMES[k])
  {
  }

  // The scan for one name: from each occurrence it goes on behind the name.
  method HasAssignmentOf(s: string, name: string) returns (found: bool)
    requires IsWord(name)
    ensures found <==> Assigns(s, name)
  {
    hide AssignmentHasValue, OccursAt;
    var searchFrom := 0;
    var hit := FindFrom(s, name, searchFrom);
    while hit.Some?
      invariant searchFrom <= |s| && hit == FindFrom(s, name, searchFrom)
      invariant forall i: nat :: i < searchFrom ==> !AssignsAt(s, name, i)
      decreases |s| - searchFrom
    {
      var idx := hit.value;
      assert idx + |name| <= |s| by { OccurrenceFits(s, name, idx); }
      var after := idx + |name|;
      if Boundary(s, idx) && AssignmentHasValue(s[after..]) {
        assert AssignsAt(s, name, idx);
        return true;
      }
      forall i: nat | i < after ensures !AssignsAt(s, name, i) {
        if idx < i { NothingIsSkipped(s, name, idx, i); }
      }
      searchFrom := after;
      hit := FindFrom(s, name, searchFrom);
    }
    found := false;
  }

  lemma OccurrenceFits(s: string, name: string, i: nat)
    requires OccursAt(s, name, i)
    ensures i + |name| <= |s|
  {
  }

  ghost predicate AssignsSecret(s: string, names: seq<string>) {
    exists k :: 0 <= k < |names| && Assigns(s, names[k])
  }

  // True exactly when some secret field name stands at a word boundary, in any
  // ASCII case, and is assigned a value.
  method HasSecretFieldAssignment(value: string) returns (found: bool)
    ensures found <==> AssignsSecret(Lower(value), FIELD_NAMES)
    ensures found <==>
      var s := Lower(value);
      || Assigns(s, "api_key") || Assigns(s, "apikey") || Assigns(s, "secret")
      || Assigns(s, "password") || Assigns(s, "token") || Assigns(s, "passwd")
  {
    hide Assigns, FIELD_NAMES, Lower, IsWord;
    SixNames(value);
    var lower := Lower(value);
    var names := FIELD_NAMES;
    for k := 0 to |names|
      invariant names == FIELD_NAMES
      invariant forall j :: 0 <= j < k ==> !Assigns(lower, names[j])
    {
      FieldNamesAreWords(k);
      var hit := HasAssignmentOf(lower, names[k]);
      if hit { return true; }
    }
    found := false;
  }

  // The six names, written out.
  lemma SixNames(value: string)
    ensures AssignsSecret(Lower(value), FIELD_NAMES) <==>
      var s := Lower(value);
      || Assigns(s, "api_key") || Assigns(s, "apikey") || Assigns(s, "secret")
      || Assigns(s, "password") || Assigns(s, "token") || Assigns(s, "passwd")
  {
    hide Assigns, Lower;
    var s := Lower(value);
    assert FIELD_NAMES[0] == "api_key" && FIELD_NAMES[1] == "apikey" && FIELD_NAMES[2] == "secret";
    assert FIELD_NAMES[3] == "password" && FIELD_NAMES[4] == "token" && FIELD_NAMES[5] == "passwd";
    if AssignsSecret(s, FIELD_NAMES) {
      var k :| 0 <= k < |FIELD_NAMES| && Assigns(s, FIELD_NAMES[k]);
      assert k == 0 || k == 1 || k == 2 || k == 3 || k == 4 || k == 5;
    }
  }

  predicate IsQuote(c: char) { c == '"' || c == '\'' }

  // Whitespace up to i, = or : at i, whitespace up to j, quotes up to k, and a
  // letter, a digit, - or _ at k.
  predicate AssignedAt(a: string, i: int, j: int, k: int) {
    && 0 <= i < j <= k < |a|
    && (forall m :: 0 <= m < i ==> IsWhitespace(a[m])) && (a[i] == '=' || a[i] == ':')
    && (forall m :: i < m < j ==> IsWhitespace(a[m]))
    && (forall m :: j <= m < k ==> IsQuote(a[m]))
    && ('0' <= a[k] <= '9' || 'a' <= a[k] <= 'z' || 'A' <= a[k] <= 'Z' || a[k] == '-' || a[k] == '_')
  }

  ghost predicate IsAssigned(a: string) { exists i, j, k :: AssignedAt(a, i, j, k) }

  // Where trimming the text behind p stops, and that it stops there.
  lemma {:induction false} TrimStops(s: string, p: nat) returns (n: nat)
    requires p <= |s|
    ensures p <= n <= |s| && TrimStart(s[p..]) == s[n..]
    ensures (forall m :: p <= m < n ==> IsWhitespace(s[m])) && (n < |s| ==> !IsWhitespace(s[n]))
    decreases |s| - p
  {
    hide IsWhitespace;
    n := p;
    if p < |s| && IsWhitespace(s[p]) {
      assert s[p..][1..] == s[p + 1..];
      n := TrimStops(s, p + 1);
    }
  }

  lemma {:induction false} QuotesStop(s: string, p: nat) returns (n: nat)
    requires p <= |s|
    ensures p <= n <= |s| && TrimQuotes(s[p..]) == s[n..]
    ensures (forall m :: p <= m < n ==> IsQuote(s[m])) && (n < |s| ==> !IsQuote(s[n]))
    decreases |s| - p
  {
    n := p;
    if p < |s| && IsQuote(s[p]) {
      assert s[p..][1..] == s[p + 1..];
      n := QuotesStop(s, p + 1);
    }
  }

  // Positions before which there is nothing but whitespace, whitespace, quotes.
  predicate StopsAt(a: string, i: nat, j: nat, k: nat) {
    && i < j <= k <= |a|
    && (forall m :: 0 <= m < i ==> IsWhitespace(a[m])) && !IsWhitespace(a[i])
    && (forall m :: i < m < j ==> IsWhitespace(a[m])) && (j < |a| ==> !IsWhitespace(a[j]))
    && (forall m :: j <= m < k ==> IsQuote(a[m])) && (k < |a| ==> !IsQuote(a[k]))
  }

  lemma StopsAreUnique(a: string, i: nat, j: nat, k: nat, i': int, j': int, k': int)
    requires StopsAt(a, i, j, k) && AssignedAt(a, i', j', k')
    ensures i' == i && j' == j && k' == k
  {
    assert !IsWhitespace(a[i']) && !IsWhitespace(a[j']) && !IsQuote(a[k']);
    hide IsWhitespace, IsQuote;
  }

  lemma StoppedAssigns(after: string, i: nat, j: nat, k: nat)
    requires i < j <= k <= |after| && TrimStart(after) == after[i..]
    requires TrimStart(after[i + 1..]) == after[j..] && TrimQuotes(after[j..]) == after[k..]
    ensures AssignmentHasValue(after) <==>
      (after[i] == '=' || after[i] == ':') && k < |after| && IsTokenChar(after[k])
  {
    hide TrimStart, TrimQuotes, IsTokenChar;
    assert after[i..][1..] == after[i + 1..];
    assert after[i..][0] == after[i];
    if k < |after| { assert after[k..][0] == after[k]; }
  }

  lemma AssignedIs(a: string, i: nat, j: nat, k: nat)
    requires StopsAt(a, i, j, k)
    ensures AssignedAt(a, i, j, k) <==> (a[i] == '=' || a[i] == ':') && k < |a| && IsTokenChar(a[k])
  {
    hide IsWhitespace, IsQuote;
  }

  // Where the three trimmings stop.
  lemma FindStops(after: string, i: nat) returns (j: nat, k: nat)
    requires i < |after| && (forall m :: 0 <= m < i ==> IsWhitespace(after[m])) && !IsWhitespace(after[i])
    ensures StopsAt(after, i, j, k)
    ensures TrimStart(after[i + 1..]) == after[j..] && TrimQuotes(after[j..]) == after[k..]
  {
    hide IsWhitespace, IsQuote, TrimStart, TrimQuotes;
    j := TrimStops(after, i + 1);
    k := QuotesStop(after, j);
  }

  // What follows a name assigns a value exactly if it has this form.
  lemma AssignedExactly(after: string)
    ensures AssignmentHasValue(after) <==> IsAssigned(after)
  {
    hide IsWhitespace, TrimStart, TrimQuotes, AssignedAt, IsTokenChar, StopsAt, AssignmentHasValue;
    assert after[0..] == after;
    var i := TrimStops(after, 0);
    if i < |after| {
      var j, k := FindStops(after, i);
      StopsInOrder(after, i, j, k);
      StoppedAssigns(after, i, j, k);
      AssignedIs(after, i, j, k);
      forall i', j', k' | AssignedAt(after, i', j', k') ensures i' == i && j' == j && k' == k {
        StopsAreUnique(after, i, j, k, i', j', k');
      }
    } else {
      AllBlank(after);
    }
  }

  lemma StopsInOrder(a: string, i: nat, j: nat, k: nat)
    requires StopsAt(a, i, j, k)
    ensures i < j <= k <= |a|
  {
  }

  // An assignment of a name at i, spelt out: the name, nothing of a word before
  // it, and what assigns a value behind it.
  lemma AssignsExactly(s: string, name: string, i: nat)
    ensures AssignsAt(s, name, i) <==>
      && i + |name| <= |s| && s[i..i + |name|] == name
      && (i > 0 ==> !('0' <= s[i - 1] <= '9' || 'a' <= s[i - 1] <= 'z' || 'A' <= s[i - 1] <= 'Z' || s[i - 1] == '_'))
      && IsAssigned(s[i + |name|..])
  {
    hide AssignmentHasValue, AssignedAt;
    if i + |name| <= |s| { AssignedExactly(s[i + |name|..]); }
  }

  lemma AllBlank(after: string)
    requires (forall m :: 0 <= m < |after| ==> IsWhitespace(after[m])) && TrimStart(after) == ""
    ensures !AssignmentHasValue(after) && forall i, j, k :: !AssignedAt(after, i, j, k)
  {
  }

  lemma NoLeadingSpace(t: string)
    requires t != "" && !IsWhitespace(t[0]) && t[0] != '"' && t[0] != '\''
    ensures TrimStart(t) == t && TrimQuotes(t) == t
  {
    hide IsWhitespace;
  }

  lemma EqualsXIsAssigned(t: string, u: string)
    requires t == ['=', 'x'] && u != "" && u[0] == '-'
    ensures AssignmentHasValue(t) && !AssignmentHasValue(u)
  {
    hide TrimStart, TrimQuotes;
    assert t[1..] == ['x'];
    NoLeadingSpace(t);
    NoLeadingSpace(['x']);
    NoLeadingSpace(u);
  }

  // The names must be words: for "a-a" the same scan finds "a-a-a=x" at 0,
  // where nothing is assigned, and from 3 on never sees the assignment at 2.
  lemma OtherNamesCanBeSkipped(s: string, name: string)
    requires s == ['a', '-', 'a', '-', 'a', '=', 'x'] && name == ['a', '-', 'a']
    ensures OccursAt(s, name, 0) && !AssignsAt(s, name, 0) && AssignsAt(s, name, 2)
    ensures forall i :: 3 <= i ==> !OccursAt(s, name, i)
  {
    hide AssignmentHasValue;
    assert s[0..3] == name && s[2..5] == name && s[5..] == ['=', 'x'];
    EqualsXIsAssigned(s[5..], s[3..]);
    forall i | 3 <= i ensures !OccursAt(s, name, i) {
      if i == 3 { assert s[3] == '-' && s[3..6][0] == s[3]; }
      if i == 4 { assert s[5] == '=' && s[4..7][1] == s[5]; }
    }
  }
}
