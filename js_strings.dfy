/** The JavaScript string operations the drive's rules are built from:
    `toLowerCase`, `includes`, `startsWith`, `endsWith`, `trim`,
    `replace` with a string pattern, `split(',')[1]` and the UTF-8 byte
    length a `Blob` gives a string. */
module JsStrings {
  import opened Types

  /** `toLowerCase` on one character (ASCII letters only). */
  function LowerChar(c: char): char {
    if 'A' <= c <= 'Z' then (c as int + 32) as char else c
  }

  function Lower(s: string): string {
    seq(|s|, i requires 0 <= i < |s| => LowerChar(s[i]))
  }

  /** A string that lower-casing leaves alone. */
  predicate IsLower(s: string) {
    forall i :: 0 <= i < |s| ==> !('A' <= s[i] <= 'Z')
  }

  /** Lower-casing yields a lower-case string, and lower-casing twice is lower-casing once. */
  lemma LowerIsLower(s: string)
    ensures IsLower(Lower(s))
    ensures Lower(Lower(s)) == Lower(s)
  {
    assert forall i :: 0 <= i < |s| ==> Lower(Lower(s))[i] == Lower(s)[i];
  }

  /** `sub` appears in `s` starting at index `i`. */
  predicate OccursAt(s: string, sub: string, i: int) {
    0 <= i && i + |sub| <= |s| && s[i..i + |sub|] == sub
  }

  /** `s.includes(sub)`. */
  predicate Contains(s: string, sub: string) {
    exists i :: 0 <= i <= |s| - |sub| && OccursAt(s, sub, i)
  }

  /** `s.startsWith(pre)`. */
  predicate StartsWith(s: string, pre: string) {
    |pre| <= |s| && s[..|pre|] == pre
  }

  /** `s.endsWith(suf)`. */
  predicate EndsWith(s: string, suf: string) {
    |suf| <= |s| && s[|s| - |suf|..] == suf
  }

  /** A lower-case word found in a string is also found in its lower-cased form. */
  lemma ContainsLower(s: string, w: string)
    requires IsLower(w) && Contains(s, w)
    ensures Contains(Lower(s), w)
  {
    var i :| 0 <= i <= |s| - |w| && OccursAt(s, w, i);
    assert Lower(s)[i..i + |w|] == w by {
      forall j | 0 <= j < |w|
        ensures Lower(s)[i..i + |w|][j] == w[j]
      {
        assert s[i + j] == w[j];
      }
    }
    assert OccursAt(Lower(s), w, i);
  }

  /** A lower-case suffix of a string is also a suffix of its lower-cased form. */
  lemma EndsWithLower(s: string, suf: string)
    requires IsLower(suf) && EndsWith(s, suf)
    ensures EndsWith(Lower(s), suf)
  {
    var k := |s| - |suf|;
    assert Lower(s)[k..] == suf by {
      forall j | 0 <= j < |suf|
        ensures Lower(s)[k..][j] == suf[j]
      {
        assert s[k + j] == suf[j];
      }
    }
  }

  /** The white space and line terminators `trim` removes (ECMAScript's
      WhiteSpace and LineTerminator productions). */
  predicate IsSpace(c: char) {
    c in {'\t', '\n', '\U{000B}', '\U{000C}', '\r', ' ', '\U{00A0}', '\U{1680}',
          '\U{2000}', '\U{2001}', '\U{2002}', '\U{2003}', '\U{2004}', '\U{2005}',
          '\U{2006}', '\U{2007}', '\U{2008}', '\U{2009}', '\U{200A}', '\U{2028}',
          '\U{2029}', '\U{202F}', '\U{205F}', '\U{3000}', '\U{FEFF}'}
  }

  predicate AllSpace(s: string) {
    forall i :: 0 <= i < |s| ==> IsSpace(s[i])
  }

  /** `trimStart`: the longest suffix that does not start with white space. */
  function TrimStart(s: string): (r: string)
    ensures |r| <= |s| && r == s[|s| - |r|..]
    ensures AllSpace(s[..|s| - |r|])
    ensures r != [] ==> !IsSpace(r[0])
  {
    if s != [] && IsSpace(s[0]) then
      var r := TrimStart(s[1..]);
      var n := |s| - |r|;
      assert s[1..][n - 1..] == s[n..];
      assert forall i :: 0 < i < n ==> s[..n][i] == s[1..][..n - 1][i - 1];
      r
    else s
  }

  /** `trimEnd`: the longest prefix that does not end with white space. */
  function TrimEnd(s: string): (r: string)
    ensures |r| <= |s| && r == s[..|r|]
    ensures AllSpace(s[|r|..])
    ensures r != [] ==> !IsSpace(r[|r| - 1])
  {
    if s != [] && IsSpace(s[|s| - 1]) then
      var r := TrimEnd(s[..|s| - 1]);
      assert s[..|s| - 1][..|r|] == s[..|r|];
      assert s[|r|..] == s[..|s| - 1][|r|..] + [s[|s| - 1]];
      r
    else s
  }

  /** `trim`: `s` with its leading and trailing white space removed. */
  function Trim(s: string): string {
    TrimEnd(TrimStart(s))
  }

  /** `trim` cuts white space off both ends of `s`, starting at `a`. */
  lemma TrimSlice(s: string) returns (a: nat)
    ensures a + |Trim(s)| <= |s| && Trim(s) == s[a..a + |Trim(s)|]
    ensures AllSpace(s[..a]) && AllSpace(s[a + |Trim(s)|..])
  {
    var t := TrimStart(s);
    var r := TrimEnd(t);
    a := |s| - |t|;
    assert Trim(s) == r;
    assert r == s[a..a + |r|] by { assert t == s[a..]; }
    assert AllSpace(s[a + |r|..]) by { assert s[a + |r|..] == t[|r|..]; }
  }

  /** What `trim` leaves: a slice of `s` whose surroundings are all white
      space and whose ends are not; it is empty exactly when `s` is all
      white space. */
  lemma TrimSpec(s: string)
    ensures var r := Trim(s);
      exists a :: 0 <= a <= |s| - |r| && r == s[a..a + |r|] && AllSpace(s[..a]) && AllSpace(s[a + |r|..])
    ensures Trim(s) != [] ==> !IsSpace(Trim(s)[0]) && !IsSpace(Trim(s)[|Trim(s)| - 1])
    ensures Trim(s) == [] <==> AllSpace(s)
  {
    var r := Trim(s);
    var a := TrimSlice(s);
    if r != [] {
      assert s[a] == r[0];
    } else {
      assert s[..a] + s[a..] == s;
      assert s[a..] == s[a + |r|..];
    }
  }

  /** Trimming a trimmed string changes nothing. */
  lemma TrimIdempotent(s: string)
    ensures Trim(Trim(s)) == Trim(s)
  {
    var r := Trim(s);
    if r != [] {
      assert TrimStart(r) == r;
      assert TrimEnd(r) == r;
    }
  }

  /** The index of the first occurrence of `pat` in `s` at or after `from`. */
  function IndexOfFrom(s: string, pat: string, from: nat): (r: Option<nat>)
    requires from <= |s|
    decreases |s| - from
    ensures r.Some? ==> from <= r.value && OccursAt(s, pat, r.value)
    ensures r.Some? ==> forall j :: from <= j < r.value ==> !OccursAt(s, pat, j)
    ensures r.None? ==> forall j :: from <= j ==> !OccursAt(s, pat, j)
  {
    if from + |pat| > |s| then None
    else if s[from..from + |pat|] == pat then Some(from)
    else if from == |s| then None
    else IndexOfFrom(s, pat, from + 1)
  }

  /** `s.indexOf(pat)`, with "not found" as `None`. */
  function IndexOf(s: string, pat: string): (r: Option<nat>)
    ensures r.Some? ==> OccursAt(s, pat, r.value) && forall j :: 0 <= j < r.value ==> !OccursAt(s, pat, j)
    ensures r.None? <==> !Contains(s, pat)
  {
    IndexOfFrom(s, pat, 0)
  }

  /** `s.replace(pat, rep)` for a string pattern: only the first occurrence
      is replaced, and a string without one is returned as it is. */
  function ReplaceFirst(s: string, pat: string, rep: string): (r: string)
    ensures !Contains(s, pat) ==> r == s
    ensures Contains(s, pat) ==>
      exists k :: OccursAt(s, pat, k) && (forall j :: 0 <= j < k ==> !OccursAt(s, pat, j)) &&
        r == s[..k] + rep + s[k + |pat|..]
  {
    match IndexOf(s, pat)
    case None => s
    case Some(k) => s[..k] + rep + s[k + |pat|..]
  }

  /** `s.split(',')[1]`: the text between the first comma and the next one
      (or the end), or `undefined` when `s` has no comma. */
  function SecondField(s: string): (r: Option<string>)
    ensures r.None? <==> !Contains(s, ",")
    ensures r.Some? ==> !Contains(r.value, ",")
    ensures r.Some? ==>
      exists k :: OccursAt(s, "," + r.value, k) && !Contains(s[..k], ",") &&
        (k + 1 + |r.value| == |s| || s[k + 1 + |r.value|] == ',')
  {
    match IndexOf(s, ",")
    case None => None
    case Some(k) =>
      var field := FirstField(s[k + 1..]);
      CommaFreePrefix(s, k);
      CommaThenField(s, k, field);
      assert k + 1 + |field| == |s| || s[k + 1 + |field|] == s[k + 1..][|field|];
      Some(field)
  }

  /** `s.split(',')[0]`: the text up to the first comma, or all of `s`. */
  function FirstField(s: string): (f: string)
    ensures |f| <= |s| && f == s[..|f|] && !Contains(f, ",")
    ensures |f| == |s| || s[|f|] == ','
  {
    match IndexOf(s, ",")
    case None => s
    case Some(j) =>
      CommaFreePrefix(s, j);
      assert s[j..j + 1] == ",";
      s[..j]
  }

  /** A comma at `k` followed by a prefix of what comes after it. */
  lemma CommaThenField(s: string, k: nat, field: string)
    requires OccursAt(s, ",", k) && |field| <= |s| - k - 1 && field == s[k + 1..][..|field|]
    ensures OccursAt(s, "," + field, k)
  {
    assert s[k..k + 1 + |field|] == s[k..k + 1] + s[k + 1..k + 1 + |field|];
  }

  /** Nothing before the first comma is a comma. */
  lemma CommaFreePrefix(s: string, k: nat)
    requires k <= |s| && forall j :: 0 <= j < k ==> !OccursAt(s, ",", j)
    ensures !Contains(s[..k], ",")
  {
    forall i | 0 <= i <= k - 1
      ensures !OccursAt(s[..k], ",", i)
    {
      assert s[..k][i..i + 1] == s[i..i + 1];
      assert !OccursAt(s, ",", i);
    }
  }

  /** A string whose only comma is its last character has an empty second field. */
  lemma SecondFieldOfTrailingComma(prefix: string)
    requires !Contains(prefix, ",")
    ensures SecondField(prefix + ",") == Some("")
  {
    var u := prefix + ",";
    assert OccursAt(u, ",", |prefix|);
    var k := IndexOf(u, ",").value;
    assert k < |prefix| ==> OccursAt(prefix, ",", k);
    assert k == |prefix|;
    assert u[k + 1..] == "";
  }

  /** Bytes of one character in UTF-8. */
  function Utf8Width(c: char): nat {
    if c as int < 0x80 then 1
    else if c as int < 0x800 then 2
    else if c as int < 0x10000 then 3
    else 4
  }

  /** `new Blob([s]).size`: the UTF-8 length of `s`, between one and four
      bytes per character, and exactly one per character for ASCII text. */
  function Utf8Length(s: string): (n: nat)
    ensures |s| <= n <= 4 * |s|
    ensures (forall i :: 0 <= i < |s| ==> s[i] as int < 0x80) ==> n == |s|
  {
    if s == [] then 0 else Utf8Width(s[0]) + Utf8Length(s[1..])
  }
}
