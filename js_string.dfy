/**
 * The few JavaScript string operations the application relies on:
 * `String.prototype.trim`, anchored prefix/suffix tests and the truthiness
 * of a possibly absent string.
 */
module JsString {
  import opened Wrappers

  /**
   * The characters `trim` removes: the WhiteSpace and LineTerminator code
   * points of ECMAScript (sections 12.2 and 12.3 of ECMA-262). Every lemma
   * below uses only this predicate, never the particular code points.
   */
  predicate IsWhitespace(c: char) {
    c == '\t' || c == '\n' || c == '\U{000B}' || c == '\U{000C}' || c == '\r' || c == ' '
    || c == '\U{00A0}' || c == '\U{1680}' || ('\U{2000}' <= c <= '\U{200A}')
    || c == '\U{2028}' || c == '\U{2029}' || c == '\U{202F}' || c == '\U{205F}'
    || c == '\U{3000}' || c == '\U{FEFF}'
  }

  predicate AllWhitespace(s: string) {
    forall i :: 0 <= i < |s| ==> IsWhitespace(s[i])
  }

  /** Neither the first nor the last character is whitespace. */
  predicate NoOuterWhitespace(s: string) {
    s == [] || (!IsWhitespace(s[0]) && !IsWhitespace(s[|s| - 1]))
  }

  /** How many whitespace characters `s` starts with. */
  function LeadingWhitespace(s: string): (n: nat)
    ensures n <= |s|
    ensures forall i :: 0 <= i < n ==> IsWhitespace(s[i])
    ensures n < |s| ==> !IsWhitespace(s[n])
  {
    if |s| > 0 && IsWhitespace(s[0]) then
      var n := 1 + LeadingWhitespace(s[1..]);
      assert forall i :: 1 <= i < n ==> s[i] == s[1..][i - 1];
      n
    else
      0
  }

  /** How many whitespace characters `s` ends with. */
  function TrailingWhitespace(s: string): (n: nat)
    ensures n <= |s|
    ensures forall i :: |s| - n <= i < |s| ==> IsWhitespace(s[i])
    ensures n < |s| ==> !IsWhitespace(s[|s| - 1 - n])
  {
    if |s| > 0 && IsWhitespace(s[|s| - 1]) then
      var n := 1 + TrailingWhitespace(s[..|s| - 1]);
      assert forall i :: |s| - n <= i < |s| - 1 ==> s[i] == s[..|s| - 1][i];
      n
    else
      0
  }

  /** `String.prototype.trimStart`. */
  function TrimStart(s: string): (r: string)
    ensures r == [] || !IsWhitespace(r[0])
  {
    s[LeadingWhitespace(s)..]
  }

  /** `String.prototype.trimEnd`. */
  function TrimEnd(s: string): (r: string)
    ensures r == [] || !IsWhitespace(r[|r| - 1])
  {
    s[..|s| - TrailingWhitespace(s)]
  }

  /** `String.prototype.trim`: whitespace removed at both ends, nothing else (see `TrimOfPadded`). */
  function Trim(s: string): (r: string)
    ensures NoOuterWhitespace(r)
    ensures |r| <= |s|
  {
    TrimEnd(TrimStart(s))
  }

  /** The whitespace count at the start of `s` is the only `k` with a whitespace run up to a non-whitespace `s[k]`. */
  lemma LeadingWhitespaceIs(s: string, k: nat)
    requires k <= |s| && (forall i :: 0 <= i < k ==> IsWhitespace(s[i])) && (k < |s| ==> !IsWhitespace(s[k]))
    ensures LeadingWhitespace(s) == k
  {
  }

  lemma TrailingWhitespaceIs(s: string, k: nat)
    requires k <= |s| && (forall i :: |s| - k <= i < |s| ==> IsWhitespace(s[i]))
    requires k < |s| ==> !IsWhitespace(s[|s| - 1 - k])
    ensures TrailingWhitespace(s) == k
  {
  }

  /**
   * `Trim` is characterised by its result alone: whatever is surrounded by
   * whitespace only, and has no whitespace at its own ends, is what `trim`
   * returns.
   */
  lemma TrimOfPadded(pre: string, mid: string, post: string)
    requires AllWhitespace(pre) && AllWhitespace(post) && NoOuterWhitespace(mid)
    ensures Trim(pre + mid + post) == mid
  {
    var s := pre + mid + post;
    if mid == [] {
      forall i | 0 <= i < |s| ensures IsWhitespace(s[i]) {
        if i < |pre| { assert s[i] == pre[i]; } else { assert s[i] == post[i - |pre|]; }
      }
      LeadingWhitespaceIs(s, |s|);
    } else {
      forall i | 0 <= i < |pre| ensures IsWhitespace(s[i]) {
        assert s[i] == pre[i];
      }
      assert s[|pre|] == mid[0];
      LeadingWhitespaceIs(s, |pre|);
      var t := TrimStart(s);
      assert t == mid + post;
      forall i | |t| - |post| <= i < |t| ensures IsWhitespace(t[i]) {
        assert t[i] == post[i - |mid|];
      }
      assert t[|t| - 1 - |post|] == mid[|mid| - 1];
      TrailingWhitespaceIs(t, |post|);
      assert t[..|t| - |post|] == mid;
    }
  }

  /** Trimming twice is trimming once. */
  lemma TrimIdempotent(s: string)
    ensures Trim(Trim(s)) == Trim(s)
  {
    var r := Trim(s);
    TrimOfPadded([], r, []);
    assert [] + r + [] == r;
  }

  /** A string without outer whitespace is left as it is. */
  lemma TrimUnchanged(s: string)
    requires NoOuterWhitespace(s)
    ensures Trim(s) == s
  {
    TrimOfPadded([], s, []);
    assert [] + s + [] == s;
  }

  /** Whitespace-only strings, and only they, trim to the empty string. */
  lemma TrimEmptyIff(s: string)
    ensures Trim(s) == [] <==> AllWhitespace(s)
  {
    if AllWhitespace(s) {
      TrimOfPadded(s, [], []);
      assert s + [] + [] == s;
    }
    if !AllWhitespace(s) {
      var k :| 0 <= k < |s| && !IsWhitespace(s[k]);
      var n := LeadingWhitespace(s);
      assert n <= k;
      assert TrimStart(s)[0] == s[n];
      assert TrimStart(s)[k - n] == s[k];
    }
  }

  /**
   * A non-empty tail `f` without outer whitespace survives trimming when
   * only whitespace follows it; only the leading whitespace before it goes.
   */
  lemma TrimKeepsTail(body: string, f: string, w: string)
    requires f != [] && NoOuterWhitespace(f) && AllWhitespace(w)
    ensures Trim(body + f + w) == TrimStart(body) + f
  {
    var n := LeadingWhitespace(body);
    var rest := TrimStart(body);
    RegroupAroundWhitespace(body, n, f, w);
    AppendKeepsNoOuterWhitespace(rest, f);
    TrimOfPadded(body[..n], rest + f, w);
  }

  lemma RegroupAroundWhitespace(body: string, n: nat, f: string, w: string)
    requires n == LeadingWhitespace(body)
    ensures AllWhitespace(body[..n])
    ensures body + f + w == body[..n] + (body[n..] + f) + w
  {
    assert body == body[..n] + body[n..];
  }

  lemma AppendKeepsNoOuterWhitespace(a: string, f: string)
    requires a == [] || !IsWhitespace(a[0])
    requires f != [] && NoOuterWhitespace(f)
    ensures NoOuterWhitespace(a + f)
  {
    assert (a + f)[|a + f| - 1] == f[|f| - 1];
    assert (a + f)[0] == if a != [] then a[0] else f[0];
  }

  /** `s.startsWith(p)`, also the test of a regular expression anchored with `^`. */
  predicate StartsWith(s: string, p: string) {
    |p| <= |s| && s[..|p|] == p
  }

  /**
   * `s.endsWith(p)`; without the `m` flag a `$` anchor matches only at the
   * very end of the input, so this is also the test of `/p$/`.
   */
  predicate EndsWith(s: string, p: string) {
    |p| <= |s| && s[|s| - |p|..] == p
  }

  /** JavaScript truthiness of a `string | null | undefined`: present and non-empty. */
  predicate Truthy(s: Option<string>) {
    s.Some? && s.value != ""
  }
}
