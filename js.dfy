/** The pieces of the JavaScript runtime that the chatbot's string handling relies on:
    the character classes of its regular expressions, `String.prototype.trim`, ASCII
    case folding, substring search, `replace` with a global character class, and the
    truthiness of the values that reach the portfolio tools. */
module Js {

  import opened Wrappers
  import opened Lists

  // ---------------------------------------------------------------------------
  // Character classes
  // ---------------------------------------------------------------------------

  /** JavaScript's WhiteSpace and LineTerminator code points: exactly what `\s`
      matches in a regular expression and what `trim` removes. */
  predicate IsSpace(c: char) {
    || c == '\t' || c == '\n' || c == '\U{B}' || c == '\U{C}' || c == '\r' || c == ' '
    || c == '\U{A0}' || c == '\U{1680}' || ('\U{2000}' <= c <= '\U{200A}')
    || c == '\U{2028}' || c == '\U{2029}' || c == '\U{202F}' || c == '\U{205F}'
    || c == '\U{3000}' || c == '\U{FEFF}'
  }

  /** The characters `.` refuses to match. */
  predicate IsLineTerminator(c: char) {
    c == '\n' || c == '\r' || c == '\U{2028}' || c == '\U{2029}'
  }

  /** `\d`: ASCII digits only. */
  predicate IsDigit(c: char) {
    '0' <= c <= '9'
  }

  /** `[a-zA-Z]`; under the `i` flag it matches exactly the same characters. */
  predicate IsLetter(c: char) {
    ('a' <= c <= 'z') || ('A' <= c <= 'Z')
  }

  /** `\w`. */
  predicate IsWordChar(c: char) {
    IsLetter(c) || IsDigit(c) || c == '_'
  }

  lemma LineTerminatorsAreSpaces(c: char)
    ensures IsLineTerminator(c) ==> IsSpace(c)
  {
  }

  // ---------------------------------------------------------------------------
  // Runs of characters
  // ---------------------------------------------------------------------------

  /** The length of the longest run of characters satisfying `p` that starts at `i`:
      what a greedy `[class]*` consumes from `i`. */
  function RunLength(s: string, i: nat, p: char -> bool): (n: nat)
    requires i <= |s|
    ensures i + n <= |s|
    ensures forall k :: i <= k < i + n ==> p(s[k])
    ensures i + n < |s| ==> !p(s[i + n])
    decreases |s| - i
  {
    if i == |s| || !p(s[i]) then 0 else 1 + RunLength(s, i + 1, p)
  }

  /** A run is determined by its contents: it is the longest prefix of `s[i..]` made of
      `p`-characters. */
  lemma {:induction false} RunLengthUnique(s: string, i: nat, p: char -> bool, n: nat)
    requires i + n <= |s|
    requires forall k :: i <= k < i + n ==> p(s[k])
    requires i + n < |s| ==> !p(s[i + n])
    ensures RunLength(s, i, p) == n
    decreases n
  {
    if n > 0 {
      RunLengthUnique(s, i + 1, p, n - 1);
    }
  }

  /** A run is at least as long as any stretch of `p`-characters it starts with. */
  lemma {:induction false} RunLengthAtLeast(s: string, i: nat, p: char -> bool, n: nat)
    requires i + n <= |s|
    requires forall k :: i <= k < i + n ==> p(s[k])
    ensures RunLength(s, i, p) >= n
    decreases n
  {
    if n > 0 {
      RunLengthAtLeast(s, i + 1, p, n - 1);
    }
  }

  // ---------------------------------------------------------------------------
  // Case folding
  // ---------------------------------------------------------------------------

  /** ASCII lower-casing of one character. */
  function Lower(c: char): char {
    if 'A' <= c <= 'Z' then (c as int + 32) as char else c
  }

  /** `toLowerCase` restricted to ASCII: every character folded on its own. */
  function LowerStr(s: string): (r: string)
    ensures |r| == |s|
    ensures forall i :: 0 <= i < |s| ==> r[i] == Lower(s[i])
  {
    if s == [] then [] else [Lower(s[0])] + LowerStr(s[1..])
  }

  /** Folding is idempotent, so comparing folded strings is an equivalence that every
      case variant of a string shares. */
  lemma LowerStrIdempotent(s: string)
    ensures LowerStr(LowerStr(s)) == LowerStr(s)
  {
  }

  // ---------------------------------------------------------------------------
  // trim
  // ---------------------------------------------------------------------------

  predicate AllSpaces(s: string) {
    forall i :: 0 <= i < |s| ==> IsSpace(s[i])
  }

  /** The end of the content of `s[..j]`: the index after its last non-space character. */
  function ContentEnd(s: string, j: nat): (e: nat)
    requires j <= |s|
    ensures e <= j
    ensures forall k :: e <= k < j ==> IsSpace(s[k])
    ensures e > 0 ==> !IsSpace(s[e - 1])
  {
    if j == 0 || !IsSpace(s[j - 1]) then j else ContentEnd(s, j - 1)
  }

  /** `String.prototype.trim`. */
  function Trim(s: string): (t: string)
    ensures t == [] || (!IsSpace(t[0]) && !IsSpace(t[|t| - 1]))
  {
    var i := RunLength(s, 0, IsSpace);
    var e := ContentEnd(s, |s|);
    if e <= i then [] else s[i..e]
  }

  /** What `trim` removes is white space on either side and nothing else. */
  lemma TrimRemovesOnlyOuterSpace(s: string)
    ensures exists i, j :: 0 <= i <= j <= |s| && Trim(s) == s[i..j] && AllSpaces(s[..i]) && AllSpaces(s[j..])
  {
    var i := RunLength(s, 0, IsSpace);
    var e := ContentEnd(s, |s|);
    if e <= i {
      assert AllSpaces(s[..i]) && AllSpaces(s[i..]);
      assert Trim(s) == s[i..i];
    } else {
      assert Trim(s) == s[i..e];
      assert AllSpaces(s[..i]) && AllSpaces(s[e..]);
    }
  }

  /** A string without outer white space is left as it is. */
  lemma {:induction false} TrimNoOp(s: string)
    requires s == [] || (!IsSpace(s[0]) && !IsSpace(s[|s| - 1]))
    ensures Trim(s) == s
  {
    if s != [] {
      assert RunLength(s, 0, IsSpace) == 0;
      assert ContentEnd(s, |s|) == |s|;
    }
  }

  /** `trim` keeps every character that is not white space. */
  lemma TrimKeepsContent(s: string, k: nat)
    requires k < |s| && !IsSpace(s[k])
    ensures s[k] in Trim(s)
  {
    var i := RunLength(s, 0, IsSpace);
    var e := ContentEnd(s, |s|);
    assert i <= k < e;
    assert s[k] == s[i..e][k - i];
  }

  lemma TrimIdempotent(s: string)
    ensures Trim(Trim(s)) == Trim(s)
  {
    TrimNoOp(Trim(s));
  }

  // ---------------------------------------------------------------------------
  // replace(/[...]/g, '')
  // ---------------------------------------------------------------------------

  /** `s.replace(/[class]/g, '')`: every character of the class deleted, the others kept
      in order. */
  function Remove(s: string, drop: char -> bool): (r: string)
    ensures forall c :: c in r <==> c in s && !drop(c)
    ensures |r| <= |s|
  {
    if s == [] then []
    else if drop(s[0]) then Remove(s[1..], drop)
    else [s[0]] + Remove(s[1..], drop)
  }

  /** What `replace` leaves is the input with the class taken out and nothing else
      changed: the remaining characters in their original order, each exactly as often
      as in the input. */
  lemma {:induction false} RemoveKeepsTheRest(s: string, drop: char -> bool)
    ensures IsSubsequence(Remove(s, drop), s)
    ensures forall c :: multiset(Remove(s, drop))[c] == if drop(c) then 0 else multiset(s)[c]
    decreases |s|
  {
    if s != [] {
      var rest := Remove(s[1..], drop);
      RemoveKeepsTheRest(s[1..], drop);
      assert s == [s[0]] + s[1..];
      ConsSubsequence(s[0], rest, s[1..]);
      assert multiset(s) == multiset([s[0]]) + multiset(s[1..]);
      if !drop(s[0]) {
        assert multiset([s[0]] + rest) == multiset([s[0]]) + multiset(rest);
      }
    }
  }

  // ---------------------------------------------------------------------------
  // Substrings
  // ---------------------------------------------------------------------------

  predicate OccursAt(s: string, w: string, i: nat) {
    i + |w| <= |s| && s[i..i + |w|] == w
  }

  /** `s.includes(w)`. */
  predicate Contains(s: string, w: string) {
    exists i :: 0 <= i <= |s| && OccursAt(s, w, i)
  }

  /** The first occurrence of `w` at or after `from` (`indexOf`). */
  function IndexOf(s: string, w: string, from: nat): (r: Option<nat>)
    ensures r.Some? ==> from <= r.value && OccursAt(s, w, r.value)
    ensures r.Some? ==> forall k :: from <= k < r.value ==> !OccursAt(s, w, k)
    ensures r.None? ==> forall k :: from <= k ==> !OccursAt(s, w, k)
    decreases |s| - from
  {
    if from + |w| > |s| then None
    else if s[from..from + |w|] == w then Some(from)
    else IndexOf(s, w, from + 1)
  }

  /** `includes` agrees with the search for a first occurrence. */
  lemma ContainsIffIndexOf(s: string, w: string)
    ensures Contains(s, w) <==> IndexOf(s, w, 0).Some?
  {
  }

  /** A case-insensitive test for a lower-case ASCII word `w`, as a regular expression
      `/w/i` performs it. */
  predicate ContainsFolded(s: string, w: string) {
    Contains(LowerStr(s), w)
  }

  // ---------------------------------------------------------------------------
  // Values
  // ---------------------------------------------------------------------------

  /** A JavaScript value as the portfolio tools see it: a string, or some other value
      (a number, a boolean, `null`, `undefined`, an array or an object) of which the
      tools only observe its truthiness and its conversion to a string. */
  datatype JsValue = JsString(s: string) | JsOther(truthy: bool, text: string)

  /** The value of a missing argument. */
  const UNDEFINED: JsValue := JsOther(false, "undefined")

  /** JavaScript truthiness: the empty string is falsy, every other string truthy. */
  predicate Truthy(v: JsValue) {
    match v
    case JsString(s) => s != ""
    case JsOther(t, _) => t
  }

  /** Template-literal conversion `${v}`. */
  function Display(v: JsValue): string {
    match v
    case JsString(s) => s
    case JsOther(_, t) => t
  }
}
