/** Contact capture from free text (`extractContactInfo` and the inline copy in the
    command-line client) and the test that decides whether a message is about contact
    details at all.

    Every regular expression is modelled by the match JavaScript's backtracking engine
    returns: the leftmost start position, and at that position the first alternative in
    backtracking order. Each function below says why its greedy choice is that first
    alternative. */
module Contact {

  import opened Wrappers
  import opened Js

  function Min(a: nat, b: nat): nat {
    if a <= b then a else b
  }

  // ---------------------------------------------------------------------------
  // The contact signal
  // ---------------------------------------------------------------------------

  /** `/name|phone|email|company|contact|connect|reach|hire|collaborate/i`. */
  const CONTACT_KEYWORDS: seq<string> :=
    ["name", "phone", "email", "company", "contact", "connect", "reach", "hire", "collaborate"]

  predicate HasContactKeyword(s: string) {
    exists k :: 0 <= k < |CONTACT_KEYWORDS| && ContainsFolded(s, CONTACT_KEYWORDS[k])
  }

  /** `/(\+?\d{10,15})/` matches exactly when ten digits stand in a row. */
  predicate HasDigitRun(s: string) {
    exists i :: 0 <= i <= |s| && RunLength(s, i, IsDigit) >= 10
  }

  // ---------------------------------------------------------------------------
  // /([a-zA-Z0-9._-]+@[a-zA-Z0-9._-]+\.[a-zA-Z0-9_-]+)/
  // ---------------------------------------------------------------------------

  predicate IsEmailChar(c: char) {
    IsLetter(c) || IsDigit(c) || c == '.' || c == '_' || c == '-'
  }

  predicate IsTldChar(c: char) {
    IsLetter(c) || IsDigit(c) || c == '_' || c == '-'
  }

  /** Whether the domain run starting at `d` can be split at its `j`-th character:
      a dot followed by a top-level character. */
  predicate DotSplitsAt(s: string, d: nat, j: nat) {
    d + j + 1 < |s| && s[d + j] == '.' && IsTldChar(s[d + j + 1])
  }

  /** The domain part `[a-zA-Z0-9._-]+` first takes the whole run of `n` characters at
      `d` and then gives characters back one at a time until `\.` and a top-level
      character follow: the split is at the LAST dot of the run that has one. */
  function LastDot(s: string, d: nat, n: nat, k: nat): (r: Option<nat>)
    requires d + n <= |s| && k + 1 < n
    ensures r.Some? ==> 1 <= r.value <= k && DotSplitsAt(s, d, r.value)
    ensures r.Some? ==> forall j :: r.value < j <= k ==> !DotSplitsAt(s, d, j)
    ensures r.None? ==> forall j :: 1 <= j <= k ==> !DotSplitsAt(s, d, j)
  {
    if k == 0 then None
    else if DotSplitsAt(s, d, k) then Some(k)
    else LastDot(s, d, n, k - 1)
  }

  /** The end of an email match starting at `p`. The local part takes its whole run
      (only `@` may follow it, and `@` is outside the class). */
  function EmailAt(s: string, p: nat): (r: Option<nat>)
    requires p <= |s|
    ensures r.Some? ==> p < r.value <= |s|
  {
    var l := RunLength(s, p, IsEmailChar);
    if l == 0 || p + l == |s| || s[p + l] != '@' then None
    else
      var d := p + l + 1;
      var n := RunLength(s, d, IsEmailChar);
      if n < 3 then None
      else match LastDot(s, d, n, n - 2)
        case None => None
        case Some(k) => Some(d + k + 1 + RunLength(s, d + k + 1, IsTldChar))
  }

  /** An email match starts at `q`. */
  predicate EmailMatchAt(s: string, q: nat) {
    q <= |s| && EmailAt(s, q).Some?
  }

  /** The leftmost email match at or after `p`, as a start and an end. */
  function EmailFrom(s: string, p: nat): (r: Option<(nat, nat)>)
    requires p <= |s|
    ensures r.Some? ==> p <= r.value.0 < r.value.1 <= |s| && EmailAt(s, r.value.0) == Some(r.value.1)
    ensures r.Some? ==> forall q :: p <= q < r.value.0 ==> !EmailMatchAt(s, q)
    ensures r.None? ==> forall q :: p <= q <= |s| ==> !EmailMatchAt(s, q)
    decreases |s| - p
  {
    if EmailMatchAt(s, p) then Some((p, EmailAt(s, p).value))
    else if p == |s| then None
    else EmailFrom(s, p + 1)
  }

  function EmailCapture(s: string): Option<string> {
    match EmailFrom(s, 0)
    case Some((b, e)) => Some(s[b..e])
    case None => None
  }

  /** The contact test of the chat turn: a keyword, ten digits in a row, or an email. */
  predicate ContactSignal(message: string) {
    HasContactKeyword(message) || HasDigitRun(message) || EmailCapture(message).Some?
  }

  // ---------------------------------------------------------------------------
  // Cue-introduced fields: (?:cue1|cue2|...)\s*([a-zA-Z][class]{2,max}) with the i flag
  // ---------------------------------------------------------------------------

  /** One alternative of the cue group: a lower-case word, and whether `[:\s]+` must
      follow it. */
  datatype Cue = Cue(word: string, separated: bool)

  predicate IsColonOrSpace(c: char) {
    c == ':' || IsSpace(c)
  }

  /** Where the captured group starts when `cue` matches at `p`. After a greedy `[:\s]+`
      the `\s*` finds nothing; giving back characters cannot help either, since the group
      must start with a letter. */
  function CueEnd(s: string, p: nat, cue: Cue): (r: Option<nat>)
    requires p <= |s|
    ensures r.Some? ==> p + |cue.word| <= r.value <= |s|
  {
    var e := p + |cue.word|;
    if e > |s| || LowerStr(s[p..e]) != cue.word then None
    else if cue.separated then
      var n := RunLength(s, e, IsColonOrSpace);
      if n == 0 then None else Some(e + n)
    else Some(e + RunLength(s, e, IsSpace))
  }

  /** The group `[a-zA-Z][class]{2,max}` at `q`: greedy, and nothing follows it. */
  function GroupEnd(s: string, q: nat, inClass: char -> bool, max: nat): (r: Option<nat>)
    requires q <= |s|
    ensures r.Some? ==> q + 3 <= r.value <= |s| && r.value <= q + 1 + max && IsLetter(s[q])
    ensures r.Some? ==> forall k :: q < k < r.value ==> inClass(s[k])
  {
    if q < |s| && IsLetter(s[q]) && max >= 2 then
      var n := RunLength(s, q + 1, inClass);
      if n >= 2 then Some(q + 1 + Min(n, max)) else None
    else None
  }

  /** Whether the alternative `cue`, followed by the group, matches at `p`. */
  predicate AlternativeMatches(s: string, p: nat, cue: Cue, inClass: char -> bool, max: nat) {
    p <= |s| && CueEnd(s, p, cue).Some? && GroupEnd(s, CueEnd(s, p, cue).value, inClass, max).Some?
  }

  /** The captured span at `p`: the first alternative, in order, that matches there,
      with the group as far as it reaches. */
  function CuedAt(s: string, p: nat, cues: seq<Cue>, inClass: char -> bool, max: nat): (r: Option<(nat, nat)>)
    requires p <= |s|
    ensures r.Some? ==> p <= r.value.0 < r.value.1 <= |s| && GroupEnd(s, r.value.0, inClass, max) == Some(r.value.1)
  {
    if cues == [] then None
    else match CueEnd(s, p, cues[0])
      case Some(q) =>
        (match GroupEnd(s, q, inClass, max)
         case Some(e) => Some((q, e))
         case None => CuedAt(s, p, cues[1..], inClass, max))
      case None => CuedAt(s, p, cues[1..], inClass, max)
  }

  /** The alternatives are tried in order: the span found at `p` is the one the first
      alternative that matches there gives, and there is none when no alternative
      matches. */
  lemma {:induction false} CuedAtTakesTheFirstAlternative(s: string, p: nat, cues: seq<Cue>, inClass: char -> bool, max: nat)
    requires p <= |s|
    ensures var r := CuedAt(s, p, cues, inClass, max);
      r.Some? ==> exists k :: 0 <= k < |cues| && CueEnd(s, p, cues[k]) == Some(r.value.0) &&
                    AlternativeMatches(s, p, cues[k], inClass, max) &&
                    forall j :: 0 <= j < k ==> !AlternativeMatches(s, p, cues[j], inClass, max)
    ensures CuedAt(s, p, cues, inClass, max).None? <==>
              forall k :: 0 <= k < |cues| ==> !AlternativeMatches(s, p, cues[k], inClass, max)
  {
    if cues != [] && !AlternativeMatches(s, p, cues[0], inClass, max) {
      CuedAtTakesTheFirstAlternative(s, p, cues[1..], inClass, max);
      var r := CuedAt(s, p, cues, inClass, max);
      if r.Some? {
        var k :| 0 <= k < |cues[1..]| && CueEnd(s, p, cues[1..][k]) == Some(r.value.0) &&
                 AlternativeMatches(s, p, cues[1..][k], inClass, max) &&
                 forall j :: 0 <= j < k ==> !AlternativeMatches(s, p, cues[1..][j], inClass, max);
        assert forall j :: 0 <= j < k + 1 ==> !AlternativeMatches(s, p, cues[j], inClass, max) by {
          forall j | 0 < j < k + 1
            ensures !AlternativeMatches(s, p, cues[j], inClass, max)
          {
            assert cues[j] == cues[1..][j - 1];
          }
        }
      } else {
        forall k | 0 < k < |cues|
          ensures !AlternativeMatches(s, p, cues[k], inClass, max)
        {
          assert cues[k] == cues[1..][k - 1];
        }
      }
    }
  }

  /** Whether some alternative matches at `m`. */
  predicate CuedMatchAt(s: string, m: nat, cues: seq<Cue>, inClass: char -> bool, max: nat) {
    m <= |s| && CuedAt(s, m, cues, inClass, max).Some?
  }

  /** The leftmost position at or after `p` where some alternative matches. */
  function CuedStart(s: string, p: nat, cues: seq<Cue>, inClass: char -> bool, max: nat): (r: Option<nat>)
    requires p <= |s|
    ensures r.Some? ==> p <= r.value <= |s| && CuedMatchAt(s, r.value, cues, inClass, max)
    ensures r.Some? ==> forall m :: p <= m < r.value ==> !CuedMatchAt(s, m, cues, inClass, max)
    ensures r.None? ==> forall m :: p <= m <= |s| ==> !CuedMatchAt(s, m, cues, inClass, max)
    decreases |s| - p
  {
    if CuedMatchAt(s, p, cues, inClass, max) then Some(p)
    else if p == |s| then None
    else CuedStart(s, p + 1, cues, inClass, max)
  }

  /** The group captured at the leftmost match. */
  function CuedCapture(s: string, cues: seq<Cue>, inClass: char -> bool, max: nat): (r: Option<string>)
    ensures r.Some? ==> 3 <= |r.value| <= max + 1 && IsLetter(r.value[0])
    ensures r.Some? ==> forall k :: 0 < k < |r.value| ==> inClass(r.value[k])
  {
    match CuedStart(s, 0, cues, inClass, max)
    case Some(m) =>
      var (b, e) := CuedAt(s, m, cues, inClass, max).value;
      Some(s[b..e])
    case None => None
  }

  predicate IsLetterOrSpace(c: char) {
    IsLetter(c) || IsSpace(c)
  }

  predicate IsCompanyChar(c: char) {
    IsLetter(c) || IsSpace(c) || c == '&' || c == '.' || c == ','
  }

  /** `(?:name[:\s]+|i'm|i am|this is)\s*([a-zA-Z][a-zA-Z\s]{2,30})`. */
  const NAME_CUES: seq<Cue> := [Cue("name", true), Cue("i'm", false), Cue("i am", false), Cue("this is", false)]

  /** `(?:company[:\s]+|work at|from)\s*([a-zA-Z][a-zA-Z\s&.,]{2,50})`. */
  const COMPANY_CUES: seq<Cue> := [Cue("company", true), Cue("work at", false), Cue("from", false)]

  /** `(?:designation[:\s]+|role[:\s]+|i'm a|i am a)\s*([a-zA-Z][a-zA-Z\s]{2,30})`. */
  const DESIGNATION_CUES: seq<Cue> :=
    [Cue("designation", true), Cue("role", true), Cue("i'm a", false), Cue("i am a", false)]

  function NameCapture(s: string): Option<string> {
    CuedCapture(s, NAME_CUES, IsLetterOrSpace, 30)
  }

  function CompanyCapture(s: string): Option<string> {
    CuedCapture(s, COMPANY_CUES, IsCompanyChar, 50)
  }

  function DesignationCapture(s: string): Option<string> {
    CuedCapture(s, DESIGNATION_CUES, IsLetterOrSpace, 30)
  }

  // ---------------------------------------------------------------------------
  // (?:phone[:\s]*|call[:\s]*|mobile[:\s]*)?([SIGN]?[\d]{1,3}[\s-]?[\d]{10,14})
  // ---------------------------------------------------------------------------

  /** The HTTP server's sign class `[\\+]`: a backslash or a plus. */
  predicate IsApiSign(c: char) {
    c == '\\' || c == '+'
  }

  /** The command-line client's sign class `[\+]`: a plus only. */
  predicate IsPlus(c: char) {
    c == '+'
  }

  predicate IsPhoneSeparator(c: char) {
    IsSpace(c) || c == '-'
  }

  /** The end of the phone group when it starts at `q`. With a run of `r` digits after
      the optional sign, `[\d]{1,3}` tries 3, 2, 1 digits in turn: when that leaves
      digits behind, no separator can follow and at least ten of them must remain;
      when it takes the whole (short) run, a separator and ten more digits must follow.
      The first length that works is what the engine keeps, and `[\d]{10,14}` then
      takes as many digits as it may. */
  function PhoneAt(s: string, q: nat, isSign: char -> bool): (r: Option<nat>)
    requires q <= |s|
    ensures r.Some? ==> q < r.value <= |s|
  {
    var i := if q < |s| && isSign(s[q]) then q + 1 else q;
    var r := RunLength(s, i, IsDigit);
    if r >= 13 then Some(i + 3 + Min(14, r - 3))
    else if r == 11 || r == 12 then Some(i + r)
    else if 1 <= r <= 3 && i + r < |s| && IsPhoneSeparator(s[i + r]) then
      var t := RunLength(s, i + r + 1, IsDigit);
      if t >= 10 then Some(i + r + 1 + Min(14, t)) else None
    else None
  }

  /** `[SIGN]?[\d]{1,3}[\s-]?[\d]{10,14}` spanning `s[q..e]`: the sign ends at `i`, the
      first digit group at `a`, the optional separator at `b`. */
  predicate PhoneSplit(s: string, q: nat, i: nat, a: nat, b: nat, e: nat, isSign: char -> bool) {
    q <= i <= q + 1 && (i == q + 1 ==> q < |s| && isSign(s[q]))
    && i + 1 <= a <= i + 3 && a <= b <= a + 1 && b + 10 <= e <= b + 14 && e <= |s|
    && (b == a + 1 ==> IsPhoneSeparator(s[a]))
    && (forall k :: i <= k < a ==> IsDigit(s[k]))
    && (forall k :: b <= k < e ==> IsDigit(s[k]))
  }

  /** The phone pattern matches exactly `s[q..e]` in at least one way. */
  ghost predicate PhoneSpan(s: string, q: nat, e: nat, isSign: char -> bool) {
    exists i: nat, a: nat, b: nat :: PhoneSplit(s, q, i, a, b, e, isSign)
  }

  /** What `PhoneAt` finds is a match of the phone pattern. */
  lemma PhoneAtMatchesThePattern(s: string, q: nat, isSign: char -> bool)
    requires q <= |s| && PhoneAt(s, q, isSign).Some?
    ensures PhoneSpan(s, q, PhoneAt(s, q, isSign).value, isSign)
  {
    var e := PhoneAt(s, q, isSign).value;
    var i := if q < |s| && isSign(s[q]) then q + 1 else q;
    var r := RunLength(s, i, IsDigit);
    if r >= 13 {
      assert PhoneSplit(s, q, i, i + 3, i + 3, e, isSign);
    } else if r == 11 || r == 12 {
      assert PhoneSplit(s, q, i, i + 1, i + 1, e, isSign);
    } else {
      assert PhoneSplit(s, q, i, i + r, i + r + 1, e, isSign);
    }
  }

  /** Wherever the phone pattern can match, `PhoneAt` finds a match, provided a sign is
      never a digit (true of both sign classes). */
  lemma PatternMatchIsFound(s: string, q: nat, e: nat, isSign: char -> bool)
    requires forall c :: isSign(c) ==> !IsDigit(c)
    requires q <= |s| && PhoneSpan(s, q, e, isSign)
    ensures PhoneAt(s, q, isSign).Some?
  {
    var i: nat, a: nat, b: nat :| PhoneSplit(s, q, i, a, b, e, isSign);
    if b == a {
      JoinedGroupsAreFound(s, q, i, a, e, isSign);
    } else {
      SeparatedGroupsAreFound(s, q, i, a, e, isSign);
    }
  }

  /** The two digit groups written without a separator form one run of 11 to 17
      digits, which `PhoneAt` takes. */
  lemma JoinedGroupsAreFound(s: string, q: nat, i: nat, a: nat, e: nat, isSign: char -> bool)
    requires forall c :: isSign(c) ==> !IsDigit(c)
    requires PhoneSplit(s, q, i, a, a, e, isSign)
    ensures PhoneAt(s, q, isSign).Some?
  {
    assert i < a && IsDigit(s[i]);
    RunLengthAtLeast(s, i, IsDigit, e - i);
  }

  /** A first group of one to three digits, a separator and ten or more digits is what
      the separator branch of `PhoneAt` takes. */
  lemma SeparatedGroupsAreFound(s: string, q: nat, i: nat, a: nat, e: nat, isSign: char -> bool)
    requires forall c :: isSign(c) ==> !IsDigit(c)
    requires PhoneSplit(s, q, i, a, a + 1, e, isSign)
    ensures PhoneAt(s, q, isSign).Some?
  {
    assert i < a && IsDigit(s[i]);
    RunLengthUnique(s, i, IsDigit, a - i);
    RunLengthAtLeast(s, a + 1, IsDigit, e - a - 1);
  }

  /** Whether the phone group matches at `q`. */
  predicate PhoneMatchAt(s: string, q: nat, isSign: char -> bool) {
    q <= |s| && PhoneAt(s, q, isSign).Some?
  }

  /** The leftmost phone group. The optional cue in front never changes it: the cue
      and its separators are letters, colons and white space, where the group cannot
      start, so the group the engine reaches through a cue is the first place it
      matches at all. */
  function PhoneFrom(s: string, q: nat, isSign: char -> bool): (r: Option<(nat, nat)>)
    requires q <= |s|
    ensures r.Some? ==> q <= r.value.0 < r.value.1 <= |s| && PhoneAt(s, r.value.0, isSign) == Some(r.value.1)
    ensures r.Some? ==> forall q' :: q <= q' < r.value.0 ==> !PhoneMatchAt(s, q', isSign)
    ensures r.None? ==> forall q' :: q <= q' <= |s| ==> !PhoneMatchAt(s, q', isSign)
    decreases |s| - q
  {
    if PhoneMatchAt(s, q, isSign) then Some((q, PhoneAt(s, q, isSign).value))
    else if q == |s| then None
    else PhoneFrom(s, q + 1, isSign)
  }

  function PhoneCapture(s: string, isSign: char -> bool): Option<string> {
    match PhoneFrom(s, 0, isSign)
    case Some((b, e)) => Some(s[b..e])
    case None => None
  }

  // ---------------------------------------------------------------------------
  // extractContactInfo
  // ---------------------------------------------------------------------------

  /** The first capture group of each of the five patterns, `None` where it did not
      match. */
  datatype Captures = Captures(
    name: Option<string>,
    phone: Option<string>,
    email: Option<string>,
    company: Option<string>,
    designation: Option<string>)

  function CapturesOf(text: string, isSign: char -> bool): Captures {
    Captures(NameCapture(text), PhoneCapture(text, isSign), EmailCapture(text),
             CompanyCapture(text), DesignationCapture(text))
  }

  /** `null` stands for a missing name or phone; the other fields fall back to "". */
  datatype ContactInfo = ContactInfo(
    name: Option<string>,
    phone: Option<string>,
    email: string,
    company: string,
    designation: string)

  /** The digits of a phone capture: `trim()`, then `replace(/[\s-]/g, '')`. */
  function PhoneDigits(capture: string): string {
    Remove(Trim(capture), IsPhoneSeparator)
  }

  function TrimmedOr(c: Option<string>, default: string): string {
    match c
    case Some(v) => Trim(v)
    case None => default
  }

  /** The post-processing of the captures: every captured field trimmed, the phone
      stripped of white space and hyphens, `null` for a missing name or phone and ""
      for any other missing field. */
  function Finish(c: Captures): (info: ContactInfo)
    ensures info.name.Some? <==> c.name.Some?
    ensures info.phone.Some? <==> c.phone.Some?
    ensures c.name.Some? ==> info.name.value == Trim(c.name.value)
    ensures c.phone.Some? ==> info.phone.value == Remove(Trim(c.phone.value), IsPhoneSeparator)
    ensures c.phone.Some? ==> forall ch :: ch in info.phone.value ==> !IsPhoneSeparator(ch)
    ensures info.email == (if c.email.Some? then Trim(c.email.value) else "")
    ensures info.company == (if c.company.Some? then Trim(c.company.value) else "")
    ensures info.designation == (if c.designation.Some? then Trim(c.designation.value) else "")
  {
    ContactInfo(
      if c.name.Some? then Some(Trim(c.name.value)) else None,
      if c.phone.Some? then Some(PhoneDigits(c.phone.value)) else None,
      TrimmedOr(c.email, ""), TrimmedOr(c.company, ""), TrimmedOr(c.designation, ""))
  }

  /** `extractContactInfo(text)` of the HTTP server. */
  function ExtractContactInfo(text: string): ContactInfo {
    Finish(CapturesOf(text, IsApiSign))
  }

  // ---------------------------------------------------------------------------
  // Properties
  // ---------------------------------------------------------------------------

  lemma RunLengthSuffix(s: string, i: nat, p: char -> bool, k: nat)
    requires i <= |s| && k <= RunLength(s, i, p)
    ensures RunLength(s, i + k, p) == RunLength(s, i, p) - k
  {
    RunLengthUnique(s, i + k, p, RunLength(s, i, p) - k);
  }

  /** A phone match always contains ten digits in a row and ends with a digit. */
  lemma PhoneAtShape(s: string, q: nat, isSign: char -> bool)
    requires q <= |s| && PhoneAt(s, q, isSign).Some?
    ensures HasDigitRun(s)
    ensures IsDigit(s[PhoneAt(s, q, isSign).value - 1])
  {
    var i := if q < |s| && isSign(s[q]) then q + 1 else q;
    var r := RunLength(s, i, IsDigit);
    if r >= 13 {
      RunLengthSuffix(s, i, IsDigit, 3);
      assert RunLength(s, i + 3, IsDigit) >= 10;
    } else if r == 11 || r == 12 {
      assert RunLength(s, i, IsDigit) >= 10;
    } else {
      var t := RunLength(s, i + r + 1, IsDigit);
      assert t >= 10;
    }
  }

  /** Whenever a phone number is captured, the message also passed the contact test. */
  lemma PhoneCaptureImpliesSignal(s: string, isSign: char -> bool)
    requires PhoneCapture(s, isSign).Some?
    ensures ContactSignal(s)
  {
    var span := PhoneFrom(s, 0, isSign).value;
    PhoneAtShape(s, span.0, isSign);
  }

  /** No phone match starts at `q` when no digit run exceeds ten and no separator
      directly follows a digit. */
  lemma NoPhoneAt(s: string, q: nat, isSign: char -> bool)
    requires q <= |s|
    requires forall i :: 0 <= i <= |s| ==> RunLength(s, i, IsDigit) <= 10
    requires forall k :: 0 < k < |s| && IsPhoneSeparator(s[k]) ==> !IsDigit(s[k - 1])
    ensures PhoneAt(s, q, isSign).None?
  {
    var i := if q < |s| && isSign(s[q]) then q + 1 else q;
    var r := RunLength(s, i, IsDigit);
    assert r <= 10;
    if 1 <= r <= 3 && i + r < |s| {
      assert IsDigit(s[i + r - 1]);
    }
  }

  /** Ten digits alone are not a phone number: without a run of eleven digits or a
      separator straight after a digit, nothing is captured. */
  lemma TenDigitNumbersAreNotCaptured(s: string, isSign: char -> bool)
    requires forall i :: 0 <= i <= |s| ==> RunLength(s, i, IsDigit) <= 10
    requires forall k :: 0 < k < |s| && IsPhoneSeparator(s[k]) ==> !IsDigit(s[k - 1])
    ensures PhoneCapture(s, isSign).None?
  {
    var r := PhoneFrom(s, 0, isSign);
    if r.Some? {
      NoPhoneAt(s, r.value.0, isSign);
    }
  }

  /** The positions of the `@` and of the dot of the domain in an email match. */
  lemma EmailAtShape(s: string, b: nat) returns (at: nat, dot: nat)
    requires b <= |s| && EmailAt(s, b).Some?
    ensures b < at < dot < EmailAt(s, b).value - 1
    ensures s[at] == '@' && s[dot] == '.'
    ensures forall j :: b <= j < EmailAt(s, b).value && j != at ==> IsEmailChar(s[j])
  {
    var end := EmailAt(s, b).value;
    var l := RunLength(s, b, IsEmailChar);
    var d := b + l + 1;
    var n := RunLength(s, d, IsEmailChar);
    var k := LastDot(s, d, n, n - 2).value;
    var t := RunLength(s, d + k + 1, IsTldChar);
    assert end == d + k + 1 + t;
    at, dot := b + l, d + k;
    forall j | b <= j < end && j != at
      ensures IsEmailChar(s[j])
    {
      if j > dot {
        assert IsTldChar(s[j]);
      }
    }
  }

  /** One `@` with a dot somewhere after it; every other character is from
      `[a-zA-Z0-9._-]`. */
  predicate EmailLike(e: string) {
    exists a :: 0 < a < |e| - 1 && e[a] == '@' && '.' in e[a + 1..]
      && forall k :: 0 <= k < |e| && k != a ==> IsEmailChar(e[k])
  }

  /** The part of `s` an email match spans is email-like. */
  lemma EmailAtIsEmailLike(s: string, b: nat)
    requires b <= |s| && EmailAt(s, b).Some?
    ensures EmailLike(s[b..EmailAt(s, b).value])
  {
    var e := s[b..EmailAt(s, b).value];
    var at, dot := EmailAtShape(s, b);
    var a := at - b;
    assert e[a] == '@';
    assert e[a + 1..][dot - at - 1] == '.';
    assert forall k :: 0 <= k < |e| ==> e[k] == s[b + k];
  }

  /** A captured email has exactly one `@`, with a dot somewhere after it, and is
      otherwise made of `[a-zA-Z0-9._-]`. */
  lemma EmailShape(s: string)
    requires EmailCapture(s).Some?
    ensures EmailLike(EmailCapture(s).value)
  {
    var span := EmailFrom(s, 0).value;
    EmailAtIsEmailLike(s, span.0);
  }

  /** `name && phone` on the extracted values: both are non-empty whenever they are
      captured, so the test is the same as both patterns matching. */
  lemma ExtractedNameAndPhoneAreTruthy(text: string)
    ensures var info := ExtractContactInfo(text);
      (info.name.Some? ==> info.name.value != "") && (info.phone.Some? ==> info.phone.value != "")
  {
    CapturedNameAndPhoneAreTruthy(text, IsApiSign);
  }

  /** The same for the captures of either program, whatever sign it allows. */
  lemma CapturedNameAndPhoneAreTruthy(text: string, isSign: char -> bool)
    ensures var info := Finish(CapturesOf(text, isSign));
      (info.name.Some? ==> info.name.value != "") && (info.phone.Some? ==> info.phone.value != "")
  {
    var c := CapturesOf(text, isSign);
    if c.name.Some? {
      TrimKeepsContent(c.name.value, 0);
    }
    if c.phone.Some? {
      PhoneCaptureEndsOnDigit(text, isSign);
      PhoneDigitsKeepLastDigit(c.phone.value);
    }
  }

  /** A captured phone is non-empty and ends with a digit. */
  lemma PhoneCaptureEndsOnDigit(text: string, isSign: char -> bool)
    requires PhoneCapture(text, isSign).Some?
    ensures var p := PhoneCapture(text, isSign).value;
      |p| > 0 && IsDigit(p[|p| - 1])
  {
    var span := PhoneFrom(text, 0, isSign).value;
    PhoneAtShape(text, span.0, isSign);
  }

  /** Trimming and dropping separators keeps a final digit, so the result is not empty. */
  lemma PhoneDigitsKeepLastDigit(p: string)
    requires |p| > 0 && IsDigit(p[|p| - 1])
    ensures PhoneDigits(p) != ""
  {
    TrimKeepsContent(p, |p| - 1);
    assert p[|p| - 1] in PhoneDigits(p);
  }

  /** Trimming a string that starts with a letter and is made of letters and white
      space keeps all three properties and does not lengthen it. */
  lemma TrimmedWordsShape(c: string)
    requires 1 <= |c| && IsLetter(c[0]) && forall k :: 0 <= k < |c| ==> IsLetterOrSpace(c[k])
    ensures var t := Trim(c);
      1 <= |t| <= |c| && IsLetter(t[0]) && forall k :: 0 <= k < |t| ==> IsLetterOrSpace(t[k])
  {
    TrimRemovesOnlyOuterSpace(c);
    TrimKeepsContent(c, 0);
    var t := Trim(c);
    var i, j :| 0 <= i <= j <= |c| && t == c[i..j] && AllSpaces(c[..i]) && AllSpaces(c[j..]);
    assert !IsSpace(c[0]);
    forall k | 0 <= k < |t|
      ensures IsLetterOrSpace(t[k])
    {
      assert t[k] == c[k];
    }
  }

  /** The extracted name starts with a letter and keeps at most 31 characters, all of
      them letters or white space. */
  lemma ExtractedNameShape(text: string)
    requires ExtractContactInfo(text).name.Some?
    ensures var name := ExtractContactInfo(text).name.value;
      1 <= |name| <= 31 && IsLetter(name[0]) && forall k :: 0 <= k < |name| ==> IsLetterOrSpace(name[k])
  {
    TrimmedWordsShape(NameCapture(text).value);
  }
}
