/** The text protocol between the language model and the chatbot: recognising a
    `TOOL_CALL: name [args]` marker in a reply, turning the bracketed text into an
    argument list, and dispatching a name through the fixed table of nine portfolio
    tools (`executeFunctionCall`, identical in the HTTP server and the command-line
    client). */
module ToolCall {

  import opened Wrappers
  import opened Js
  import opened Portfolio

  // ---------------------------------------------------------------------------
  // The dispatch table
  // ---------------------------------------------------------------------------

  datatype Tool =
    | GetIntroduction | GetEducations | GetSkills | GetAllProjectsTool | GetSpecificProjectTool
    | GetProjectsBySkillTool | GetExperiences | GetExtracurricularActivities | GetSocialLinks

  /** The property name each tool is listed under. */
  function ToolName(t: Tool): string {
    match t
    case GetIntroduction => "getintroduction"
    case GetEducations => "geteducations"
    case GetSkills => "getskills"
    case GetAllProjectsTool => "getallprojects"
    case GetSpecificProjectTool => "getspecificproject"
    case GetProjectsBySkillTool => "getprojectsbyskill"
    case GetExperiences => "getexperiences"
    case GetExtracurricularActivities => "getextracurricularactivities"
    case GetSocialLinks => "getsociallinks"
  }

  const TOOL_NAMES: set<string> := {
    "getintroduction", "geteducations", "getskills", "getallprojects", "getspecificproject",
    "getprojectsbyskill", "getexperiences", "getextracurricularactivities", "getsociallinks"
  }

  /** Property lookup on the table object. */
  function LookupTool(name: string): (r: Option<Tool>)
    ensures r.Some? <==> name in TOOL_NAMES
  {
    match name
    case "getintroduction" => Some(GetIntroduction)
    case "geteducations" => Some(GetEducations)
    case "getskills" => Some(GetSkills)
    case "getallprojects" => Some(GetAllProjectsTool)
    case "getspecificproject" => Some(GetSpecificProjectTool)
    case "getprojectsbyskill" => Some(GetProjectsBySkillTool)
    case "getexperiences" => Some(GetExperiences)
    case "getextracurricularactivities" => Some(GetExtracurricularActivities)
    case "getsociallinks" => Some(GetSocialLinks)
    case _ => None
  }

  /** The table is a bijection between the nine tools and their names. */
  lemma LookupToolRoundTrip(t: Tool, name: string)
    ensures LookupTool(ToolName(t)) == Some(t)
    ensures LookupTool(name) == Some(t) ==> ToolName(t) == name
  {
  }

  /** Names every plain object inherits from `Object.prototype`; looking one of them up
      on the table finds an inherited member rather than a tool, a case this model
      does not cover. */
  const PROTOTYPE_NAMES: set<string> := {
    "constructor", "hasOwnProperty", "isPrototypeOf", "propertyIsEnumerable", "toString",
    "toLocaleString", "valueOf", "__proto__", "__defineGetter__", "__defineSetter__",
    "__lookupGetter__", "__lookupSetter__"
  }

  /** The first positional argument; a missing one is `undefined`. */
  function FirstArg(args: seq<JsValue>): JsValue {
    if |args| > 0 then args[0] else UNDEFINED
  }

  /** Calling a tool with spread arguments: the constant getters ignore them, the two
      lookups use the first. */
  function Invoke(data: PortfolioData, t: Tool, args: seq<JsValue>): Invocation {
    match t
    case GetIntroduction => Returned(Static(data.introduction))
    case GetEducations => Returned(Static(data.educations))
    case GetSkills => Returned(Static(data.skills))
    case GetAllProjectsTool => Returned(Summaries(GetAllProjects(data.projects)))
    case GetSpecificProjectTool => GetSpecificProject(data.projects, FirstArg(args))
    case GetProjectsBySkillTool => GetProjectsBySkill(data.projects, FirstArg(args))
    case GetExperiences => Returned(Static(data.experiences))
    case GetExtracurricularActivities => Returned(Static(data.extracurricularActivities))
    case GetSocialLinks => Returned(Static(data.socialLinks))
  }

  /** `executeFunctionCall(functionName, args)`: `None` is the `null` it returns for a
      name outside the table. */
  function Execute(data: PortfolioData, name: string, args: seq<JsValue>): (r: Option<Invocation>)
    requires name !in PROTOTYPE_NAMES
    ensures r.Some? <==> name in TOOL_NAMES
    ensures r.Some? ==> exists t :: ToolName(t) == name && r.value == Invoke(data, t, args)
  {
    match LookupTool(name)
    case None => None
    case Some(t) => LookupToolRoundTrip(t, name); Some(Invoke(data, t, args))
  }

  /** The contact pseudo-tool and the two store operations are not reachable through the
      table, whatever the arguments. */
  lemma OnlyPortfolioToolsDispatch(data: PortfolioData, args: seq<JsValue>)
    ensures Execute(data, "SAVE_CONTACT", args) == None
    ensures Execute(data, "notify", args) == None
    ensures Execute(data, "trackConversation", args) == None
  {
  }

  /** `getspecificproject` is a table entry rather than an inherited name, and looks up
      its first argument. */
  lemma SpecificProjectIsDispatched(data: PortfolioData, args: seq<JsValue>)
    ensures "getspecificproject" !in PROTOTYPE_NAMES
    ensures Execute(data, "getspecificproject", args) == Some(GetSpecificProject(data.projects, FirstArg(args)))
  {
    LookupToolRoundTrip(GetSpecificProjectTool, "getspecificproject");
  }

  /** The name can be written after the marker: it is one word. */
  lemma SpecificProjectNameIsAWord()
    ensures forall c :: c in "getspecificproject" ==> IsWordChar(c)
  {
    var n := "getspecificproject";
    forall c | c in n
      ensures IsWordChar(c)
    {
      var k :| 0 <= k < |n| && n[k] == c;
      assert 'a' <= n[k] <= 'z';
    }
  }

  /** The six constant getters hand back their section of the document unchanged,
      whatever they are called with. */
  lemma ConstantGettersReturnTheirSection(data: PortfolioData, args: seq<JsValue>)
    ensures Execute(data, "getintroduction", args) == Some(Returned(Static(data.introduction)))
    ensures Execute(data, "geteducations", args) == Some(Returned(Static(data.educations)))
    ensures Execute(data, "getskills", args) == Some(Returned(Static(data.skills)))
    ensures Execute(data, "getexperiences", args) == Some(Returned(Static(data.experiences)))
    ensures Execute(data, "getextracurricularactivities", args) ==
            Some(Returned(Static(data.extracurricularActivities)))
    ensures Execute(data, "getsociallinks", args) == Some(Returned(Static(data.socialLinks)))
  {
  }

  // ---------------------------------------------------------------------------
  // The marker: /TOOL_CALL:\s*(\w+)(?:\s*\[(.*?)\])?/
  // ---------------------------------------------------------------------------

  const MARKER := "TOOL_CALL:"

  /** The two capture groups of a match; an absent second group reads as "". */
  datatype ToolCallMatch = ToolCallMatch(name: string, args: string)

  /** The lazy `(.*?)\]`: the first `]` at or after `i`, provided no line terminator
      comes before it. */
  function CloseBracket(s: string, i: nat): (r: Option<nat>)
    requires i <= |s|
    ensures r.Some? ==> i <= r.value < |s| && s[r.value] == ']'
    ensures r.Some? ==> forall k :: i <= k < r.value ==> s[k] != ']' && !IsLineTerminator(s[k])
    ensures r.None? ==> forall k :: i <= k < |s| && s[k] == ']' ==>
                          exists m :: i <= m < k && IsLineTerminator(s[m])
    decreases |s| - i
  {
    if i == |s| then None
    else if s[i] == ']' then Some(i)
    else if IsLineTerminator(s[i]) then None
    else CloseBracket(s, i + 1)
  }

  /** The lazy group stops at the first `]` when no line terminator comes before it. */
  lemma {:induction false} CloseBracketFinds(s: string, i: nat, e: nat)
    requires i <= e < |s| && s[e] == ']'
    requires forall k :: i <= k < e ==> s[k] != ']' && !IsLineTerminator(s[k])
    ensures CloseBracket(s, i) == Some(e)
    decreases e - i
  {
    if i < e {
      CloseBracketFinds(s, i + 1, e);
    }
  }

  /** The optional `\[(.*?)\]` at `b`: the text up to the first `]` on the line, or ""
      when the group does not match. */
  function BracketArgs(s: string, b: nat): (args: string)
    requires b <= |s|
    ensures forall c :: c in args ==> c != ']' && !IsLineTerminator(c)
  {
    if b < |s| && s[b] == '[' then
      match CloseBracket(s, b + 1)
      case Some(e) => s[b + 1..e]
      case None => ""
    else ""
  }

  /** Where the name starts when the marker stands at `p`: after `\s*`. */
  function NameStart(s: string, p: nat): (n0: nat)
    requires p + |MARKER| <= |s|
    ensures p + |MARKER| <= n0 <= |s|
    ensures forall k :: p + |MARKER| <= k < n0 ==> IsSpace(s[k])
    ensures n0 < |s| ==> !IsSpace(s[n0])
  {
    p + |MARKER| + RunLength(s, p + |MARKER|, IsSpace)
  }

  /** Where the greedy `\w+` starting at `n0` ends. */
  function NameEnd(s: string, n0: nat): (n1: nat)
    requires n0 <= |s|
    ensures n0 <= n1 <= |s|
    ensures forall k :: n0 <= k < n1 ==> IsWordChar(s[k])
    ensures n1 < |s| ==> !IsWordChar(s[n1])
  {
    n0 + RunLength(s, n0, IsWordChar)
  }

  /** Where the `\s*` in front of the optional group ends. */
  function SkipSpace(s: string, n1: nat): (b: nat)
    requires n1 <= |s|
    ensures n1 <= b <= |s|
    ensures forall k :: n1 <= k < b ==> IsSpace(s[k])
    ensures b < |s| ==> !IsSpace(s[b])
  {
    n1 + RunLength(s, n1, IsSpace)
  }

  /** The match attempted at position `p`. `\s*` and `\w+` are greedy and nothing
      after `\w+` is compulsory, so the name is the whole word run; the optional group
      needs `[` right after the white space that follows the name. */
  function ToolCallAt(s: string, p: nat): (r: Option<ToolCallMatch>)
    requires p <= |s|
    ensures r.Some? ==> OccursAt(s, MARKER, p) && r.value.name != [] &&
                        forall c :: c in r.value.name ==> IsWordChar(c)
    ensures r.Some? ==> forall c :: c in r.value.args ==> c != ']' && !IsLineTerminator(c)
  {
    if !OccursAt(s, MARKER, p) then None
    else
      var n0 := NameStart(s, p);
      var n1 := NameEnd(s, n0);
      if n1 == n0 then None
      else
        assert forall c :: c in s[n0..n1] ==> IsWordChar(c);
        Some(ToolCallMatch(s[n0..n1], BracketArgs(s, SkipSpace(s, n1))))
  }

  /** Whether the pattern matches at `q`. */
  predicate ToolCallMatchAt(s: string, q: nat) {
    q <= |s| && ToolCallAt(s, q).Some?
  }

  /** `reply.match(...)` looks for the leftmost position where the pattern matches. */
  function ToolCallStart(s: string, p: nat): (r: Option<nat>)
    requires p <= |s|
    ensures r.Some? ==> p <= r.value <= |s| && ToolCallMatchAt(s, r.value)
    ensures r.Some? ==> forall q :: p <= q < r.value ==> !ToolCallMatchAt(s, q)
    ensures r.None? ==> forall q :: p <= q <= |s| ==> !ToolCallMatchAt(s, q)
    decreases |s| - p
  {
    if ToolCallMatchAt(s, p) then Some(p)
    else if p == |s| then None
    else ToolCallStart(s, p + 1)
  }

  /** How a match at `p` reads the text: the name is the whole word run that follows the
      marker and its white space; the arguments are the text between a `[` standing
      right after the white space that follows the name and the first `]` after it on
      the same line, and "" when there is no such `[` or `]`. Returns where the name
      starts and where the white space after it ends. */
  lemma ToolCallAtReadsTheMarker(s: string, p: nat) returns (n0: nat, b: nat)
    requires p <= |s| && ToolCallAt(s, p).Some?
    ensures var m := ToolCallAt(s, p).value; var n1 := n0 + |m.name|;
      p + |MARKER| <= n0 && n1 <= b <= |s|
      && (forall k :: p + |MARKER| <= k < n0 ==> IsSpace(s[k]))
      && s[n0..n1] == m.name && (n1 < |s| ==> !IsWordChar(s[n1]))
      && (forall k :: n1 <= k < b ==> IsSpace(s[k])) && (b < |s| ==> !IsSpace(s[b]))
    ensures var m := ToolCallAt(s, p).value;
      if b < |s| && s[b] == '[' && CloseBracket(s, b + 1).Some? then
        m.args == s[b + 1..CloseBracket(s, b + 1).value]
      else m.args == ""
  {
    n0 := NameStart(s, p);
    b := SkipSpace(s, NameEnd(s, n0));
  }

  function ParseToolCall(reply: string): (r: Option<ToolCallMatch>)
    ensures r.Some? ==> r.value.name != [] && forall c :: c in r.value.name ==> IsWordChar(c)
  {
    match ToolCallStart(reply, 0)
    case Some(q) => ToolCallAt(reply, q)
    case None => None
  }

  /** The positions of the pieces of `TOOL_CALL: w [a]`, whose name starts at 11. */
  predicate WrittenAs(s: string, w: string, a: string) {
    var n1 := 11 + |w|;
    |s| == n1 + 3 + |a| && OccursAt(s, MARKER, 0) && s[10] == ' ' && s[11..n1] == w
    && s[n1] == ' ' && s[n1 + 1] == '[' && s[n1 + 2..n1 + 2 + |a|] == a && s[n1 + 2 + |a|] == ']'
  }

  lemma WrittenCallLayout(w: string, a: string)
    ensures WrittenAs(MARKER + " " + w + " [" + a + "]", w, a)
  {
    var s := MARKER + " " + w + " [" + a + "]";
    assert s[..|MARKER|] == MARKER;
    assert s[11..11 + |w|] == w;
    assert s[13 + |w|..13 + |w| + |a|] == a;
  }

  lemma WrittenName(s: string, w: string, a: string)
    requires WrittenAs(s, w, a)
    requires w != [] && forall c :: c in w ==> IsWordChar(c)
    ensures NameStart(s, 0) == 11 && NameEnd(s, 11) == 11 + |w| && SkipSpace(s, 11 + |w|) == 12 + |w|
  {
    assert forall k :: 11 <= k < 11 + |w| ==> s[k] == w[k - 11] && s[k] in w;
    RunLengthUnique(s, |MARKER|, IsSpace, 1);
    RunLengthUnique(s, 11, IsWordChar, |w|);
    RunLengthUnique(s, 11 + |w|, IsSpace, 1);
  }

  lemma WrittenArgs(s: string, w: string, a: string)
    requires WrittenAs(s, w, a)
    requires forall c :: c in a ==> c != ']' && !IsLineTerminator(c)
    ensures BracketArgs(s, 12 + |w|) == a
  {
    var b := 13 + |w|;
    assert forall k :: b <= k < b + |a| ==> s[k] == a[k - b] && s[k] in a;
    CloseBracketFinds(s, b, b + |a|);
  }

  lemma ParseWrittenCall(s: string, w: string, a: string)
    requires WrittenAs(s, w, a)
    requires w != [] && forall c :: c in w ==> IsWordChar(c)
    requires forall c :: c in a ==> c != ']' && !IsLineTerminator(c)
    ensures ParseToolCall(s) == Some(ToolCallMatch(w, a))
  {
    WrittenName(s, w, a);
    WrittenArgs(s, w, a);
    assert s[11..11 + |w|] == w;
    assert ToolCallAt(s, 0) == Some(ToolCallMatch(w, a));
    assert ToolCallStart(s, 0) == Some(0);
  }

  /** A reply written as the system prompt asks, `TOOL_CALL: name [args]`, is read back
      as that name and those arguments. */
  lemma ParseToolCallRoundTrip(w: string, a: string)
    requires w != [] && forall c :: c in w ==> IsWordChar(c)
    requires forall c :: c in a ==> c != ']' && !IsLineTerminator(c)
    ensures ParseToolCall(MARKER + " " + w + " [" + a + "]") == Some(ToolCallMatch(w, a))
  {
    WrittenCallLayout(w, a);
    ParseWrittenCall(MARKER + " " + w + " [" + a + "]", w, a);
  }

  /** A match needs the marker, so the `includes('TOOL_CALL:')` test in front of the
      match never hides one. */
  lemma ParsedCallHasMarker(reply: string)
    ensures ParseToolCall(reply).Some? ==> Contains(reply, MARKER)
  {
    if ParseToolCall(reply).Some? {
      var q := ToolCallStart(reply, 0).value;
      assert OccursAt(reply, MARKER, q);
    }
  }

  // ---------------------------------------------------------------------------
  // Arguments
  // ---------------------------------------------------------------------------

  predicate IsQuote(c: char) {
    c == '"' || c == '\''
  }

  /** The parse of the bracketed text: nothing for an empty string; otherwise
      `JSON.parse('[' + args + ']')`, supplied as `jsonParse` (`None` when it throws),
      and on failure the single argument `args.replace(/["']/g, '').trim()`. */
  function ParseArgs(args: string, jsonParse: string -> Option<seq<JsValue>>): (r: seq<JsValue>)
    ensures args == "" ==> r == []
    ensures args != "" && jsonParse("[" + args + "]").Some? ==> r == jsonParse("[" + args + "]").value
    ensures args != "" && jsonParse("[" + args + "]").None? ==>
              |r| == 1 && r[0].JsString? && r[0].s == Trim(Remove(args, IsQuote))
  {
    if args == "" then []
    else match jsonParse("[" + args + "]")
      case Some(values) => values
      case None => [JsString(Trim(Remove(args, IsQuote)))]
  }

  /** The fallback argument carries no quotes and no outer white space. */
  lemma FallbackArgumentIsClean(args: string, jsonParse: string -> Option<seq<JsValue>>)
    requires args != "" && jsonParse("[" + args + "]").None?
    ensures var a := ParseArgs(args, jsonParse)[0].s;
            (forall c :: c in a ==> !IsQuote(c)) && Trim(a) == a
  {
    var stripped := Remove(args, IsQuote);
    var a := Trim(stripped);
    TrimRemovesOnlyOuterSpace(stripped);
    var i, j :| 0 <= i <= j <= |stripped| && a == stripped[i..j] && AllSpaces(stripped[..i]) && AllSpaces(stripped[j..]);
    assert forall c :: c in a ==> c in stripped;
    TrimIdempotent(stripped);
  }
}
