/** What the HTTP handler and the command-line client share in one turn: the prompts
    sent to the language model, the test for asking a visitor for details, and how a
    model reply is read as a tool call and carried out.

    The language model itself is outside the model: its replies are parameters, `None`
    standing for a call that throws. */
module Turn {

  import opened Wrappers
  import opened Js
  import opened Models
  import opened Portfolio
  import opened ToolCall
  import opened Contact

  /** What is sent to the model: the visitor's message, or the follow-up prompt built
      around a tool's result. */
  datatype Prompt = UserMessage(text: string) | FollowUp(data: ToolOutput)

  /** One completed `sendMessage`: the prompt and the text of the reply. */
  datatype Exchange = Exchange(prompt: Prompt, reply: string)

  /** The model's replies to the two prompts a turn may send. */
  datatype Replies = Replies(first: Option<string>, followUp: Option<string>)

  /** The form the contact prompts show, one field per line. */
  const DETAILS_FORM :=
    "Name: [Your Name]\n" +
    "Phone: [Your Phone Number]\n" +
    "Email: [Your Email] (optional)\n" +
    "Company: [Your Company] (optional)\n" +
    "Designation: [Your Role] (optional)"

  const COULD_NOT_RETRIEVE :=
    "I couldn't retrieve that information. " +
    "Is there something else you'd like to know about Anish?"

  /** `shouldAskForDetails`: a stored conversation of at least five exchanges whose
      visitor was neither asked nor notified yet. */
  predicate ShouldAskForDetails(conv: Option<Conversation>) {
    conv.Some? && conv.value.messageCount >= 5 && !conv.value.hasAskedForDetails && !conv.value.hasNotified
  }

  /** The ask is made once: after the flag is set it is never due again. */
  lemma AskedOnlyOnce(c: Conversation, count: nat)
    ensures !ShouldAskForDetails(Some(c.(hasAskedForDetails := true, messageCount := count)))
    ensures !ShouldAskForDetails(Some(c.(hasNotified := true, messageCount := count)))
  {
  }

  /** The contact branch is taken for a message that looks like contact details when
      the conversation is on record and not yet notified. */
  predicate TakesContactBranch(message: string, conv: Option<Conversation>) {
    ContactSignal(message) && conv.Some? && !conv.value.hasNotified
  }

  /** The reply of the model names no inherited `Object.prototype` member as its tool. */
  predicate NamesNoPrototypeMember(reply: string) {
    ParseToolCall(reply).Some? ==> ParseToolCall(reply).value.name !in PROTOTYPE_NAMES
  }

  /** What calling a named tool gave: nothing usable (`null` for an unknown name, or
      a falsy result), a thrown `TypeError`, or data to hand back to the model. */
  datatype CallResult = Unavailable | Threw | Data(output: ToolOutput)

  /** How a model reply is acted on. */
  datatype ToolOutcome = NoToolCall | SaveContact | Called(name: string, args: seq<JsValue>, result: CallResult)

  /** A reply is a tool call when it contains the marker and the marker pattern
      matches; `SAVE_CONTACT` is the contact request; any other name is looked up in
      the tool table with the parsed arguments. */
  function ClassifyReply(data: PortfolioData, reply: string, jsonParse: string -> Option<seq<JsValue>>): (o: ToolOutcome)
    requires NamesNoPrototypeMember(reply)
    ensures o.NoToolCall? <==> ParseToolCall(reply).None?
    ensures o.SaveContact? <==> ParseToolCall(reply).Some? && ParseToolCall(reply).value.name == "SAVE_CONTACT"
    ensures o.Called? ==>
      o.name == ParseToolCall(reply).value.name && o.name != "SAVE_CONTACT"
      && o.args == ParseArgs(ParseToolCall(reply).value.args, jsonParse)
    ensures o.Called? ==> (o.name !in TOOL_NAMES ==> o.result == Unavailable)
    ensures o.Called? && o.result.Data? ==> o.name in TOOL_NAMES && IsTruthy(o.result.output)
    ensures o.Called? && o.name in TOOL_NAMES ==>
      match Execute(data, o.name, o.args).value
      case TypeError => o.result == Threw
      case Returned(out) => o.result == if IsTruthy(out) then Data(out) else Unavailable
  {
    if !Contains(reply, MARKER) then
      ParsedCallHasMarker(reply);
      NoToolCall
    else match ParseToolCall(reply)
      case None => NoToolCall
      case Some(m) =>
        if m.name == "SAVE_CONTACT" then SaveContact
        else
          var args := ParseArgs(m.args, jsonParse);
          var result := match Execute(data, m.name, args)
            case None => Unavailable
            case Some(TypeError) => Threw
            case Some(Returned(out)) => if IsTruthy(out) then Data(out) else Unavailable;
          Called(m.name, args, result)
  }

  /** A reply whose call is `getspecificproject` with a JSON string equal to a stored
      title ignoring case hands that project's record (or an earlier one with the same
      title) to the model. */
  lemma SpecificProjectReachesTheModel(data: PortfolioData, reply: string, a: string, t: string, i: nat,
                                       jsonParse: string -> Option<seq<JsValue>>)
    requires ParseToolCall(reply) == Some(ToolCallMatch("getspecificproject", a))
    requires a != "" && jsonParse("[" + a + "]") == Some([JsString(t)])
    requires i < |data.projects| && data.projects[i].title != ""
    requires LowerStr(t) == LowerStr(data.projects[i].title)
    ensures NamesNoPrototypeMember(reply) &&
      var o := ClassifyReply(data, reply, jsonParse);
      o.Called? && o.name == "getspecificproject" && o.args == [JsString(t)] &&
      o.result.Data? && o.result.output.Record? && o.result.output.project in data.projects[..i + 1] &&
      LowerStr(o.result.output.project.title) == LowerStr(t)
  {
    SpecificProjectIsDispatched(data, [JsString(t)]);
    StoredTitleIsFound(data.projects, i, t);
  }

  /** The same for the reply written as the system prompt asks, `TOOL_CALL:
      getspecificproject [a]`. */
  lemma WrittenSpecificProjectCall(data: PortfolioData, a: string, t: string, i: nat,
                                   jsonParse: string -> Option<seq<JsValue>>)
    requires forall c :: c in a ==> c != ']' && !IsLineTerminator(c)
    requires a != "" && jsonParse("[" + a + "]") == Some([JsString(t)])
    requires i < |data.projects| && data.projects[i].title != ""
    requires LowerStr(t) == LowerStr(data.projects[i].title)
    ensures var reply := MARKER + " " + "getspecificproject" + " [" + a + "]";
      NamesNoPrototypeMember(reply) &&
      var o := ClassifyReply(data, reply, jsonParse);
      o.Called? && o.args == [JsString(t)] && o.result.Data? && o.result.output.Record? &&
      o.result.output.project in data.projects[..i + 1]
  {
    SpecificProjectNameIsAWord();
    ParseToolCallRoundTrip("getspecificproject", a);
    SpecificProjectReachesTheModel(data, MARKER + " " + "getspecificproject" + " [" + a + "]", a, t, i, jsonParse);
  }
}
