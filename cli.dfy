/** One step of the command-line client: the handling of one line the visitor types.

    The client keeps a single session key and a single chat for its whole run. It shares
    the database helpers, the contact capture and the reading of tool calls with the
    HTTP server, but differs in what it records: template replies, the contact request
    and the apology for a missing tool are shown without being recorded, and a tool's
    follow-up answer is trimmed before it is shown and recorded. Console output is
    modelled as the list of lines the step prints. */
module Cli {

  import opened Wrappers
  import opened Js
  import opened Models
  import opened Store
  import opened Portfolio
  import opened ToolCall
  import opened Contact
  import opened Turn

  /** What one step prints. */
  datatype Line =
    | Goodbye
    | Assistant(text: string)
    | SavedDetails(name: string, phone: string, email: string, company: string)
    | Calling(tool: string)
    | ErrorLine

  /** The database call that throws, for each helper the step may call. */
  datatype CliFaults = CliFaults(lookup: Fault, askSave: Fault, notify: Fault, track: Fault, saveContact: Fault)

  const NO_CLI_FAULTS := CliFaults(NoFault, NoFault, NoFault, NoFault, NoFault)

  /** The database and the history of the client's one chat. */
  datatype CliState = CliState(db: Db, history: seq<Exchange>)

  const PROACTIVE_ASK :=
    "You seem very interested in Anish's work! " +
    "I'd love to learn more about you. " +
    "Could you share your name, phone number, " +
    "and optionally your email, company, and designation? " +
    "This will help Anish connect with you better."

  const ASK_FORMAT :=
    "I'd love to help Anish connect with you! " +
    "Please provide your details in this format:\n\n" +
    DETAILS_FORM

  const SAVE_CONTACT_PROMPT :=
    "Great! " +
    "I'd be happy to notify Anish about your interest. " +
    "Please share your contact details:\n\n" +
    DETAILS_FORM + "\n\n" +
    "Or simply type your name and phone number."

  /** `userInput.toLowerCase() === 'exit'`. Folding ASCII letters is exact here: no
      other character lower-cases to one of the letters of `exit`. */
  predicate IsExit(input: string) {
    LowerStr(input) == "exit"
  }

  /** The new state, the printed lines, and whether the client keeps reading. */
  function CliStep(st: CliState, data: PortfolioData, key: string, input: string, replies: Replies,
                   jsonParse: string -> Option<seq<JsValue>>, faults: CliFaults): (r: (CliState, seq<Line>, bool))
    requires replies.first.Some? ==> NamesNoPrototypeMember(replies.first.value)
    ensures r.2 <==> !IsExit(input)
    ensures IsExit(input) ==> r.0 == st && r.1 == [Goodbye]
  {
    if IsExit(input) then (st, [Goodbye], false)
    else
      var conv := GetConversationSpec(st.db, key, faults.lookup);
      var ask := ShouldAskForDetails(conv);
      var askLines := if ask then [Assistant(PROACTIVE_ASK)] else [];
      var (db1, ok) := if ask then MarkAskedSpec(st.db, key, faults.askSave) else (st.db, true);
      if !ok then (st, askLines + [ErrorLine], true)
      else
        var (st', lines) :=
          if TakesContactBranch(input, conv) then CliContactStage(CliState(db1, st.history), key, input, faults)
          else CliModelStage(CliState(db1, st.history), data, key, input, conv, replies, jsonParse, faults);
        (st', askLines + lines, true)
  }

  /** Contact details: both a name and a phone matched, raw, before any trimming. */
  function CliContactStage(st: CliState, key: string, input: string, faults: CliFaults): (r: (CliState, seq<Line>))
    ensures r.0.history == st.history
    ensures var caps := CapturesOf(input, IsPlus);
      !(caps.name.Some? && caps.phone.Some?) ==> r == (st, [Assistant(ASK_FORMAT)])
    ensures var caps := CapturesOf(input, IsPlus);
      caps.name.Some? && caps.phone.Some? ==>
        var info := Finish(caps);
        |r.1| == 2 && r.1[0].Assistant?
        && r.1[1] == SavedDetails(info.name.value, info.phone.value, info.email, info.company)
  {
    var caps := CapturesOf(input, IsPlus);
    if caps.name.Some? && caps.phone.Some? then
      var info := Finish(caps);
      var name := info.name.value;
      var phone := info.phone.value;
      var (db2, reply) := NotifySpec(st.db, name, phone, info.email, info.company, info.designation, key, faults.notify);
      (CliState(TrackSpec(db2, key, input, reply, faults.track).0, st.history),
       [Assistant(reply), SavedDetails(name, phone, info.email, info.company)])
    else (st, [Assistant(ASK_FORMAT)])
  }

  function CliModelStage(st: CliState, data: PortfolioData, key: string, input: string, conv: Option<Conversation>,
                         replies: Replies, jsonParse: string -> Option<seq<JsValue>>, faults: CliFaults)
    : (r: (CliState, seq<Line>))
    requires replies.first.Some? ==> NamesNoPrototypeMember(replies.first.value)
  {
    if replies.first.None? then (st, [ErrorLine])
    else
      var text := replies.first.value;
      var history := st.history + [Exchange(UserMessage(input), text)];
      CliReplyStage(st.db, history, key, input, conv, text, ClassifyReply(data, text, jsonParse), replies.followUp, faults)
  }

  function CliReplyStage(db: Db, history: seq<Exchange>, key: string, input: string, conv: Option<Conversation>,
                         text: string, outcome: ToolOutcome, followUp: Option<string>, faults: CliFaults)
    : (r: (CliState, seq<Line>))
    ensures r.0.db.notifications == db.notifications
    ensures outcome.NoToolCall? ==> r.1 == [Assistant(text)] && r.0.history == history
    ensures outcome.SaveContact? ==>
      r.0.history == history && r.0.db.messages == db.messages && |r.1| >= 1 && r.1[0] == Assistant(SAVE_CONTACT_PROMPT)
    ensures outcome.Called? ==> |r.1| == 2 && r.1[0] == Calling(outcome.name)
    ensures outcome.Called? && outcome.result.Unavailable? ==>
      r == (CliState(db, history), [Calling(outcome.name), Assistant(COULD_NOT_RETRIEVE)])
    ensures outcome.Called? && outcome.result.Threw? ==> r == (CliState(db, history), [Calling(outcome.name), ErrorLine])
    ensures outcome.Called? && outcome.result.Data? && followUp.Some? ==>
      r.1[1] == Assistant(Trim(followUp.value))
      && r.0.history == history + [Exchange(FollowUp(outcome.result.output), followUp.value)]
  {
    match outcome
    case NoToolCall =>
      (CliState(TrackSpec(db, key, input, text, faults.track).0, history), [Assistant(text)])
    case SaveContact =>
      var (db1, ok) := if conv.Some? then MarkAskedSpec(db, key, faults.saveContact) else (db, true);
      (CliState(db1, history), if ok then [Assistant(SAVE_CONTACT_PROMPT)] else [Assistant(SAVE_CONTACT_PROMPT), ErrorLine])
    case Called(name, _, Threw) => (CliState(db, history), [Calling(name), ErrorLine])
    case Called(name, _, Unavailable) => (CliState(db, history), [Calling(name), Assistant(COULD_NOT_RETRIEVE)])
    case Called(name, _, Data(out)) =>
      if followUp.None? then (CliState(db, history), [Calling(name), ErrorLine])
      else
        var final := Trim(followUp.value);
        (CliState(TrackSpec(db, key, input, final, faults.track).0, history + [Exchange(FollowUp(out), followUp.value)]),
         [Calling(name), Assistant(final)])
  }

  // ---------------------------------------------------------------------------
  // The client, over the store and its chat
  // ---------------------------------------------------------------------------

  class Client {
    const store: Store
    const convKey: string
    var history: seq<Exchange>

    function State(): CliState
      reads this, store
    {
      CliState(store.State(), history)
    }

    constructor(store: Store, convKey: string)
      ensures this.store == store && this.convKey == convKey && history == []
    {
      this.store := store;
      this.convKey := convKey;
      history := [];
    }

    /** `chat.sendMessage(prompt)`: a reply extends the history, a throw leaves it. */
    method SendMessage(prompt: Prompt, reply: Option<string>) returns (text: Option<string>)
      modifies this
      ensures text == reply
      ensures history == if reply.Some? then old(history) + [Exchange(prompt, reply.value)] else old(history)
    {
      text := reply;
      if reply.Some? {
        history := history + [Exchange(prompt, reply.value)];
      }
    }

    method HandleUserInput(data: PortfolioData, input: string, replies: Replies,
                           jsonParse: string -> Option<seq<JsValue>>, faults: CliFaults)
      returns (lines: seq<Line>, more: bool)
      requires replies.first.Some? ==> NamesNoPrototypeMember(replies.first.value)
      modifies this, store
      ensures (State(), lines, more) == CliStep(old(State()), data, convKey, input, replies, jsonParse, faults)
    {
      if IsExit(input) {
        return [Goodbye], false;
      }
      more := true;
      var conv := store.GetConversation(convKey, faults.lookup);
      lines := [];
      if ShouldAskForDetails(conv) {
        lines := [Assistant(PROACTIVE_ASK)];
        var ok := store.MarkAsked(convKey, faults.askSave);
        if !ok {
          lines := lines + [ErrorLine];
          return;
        }
      }
      var rest: seq<Line>;
      if TakesContactBranch(input, conv) {
        rest := HandleContact(input, faults);
      } else {
        rest := HandleModel(data, input, conv, replies, jsonParse, faults);
      }
      lines := lines + rest;
    }

    method HandleContact(input: string, faults: CliFaults) returns (lines: seq<Line>)
      modifies store
      ensures (State(), lines) == CliContactStage(old(State()), convKey, input, faults)
    {
      var caps := CapturesOf(input, IsPlus);
      if caps.name.Some? && caps.phone.Some? {
        var info := Finish(caps);
        var reply := store.Notify(info.name.value, info.phone.value, info.email, info.company,
                                  info.designation, convKey, faults.notify);
        lines := [Assistant(reply), SavedDetails(info.name.value, info.phone.value, info.email, info.company)];
        var _ := store.TrackConversation(convKey, input, reply, faults.track);
      } else {
        lines := [Assistant(ASK_FORMAT)];
      }
    }

    method HandleModel(data: PortfolioData, input: string, conv: Option<Conversation>, replies: Replies,
                       jsonParse: string -> Option<seq<JsValue>>, faults: CliFaults) returns (lines: seq<Line>)
      requires replies.first.Some? ==> NamesNoPrototypeMember(replies.first.value)
      modifies this, store
      ensures (State(), lines) == CliModelStage(old(State()), data, convKey, input, conv, replies, jsonParse, faults)
    {
      var text := SendMessage(UserMessage(input), replies.first);
      if text.None? {
        return [ErrorLine];
      }
      var outcome := ClassifyReply(data, text.value, jsonParse);
      lines := HandleReply(input, conv, text.value, outcome, replies.followUp, faults);
    }

    method HandleReply(input: string, conv: Option<Conversation>, text: string, outcome: ToolOutcome,
                       followUp: Option<string>, faults: CliFaults) returns (lines: seq<Line>)
      modifies this, store
      ensures (State(), lines) == CliReplyStage(old(store.State()), old(history), convKey, input, conv, text, outcome, followUp, faults)
    {
      match outcome {
        case NoToolCall =>
          lines := [Assistant(text)];
          var _ := store.TrackConversation(convKey, input, text, faults.track);
        case SaveContact =>
          var ok := true;
          if conv.Some? {
            ok := store.MarkAsked(convKey, faults.saveContact);
          }
          lines := if ok then [Assistant(SAVE_CONTACT_PROMPT)] else [Assistant(SAVE_CONTACT_PROMPT), ErrorLine];
        case Called(name, _, Threw) =>
          lines := [Calling(name), ErrorLine];
        case Called(name, _, Unavailable) =>
          lines := [Calling(name), Assistant(COULD_NOT_RETRIEVE)];
        case Called(name, _, Data(out)) =>
          var follow := SendMessage(FollowUp(out), followUp);
          if follow.None? {
            return [Calling(name), ErrorLine];
          }
          var final := Trim(follow.value);
          lines := [Calling(name), Assistant(final)];
          var _ := store.TrackConversation(convKey, input, final, faults.track);
      }
    }
  }

  // ---------------------------------------------------------------------------
  // Properties
  // ---------------------------------------------------------------------------

  lemma CliReplyStageGrows(db: Db, history: seq<Exchange>, key: string, input: string, conv: Option<Conversation>,
                           text: string, outcome: ToolOutcome, followUp: Option<string>, faults: CliFaults)
    ensures var r := CliReplyStage(db, history, key, input, conv, text, outcome, followUp, faults);
      Grows(db, r.0.db) && (DbValid(db) ==> DbValid(r.0.db)) && history <= r.0.history
  {
    TrackGrows(db, key, input, text, faults.track);
    TrackKeepsValid(db, key, input, text, faults.track);
    MarkAskedGrows(db, key, faults.saveContact);
    FlagUpdatesKeepValid(db, key, "", faults.saveContact);
    if followUp.Some? {
      TrackGrows(db, key, input, Trim(followUp.value), faults.track);
      TrackKeepsValid(db, key, input, Trim(followUp.value), faults.track);
    }
  }

  lemma CliContactStageGrows(st: CliState, key: string, input: string, faults: CliFaults)
    ensures var r := CliContactStage(st, key, input, faults);
      Grows(st.db, r.0.db) && (DbValid(st.db) ==> DbValid(r.0.db))
      && (r.0.db.notifications != st.db.notifications ==> |r.1| == 2 && r.1[1].SavedDetails?)
  {
    var caps := CapturesOf(input, IsPlus);
    if caps.name.Some? && caps.phone.Some? {
      var info := Finish(caps);
      var (db2, reply) := NotifySpec(st.db, info.name.value, info.phone.value, info.email, info.company,
                                     info.designation, key, faults.notify);
      NotifyGrows(st.db, info.name.value, info.phone.value, info.email, info.company, info.designation, key, faults.notify);
      NotifyKeepsValid(st.db, info.name.value, info.phone.value, info.email, info.company,
                       info.designation, key, faults.notify);
      TrackGrows(db2, key, input, reply, faults.track);
      TrackKeepsValid(db2, key, input, reply, faults.track);
      GrowsTransitive(st.db, db2, TrackSpec(db2, key, input, reply, faults.track).0);
    }
  }

  /** Whatever fails, a step of the client only adds to the database and to the chat
      history, keeps the stored records valid, and stores a new lead only in a step
      that prints the saved details. */
  lemma CliStepOnlyGrows(st: CliState, data: PortfolioData, key: string, input: string, replies: Replies,
                         jsonParse: string -> Option<seq<JsValue>>, faults: CliFaults)
    requires replies.first.Some? ==> NamesNoPrototypeMember(replies.first.value)
    ensures var r := CliStep(st, data, key, input, replies, jsonParse, faults);
      Grows(st.db, r.0.db) && (DbValid(st.db) ==> DbValid(r.0.db)) && st.history <= r.0.history
      && (r.0.db.notifications != st.db.notifications ==> exists l :: l in r.1 && l.SavedDetails?)
  {
    var r := CliStep(st, data, key, input, replies, jsonParse, faults);
    if !IsExit(input) {
      var conv := GetConversationSpec(st.db, key, faults.lookup);
      var ask := ShouldAskForDetails(conv);
      var db1 := if ask then MarkAskedSpec(st.db, key, faults.askSave).0 else st.db;
      MarkAskedGrows(st.db, key, faults.askSave);
      FlagUpdatesKeepValid(st.db, key, "", faults.askSave);
      if ask && !MarkAskedSpec(st.db, key, faults.askSave).1 {
      } else {
        var askLines := if ask then [Assistant(PROACTIVE_ASK)] else [];
        if TakesContactBranch(input, conv) {
          var c := CliContactStage(CliState(db1, st.history), key, input, faults);
          CliContactStageGrows(CliState(db1, st.history), key, input, faults);
          assert r == (c.0, askLines + c.1, true);
          if r.0.db.notifications != st.db.notifications {
            assert r.1[|askLines| + 1] == c.1[1];
          }
        } else if replies.first.Some? {
          var text := replies.first.value;
          var history := st.history + [Exchange(UserMessage(input), text)];
          var m := CliReplyStage(db1, history, key, input, conv, text, ClassifyReply(data, text, jsonParse),
                                 replies.followUp, faults);
          CliReplyStageGrows(db1, history, key, input, conv, text, ClassifyReply(data, text, jsonParse),
                             replies.followUp, faults);
          assert r == (m.0, askLines + m.1, true);
        }
        GrowsTransitive(st.db, db1, r.0.db);
      }
    }
  }

  /** The state of a step that reaches the model, unfolded: the flag save (if any)
      succeeded and the reply stage ran on its result. */
  lemma ModelStepUnfolds(st: CliState, data: PortfolioData, key: string, input: string, replies: Replies,
                         jsonParse: string -> Option<seq<JsValue>>, faults: CliFaults) returns (db1: Db)
    requires !IsExit(input) && replies.first.Some? && NamesNoPrototypeMember(replies.first.value)
    requires faults.askSave == NoFault
    requires !TakesContactBranch(input, GetConversationSpec(st.db, key, faults.lookup))
    ensures var conv := GetConversationSpec(st.db, key, faults.lookup);
      db1 == if ShouldAskForDetails(conv) then MarkAskedSpec(st.db, key, NoFault).0 else st.db
    ensures db1.messages == st.db.messages && db1.notifications == st.db.notifications
    ensures DbValid(st.db) ==> DbValid(db1)
    ensures var conv := GetConversationSpec(st.db, key, faults.lookup);
      var text := replies.first.value;
      var r := CliReplyStage(db1, st.history + [Exchange(UserMessage(input), text)], key, input, conv, text,
                             ClassifyReply(data, text, jsonParse), replies.followUp, faults);
      var askLines := if ShouldAskForDetails(conv) then [Assistant(PROACTIVE_ASK)] else [];
      CliStep(st, data, key, input, replies, jsonParse, faults) == (r.0, askLines + r.1, true)
  {
    var conv := GetConversationSpec(st.db, key, faults.lookup);
    db1 := if ShouldAskForDetails(conv) then MarkAskedSpec(st.db, key, NoFault).0 else st.db;
    FlagUpdatesKeepValid(st.db, key, "", NoFault);
  }

  /** Unlike the HTTP server, the client neither records nor counts a turn whose tool is
      missing: the visitor sees the apology and the database keeps its messages. */
  lemma UnavailableToolIsNotRecorded(st: CliState, data: PortfolioData, key: string, input: string,
                                     replies: Replies, jsonParse: string -> Option<seq<JsValue>>, faults: CliFaults)
    requires !IsExit(input) && replies.first.Some? && NamesNoPrototypeMember(replies.first.value)
    requires faults.askSave == NoFault
    requires !TakesContactBranch(input, GetConversationSpec(st.db, key, faults.lookup))
    requires ClassifyReply(data, replies.first.value, jsonParse).Called?
    requires ClassifyReply(data, replies.first.value, jsonParse).result.Unavailable?
    ensures var (st', lines, more) := CliStep(st, data, key, input, replies, jsonParse, faults);
      st'.db.messages == st.db.messages && st'.db.notifications == st.db.notifications
      && |lines| >= 2 && lines[|lines| - 1] == Assistant(COULD_NOT_RETRIEVE)
      && st'.history == st.history + [Exchange(UserMessage(input), replies.first.value)]
  {
    var db1 := ModelStepUnfolds(st, data, key, input, replies, jsonParse, faults);
  }

  lemma FollowUpStageRecords(db: Db, history: seq<Exchange>, key: string, input: string, conv: Option<Conversation>,
                             text: string, name: string, args: seq<JsValue>, out: ToolOutput, followUp: string)
    requires DbValid(db) && key != "" && input != "" && Trim(followUp) != ""
    ensures var r := CliReplyStage(db, history, key, input, conv, text, Called(name, args, Data(out)),
                                   Some(followUp), NO_CLI_FAULTS);
      r.0.db.messages == db.messages + [Message(input, User, None, key), Message(Trim(followUp), Bot, None, key)]
      && r.1 == [Calling(name), Assistant(Trim(followUp))]
      && r.0.history == history + [Exchange(FollowUp(out), followUp)]
  {
    TrackRecordsOneExchange(db, key, input, Trim(followUp));
  }

  /** A tool's follow-up answer is trimmed, and the trimmed text is what the visitor sees
      and what is stored, after the visitor's own line; the untrimmed text stays in
      the chat history. */
  lemma FollowUpIsTrimmedAndRecorded(st: CliState, data: PortfolioData, key: string, input: string,
                                     replies: Replies, jsonParse: string -> Option<seq<JsValue>>)
    requires !IsExit(input) && replies.first.Some? && NamesNoPrototypeMember(replies.first.value)
    requires replies.followUp.Some? && Trim(replies.followUp.value) != ""
    requires DbValid(st.db) && key != "" && input != ""
    requires !TakesContactBranch(input, GetConversationSpec(st.db, key, NoFault))
    requires ClassifyReply(data, replies.first.value, jsonParse).Called?
    requires ClassifyReply(data, replies.first.value, jsonParse).result.Data?
    ensures var (st', lines, more) := CliStep(st, data, key, input, replies, jsonParse, NO_CLI_FAULTS);
      var final := Trim(replies.followUp.value);
      st'.db.messages == st.db.messages + [Message(input, User, None, key), Message(final, Bot, None, key)]
      && |lines| >= 1 && lines[|lines| - 1] == Assistant(final)
      && st'.history == st.history + [Exchange(UserMessage(input), replies.first.value),
                                      Exchange(FollowUp(ClassifyReply(data, replies.first.value, jsonParse).result.output),
                                               replies.followUp.value)]
  {
    var db1 := ModelStepUnfolds(st, data, key, input, replies, jsonParse, NO_CLI_FAULTS);
    var text := replies.first.value;
    var o := ClassifyReply(data, text, jsonParse);
    FollowUpStageRecords(db1, st.history + [Exchange(UserMessage(input), text)], key, input,
                         GetConversationSpec(st.db, key, NoFault), text, o.name, o.args, o.result.output,
                         replies.followUp.value);
  }

  /** Contact-like input without both a name and a phone gets the format template and
      is not recorded. */
  lemma IncompleteContactIsNotRecorded(st: CliState, data: PortfolioData, key: string, input: string,
                                       replies: Replies, jsonParse: string -> Option<seq<JsValue>>, faults: CliFaults)
    requires !IsExit(input) && (replies.first.Some? ==> NamesNoPrototypeMember(replies.first.value))
    requires faults.askSave == NoFault
    requires TakesContactBranch(input, GetConversationSpec(st.db, key, faults.lookup))
    requires !(CapturesOf(input, IsPlus).name.Some? && CapturesOf(input, IsPlus).phone.Some?)
    ensures var (st', lines, more) := CliStep(st, data, key, input, replies, jsonParse, faults);
      st'.db.messages == st.db.messages && st'.db.notifications == st.db.notifications
      && st'.history == st.history
      && |lines| >= 1 && lines[|lines| - 1] == Assistant(ASK_FORMAT)
  {
    var conv := GetConversationSpec(st.db, key, faults.lookup);
    var db1 := if ShouldAskForDetails(conv) then MarkAskedSpec(st.db, key, NoFault).0 else st.db;
    var askLines := if ShouldAskForDetails(conv) then [Assistant(PROACTIVE_ASK)] else [];
    assert CliStep(st, data, key, input, replies, jsonParse, faults)
        == (CliState(db1, st.history), askLines + [Assistant(ASK_FORMAT)], true);
  }

  /** The model's contact request is shown and marks the conversation as asked, but the
      exchange is not recorded. */
  lemma SaveContactIsNotRecorded(st: CliState, data: PortfolioData, key: string, input: string,
                                 replies: Replies, jsonParse: string -> Option<seq<JsValue>>, faults: CliFaults)
    requires !IsExit(input) && replies.first.Some? && NamesNoPrototypeMember(replies.first.value)
    requires faults.askSave == NoFault && faults.saveContact == NoFault
    requires !TakesContactBranch(input, GetConversationSpec(st.db, key, faults.lookup))
    requires ClassifyReply(data, replies.first.value, jsonParse).SaveContact?
    ensures var (st', lines, more) := CliStep(st, data, key, input, replies, jsonParse, faults);
      st'.db.messages == st.db.messages && st'.db.notifications == st.db.notifications
      && |lines| >= 1 && lines[|lines| - 1] == Assistant(SAVE_CONTACT_PROMPT)
      && (GetConversationSpec(st.db, key, faults.lookup).Some? ==> st'.db.conversations[key].hasAskedForDetails)
  {
    var db1 := ModelStepUnfolds(st, data, key, input, replies, jsonParse, faults);
    var conv := GetConversationSpec(st.db, key, faults.lookup);
    if conv.Some? {
      assert key in db1.conversations;
    }
  }

  /** A reply that is no tool call is shown and recorded as it came. */
  lemma PlainReplyIsRecordedVerbatim(st: CliState, data: PortfolioData, key: string, input: string,
                                     replies: Replies, jsonParse: string -> Option<seq<JsValue>>)
    requires !IsExit(input) && replies.first.Some? && NamesNoPrototypeMember(replies.first.value)
    requires DbValid(st.db) && key != "" && input != "" && replies.first.value != ""
    requires !TakesContactBranch(input, GetConversationSpec(st.db, key, NoFault))
    requires ClassifyReply(data, replies.first.value, jsonParse).NoToolCall?
    ensures var (st', lines, more) := CliStep(st, data, key, input, replies, jsonParse, NO_CLI_FAULTS);
      st'.db.messages == st.db.messages
        + [Message(input, User, None, key), Message(replies.first.value, Bot, None, key)]
      && |lines| >= 1 && lines[|lines| - 1] == Assistant(replies.first.value)
  {
    var db1 := ModelStepUnfolds(st, data, key, input, replies, jsonParse, NO_CLI_FAULTS);
    TrackRecordsOneExchange(db1, key, input, replies.first.value);
  }

  /** A step that takes the contact branch is the contact stage after the proactive
      ask, on a database whose messages and notifications are those of the step's start. */
  lemma ContactStepUnfolds(st: CliState, data: PortfolioData, key: string, input: string, replies: Replies,
                           jsonParse: string -> Option<seq<JsValue>>, faults: CliFaults) returns (db1: Db)
    requires !IsExit(input) && (replies.first.Some? ==> NamesNoPrototypeMember(replies.first.value))
    requires faults.askSave == NoFault
    requires TakesContactBranch(input, GetConversationSpec(st.db, key, faults.lookup))
    ensures var conv := GetConversationSpec(st.db, key, faults.lookup);
      db1 == if ShouldAskForDetails(conv) then MarkAskedSpec(st.db, key, NoFault).0 else st.db
    ensures db1.messages == st.db.messages && db1.notifications == st.db.notifications
    ensures DbValid(st.db) ==> DbValid(db1)
    ensures var conv := GetConversationSpec(st.db, key, faults.lookup);
      var r := CliContactStage(CliState(db1, st.history), key, input, faults);
      var askLines := if ShouldAskForDetails(conv) then [Assistant(PROACTIVE_ASK)] else [];
      CliStep(st, data, key, input, replies, jsonParse, faults) == (r.0, askLines + r.1, true)
  {
    var conv := GetConversationSpec(st.db, key, faults.lookup);
    db1 := if ShouldAskForDetails(conv) then MarkAskedSpec(st.db, key, NoFault).0 else st.db;
    FlagUpdatesKeepValid(st.db, key, "", NoFault);
  }

  /** The contact stage when `notify` cannot even look the conversation up: the error
      reply, then the saved-details banner, and no lead. */
  lemma ContactStageWithNotifyDown(st: CliState, key: string, input: string, faults: CliFaults)
    requires faults.notify == FailAt(0)
    requires CapturesOf(input, IsPlus).name.Some? && CapturesOf(input, IsPlus).phone.Some?
    ensures var r := CliContactStage(st, key, input, faults);
      var info := Finish(CapturesOf(input, IsPlus));
      r.0.db.notifications == st.db.notifications
      && r.1 == [Assistant(NOTIFY_ERROR), SavedDetails(info.name.value, info.phone.value, info.email, info.company)]
  {
    var info := Finish(CapturesOf(input, IsPlus));
    assert NotifySpec(st.db, info.name.value, info.phone.value, info.email, info.company, info.designation,
                      key, faults.notify) == (st.db, NOTIFY_ERROR);
    TrackWritesAtMostItsOwn(st.db, key, input, NOTIFY_ERROR, faults.track);
  }

  /** The client prints the saved details after notifying, whatever `notify` answered:
      when the first database call of `notify` fails, no lead is stored, yet the details
      are still shown as saved. */
  lemma SavedDetailsShownWhenNothingWasSaved(st: CliState, data: PortfolioData, key: string, input: string,
                                             replies: Replies, jsonParse: string -> Option<seq<JsValue>>,
                                             faults: CliFaults)
    requires !IsExit(input) && (replies.first.Some? ==> NamesNoPrototypeMember(replies.first.value))
    requires faults.askSave == NoFault && faults.notify == FailAt(0)
    requires TakesContactBranch(input, GetConversationSpec(st.db, key, faults.lookup))
    requires CapturesOf(input, IsPlus).name.Some? && CapturesOf(input, IsPlus).phone.Some?
    ensures var (st', lines, more) := CliStep(st, data, key, input, replies, jsonParse, faults);
      var info := Finish(CapturesOf(input, IsPlus));
      st'.db.notifications == st.db.notifications
      && |lines| >= 2
      && lines[|lines| - 2..] == [Assistant(NOTIFY_ERROR), SavedDetails(info.name.value, info.phone.value, info.email, info.company)]
  {
    var db1 := ContactStepUnfolds(st, data, key, input, replies, jsonParse, faults);
    var askLines := if ShouldAskForDetails(GetConversationSpec(st.db, key, faults.lookup)) then [Assistant(PROACTIVE_ASK)] else [];
    var c := CliContactStage(CliState(db1, st.history), key, input, faults);
    ContactStageWithNotifyDown(CliState(db1, st.history), key, input, faults);
    assert (askLines + c.1)[|askLines + c.1| - 2..] == c.1;
  }

  /** When the ask is due and its flag is saved, the step opens with the proactive
      request and leaves the conversation marked as asked, whatever the rest of it does. */
  lemma DueAskIsPrintedAndSaved(st: CliState, data: PortfolioData, key: string, input: string, replies: Replies,
                                jsonParse: string -> Option<seq<JsValue>>, faults: CliFaults)
    requires !IsExit(input) && (replies.first.Some? ==> NamesNoPrototypeMember(replies.first.value))
    requires faults.askSave == NoFault
    requires ShouldAskForDetails(GetConversationSpec(st.db, key, faults.lookup))
    ensures var r := CliStep(st, data, key, input, replies, jsonParse, faults);
      |r.1| >= 1 && r.1[0] == Assistant(PROACTIVE_ASK)
      && key in r.0.db.conversations && r.0.db.conversations[key].hasAskedForDetails
  {
    var conv := GetConversationSpec(st.db, key, faults.lookup);
    var db1 := MarkAskedSpec(st.db, key, NoFault).0;
    assert key in db1.conversations && db1.conversations[key].hasAskedForDetails;
    var r: (CliState, seq<Line>);
    if TakesContactBranch(input, conv) {
      var d := ContactStepUnfolds(st, data, key, input, replies, jsonParse, faults);
      assert d == db1;
      r := CliContactStage(CliState(d, st.history), key, input, faults);
      CliContactStageGrows(CliState(d, st.history), key, input, faults);
    } else if replies.first.Some? {
      var d := ModelStepUnfolds(st, data, key, input, replies, jsonParse, faults);
      assert d == db1;
      var text := replies.first.value;
      r := CliReplyStage(d, st.history + [Exchange(UserMessage(input), text)], key, input, conv, text,
                         ClassifyReply(data, text, jsonParse), replies.followUp, faults);
      CliReplyStageGrows(d, st.history + [Exchange(UserMessage(input), text)], key, input, conv, text,
                         ClassifyReply(data, text, jsonParse), replies.followUp, faults);
    } else {
      r := (CliState(db1, st.history), [ErrorLine]);
    }
    assert CliStep(st, data, key, input, replies, jsonParse, faults) == (r.0, [Assistant(PROACTIVE_ASK)] + r.1, true);
  }

  /** The contact stage without faults, in a stored and unnotified conversation, with
      a name and a phone captured. */
  lemma CompleteContactStage(st: CliState, key: string, input: string)
    requires DbValid(st.db) && key != "" && input != ""
    requires key in st.db.conversations && !st.db.conversations[key].hasNotified
    requires CapturesOf(input, IsPlus).name.Some? && CapturesOf(input, IsPlus).phone.Some?
    ensures var r := CliContactStage(st, key, input, NO_CLI_FAULTS);
      var info := Finish(CapturesOf(input, IsPlus));
      var thanks := ThankYou(info.name.value, info.phone.value, info.email);
      r.0.db.notifications == st.db.notifications
        + [Notification(info.name.value, info.email, info.phone.value, info.company, info.designation, key, false)]
      && r.0.db.messages == st.db.messages + [Message(input, User, None, key), Message(thanks, Bot, None, key)]
      && key in r.0.db.conversations && r.0.db.conversations[key].hasNotified
      && r.1 == [Assistant(thanks), SavedDetails(info.name.value, info.phone.value, info.email, info.company)]
  {
    var info := Finish(CapturesOf(input, IsPlus));
    CapturedNameAndPhoneAreTruthy(input, IsPlus);
    NotifyStoresOneLead(st.db, info.name.value, info.phone.value, info.email, info.company, info.designation, key);
    NotifyKeepsValid(st.db, info.name.value, info.phone.value, info.email, info.company, info.designation, key, NoFault);
    var (db2, reply) := NotifySpec(st.db, info.name.value, info.phone.value, info.email, info.company,
                                   info.designation, key, NoFault);
    TrackRecordsOneExchange(db2, key, input, reply);
  }

  /** Without faults, contact details with a name and a phone in a stored, unnotified
      conversation store exactly one lead, mark the conversation as notified and record
      the visitor's line with the thanks. */
  lemma CompleteContactIsSavedAndRecorded(st: CliState, data: PortfolioData, key: string, input: string,
                                          replies: Replies, jsonParse: string -> Option<seq<JsValue>>)
    requires !IsExit(input) && (replies.first.Some? ==> NamesNoPrototypeMember(replies.first.value))
    requires DbValid(st.db) && key != "" && input != ""
    requires TakesContactBranch(input, GetConversationSpec(st.db, key, NoFault))
    requires CapturesOf(input, IsPlus).name.Some? && CapturesOf(input, IsPlus).phone.Some?
    ensures var r := CliStep(st, data, key, input, replies, jsonParse, NO_CLI_FAULTS);
      var info := Finish(CapturesOf(input, IsPlus));
      r.0.db.notifications == st.db.notifications
        + [Notification(info.name.value, info.email, info.phone.value, info.company, info.designation, key, false)]
      && r.0.db.messages == st.db.messages
        + [Message(input, User, None, key), Message(ThankYou(info.name.value, info.phone.value, info.email), Bot, None, key)]
      && key in r.0.db.conversations && r.0.db.conversations[key].hasNotified
  {
    var db1 := ContactStepUnfolds(st, data, key, input, replies, jsonParse, NO_CLI_FAULTS);
    assert key in db1.conversations && !db1.conversations[key].hasNotified;
    CompleteContactStage(CliState(db1, st.history), key, input);
  }

  /** The lines of that contact stage: the thanks, then the saved details, whatever
      happens to the recording. */
  lemma CompleteContactStageLines(st: CliState, key: string, input: string, faults: CliFaults)
    requires faults.notify == NoFault
    requires key != "" && key in st.db.conversations && !st.db.conversations[key].hasNotified
    requires CapturesOf(input, IsPlus).name.Some? && CapturesOf(input, IsPlus).phone.Some?
    ensures var info := Finish(CapturesOf(input, IsPlus));
      CliContactStage(st, key, input, faults).1
        == [Assistant(ThankYou(info.name.value, info.phone.value, info.email)),
            SavedDetails(info.name.value, info.phone.value, info.email, info.company)]
  {
    var info := Finish(CapturesOf(input, IsPlus));
    CapturedNameAndPhoneAreTruthy(input, IsPlus);
    NotifyStoresOneLead(st.db, info.name.value, info.phone.value, info.email, info.company, info.designation, key);
  }

  /** The same step prints the thanks and then the saved details, and leaves the chat
      history alone, whether or not the exchange could be recorded. */
  lemma CompleteContactIsThankedAndShown(st: CliState, data: PortfolioData, key: string, input: string,
                                         replies: Replies, jsonParse: string -> Option<seq<JsValue>>,
                                         faults: CliFaults)
    requires !IsExit(input) && (replies.first.Some? ==> NamesNoPrototypeMember(replies.first.value))
    requires faults.lookup == NoFault && faults.askSave == NoFault && faults.notify == NoFault
    requires key != ""
    requires TakesContactBranch(input, GetConversationSpec(st.db, key, faults.lookup))
    requires CapturesOf(input, IsPlus).name.Some? && CapturesOf(input, IsPlus).phone.Some?
    ensures var (st', lines, more) := CliStep(st, data, key, input, replies, jsonParse, faults);
      var info := Finish(CapturesOf(input, IsPlus));
      st'.history == st.history
      && |lines| >= 2
      && lines[|lines| - 2..] == [Assistant(ThankYou(info.name.value, info.phone.value, info.email)),
                                  SavedDetails(info.name.value, info.phone.value, info.email, info.company)]
  {
    var db1 := ContactStepUnfolds(st, data, key, input, replies, jsonParse, faults);
    var askLines := if ShouldAskForDetails(GetConversationSpec(st.db, key, faults.lookup)) then [Assistant(PROACTIVE_ASK)] else [];
    var c := CliContactStage(CliState(db1, st.history), key, input, faults);
    assert key in db1.conversations && !db1.conversations[key].hasNotified;
    CompleteContactStageLines(CliState(db1, st.history), key, input, faults);
    assert (askLines + c.1)[|askLines + c.1| - 2..] == c.1;
  }
}
