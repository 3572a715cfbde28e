/** The `/api/chat` handler of the HTTP server and its per-session chat cache.

    One turn: reject an empty message, look the conversation up, ask for the visitor's
    details once the conversation is long enough, capture contact details when the
    message carries them, and otherwise ask the language model, act on a tool call in
    its reply and record the exchange. Request identifiers and the language model are
    parameters: `freshKey` is the generated session key, `replies` what the model
    answers. */
module ChatApi {

  import opened Wrappers
  import opened Js
  import opened Models
  import opened Store
  import opened Portfolio
  import opened ToolCall
  import opened Contact
  import opened Turn

  /** The two body fields the handler reads; a missing field is `None`. */
  datatype ChatRequest = ChatRequest(message: Option<string>, convKey: Option<string>)

  /** The database call that throws, for each helper the handler may call. */
  datatype Faults = Faults(
    lookup: Fault,
    askSave: Fault,
    notify: Fault,
    track: Fault,
    saveContact: Fault,
    relookup: Fault)

  const NO_FAULTS := Faults(NoFault, NoFault, NoFault, NoFault, NoFault, NoFault)

  /** The JSON answers of the handler: status 400, status 500, and the three kinds of
      successful turn. */
  datatype ChatResponse =
    | BadRequest
    | ServerError
    | ContactSaved(message: string, convKey: string, name: string, phone: string, email: string, company: string)
    | NeedsContactInfo(message: string, convKey: string)
    | Answer(message: string, convKey: string, messageCount: nat, toolUsed: bool, shouldAskForDetails: Option<bool>)

  /** The database and the chat histories of the sessions the process has seen. */
  datatype ServerState = ServerState(db: Db, sessions: map<string, seq<Exchange>>)

  const ASK_FOR_DETAILS :=
    "I'd love to help Anish connect with you! " +
    "Please provide your details:\n\n" +
    DETAILS_FORM

  const SAVE_CONTACT_REPLY :=
    "Great! " +
    "I'd be happy to notify Anish about your interest. " +
    "Please share your contact details:\n\n" +
    DETAILS_FORM + "\n\n" +
    "Or simply share your name and phone number."

  /** A string or `null` in a truthiness test. */
  predicate Present(o: Option<string>) {
    o.Some? && o.value != ""
  }

  /** `convKey || uuidv4()`. */
  function SessionKey(req: ChatRequest, freshKey: string): (key: string)
    requires freshKey != ""
    ensures key != ""
    ensures req.convKey.Some? && req.convKey.value != "" ==> key == req.convKey.value
  {
    if Present(req.convKey) then req.convKey.value else freshKey
  }

  /** `getChatSession`: an existing session keeps its history, a new one starts empty. */
  function OpenSession(sessions: map<string, seq<Exchange>>, key: string): (r: map<string, seq<Exchange>>)
    ensures key in r && r.Keys == sessions.Keys + {key}
    ensures forall k :: k in sessions ==> r[k] == sessions[k]
    ensures key !in sessions ==> r[key] == []
  {
    if key in sessions then sessions else sessions[key := []]
  }

  // ---------------------------------------------------------------------------
  // The turn, stage by stage
  // ---------------------------------------------------------------------------

  function ChatTurn(st: ServerState, data: PortfolioData, req: ChatRequest, freshKey: string,
                    replies: Replies, jsonParse: string -> Option<seq<JsValue>>, faults: Faults): (r: (ServerState, ChatResponse))
    requires freshKey != ""
    requires replies.first.Some? ==> NamesNoPrototypeMember(replies.first.value)
    ensures r.1 == BadRequest <==> !Present(req.message)
    ensures r.1 == BadRequest ==> r.0 == st
  {
    if req.message.None? || req.message.value == "" then (st, BadRequest)
    else
      var message := req.message.value;
      var key := SessionKey(req, freshKey);
      var conv := GetConversationSpec(st.db, key, faults.lookup);
      var (db1, ok) := if ShouldAskForDetails(conv) then MarkAskedSpec(st.db, key, faults.askSave) else (st.db, true);
      if !ok then (st, ServerError)
      else if TakesContactBranch(message, conv) then ContactStage(db1, st.sessions, message, key, faults)
      else ModelStage(ServerState(db1, st.sessions), data, message, key, conv, replies, jsonParse, faults)
  }

  /** Contact details: notify when both a name and a phone were captured, otherwise
      ask for them; either way the exchange is recorded and the model is not asked. */
  function ContactStage(db: Db, sessions: map<string, seq<Exchange>>, message: string, key: string,
                        faults: Faults): (r: (ServerState, ChatResponse))
    ensures r.1.ContactSaved? || r.1.NeedsContactInfo?
    ensures r.0.sessions == sessions
    ensures var info := ExtractContactInfo(message);
      r.1.ContactSaved? <==> Present(info.name) && Present(info.phone)
    ensures r.1.ContactSaved? ==> r.1.convKey == key
    ensures r.1.NeedsContactInfo? ==> r.1 == NeedsContactInfo(ASK_FOR_DETAILS, key)
  {
    var info := ExtractContactInfo(message);
    if Present(info.name) && Present(info.phone) then
      var (db2, reply) := NotifySpec(db, info.name.value, info.phone.value, info.email, info.company,
                                     info.designation, key, faults.notify);
      (ServerState(TrackSpec(db2, key, message, reply, faults.track).0, sessions),
       ContactSaved(reply, key, info.name.value, info.phone.value, info.email, info.company))
    else
      (ServerState(TrackSpec(db, key, message, ASK_FOR_DETAILS, faults.track).0, sessions),
       NeedsContactInfo(ASK_FOR_DETAILS, key))
  }

  /** The model's answer, and what a tool call in it leads to. */
  function ModelStage(st: ServerState, data: PortfolioData, message: string, key: string,
                      conv: Option<Conversation>, replies: Replies,
                      jsonParse: string -> Option<seq<JsValue>>, faults: Faults): (r: (ServerState, ChatResponse))
    requires replies.first.Some? ==> NamesNoPrototypeMember(replies.first.value)
    ensures r.1.Answer? || r.1 == ServerError
    ensures replies.first.None? ==> r == (ServerState(st.db, OpenSession(st.sessions, key)), ServerError)
    ensures replies.first.Some? ==>
      key in r.0.sessions
      && OpenSession(st.sessions, key)[key] + [Exchange(UserMessage(message), replies.first.value)] <= r.0.sessions[key]
  {
    var sessions := OpenSession(st.sessions, key);
    if replies.first.None? then (ServerState(st.db, sessions), ServerError)
    else
      var text := replies.first.value;
      var history := sessions[key] + [Exchange(UserMessage(message), text)];
      ReplyStage(st.db, sessions[key := history], message, key, conv, text,
                 ClassifyReply(data, text, jsonParse), replies.followUp, faults)
  }

  /** Acting on the reply `text`, read as `outcome`, once the history holds it. */
  function ReplyStage(db: Db, sessions: map<string, seq<Exchange>>, message: string, key: string,
                      conv: Option<Conversation>, text: string, outcome: ToolOutcome,
                      followUp: Option<string>, faults: Faults): (r: (ServerState, ChatResponse))
    requires key in sessions
    ensures r.1.Answer? || r.1 == ServerError
    ensures r.1.Answer? && r.1.toolUsed ==>
      outcome.Called? && outcome.result.Data? && followUp.Some? && r.1.message == followUp.value
      && r.0.sessions == sessions[key := sessions[key] + [Exchange(FollowUp(outcome.result.output), followUp.value)]]
    ensures r.1.Answer? && !r.1.toolUsed ==> r.0.sessions == sessions
    ensures outcome.NoToolCall? ==> r.1.Answer? && r.1.message == text && !r.1.toolUsed
    ensures outcome.SaveContact? && r.1.Answer? ==> r.1.message == SAVE_CONTACT_REPLY && !r.1.toolUsed
    ensures outcome.SaveContact? ==>
      (r.1.Answer? <==> conv.None? || MarkAskedSpec(db, key, faults.saveContact).1)
    ensures outcome.Called? && outcome.result.Unavailable? ==>
      r.1.Answer? && r.1.message == COULD_NOT_RETRIEVE && !r.1.toolUsed
    ensures outcome.Called? && outcome.result.Threw? ==> r == (ServerState(db, sessions), ServerError)
    ensures outcome.Called? && outcome.result.Data? ==> (r.1.Answer? <==> followUp.Some?)
  {
    match outcome
    case NoToolCall => FinishStage(db, sessions, message, key, text, false, faults)
    case SaveContact =>
      var (db1, ok) := if conv.Some? then MarkAskedSpec(db, key, faults.saveContact) else (db, true);
      if !ok then (ServerState(db, sessions), ServerError)
      else FinishStage(db1, sessions, message, key, SAVE_CONTACT_REPLY, false, faults)
    case Called(_, _, Threw) => (ServerState(db, sessions), ServerError)
    case Called(_, _, Unavailable) => FinishStage(db, sessions, message, key, COULD_NOT_RETRIEVE, false, faults)
    case Called(_, _, Data(out)) =>
      if followUp.None? then (ServerState(db, sessions), ServerError)
      else
        var final := followUp.value;
        FinishStage(db, sessions[key := sessions[key] + [Exchange(FollowUp(out), final)]], message, key, final, true, faults)
  }

  /** Record the exchange, look the conversation up again and answer. */
  function FinishStage(db: Db, sessions: map<string, seq<Exchange>>, message: string, key: string,
                       final: string, toolUsed: bool, faults: Faults): (r: (ServerState, ChatResponse))
    ensures r.1.Answer? && r.1.message == final && r.1.convKey == key && r.1.toolUsed == toolUsed
    ensures r.0.sessions == sessions
  {
    var db2 := TrackSpec(db, key, message, final, faults.track).0;
    var conv := GetConversationSpec(db2, key, faults.relookup);
    (ServerState(db2, sessions),
     Answer(final, key,
            if conv.Some? then conv.value.messageCount else 1,
            toolUsed,
            if conv.Some? then Some(conv.value.messageCount >= 5 && !conv.value.hasNotified) else None))
  }

  // ---------------------------------------------------------------------------
  // The handler, over the store and the session cache
  // ---------------------------------------------------------------------------

  class ChatServer {
    const store: Store
    var sessions: map<string, seq<Exchange>>

    function State(): ServerState
      reads this, store
    {
      ServerState(store.State(), sessions)
    }

    constructor(store: Store)
      ensures this.store == store && sessions == map[]
    {
      this.store := store;
      sessions := map[];
    }

    method GetChatSession(key: string)
      modifies this
      ensures sessions == OpenSession(old(sessions), key)
    {
      if key !in sessions {
        sessions := sessions[key := []];
      }
    }

    /** `chatSessions.delete(convKey)` of the conversation-deletion endpoint. */
    method DeleteSession(key: string)
      modifies this
      ensures sessions == old(sessions) - {key}
    {
      sessions := sessions - {key};
    }

    /** `chat.sendMessage(prompt)`: a reply extends the history, a throw leaves it. */
    method SendMessage(key: string, prompt: Prompt, reply: Option<string>) returns (text: Option<string>)
      requires key in sessions
      modifies this
      ensures text == reply
      ensures reply.Some? ==> sessions == old(sessions)[key := old(sessions)[key] + [Exchange(prompt, reply.value)]]
      ensures reply.None? ==> sessions == old(sessions)
    {
      text := reply;
      if reply.Some? {
        sessions := sessions[key := sessions[key] + [Exchange(prompt, reply.value)]];
      }
    }

    method HandleChat(data: PortfolioData, req: ChatRequest, freshKey: string, replies: Replies,
                      jsonParse: string -> Option<seq<JsValue>>, faults: Faults) returns (resp: ChatResponse)
      requires freshKey != ""
      requires replies.first.Some? ==> NamesNoPrototypeMember(replies.first.value)
      modifies this, store
      ensures (State(), resp) == ChatTurn(old(State()), data, req, freshKey, replies, jsonParse, faults)
    {
      if req.message.None? || req.message.value == "" {
        return BadRequest;
      }
      var message := req.message.value;
      var key := SessionKey(req, freshKey);
      var conv := store.GetConversation(key, faults.lookup);
      if ShouldAskForDetails(conv) {
        var ok := store.MarkAsked(key, faults.askSave);
        if !ok {
          return ServerError;
        }
      }
      if TakesContactBranch(message, conv) {
        resp := HandleContact(message, key, faults);
        return;
      }
      resp := HandleModel(data, message, key, conv, replies, jsonParse, faults);
    }

    method HandleContact(message: string, key: string, faults: Faults) returns (resp: ChatResponse)
      modifies store
      ensures (State(), resp) == ContactStage(old(store.State()), sessions, message, key, faults)
    {
      var info := ExtractContactInfo(message);
      if Present(info.name) && Present(info.phone) {
        var reply := store.Notify(info.name.value, info.phone.value, info.email, info.company,
                                  info.designation, key, faults.notify);
        var _ := store.TrackConversation(key, message, reply, faults.track);
        resp := ContactSaved(reply, key, info.name.value, info.phone.value, info.email, info.company);
      } else {
        var _ := store.TrackConversation(key, message, ASK_FOR_DETAILS, faults.track);
        resp := NeedsContactInfo(ASK_FOR_DETAILS, key);
      }
    }

    method HandleModel(data: PortfolioData, message: string, key: string, conv: Option<Conversation>,
                       replies: Replies, jsonParse: string -> Option<seq<JsValue>>, faults: Faults)
      returns (resp: ChatResponse)
      requires replies.first.Some? ==> NamesNoPrototypeMember(replies.first.value)
      modifies this, store
      ensures (State(), resp) == ModelStage(old(State()), data, message, key, conv, replies, jsonParse, faults)
    {
      GetChatSession(key);
      var text := SendMessage(key, UserMessage(message), replies.first);
      if text.None? {
        return ServerError;
      }
      var outcome := ClassifyReply(data, text.value, jsonParse);
      resp := HandleReply(message, key, conv, text.value, outcome, replies.followUp, faults);
    }

    method HandleReply(message: string, key: string, conv: Option<Conversation>, text: string,
                       outcome: ToolOutcome, followUp: Option<string>, faults: Faults)
      returns (resp: ChatResponse)
      requires key in sessions
      modifies this, store
      ensures (State(), resp) == ReplyStage(old(store.State()), old(sessions), message, key, conv, text, outcome, followUp, faults)
    {
      var final := text;
      var toolUsed := false;
      match outcome {
        case NoToolCall =>
        case SaveContact =>
          if conv.Some? {
            var ok := store.MarkAsked(key, faults.saveContact);
            if !ok {
              return ServerError;
            }
          }
          final := SAVE_CONTACT_REPLY;
        case Called(_, _, Threw) =>
          return ServerError;
        case Called(_, _, Unavailable) =>
          final := COULD_NOT_RETRIEVE;
        case Called(_, _, Data(out)) =>
          var follow := SendMessage(key, FollowUp(out), followUp);
          if follow.None? {
            return ServerError;
          }
          final := follow.value;
          toolUsed := true;
      }
      resp := Finish(message, key, final, toolUsed, faults);
    }

    method Finish(message: string, key: string, final: string, toolUsed: bool, faults: Faults)
      returns (resp: ChatResponse)
      modifies store
      ensures (State(), resp) == FinishStage(old(store.State()), sessions, message, key, final, toolUsed, faults)
    {
      var _ := store.TrackConversation(key, message, final, faults.track);
      var conv := store.GetConversation(key, faults.relookup);
      resp := Answer(final, key,
                     if conv.Some? then conv.value.messageCount else 1,
                     toolUsed,
                     if conv.Some? then Some(conv.value.messageCount >= 5 && !conv.value.hasNotified) else None);
    }
  }

  // ---------------------------------------------------------------------------
  // Properties of a turn
  // ---------------------------------------------------------------------------

  /** The conversation the turn starts from. */
  function StartConversation(st: ServerState, req: ChatRequest, freshKey: string, faults: Faults): Option<Conversation>
    requires freshKey != ""
  {
    GetConversationSpec(st.db, SessionKey(req, freshKey), faults.lookup)
  }

  lemma FinishStageGrows(db: Db, sessions: map<string, seq<Exchange>>, message: string, key: string,
                         final: string, toolUsed: bool, faults: Faults)
    ensures var db' := FinishStage(db, sessions, message, key, final, toolUsed, faults).0.db;
      Grows(db, db') && (DbValid(db) ==> DbValid(db')) && db'.notifications == db.notifications
  {
    TrackGrows(db, key, message, final, faults.track);
    TrackKeepsValid(db, key, message, final, faults.track);
    TrackWritesAtMostItsOwn(db, key, message, final, faults.track);
  }

  lemma ReplyStageGrows(db: Db, sessions: map<string, seq<Exchange>>, message: string, key: string,
                        conv: Option<Conversation>, text: string, outcome: ToolOutcome,
                        followUp: Option<string>, faults: Faults)
    requires key in sessions
    ensures var db' := ReplyStage(db, sessions, message, key, conv, text, outcome, followUp, faults).0.db;
      Grows(db, db') && (DbValid(db) ==> DbValid(db')) && db'.notifications == db.notifications
  {
    match outcome {
      case NoToolCall =>
        FinishStageGrows(db, sessions, message, key, text, false, faults);
      case SaveContact =>
        if conv.Some? {
          var (db1, ok) := MarkAskedSpec(db, key, faults.saveContact);
          MarkAskedGrows(db, key, faults.saveContact);
          FlagUpdatesKeepValid(db, key, "", faults.saveContact);
          if ok {
            FinishStageGrows(db1, sessions, message, key, SAVE_CONTACT_REPLY, false, faults);
            GrowsTransitive(db, db1, FinishStage(db1, sessions, message, key, SAVE_CONTACT_REPLY, false, faults).0.db);
          }
        } else {
          FinishStageGrows(db, sessions, message, key, SAVE_CONTACT_REPLY, false, faults);
        }
      case Called(_, _, result) =>
        if result.Unavailable? {
          FinishStageGrows(db, sessions, message, key, COULD_NOT_RETRIEVE, false, faults);
        } else if result.Data? && followUp.Some? {
          var s1 := sessions[key := sessions[key] + [Exchange(FollowUp(result.output), followUp.value)]];
          FinishStageGrows(db, s1, message, key, followUp.value, true, faults);
        }
    }
  }

  lemma ContactStageGrows(db: Db, sessions: map<string, seq<Exchange>>, message: string, key: string,
                          faults: Faults)
    ensures var db' := ContactStage(db, sessions, message, key, faults).0.db;
      Grows(db, db') && (DbValid(db) ==> DbValid(db'))
  {
    var info := ExtractContactInfo(message);
    if Present(info.name) && Present(info.phone) {
      var db2 := NotifySpec(db, info.name.value, info.phone.value, info.email, info.company,
                            info.designation, key, faults.notify).0;
      var reply := NotifySpec(db, info.name.value, info.phone.value, info.email, info.company,
                              info.designation, key, faults.notify).1;
      NotifyGrows(db, info.name.value, info.phone.value, info.email, info.company, info.designation, key, faults.notify);
      NotifyKeepsValid(db, info.name.value, info.phone.value, info.email, info.company,
                       info.designation, key, faults.notify);
      TrackGrows(db2, key, message, reply, faults.track);
      TrackKeepsValid(db2, key, message, reply, faults.track);
      GrowsTransitive(db, db2, TrackSpec(db2, key, message, reply, faults.track).0);
    } else {
      TrackGrows(db, key, message, ASK_FOR_DETAILS, faults.track);
      TrackKeepsValid(db, key, message, ASK_FOR_DETAILS, faults.track);
    }
  }

  /** Whatever fails, a turn only adds to the database, keeps it valid, and stores a
      new lead only when it answers that contact details were saved. */
  lemma TurnOnlyGrows(st: ServerState, data: PortfolioData, req: ChatRequest, freshKey: string,
                      replies: Replies, jsonParse: string -> Option<seq<JsValue>>, faults: Faults)
    requires freshKey != ""
    requires replies.first.Some? ==> NamesNoPrototypeMember(replies.first.value)
    ensures var (st', resp) := ChatTurn(st, data, req, freshKey, replies, jsonParse, faults);
      Grows(st.db, st'.db) && (DbValid(st.db) ==> DbValid(st'.db))
      && (!resp.ContactSaved? ==> st'.db.notifications == st.db.notifications)
  {
    var (st', resp) := ChatTurn(st, data, req, freshKey, replies, jsonParse, faults);
    if Present(req.message) {
      var message := req.message.value;
      var key := SessionKey(req, freshKey);
      var conv := GetConversationSpec(st.db, key, faults.lookup);
      var db1 := if ShouldAskForDetails(conv) then MarkAskedSpec(st.db, key, faults.askSave).0 else st.db;
      MarkAskedGrows(st.db, key, faults.askSave);
      FlagUpdatesKeepValid(st.db, key, "", faults.askSave);
      if ShouldAskForDetails(conv) && !MarkAskedSpec(st.db, key, faults.askSave).1 {
      } else if TakesContactBranch(message, conv) {
        ContactStageGrows(db1, st.sessions, message, key, faults);
        GrowsTransitive(st.db, db1, st'.db);
        var info := ExtractContactInfo(message);
        if !(Present(info.name) && Present(info.phone)) {
          TrackWritesAtMostItsOwn(db1, key, message, ASK_FOR_DETAILS, faults.track);
        }
      } else {
        var sessions := OpenSession(st.sessions, key);
        if replies.first.Some? {
          var text := replies.first.value;
          var history := sessions[key] + [Exchange(UserMessage(message), text)];
          ReplyStageGrows(db1, sessions[key := history], message, key, conv, text,
                          ClassifyReply(data, text, jsonParse), replies.followUp, faults);
        }
        GrowsTransitive(st.db, db1, st'.db);
      }
    }
  }

  /** Only the contact branch answers with saved or missing contact details, and that
      branch leaves the model and its histories alone. */
  lemma ContactAnswersComeOnlyFromTheContactBranch(st: ServerState, data: PortfolioData, req: ChatRequest,
                                                   freshKey: string, replies: Replies,
                                                   jsonParse: string -> Option<seq<JsValue>>, faults: Faults)
    requires freshKey != ""
    requires replies.first.Some? ==> NamesNoPrototypeMember(replies.first.value)
    requires Present(req.message)
    ensures var (st', resp) := ChatTurn(st, data, req, freshKey, replies, jsonParse, faults);
      var contact := TakesContactBranch(req.message.value, StartConversation(st, req, freshKey, faults));
      ((resp.ContactSaved? || resp.NeedsContactInfo?) ==> contact)
      && (contact ==> st'.sessions == st.sessions && !resp.Answer?)
  {
  }

  /** A session with no stored conversation (its first message, or a failed lookup)
      never takes the contact branch, whatever the message says: it goes to the model. */
  lemma FirstMessageGoesToTheModel(st: ServerState, data: PortfolioData, req: ChatRequest, freshKey: string,
                                   replies: Replies, jsonParse: string -> Option<seq<JsValue>>, faults: Faults)
    requires freshKey != ""
    requires replies.first.Some? ==> NamesNoPrototypeMember(replies.first.value)
    requires StartConversation(st, req, freshKey, faults).None?
    ensures var resp := ChatTurn(st, data, req, freshKey, replies, jsonParse, faults).1;
      !resp.ContactSaved? && !resp.NeedsContactInfo?
  {
    if Present(req.message) {
      ContactAnswersComeOnlyFromTheContactBranch(st, data, req, freshKey, replies, jsonParse, faults);
    }
  }

  /** The history of `key` once the model's first reply is in. */
  function HistoryWithReply(sessions: map<string, seq<Exchange>>, key: string, message: string, text: string)
    : (r: map<string, seq<Exchange>>)
    ensures key in r
  {
    var active := OpenSession(sessions, key);
    active[key := active[key] + [Exchange(UserMessage(message), text)]]
  }

  /** An answered turn went past the gate, the ask and the contact branch, and is the
      reply stage of the model's first reply. */
  lemma AnsweredTurnUnfolds(st: ServerState, data: PortfolioData, req: ChatRequest, freshKey: string,
                            replies: Replies, jsonParse: string -> Option<seq<JsValue>>, faults: Faults)
    returns (db1: Db)
    requires freshKey != ""
    requires replies.first.Some? ==> NamesNoPrototypeMember(replies.first.value)
    requires ChatTurn(st, data, req, freshKey, replies, jsonParse, faults).1.Answer?
    ensures Present(req.message) && replies.first.Some?
    ensures var key := SessionKey(req, freshKey);
      var conv := StartConversation(st, req, freshKey, faults);
      db1 == (if ShouldAskForDetails(conv) then MarkAskedSpec(st.db, key, faults.askSave).0 else st.db)
      && ChatTurn(st, data, req, freshKey, replies, jsonParse, faults)
         == ReplyStage(db1, HistoryWithReply(st.sessions, key, req.message.value, replies.first.value),
                       req.message.value, key, conv, replies.first.value,
                       ClassifyReply(data, replies.first.value, jsonParse), replies.followUp, faults)
  {
    var key := SessionKey(req, freshKey);
    var conv := StartConversation(st, req, freshKey, faults);
    db1 := if ShouldAskForDetails(conv) then MarkAskedSpec(st.db, key, faults.askSave).0 else st.db;
    assert !TakesContactBranch(req.message.value, conv);
    assert ChatTurn(st, data, req, freshKey, replies, jsonParse, faults)
        == ModelStage(ServerState(db1, st.sessions), data, req.message.value, key, conv, replies, jsonParse, faults);
  }

  /** A turn that reaches the model, with the ask flag saved when it is due, is the
      reply stage of the model's first reply over the database as the ask left it. */
  lemma ModelTurnUnfolds(st: ServerState, data: PortfolioData, req: ChatRequest, freshKey: string,
                         replies: Replies, jsonParse: string -> Option<seq<JsValue>>, faults: Faults)
    returns (db1: Db)
    requires freshKey != ""
    requires replies.first.Some? && NamesNoPrototypeMember(replies.first.value)
    requires Present(req.message) && faults.askSave == NoFault
    requires !TakesContactBranch(req.message.value, StartConversation(st, req, freshKey, faults))
    ensures var key := SessionKey(req, freshKey);
      var conv := StartConversation(st, req, freshKey, faults);
      db1 == (if ShouldAskForDetails(conv) then MarkAskedSpec(st.db, key, NoFault).0 else st.db)
      && ChatTurn(st, data, req, freshKey, replies, jsonParse, faults)
         == ReplyStage(db1, HistoryWithReply(st.sessions, key, req.message.value, replies.first.value),
                       req.message.value, key, conv, replies.first.value,
                       ClassifyReply(data, replies.first.value, jsonParse), replies.followUp, faults)
  {
    var key := SessionKey(req, freshKey);
    var conv := StartConversation(st, req, freshKey, faults);
    db1 := if ShouldAskForDetails(conv) then MarkAskedSpec(st.db, key, NoFault).0 else st.db;
    assert ChatTurn(st, data, req, freshKey, replies, jsonParse, faults)
        == ModelStage(ServerState(db1, st.sessions), data, req.message.value, key, conv, replies, jsonParse, faults);
  }

  /** `toolUsed` is reported only when a tool returned truthy data and the model
      answered the follow-up prompt; that answer is what the visitor gets, and the
      session's history holds both prompts with their replies. */
  lemma ToolUsedMeansToolData(st: ServerState, data: PortfolioData, req: ChatRequest, freshKey: string,
                              replies: Replies, jsonParse: string -> Option<seq<JsValue>>, faults: Faults)
    requires freshKey != ""
    requires replies.first.Some? ==> NamesNoPrototypeMember(replies.first.value)
    requires ChatTurn(st, data, req, freshKey, replies, jsonParse, faults).1.Answer?
    requires ChatTurn(st, data, req, freshKey, replies, jsonParse, faults).1.toolUsed
    ensures Present(req.message) && replies.first.Some? && replies.followUp.Some?
    ensures ChatTurn(st, data, req, freshKey, replies, jsonParse, faults).1.message == replies.followUp.value
    ensures var o := ClassifyReply(data, replies.first.value, jsonParse);
      var h := HistoryWithReply(st.sessions, SessionKey(req, freshKey), req.message.value, replies.first.value);
      o.Called? && o.result.Data?
      && ChatTurn(st, data, req, freshKey, replies, jsonParse, faults).0.sessions
         == h[SessionKey(req, freshKey) := h[SessionKey(req, freshKey)] + [Exchange(FollowUp(o.result.output), replies.followUp.value)]]
  {
    var db1 := AnsweredTurnUnfolds(st, data, req, freshKey, replies, jsonParse, faults);
  }

  /** The follow-up of a truthy tool result reaches the visitor as a tool-backed answer
      unless a database call fails before it. */
  lemma ToolDataReachesTheVisitor(st: ServerState, data: PortfolioData, req: ChatRequest, freshKey: string,
                                  replies: Replies, jsonParse: string -> Option<seq<JsValue>>, faults: Faults)
    requires freshKey != ""
    requires replies.first.Some? && NamesNoPrototypeMember(replies.first.value) && replies.followUp.Some?
    requires Present(req.message) && faults.askSave == NoFault
    requires !TakesContactBranch(req.message.value, StartConversation(st, req, freshKey, faults))
    requires ClassifyReply(data, replies.first.value, jsonParse).Called?
    requires ClassifyReply(data, replies.first.value, jsonParse).result.Data?
    ensures var resp := ChatTurn(st, data, req, freshKey, replies, jsonParse, faults).1;
      resp.Answer? && resp.toolUsed && resp.message == replies.followUp.value
  {
    var db1 := ModelTurnUnfolds(st, data, req, freshKey, replies, jsonParse, faults);
  }

  /** A tool name outside the table gets the fixed apology and no tool use. */
  lemma UnavailableToolGetsTheApology(st: ServerState, data: PortfolioData, req: ChatRequest, freshKey: string,
                                      replies: Replies, jsonParse: string -> Option<seq<JsValue>>, faults: Faults)
    requires freshKey != ""
    requires replies.first.Some? && NamesNoPrototypeMember(replies.first.value)
    requires Present(req.message) && faults.askSave == NoFault
    requires !TakesContactBranch(req.message.value, StartConversation(st, req, freshKey, faults))
    requires ParseToolCall(replies.first.value).Some?
    requires ParseToolCall(replies.first.value).value.name !in TOOL_NAMES + {"SAVE_CONTACT"}
    ensures var resp := ChatTurn(st, data, req, freshKey, replies, jsonParse, faults).1;
      resp.Answer? && resp.message == COULD_NOT_RETRIEVE && !resp.toolUsed
  {
    var db1 := ModelTurnUnfolds(st, data, req, freshKey, replies, jsonParse, faults);
  }

  /** A table tool whose result is falsy gets the same apology. */
  lemma FalsyToolResultGetsTheApology(st: ServerState, data: PortfolioData, req: ChatRequest, freshKey: string,
                                      replies: Replies, jsonParse: string -> Option<seq<JsValue>>, faults: Faults,
                                      out: ToolOutput)
    requires freshKey != ""
    requires replies.first.Some? && NamesNoPrototypeMember(replies.first.value)
    requires Present(req.message) && faults.askSave == NoFault
    requires !TakesContactBranch(req.message.value, StartConversation(st, req, freshKey, faults))
    requires ClassifyReply(data, replies.first.value, jsonParse).Called?
    requires ClassifyReply(data, replies.first.value, jsonParse).name in TOOL_NAMES
    requires Execute(data, ClassifyReply(data, replies.first.value, jsonParse).name,
                     ClassifyReply(data, replies.first.value, jsonParse).args) == Some(Returned(out))
    requires !IsTruthy(out)
    ensures var resp := ChatTurn(st, data, req, freshKey, replies, jsonParse, faults).1;
      resp.Answer? && resp.message == COULD_NOT_RETRIEVE && !resp.toolUsed
  {
    var db1 := ModelTurnUnfolds(st, data, req, freshKey, replies, jsonParse, faults);
  }

  /** A reply that is no tool call is the answer, word for word, without tool use, and
      the session's history holds the visitor's message with that reply. */
  lemma PlainReplyIsAnsweredVerbatim(st: ServerState, data: PortfolioData, req: ChatRequest, freshKey: string,
                                     replies: Replies, jsonParse: string -> Option<seq<JsValue>>, faults: Faults)
    requires freshKey != ""
    requires replies.first.Some? && NamesNoPrototypeMember(replies.first.value)
    requires Present(req.message) && faults.askSave == NoFault
    requires !TakesContactBranch(req.message.value, StartConversation(st, req, freshKey, faults))
    requires ParseToolCall(replies.first.value).None?
    ensures var (st', resp) := ChatTurn(st, data, req, freshKey, replies, jsonParse, faults);
      resp.Answer? && resp.message == replies.first.value && !resp.toolUsed
      && st'.sessions == HistoryWithReply(st.sessions, SessionKey(req, freshKey), req.message.value, replies.first.value)
  {
    var db1 := ModelTurnUnfolds(st, data, req, freshKey, replies, jsonParse, faults);
  }

  /** The model's contact request, in a conversation on record, saves the asked flag and
      answers with the contact request text, without tool use; the flag stays set
      whatever the recording does. */
  lemma ContactRequestMarksAsked(st: ServerState, data: PortfolioData, req: ChatRequest, freshKey: string,
                                        replies: Replies, jsonParse: string -> Option<seq<JsValue>>, faults: Faults)
    requires freshKey != ""
    requires replies.first.Some? && NamesNoPrototypeMember(replies.first.value)
    requires Present(req.message) && faults.askSave == NoFault && faults.saveContact == NoFault
    requires StartConversation(st, req, freshKey, faults).Some?
    requires !TakesContactBranch(req.message.value, StartConversation(st, req, freshKey, faults))
    requires ClassifyReply(data, replies.first.value, jsonParse).SaveContact?
    ensures var (st', resp) := ChatTurn(st, data, req, freshKey, replies, jsonParse, faults);
      var key := SessionKey(req, freshKey);
      resp.Answer? && resp.message == SAVE_CONTACT_REPLY && !resp.toolUsed
      && key in st'.db.conversations && st'.db.conversations[key].hasAskedForDetails
  {
    var key := SessionKey(req, freshKey);
    var conv := StartConversation(st, req, freshKey, faults);
    var message := req.message.value;
    var text := replies.first.value;
    var db1 := if ShouldAskForDetails(conv) then MarkAskedSpec(st.db, key, NoFault).0 else st.db;
    MarkAskedKeepsCounts(st.db, key, NoFault);
    var db2 := MarkAskedSpec(db1, key, NoFault).0;
    assert key in db2.conversations && db2.conversations[key].hasAskedForDetails;
    var h := HistoryWithReply(st.sessions, key, message, text);
    assert ChatTurn(st, data, req, freshKey, replies, jsonParse, faults)
        == FinishStage(db2, h, message, key, SAVE_CONTACT_REPLY, false, faults);
    FinishStageGrows(db2, h, message, key, SAVE_CONTACT_REPLY, false, faults);
  }

  /** When the ask is due and its flag is saved, the conversation stays marked as asked
      after the turn, whatever branch the turn then takes and whatever else fails. */
  lemma DueAskIsSaved(st: ServerState, data: PortfolioData, req: ChatRequest, freshKey: string,
                      replies: Replies, jsonParse: string -> Option<seq<JsValue>>, faults: Faults)
    requires freshKey != ""
    requires replies.first.Some? ==> NamesNoPrototypeMember(replies.first.value)
    requires Present(req.message) && faults.askSave == NoFault
    requires ShouldAskForDetails(StartConversation(st, req, freshKey, faults))
    ensures var st' := ChatTurn(st, data, req, freshKey, replies, jsonParse, faults).0;
      var key := SessionKey(req, freshKey);
      key in st'.db.conversations && st'.db.conversations[key].hasAskedForDetails
  {
    var key := SessionKey(req, freshKey);
    var conv := StartConversation(st, req, freshKey, faults);
    var message := req.message.value;
    var db1 := MarkAskedSpec(st.db, key, NoFault).0;
    assert key in db1.conversations && db1.conversations[key].hasAskedForDetails;
    var st' := ChatTurn(st, data, req, freshKey, replies, jsonParse, faults).0;
    if TakesContactBranch(message, conv) {
      assert st' == ContactStage(db1, st.sessions, message, key, faults).0;
      ContactStageGrows(db1, st.sessions, message, key, faults);
    } else if replies.first.Some? {
      var text := replies.first.value;
      var h := HistoryWithReply(st.sessions, key, message, text);
      assert st' == ReplyStage(db1, h, message, key, conv, text, ClassifyReply(data, text, jsonParse),
                               replies.followUp, faults).0;
      ReplyStageGrows(db1, h, message, key, conv, text, ClassifyReply(data, text, jsonParse), replies.followUp, faults);
    }
  }

  // ---------------------------------------------------------------------------
  // Recording and counting
  // ---------------------------------------------------------------------------

  /** The exchanges counted for `key` so far. */
  function CountOf(db: Db, key: string): nat {
    if key in db.conversations then db.conversations[key].messageCount else 0
  }

  /** Without faults, the answer stage records the visitor's message and the final
      reply, one more exchange is counted, and the count is what the answer reports. */
  lemma FinishStageRecords(db: Db, sessions: map<string, seq<Exchange>>, message: string, key: string,
                           final: string, toolUsed: bool, faults: Faults)
    requires DbValid(db) && key != "" && message != "" && final != ""
    requires faults.track == NoFault && faults.relookup == NoFault
    ensures var (st', resp) := FinishStage(db, sessions, message, key, final, toolUsed, faults);
      st'.db.messages == db.messages + [Message(message, User, None, key), Message(final, Bot, None, key)]
      && resp.messageCount == CountOf(db, key) + 1 == CountOf(st'.db, key)
      && resp.shouldAskForDetails.Some?
  {
    TrackRecordsOneExchange(db, key, message, final);
  }

  /** Saving the ask flag neither adds messages nor changes a count. */
  lemma MarkAskedKeepsCounts(db: Db, key: string, f: Fault)
    ensures var db' := MarkAskedSpec(db, key, f).0;
      db'.messages == db.messages && db'.notifications == db.notifications
      && (forall k :: CountOf(db', k) == CountOf(db, k))
      && (forall k :: k in db.conversations ==>
            k in db'.conversations && db'.conversations[k].hasNotified == db.conversations[k].hasNotified)
  {
  }

  lemma ReplyStageRecords(db: Db, sessions: map<string, seq<Exchange>>, message: string, key: string,
                          conv: Option<Conversation>, text: string, outcome: ToolOutcome,
                          followUp: Option<string>, faults: Faults)
    requires key in sessions && DbValid(db) && key != "" && message != ""
    requires faults.track == NoFault && faults.relookup == NoFault
    ensures var (st', resp) := ReplyStage(db, sessions, message, key, conv, text, outcome, followUp, faults);
      resp.Answer? && resp.message != "" ==>
        st'.db.messages == db.messages + [Message(message, User, None, key), Message(resp.message, Bot, None, key)]
        && resp.messageCount == CountOf(db, key) + 1
  {
    var (st', resp) := ReplyStage(db, sessions, message, key, conv, text, outcome, followUp, faults);
    if resp.Answer? && resp.message != "" {
      match outcome
      case NoToolCall => FinishStageRecords(db, sessions, message, key, text, false, faults);
      case SaveContact =>
        var db1 := if conv.Some? then MarkAskedSpec(db, key, faults.saveContact).0 else db;
        MarkAskedKeepsCounts(db, key, faults.saveContact);
        FlagUpdatesKeepValid(db, key, "", faults.saveContact);
        FinishStageRecords(db1, sessions, message, key, SAVE_CONTACT_REPLY, false, faults);
      case Called(_, _, Unavailable) => FinishStageRecords(db, sessions, message, key, COULD_NOT_RETRIEVE, false, faults);
      case Called(_, _, Data(out)) =>
        var s1 := sessions[key := sessions[key] + [Exchange(FollowUp(out), followUp.value)]];
        FinishStageRecords(db, s1, message, key, followUp.value, true, faults);
      case Called(_, _, Threw) =>
    }
  }

  /** Without faults, every answered turn records exactly its two messages, the
      visitor's and the reply it answers with, counts one exchange and reports the new
      count; it stores no lead. */
  lemma AnswerRecordsOneExchange(st: ServerState, data: PortfolioData, req: ChatRequest, freshKey: string,
                                 replies: Replies, jsonParse: string -> Option<seq<JsValue>>)
    requires freshKey != "" && DbValid(st.db)
    requires replies.first.Some? ==> NamesNoPrototypeMember(replies.first.value)
    requires ChatTurn(st, data, req, freshKey, replies, jsonParse, NO_FAULTS).1.Answer?
    requires ChatTurn(st, data, req, freshKey, replies, jsonParse, NO_FAULTS).1.message != ""
    ensures Present(req.message)
    ensures var r := ChatTurn(st, data, req, freshKey, replies, jsonParse, NO_FAULTS);
      var key := SessionKey(req, freshKey);
      r.0.db.messages == st.db.messages
        + [Message(req.message.value, User, None, key), Message(r.1.message, Bot, None, key)]
      && r.1.messageCount == CountOf(st.db, key) + 1
      && r.0.db.notifications == st.db.notifications
  {
    TurnOnlyGrows(st, data, req, freshKey, replies, jsonParse, NO_FAULTS);
    var db1 := AnsweredTurnUnfolds(st, data, req, freshKey, replies, jsonParse, NO_FAULTS);
    var key := SessionKey(req, freshKey);
    MarkAskedKeepsCounts(st.db, key, NoFault);
    FlagUpdatesKeepValid(st.db, key, "", NoFault);
    var text := replies.first.value;
    ReplyStageRecords(db1, HistoryWithReply(st.sessions, key, req.message.value, text), req.message.value, key,
                      StartConversation(st, req, freshKey, NO_FAULTS), text,
                      ClassifyReply(data, text, jsonParse), replies.followUp, NO_FAULTS);
  }

  // ---------------------------------------------------------------------------
  // Leads
  // ---------------------------------------------------------------------------

  /** A turn that takes the contact branch, with the ask flag saved when it is due, is
      the contact stage over the database as the ask left it. */
  lemma ContactTurnUnfolds(st: ServerState, data: PortfolioData, req: ChatRequest, freshKey: string,
                           replies: Replies, jsonParse: string -> Option<seq<JsValue>>, faults: Faults)
    returns (db1: Db)
    requires freshKey != ""
    requires replies.first.Some? ==> NamesNoPrototypeMember(replies.first.value)
    requires Present(req.message) && faults.askSave == NoFault
    requires TakesContactBranch(req.message.value, StartConversation(st, req, freshKey, faults))
    ensures var key := SessionKey(req, freshKey);
      db1 == (if ShouldAskForDetails(StartConversation(st, req, freshKey, faults)) then MarkAskedSpec(st.db, key, NoFault).0 else st.db)
      && ChatTurn(st, data, req, freshKey, replies, jsonParse, faults)
         == ContactStage(db1, st.sessions, req.message.value, key, faults)
  {
    var key := SessionKey(req, freshKey);
    var conv := StartConversation(st, req, freshKey, faults);
    db1 := if ShouldAskForDetails(conv) then MarkAskedSpec(st.db, key, NoFault).0 else st.db;
  }

  /** Without faults, the contact stage records the visitor's message and its reply. */
  lemma ContactStageRecords(db: Db, sessions: map<string, seq<Exchange>>, message: string, key: string)
    requires DbValid(db) && key != "" && message != ""
    ensures var r := ContactStage(db, sessions, message, key, NO_FAULTS);
      r.0.db.messages == db.messages + [Message(message, User, None, key), Message(r.1.message, Bot, None, key)]
  {
    var info := ExtractContactInfo(message);
    if Present(info.name) && Present(info.phone) {
      NotifyKeepsValid(db, info.name.value, info.phone.value, info.email, info.company, info.designation, key, NoFault);
      var (db2, reply) := NotifySpec(db, info.name.value, info.phone.value, info.email, info.company,
                                     info.designation, key, NoFault);
      NotifyKeepsMessages(db, info.name.value, info.phone.value, info.email, info.company, info.designation, key, NoFault);
      TrackRecordsOneExchange(db2, key, message, reply);
      assert ContactStage(db, sessions, message, key, NO_FAULTS).1.message == reply;
    } else {
      TrackRecordsOneExchange(db, key, message, ASK_FOR_DETAILS);
    }
  }

  /** Without faults, a turn of the contact branch records the visitor's message and
      the reply it answers with, whether the details were saved or asked for. */
  lemma ContactTurnRecordsOneExchange(st: ServerState, data: PortfolioData, req: ChatRequest, freshKey: string,
                                      replies: Replies, jsonParse: string -> Option<seq<JsValue>>)
    requires freshKey != "" && DbValid(st.db)
    requires replies.first.Some? ==> NamesNoPrototypeMember(replies.first.value)
    requires ChatTurn(st, data, req, freshKey, replies, jsonParse, NO_FAULTS).1.ContactSaved?
          || ChatTurn(st, data, req, freshKey, replies, jsonParse, NO_FAULTS).1.NeedsContactInfo?
    ensures Present(req.message)
    ensures var r := ChatTurn(st, data, req, freshKey, replies, jsonParse, NO_FAULTS);
      var key := SessionKey(req, freshKey);
      r.0.db.messages == st.db.messages
        + [Message(req.message.value, User, None, key), Message(r.1.message, Bot, None, key)]
  {
    ContactAnswersComeOnlyFromTheContactBranch(st, data, req, freshKey, replies, jsonParse, NO_FAULTS);
    var db1 := ContactTurnUnfolds(st, data, req, freshKey, replies, jsonParse, NO_FAULTS);
    var key := SessionKey(req, freshKey);
    MarkAskedKeepsCounts(st.db, key, NoFault);
    FlagUpdatesKeepValid(st.db, key, "", NoFault);
    ContactStageRecords(db1, st.sessions, req.message.value, key);
  }

  /** A conversation already notified gets no new lead from any later turn. */
  lemma NotifiedConversationGetsNoNewLead(st: ServerState, data: PortfolioData, req: ChatRequest, freshKey: string,
                                          replies: Replies, jsonParse: string -> Option<seq<JsValue>>, faults: Faults)
    requires freshKey != ""
    requires replies.first.Some? ==> NamesNoPrototypeMember(replies.first.value)
    requires SessionKey(req, freshKey) in st.db.conversations
    requires st.db.conversations[SessionKey(req, freshKey)].hasNotified
    ensures ChatTurn(st, data, req, freshKey, replies, jsonParse, faults).0.db.notifications == st.db.notifications
  {
    TurnOnlyGrows(st, data, req, freshKey, replies, jsonParse, faults);
    if Present(req.message) {
      ContactAnswersComeOnlyFromTheContactBranch(st, data, req, freshKey, replies, jsonParse, faults);
    }
  }

  /** Without faults, saving contact details stores one lead for the conversation,
      marks it as notified and thanks the visitor by name. */
  lemma SavedContactMarksTheConversation(st: ServerState, data: PortfolioData, req: ChatRequest, freshKey: string,
                                         replies: Replies, jsonParse: string -> Option<seq<JsValue>>)
    requires freshKey != "" && DbValid(st.db)
    requires replies.first.Some? ==> NamesNoPrototypeMember(replies.first.value)
    requires ChatTurn(st, data, req, freshKey, replies, jsonParse, NO_FAULTS).1.ContactSaved?
    ensures var r := ChatTurn(st, data, req, freshKey, replies, jsonParse, NO_FAULTS);
      var key := SessionKey(req, freshKey);
      key in r.0.db.conversations && r.0.db.conversations[key].hasNotified
      && r.0.db.notifications == st.db.notifications
           + [Notification(r.1.name, r.1.email, r.1.phone, r.1.company,
                           ExtractContactInfo(req.message.value).designation, key, false)]
      && r.1.message == ThankYou(r.1.name, r.1.phone, r.1.email)
  {
    var r := ChatTurn(st, data, req, freshKey, replies, jsonParse, NO_FAULTS);
    ContactAnswersComeOnlyFromTheContactBranch(st, data, req, freshKey, replies, jsonParse, NO_FAULTS);
    var db1 := ContactTurnUnfolds(st, data, req, freshKey, replies, jsonParse, NO_FAULTS);
    var key := SessionKey(req, freshKey);
    var message := req.message.value;
    MarkAskedKeepsCounts(st.db, key, NoFault);
    FlagUpdatesKeepValid(st.db, key, "", NoFault);
    var info := ExtractContactInfo(message);
    NotifyStoresOneLead(db1, info.name.value, info.phone.value, info.email, info.company, info.designation, key);
    NotifyKeepsValid(db1, info.name.value, info.phone.value, info.email, info.company, info.designation, key, NoFault);
    var (db2, reply) := NotifySpec(db1, info.name.value, info.phone.value, info.email, info.company,
                                   info.designation, key, NoFault);
    TrackRecordsOneExchange(db2, key, message, reply);
  }

  /** Without faults a conversation yields at most one lead: once contact details are
      saved, no later turn of that conversation stores another. */
  lemma AtMostOneLeadPerConversation(st: ServerState, data: PortfolioData, req: ChatRequest, freshKey: string,
                                     replies: Replies, jsonParse: string -> Option<seq<JsValue>>,
                                     data2: PortfolioData, req2: ChatRequest, freshKey2: string, replies2: Replies,
                                     faults2: Faults)
    requires freshKey != "" && freshKey2 != "" && DbValid(st.db)
    requires replies.first.Some? ==> NamesNoPrototypeMember(replies.first.value)
    requires replies2.first.Some? ==> NamesNoPrototypeMember(replies2.first.value)
    requires ChatTurn(st, data, req, freshKey, replies, jsonParse, NO_FAULTS).1.ContactSaved?
    requires SessionKey(req2, freshKey2) == SessionKey(req, freshKey)
    ensures var st1 := ChatTurn(st, data, req, freshKey, replies, jsonParse, NO_FAULTS).0;
      ChatTurn(st1, data2, req2, freshKey2, replies2, jsonParse, faults2).0.db.notifications == st1.db.notifications
  {
    var st1 := ChatTurn(st, data, req, freshKey, replies, jsonParse, NO_FAULTS).0;
    SavedContactMarksTheConversation(st, data, req, freshKey, replies, jsonParse);
    NotifiedConversationGetsNoNewLead(st1, data2, req2, freshKey2, replies2, jsonParse, faults2);
  }

  /** Without faults, contact details with a name and a phone, sent in a stored and
      unnotified conversation, store one lead. */
  lemma OpenConversationStoresTheLead(st: ServerState, data: PortfolioData, req: ChatRequest, freshKey: string,
                                      replies: Replies, jsonParse: string -> Option<seq<JsValue>>)
    requires freshKey != "" && DbValid(st.db)
    requires replies.first.Some? ==> NamesNoPrototypeMember(replies.first.value)
    requires Present(req.message) && Present(req.convKey)
    requires req.convKey.value in st.db.conversations && !st.db.conversations[req.convKey.value].hasNotified
    requires ContactSignal(req.message.value)
    requires Present(ExtractContactInfo(req.message.value).name) && Present(ExtractContactInfo(req.message.value).phone)
    ensures var r := ChatTurn(st, data, req, freshKey, replies, jsonParse, NO_FAULTS);
      r.1.ContactSaved? && |r.0.db.notifications| == |st.db.notifications| + 1
  {
    var db1 := ContactTurnUnfolds(st, data, req, freshKey, replies, jsonParse, NO_FAULTS);
    SavedContactMarksTheConversation(st, data, req, freshKey, replies, jsonParse);
  }

  /** The contact stage when `notify` stores the lead and then fails to save the flag. */
  lemma ContactStageWithFailedFlagSave(db: Db, sessions: map<string, seq<Exchange>>, message: string, key: string)
    requires DbValid(db) && key != "" && message != ""
    requires key in db.conversations && !db.conversations[key].hasNotified
    requires Present(ExtractContactInfo(message).name) && Present(ExtractContactInfo(message).phone)
    ensures var r := ContactStage(db, sessions, message, key, NO_FAULTS.(notify := FailAt(2)));
      r.1.ContactSaved? && r.1.message == NOTIFY_ERROR
      && |r.0.db.notifications| == |db.notifications| + 1
      && DbValid(r.0.db) && key in r.0.db.conversations && !r.0.db.conversations[key].hasNotified
  {
    var info := ExtractContactInfo(message);
    var name, phone := info.name.value, info.phone.value;
    NotifyWithFailedFlagSave(db, name, phone, info.email, info.company, info.designation, key);
    NotifyKeepsValid(db, name, phone, info.email, info.company, info.designation, key, FailAt(2));
    var (db2, reply) := NotifySpec(db, name, phone, info.email, info.company, info.designation, key, FailAt(2));
    TrackRecordsOneExchange(db2, key, message, reply);
    TrackKeepsValid(db2, key, message, reply, NoFault);
  }

  /** When saving the notified flag fails after the lead was stored, the visitor sees
      the error reply and the conversation stays unnotified. */
  lemma FailedFlagSaveLeavesTheConversationOpen(st: ServerState, data: PortfolioData, req: ChatRequest,
                                                freshKey: string, replies: Replies,
                                                jsonParse: string -> Option<seq<JsValue>>)
    requires freshKey != "" && DbValid(st.db)
    requires replies.first.Some? ==> NamesNoPrototypeMember(replies.first.value)
    requires Present(req.message) && Present(req.convKey)
    requires req.convKey.value in st.db.conversations && !st.db.conversations[req.convKey.value].hasNotified
    requires ContactSignal(req.message.value)
    requires Present(ExtractContactInfo(req.message.value).name) && Present(ExtractContactInfo(req.message.value).phone)
    ensures var r1 := ChatTurn(st, data, req, freshKey, replies, jsonParse, NO_FAULTS.(notify := FailAt(2)));
      r1.1.ContactSaved? && r1.1.message == NOTIFY_ERROR
      && |r1.0.db.notifications| == |st.db.notifications| + 1
      && DbValid(r1.0.db)
      && req.convKey.value in r1.0.db.conversations && !r1.0.db.conversations[req.convKey.value].hasNotified
  {
    var key := req.convKey.value;
    var db1 := ContactTurnUnfolds(st, data, req, freshKey, replies, jsonParse, NO_FAULTS.(notify := FailAt(2)));
    MarkAskedKeepsCounts(st.db, key, NoFault);
    FlagUpdatesKeepValid(st.db, key, "", NoFault);
    ContactStageWithFailedFlagSave(db1, st.sessions, req.message.value, key);
  }

  /** The consequence: sending the same message again stores a second lead for the
      same conversation. */
  lemma FailedFlagSaveDuplicatesTheLead(st: ServerState, data: PortfolioData, req: ChatRequest, freshKey: string,
                                        replies: Replies, jsonParse: string -> Option<seq<JsValue>>)
    requires freshKey != "" && DbValid(st.db)
    requires replies.first.Some? ==> NamesNoPrototypeMember(replies.first.value)
    requires Present(req.message) && Present(req.convKey)
    requires req.convKey.value in st.db.conversations && !st.db.conversations[req.convKey.value].hasNotified
    requires ContactSignal(req.message.value)
    requires Present(ExtractContactInfo(req.message.value).name) && Present(ExtractContactInfo(req.message.value).phone)
    ensures var r1 := ChatTurn(st, data, req, freshKey, replies, jsonParse, NO_FAULTS.(notify := FailAt(2)));
      var r2 := ChatTurn(r1.0, data, req, freshKey, replies, jsonParse, NO_FAULTS);
      r1.1.ContactSaved? && r1.1.message == NOTIFY_ERROR
      && r2.1.ContactSaved? && |r2.0.db.notifications| == |st.db.notifications| + 2
  {
    FailedFlagSaveLeavesTheConversationOpen(st, data, req, freshKey, replies, jsonParse);
    var r1 := ChatTurn(st, data, req, freshKey, replies, jsonParse, NO_FAULTS.(notify := FailAt(2)));
    OpenConversationStoresTheLead(r1.0, data, req, freshKey, replies, jsonParse);
  }
}
