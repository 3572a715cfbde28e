# Portfolio chatbot core, modelled in Dafny

A visitor asks a chatbot about Anish's portfolio, either through the HTTP server
(`backend/api.js`) or through the command-line client (`backend/index.js`). This project
models the core of both:

- The portfolio tools (`backend/tools/tools.js`). These are read-only lookups over the
  profile document, plus the four database helpers: `notify`, `trackConversation`,
  `getconversation` and `updateusername`.
- The three record schemas (`backend/model/*.js`): conversations, messages and
  notifications ("leads"). The model keeps their defaults and their `required` checks.
- The `/api/chat` turn. It rejects an empty message, looks up the conversation and asks
  once for the visitor's details after five exchanges. It captures contact details with
  the handler's regular expressions. Otherwise it asks the language model, acts on a
  `TOOL_CALL:` in the reply and records the exchange. The session cache (`getChatSession`
  and its delete) is modelled too.
- The GitHub push-event transform: filter, first ten, map, first occurrence per
  repository, first five.
- One step of the command-line client (`handleUserInput`).

Module layout, following the program:

| module | file | models |
|---|---|---|
| `Js` | js.dfy | `\s`, `\d`, `\w`, `trim`, ASCII `toLowerCase`, `includes`, a global character-class `replace`, and the truthiness of JS values |
| `Models` | models.dfy | the three schemas |
| `Portfolio` | portfolio.dfy | the portfolio accessors of tools.js |
| `ToolCall` | toolcall.dfy | the tool table (`executeFunctionCall`), the `TOOL_CALL` pattern and argument parsing |
| `Contact` | contact.dfy | the contact signal and `extractContactInfo`, with its regular expressions |
| `Store` | store.dfy | the database helpers: pure transition functions, plus a `Store` class whose methods update its collections step by step and are proved equal to them |
| `Turn` | turn.dfy | what the two front ends share: `shouldAskForDetails`, the branch test, the reading of a model reply |
| `ChatApi` | chat_api.dfy | the `/api/chat` turn, as a pure function and as the `ChatServer` class that implements it |
| `GitHub` | github.dfy | the activity transform |
| `Cli` | cli.dfy | the client step, as a pure function and as the `Client` class that implements it |
| `Wrappers`, `Lists` | wrappers.dfy, lists.dfy | `Option`, and subsequence facts |

Some inputs are parameters of the model:

- Every database helper takes a `Fault`, which names the database call that throws
  (`FailAt(i)` for the i-th call). Writes completed before the failure stay.
- The language model is a `Replies` value: the text of the first reply and of the
  follow-up, or `None` when `sendMessage` throws.
- `JSON.parse` is a function parameter.
- The generated `uuid` is the `freshKey` parameter.
- The profile document is a `PortfolioData` parameter.

Each regular expression is modelled as the leftmost match that JavaScript's backtracking
finds. Every alternative and quantifier is written out: `CuedAt` tries the cues in their
written order, `GroupEnd` takes the greedy `{2,30}` run, and `PhoneAt` gives back digits
in backtracking order.

Behaviours of the code as written, which the model keeps:

- For "My name is Anish Kumar, phone 9876543210" the patterns give the name
  `is Anish Kumar` and no phone. The `name[:\s]+` cue matches before `is`, and a
  ten-digit number needs a 1-3 digit prefix in front of its ten or more digits
  (`TenDigitNumbersAreNotCaptured`).
- The server's phone pattern writes its sign class as `[\\+]`, which also accepts a
  backslash (`IsApiSign`). The client writes `[\+]`, which accepts `+` only (`IsPlus`).
- A session with no stored conversation never takes the contact branch, whatever the
  message says. This covers its first message and any failed lookup
  (`FirstMessageGoesToTheModel`).
- `notify` can store a lead and then fail to save the notified flag. The visitor then
  sees the error reply, and a repeat of the message stores a second lead
  (`FailedFlagSaveDuplicatesTheLead`).
- `notify` for a key with no conversation record stores the lead without marking
  anything, so every repeat stores another (`NotifyWithoutConversationRepeats`).
- An empty bot text fails the `required` check of the message schema. Tracking then
  stores only the visitor's message and counts nothing.
- The server records every answered turn, including the contact request and the
  apology for a missing tool. The client does not record those, and it trims a tool's
  follow-up answer before showing and storing it (`UnavailableToolIsNotRecorded`,
  `FollowUpIsTrimmedAndRecorded`).
- The client prints the "saved" details after `notify`, whatever `notify` answered,
  including its error reply (`SavedDetailsShownWhenNothingWasSaved`).

## Model

| member | source | states |
|---|---|---|
| Models.NewConversation | backend/model/conversation.model.js:3-25 | a new conversation has its key, no user name, count 0, and both flags false |
| Models.NewMessage | backend/model/message.model.js:3-21 | a new message carries its text, role and key, and no name |
| Models.NewNotification | backend/model/notification.model.js:3-32 | a new lead carries the given fields and is not yet contacted |
| Models.NotificationOptionalFields | backend/model/notification.model.js:3-32 | email, company and designation never decide whether a lead may be saved |
| Js.Trim | backend/api.js:144-148 | the trimmed string neither starts nor ends with JS whitespace |
| Js.TrimRemovesOnlyOuterSpace | backend/api.js:144-148 | `trim` removes a whitespace prefix and a whitespace suffix and nothing else |
| Js.TrimIdempotent | backend/index.js:246 | trimming twice is trimming once |
| Js.TrimKeepsContent | backend/api.js:144-148 | `trim` keeps every character that is not white space |
| Js.LineTerminatorsAreSpaces | backend/api.js:144-148 | every line terminator counts as white space for `trim` and `\s` |
| Js.LowerStrIdempotent | backend/tools/tools.js:47 | lower-casing twice is lower-casing once |
| Js.Remove | backend/api.js:145 | the global `replace` of a character class leaves no character of the class and keeps every other one |
| Js.RemoveKeepsTheRest | backend/api.js:145 | the result is a subsequence of the input, and holds each character outside the class as often as the input and none of the class |
| Js.ContainsIffIndexOf | backend/api.js:286 | `includes` holds exactly when a search finds the leftmost occurrence |
| Portfolio.NotFoundRepliesQuoteTheQuery | backend/tools/tools.js:50-52 | the not-found replies quote the title or skill asked for |
| Portfolio.GetAllProjects | backend/tools/tools.js:32-38 | one summary per project, in order, with its title, short description and skills |
| Portfolio.FindTitle | backend/tools/tools.js:46-48 | the index found is the first project whose title matches case-insensitively, or none matches |
| Portfolio.GetSpecificProject | backend/tools/tools.js:41-55 | a falsy title gets the prompt; a string title gets the first case-insensitive match or the not-found reply; any other truthy value throws `TypeError` |
| Portfolio.SpecificProjectIgnoresCase | backend/tools/tools.js:46-48 | two titles equal up to case find the same project |
| Portfolio.StoredTitleIsFound | backend/tools/tools.js:41-55 | asking for a stored title, in any case, returns a project with that title |
| Portfolio.ProjectsUsing | backend/tools/tools.js:63-68 | the projects kept are, in order and with their multiplicity, exactly those with a skill whose key or label matches |
| Portfolio.GetProjectsBySkill | backend/tools/tools.js:58-75 | a falsy name gets the prompt; no match gets the not-found reply; otherwise the matching projects; a non-string name throws |
| Portfolio.ProjectsBySkillIgnoresCase | backend/tools/tools.js:63-68 | skill lookups ignore case |
| ToolCall.LookupTool | backend/api.js:119-131 | a name is found exactly when it is one of the nine portfolio tools |
| ToolCall.LookupToolRoundTrip | backend/api.js:119-131 | the name of a tool looks up that tool, and only its own name does |
| ToolCall.Execute | backend/api.js:118-135 | a known name calls its tool with the parsed arguments; any other name gives `null` (the client's table in backend/index.js:82-99 is the same) |
| ToolCall.OnlyPortfolioToolsDispatch | backend/api.js:119-129 | `SAVE_CONTACT` and the database helpers are not callable as tools |
| ToolCall.ConstantGettersReturnTheirSection | backend/tools/tools.js:17-90 | each constant getter returns its section of the profile, whatever the arguments |
| ToolCall.CloseBracket | backend/api.js:287 | the lazy `(.*?)\]` stops at the first `]` and never crosses a line break |
| ToolCall.ToolCallAt | backend/api.js:287 | a match at a position starts with the marker and captures a non-empty word name and arguments with no `]` and no line break |
| ToolCall.BracketArgs | backend/api.js:287 | the optional group's text never holds a `]` or a line break |
| ToolCall.NameStart | backend/api.js:287 | the name starts after the whole white-space run that follows the marker |
| ToolCall.NameEnd | backend/api.js:287 | the greedy `\w+` takes the whole word run |
| ToolCall.SkipSpace | backend/api.js:287 | the `\s*` before the group takes the whole white-space run |
| ToolCall.CloseBracketFinds | backend/api.js:287 | the lazy group ends at the first `]` when no line break comes before it |
| ToolCall.ToolCallAtReadsTheMarker | backend/api.js:287-291 | a match reads the whole word run after the marker as the name, and the text between a `[` right after the following spaces and the first `]` as the arguments, else "" |
| ToolCall.ToolCallStart | backend/api.js:287 | the match is taken at the leftmost position where the pattern matches |
| ToolCall.ParseToolCall | backend/api.js:287-291 | a parsed call names a non-empty run of word characters |
| ToolCall.ParseToolCallRoundTrip | backend/api.js:287-291 | a reply written `TOOL_CALL: name [args]`, with a word name and args free of `]` and line breaks, parses back to that name and those args |
| ToolCall.SpecificProjectIsDispatched | backend/api.js:118-135 | `getspecificproject` is a table entry that looks up its first argument |
| ToolCall.ParsedCallHasMarker | backend/api.js:286-289 | a reply is parsed as a call only when it contains `TOOL_CALL:` |
| ToolCall.ParseArgs | backend/api.js:303-310 | no arguments give `[]`, JSON that parses gives its array, and anything else gives the one de-quoted, trimmed string |
| ToolCall.FallbackArgumentIsClean | backend/api.js:308 | the fallback argument has no quotes and no outer whitespace |
| Turn.AskedOnlyOnce | backend/index.js:102-113 | the ask is due for a stored conversation of at least five exchanges not yet asked or notified, and never again once a flag is set (the server's condition in backend/api.js:215-223 is the same) |
| Turn.ClassifyReply | backend/api.js:286-325 | no parsed call means a plain reply; `SAVE_CONTACT` is the contact request; any other name is called with the parsed arguments, and its result is a throw, the data it returned when truthy, or unavailable when falsy or unknown |
| Turn.SpecificProjectReachesTheModel | backend/api.js:287-320 | a `getspecificproject` call whose JSON argument is a stored title, in any case, hands a project with that title to the model |
| Turn.WrittenSpecificProjectCall | backend/api.js:287-320 | the same for the reply `TOOL_CALL: getspecificproject [args]` |
| Contact.LastDot | backend/api.js:140 | the split dot chosen is the last one allowed, searching backwards as backtracking does |
| Contact.EmailAt | backend/api.js:140 | an email match at a position ends after it |
| Contact.EmailFrom | backend/api.js:140 | the email match is taken at the leftmost position where it matches |
| Contact.EmailAtIsEmailLike | backend/api.js:140 | a matched email is local part, `@`, domain, `.`, top-level part, in the pattern's classes |
| Contact.EmailAtShape | backend/api.js:140 | an email match has one `@`, then a dot before its last character, and only email characters elsewhere |
| Contact.EmailShape | backend/api.js:140 | the captured email has that shape |
| Contact.CueEnd | backend/api.js:138 | a cue match ends after the cue word |
| Contact.GroupEnd | backend/api.js:138 | the greedy capture is 3 to max+1 characters: a letter, then the class |
| Contact.CuedAt | backend/api.js:138 | a cued capture at a position lies after it and is the greedy class run after a cue |
| Contact.CuedAtTakesTheFirstAlternative | backend/api.js:138 | the cue used is the first alternative, in written order, that matches at the position; none matches exactly when there is no capture |
| Contact.CuedStart | backend/api.js:138 | the cued match is taken at the leftmost position where it matches |
| Contact.CuedCapture | backend/api.js:138-142 | a captured name, company or designation has 3 to max+1 characters, a letter first and the class after |
| Contact.PhoneAt | backend/api.js:139 | a phone match at a position ends after it |
| Contact.PhoneAtMatchesThePattern | backend/api.js:139 | what `PhoneAt` finds is an optional sign, 1-3 digits, an optional space or hyphen and 10-14 digits |
| Contact.PatternMatchIsFound | backend/api.js:139 | wherever that pattern can match, `PhoneAt` finds a match |
| Contact.JoinedGroupsAreFound | backend/api.js:139 | a match without separator is found |
| Contact.SeparatedGroupsAreFound | backend/api.js:139 | a match with a separator is found |
| Contact.PhoneFrom | backend/api.js:139 | the phone match is taken at the leftmost position where it matches |
| Contact.PhoneAtShape | backend/api.js:139 | a phone match contains a run of ten digits and ends on a digit |
| Contact.PhoneCaptureImpliesSignal | backend/api.js:139 | a message with a captured phone always raises the contact signal |
| Contact.TenDigitNumbersAreNotCaptured | backend/api.js:139 | a message with no digit run over ten and no separator after a digit yields no phone |
| Contact.NoPhoneAt | backend/api.js:139 | no phone match starts anywhere when no digit run exceeds ten and no separator follows a digit |
| Contact.Finish | backend/api.js:144-150 | name and phone are present exactly when matched; the name is trimmed; the phone is the trimmed capture with its spaces and hyphens removed; absent optional fields are "" |
| Contact.ExtractedNameAndPhoneAreTruthy | backend/api.js:138-150 | an extracted name or phone is never empty, so the truthiness test equals the match test |
| Contact.CapturedNameAndPhoneAreTruthy | backend/index.js:169-177 | the same holds for the client's captures |
| Contact.PhoneCaptureEndsOnDigit | backend/api.js:139 | a captured phone is non-empty and ends on a digit |
| Contact.PhoneDigitsKeepLastDigit | backend/api.js:145 | removing separators from a capture that ends on a digit leaves a non-empty phone |
| Contact.ExtractedNameShape | backend/api.js:138-144 | an extracted name has 1 to 31 characters, a letter first, and only letters and spaces |
| Contact.TrimmedWordsShape | backend/api.js:144 | trimming a letter-first run of letters and spaces keeps it non-empty, letter-first and made of letters and spaces |
| GitHub.SecondSegment | backend/api.js:550 | `split('/')[1]` exists exactly when the name has a `/`, and holds no `/` |
| GitHub.SecondSegmentOfFullName | backend/api.js:550 | for `owner/repo` it is `repo` |
| GitHub.ToActivity | backend/api.js:548-555 | the activity keeps the full name and links to it on GitHub |
| GitHub.ToActivities | backend/api.js:548-555 | one activity per event, in order |
| GitHub.PushEvents | backend/api.js:545-546 | an order-preserving selection of exactly the push events |
| GitHub.Take | backend/api.js:547 | `slice(0, n)` gives exactly the first min(n, length) items |
| GitHub.FirstIndex | backend/api.js:559 | `findIndex` gives the first activity with that repository name |
| GitHub.KeepFirst | backend/api.js:558-560 | keeps, in order, exactly the first occurrence of each repository name, so the names kept are distinct |
| GitHub.RecentActivitiesShape | backend/api.js:545-564 | at most five distinct repositories, in order, each from a push event among the first ten |
| GitHub.RecentActivitiesComplete | backend/api.js:558-564 | when fewer than five remain, every repository of the first ten push events is listed |
| Store.GetConversationSpec | backend/tools/tools.js:175-183 | the stored record, or `null` when absent or when the lookup throws |
| Store.Store.GetConversation | backend/tools/tools.js:175-183 | the method returns what the specification gives |
| Store.Store.TrackConversation | backend/tools/tools.js:134-172 | the collections after the steps are those of the specification, fault by fault |
| Store.Store.Notify | backend/tools/tools.js:93-131 | the collections and reply are those of the specification, fault by fault |
| Store.Store.UpdateUserName | backend/tools/tools.js:186-201 | the collections and result are those of the specification |
| Store.Store.MarkAsked | backend/api.js:220-223 | saving the ask flag matches its specification |
| Store.TrackKeepsValid | backend/tools/tools.js:134-172 | tracking keeps every stored record schema-valid, whatever fails |
| Store.NotifyKeepsValid | backend/tools/tools.js:93-131 | notifying keeps every stored record schema-valid |
| Store.NotifyKeepsMessages | backend/tools/tools.js:93-131 | `notify` writes no message and never replies with an empty text |
| Store.FlagUpdatesKeepValid | backend/tools/tools.js:186-201 | flag and name updates keep the records valid |
| Store.TrackRecordsOneExchange | backend/tools/tools.js:134-172 | without faults: the user then the bot message are stored, the count goes up by one (a new record starts at 1), and nothing else changes |
| Store.TrackWritesAtMostItsOwn | backend/tools/tools.js:134-172 | whatever fails, tracking appends at most the two messages and touches only its own conversation |
| Store.NotifyAfterNotifiedWritesNothing | backend/tools/tools.js:96-101 | an already-notified conversation gets the fixed reply and no write |
| Store.NotifyNeedsNameAndPhone | backend/tools/tools.js:104-106 | without a name or phone nothing is stored |
| Store.NotifyStoresOneLead | backend/tools/tools.js:108-127 | without faults, one lead with the given fields is stored, the conversation is marked, and the visitor is thanked |
| Store.NotifyTwiceStoresOnce | backend/tools/tools.js:96-125 | a second notify for a stored conversation stores nothing more |
| Store.NotifyWithoutConversationRepeats | backend/tools/tools.js:96-125 | with no conversation record, a second notify stores a second lead |
| Store.NotifyWithFailedFlagSave | backend/tools/tools.js:118-130 | when saving the notified flag throws, the lead stays stored, the conversation stays unnotified, and the reply is the error text |
| Store.UpdateUserNameChangesOnlyTheName | backend/tools/tools.js:186-201 | only the user name of that conversation changes, and only when it exists |
| Store.TrackGrows | backend/tools/tools.js:134-172 | tracking only appends, keeps conversations, never lowers a count and never clears a flag |
| Store.NotifyGrows | backend/tools/tools.js:93-131 | notifying only adds |
| Store.MarkAskedGrows | backend/api.js:220-223 | saving the flag only adds |
| ChatApi.SessionKey | backend/api.js:209 | a non-empty given key is kept, otherwise the fresh one; never empty |
| ChatApi.OpenSession | backend/api.js:100-115 | an existing session keeps its history, a new key starts empty, other sessions are untouched |
| ChatApi.ChatTurn | backend/api.js:197-352 | status 400 exactly when the message is missing or empty, and then nothing changes |
| ChatApi.ContactStage | backend/api.js:230-273 | details are saved exactly when a name and a phone are extracted; otherwise the answer is the fixed request for details; the chat sessions are left alone |
| ChatApi.ModelStage | backend/api.js:275-283 | a throwing model gives status 500 with the session opened; otherwise the session's history gains the visitor's message and the model's reply |
| ChatApi.ReplyStage | backend/api.js:285-326 | a plain reply is the answer word for word; `SAVE_CONTACT` answers with the contact request exactly when the flag save succeeds or there is no conversation; an unavailable tool gets the apology; a throwing tool gives status 500; tool data answers exactly when the follow-up arrives, with that follow-up, and extends the history by it |
| ChatApi.FinishStage | backend/api.js:328-343 | the answer carries the final reply, the key and the tool flag |
| ChatApi.ChatServer.GetChatSession | backend/api.js:100-115 | the cache after the call is the opened session map |
| ChatApi.ChatServer.DeleteSession | backend/api.js:420 | the session is removed and the others are kept |
| ChatApi.ChatServer.SendMessage | backend/api.js:279-280 | a reply extends the session's history by one exchange; a throw leaves it |
| ChatApi.ChatServer.HandleChat | backend/api.js:197-352 | the handler's new state and response equal the turn's specification |
| ChatApi.ChatServer.HandleContact | backend/api.js:227-273 | the contact branch matches its specification |
| ChatApi.ChatServer.HandleModel | backend/api.js:275-283 | the model branch matches its specification |
| ChatApi.ChatServer.HandleReply | backend/api.js:285-326 | acting on the reply matches its specification |
| ChatApi.ChatServer.Finish | backend/api.js:328-343 | recording and answering match their specification |
| ChatApi.FinishStageGrows | backend/api.js:328-343 | recording only adds, keeps validity and stores no lead |
| ChatApi.ReplyStageGrows | backend/api.js:285-326 | acting on a reply only adds and stores no lead |
| ChatApi.ContactStageGrows | backend/api.js:227-273 | the contact branch only adds and keeps validity |
| ChatApi.TurnOnlyGrows | backend/api.js:197-352 | whatever fails, a turn only adds, keeps validity, and stores a lead only when it answers that details were saved |
| ChatApi.ContactAnswersComeOnlyFromTheContactBranch | backend/api.js:227-273 | saved or needs-details answers come only from the contact branch, which never answers from the model |
| ChatApi.FirstMessageGoesToTheModel | backend/api.js:212-227 | without a stored conversation the contact branch is never taken |
| ChatApi.AnsweredTurnUnfolds | backend/api.js:197-326 | an answered turn had a message and a model reply, and equals the reply stage after the ask |
| ChatApi.ContactTurnUnfolds | backend/api.js:212-273 | a turn that takes the contact branch equals the contact stage after the ask |
| ChatApi.ToolUsedMeansToolData | backend/api.js:313-340 | `toolUsed` only when a tool returned truthy data and the follow-up is the answer, recorded in the history |
| ChatApi.ToolDataReachesTheVisitor | backend/api.js:313-320 | truthy tool data with a follow-up reply always gives a tool-backed answer |
| ChatApi.ModelTurnUnfolds | backend/api.js:212-283 | a turn that reaches the model is the reply stage after the ask |
| ChatApi.UnavailableToolGetsTheApology | backend/api.js:321-323 | an unknown tool name gets the fixed apology and no tool use |
| ChatApi.FalsyToolResultGetsTheApology | backend/api.js:313-323 | a known tool with a falsy result gets the same apology and no tool use |
| ChatApi.PlainReplyIsAnsweredVerbatim | backend/api.js:286-343 | a reply with no tool call is the answer word for word, without tool use, and is in the session's history |
| ChatApi.ContactRequestMarksAsked | backend/api.js:294-300 | the model's `SAVE_CONTACT` in a stored conversation sets the asked flag and answers with the contact request, without tool use |
| ChatApi.DueAskIsSaved | backend/api.js:215-223 | when the ask is due and its save succeeds, the conversation stays marked as asked after the turn |
| ChatApi.FinishStageRecords | backend/api.js:328-342 | without faults, the two messages are stored and the reported count is the new count |
| ChatApi.MarkAskedKeepsCounts | backend/api.js:220-223 | the ask flag changes no message, lead or count |
| ChatApi.ReplyStageRecords | backend/api.js:285-342 | an answered reply stage stores exactly its two messages and reports the count plus one |
| ChatApi.AnswerRecordsOneExchange | backend/api.js:197-343 | without faults, an answered turn stores the visitor's message and the reply, counts one exchange and stores no lead |
| ChatApi.ContactStageRecords | backend/api.js:233-262 | without faults, the contact stage stores the visitor's message and the reply it gives |
| ChatApi.ContactTurnRecordsOneExchange | backend/api.js:227-272 | without faults, a saved or needs-details turn stores exactly the visitor's message and its reply |
| ChatApi.NotifiedConversationGetsNoNewLead | backend/api.js:227 | a notified conversation never gets another lead |
| ChatApi.SavedContactMarksTheConversation | backend/api.js:233-262 | without faults, saving details stores one lead with the extracted fields, marks the conversation and thanks the visitor |
| ChatApi.AtMostOneLeadPerConversation | backend/api.js:227-262 | after a saved contact, no later turn of that session stores another lead |
| ChatApi.OpenConversationStoresTheLead | backend/api.js:227-262 | without faults, a name and phone sent in a stored, unnotified conversation store exactly one lead |
| ChatApi.ContactStageWithFailedFlagSave | backend/api.js:233-262 | when `notify` fails after storing the lead, the contact stage answers with the error text, keeps the lead and leaves the conversation unnotified |
| ChatApi.FailedFlagSaveLeavesTheConversationOpen | backend/api.js:227-262 | the whole turn then answers with the error text, adds one lead, and the conversation stays unnotified |
| ChatApi.FailedFlagSaveDuplicatesTheLead | backend/tools/tools.js:118-130 | when the flag save fails after the lead is stored, the same message stores a second lead |
| Cli.CliStep | backend/index.js:140-268 | the client keeps reading exactly when the line is not `exit`; `exit` changes nothing |
| Cli.CliContactStage | backend/index.js:167-198 | with a name and a phone: two lines, `notify`'s reply then the saved details; otherwise the format template and no change at all; the chat history is left alone |
| Cli.CliReplyStage | backend/index.js:205-261 | a plain reply is printed as it came; `SAVE_CONTACT` prints the contact request and records nothing; a tool call prints its name, then the apology, an error, or the trimmed follow-up that extends the history; never a lead |
| Cli.Client.SendMessage | backend/index.js:202-203 | a reply extends the chat history; a throw leaves it |
| Cli.Client.HandleUserInput | backend/index.js:140-268 | the step's new state, lines and continuation equal its specification |
| Cli.Client.HandleContact | backend/index.js:167-198 | the contact branch matches its specification |
| Cli.Client.HandleModel | backend/index.js:201-203 | the model branch matches its specification |
| Cli.Client.HandleReply | backend/index.js:205-261 | acting on the reply matches its specification |
| Cli.CliReplyStageGrows | backend/index.js:205-261 | acting on a reply only adds to the database and the history and keeps validity |
| Cli.CliContactStageGrows | backend/index.js:167-198 | the contact branch only adds, keeps validity, and stores a lead only when it prints saved details |
| Cli.CliStepOnlyGrows | backend/index.js:140-268 | whatever fails, a step only adds to the database and the history, keeps validity, and stores a lead only when it prints saved details |
| Cli.ModelStepUnfolds | backend/index.js:148-206 | a step that reaches the model is the reply stage after the ask, on a database with the same messages and leads |
| Cli.ContactStepUnfolds | backend/index.js:148-175 | a step that takes the contact branch is the contact stage after the ask, on a database with the same messages and leads |
| Cli.UnavailableToolIsNotRecorded | backend/index.js:250-252 | a missing tool gets the apology and stores no message |
| Cli.IncompleteContactIsNotRecorded | backend/index.js:192-197 | contact-like input without a name and a phone gets the format template and stores nothing |
| Cli.SaveContactIsNotRecorded | backend/index.js:213-222 | the model's contact request is shown, marks the conversation as asked, and stores no message |
| Cli.PlainReplyIsRecordedVerbatim | backend/index.js:253-261 | a reply without a tool call is shown and stored as it came |
| Cli.FollowUpStageRecords | backend/index.js:243-249 | the trimmed follow-up is shown and stored after the visitor's line |
| Cli.FollowUpIsTrimmedAndRecorded | backend/index.js:237-249 | without faults, a tool-backed step shows and stores the trimmed follow-up; the history holds both prompts |
| Cli.SavedDetailsShownWhenNothingWasSaved | backend/index.js:182-185 | when `notify` fails at once, no lead is stored, yet the error reply is followed by the saved details |
| Cli.ContactStageWithNotifyDown | backend/index.js:175-188 | with `notify` failing at once, the contact stage prints the error reply and then the saved details, and stores no lead |
| Cli.DueAskIsPrintedAndSaved | backend/index.js:152-160 | when the ask is due and its save succeeds, the step opens with the proactive request and the conversation stays marked as asked |
| Cli.CompleteContactStage | backend/index.js:175-188 | without faults, in an open conversation, the contact stage stores one lead, marks the conversation, records the visitor's line with the thanks and prints the thanks and details |
| Cli.CompleteContactIsSavedAndRecorded | backend/index.js:167-188 | the step then stores exactly that lead, marks the conversation notified and records the two messages |
| Cli.CompleteContactStageLines | backend/index.js:182-185 | with `notify` succeeding, the stage prints the thanks and then the details |
| Cli.CompleteContactIsThankedAndShown | backend/index.js:167-188 | the step's last two lines are the thanks and the details, and the chat history is unchanged |

## Left out

- The language model, `JSON.parse`, `uuidv4`, `fetch` and the clock are parameters or
  absent. `SYSTEM_PROMPT` and the follow-up prompt text are not modelled. A follow-up
  prompt stands for the tool output it serialises.
- `PORTFOLIO_NAME` is fixed to its default, "Anish". The environment variable is not
  modelled.
- ToolCall.Execute: the names of inherited `Object.prototype` members (`constructor`,
  `toString`, ...) are excluded by precondition. Calling them through the tool table
  would run JavaScript built-ins, which this model does not describe.
- `toLowerCase` folds ASCII letters only. Case mappings beyond ASCII are not modelled.
- A request body whose `message` or `convKey` is not a string is not modelled. Both are
  strings or absent.
- Concurrency is not modelled: two requests of one session running interleaved, and
  the race between `findOne` and `save`. Each turn runs alone.
- The database's own timestamps and ids, and the unique index on `convKey` beyond the
  map key, are not modelled.
- The other routes of the server are not modelled: health, portfolio, the listing and
  deleting of conversations in the database, notifications, stats. Nor are the
  maintenance scripts. The delete route is modelled only for its removal of the cached
  session (`DeleteSession`).
- The GitHub route's `fetch` and its error path are not modelled, nor events without a
  `repo`. The transform starts from the decoded event list.
- Console decoration (emoji, blank lines) and the argument list printed after
  "Calling function" are not modelled. A printed line keeps only its content.
- Cli.CliStep: the client's readline loop and `mongoose.connection.close()` on exit are
  not modelled. The step returns whether the client keeps reading.
- ChatApi.ContactStage: the reply of the saved branch is stated as `notify`'s reply
  only in the lemmas about whole turns (`SavedContactMarksTheConversation`,
  `ContactStageWithFailedFlagSave`).
