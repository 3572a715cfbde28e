/** The three persisted record kinds (conversations, messages, notifications): their
    fields, the defaults the schemas fill in and the `required` checks a save runs
    before anything is written. A string field that is `required` refuses the empty
    string as well as a missing value. */
module Models {

  import opened Wrappers

  /** The role enumeration of a message. */
  datatype Role = User | Bot

  /** The role a message gets when none is given. */
  const DEFAULT_ROLE: Role := User

  /** Per-session state. `convKey` is unique, so a store keyed by it holds at most one
      record per session. */
  datatype Conversation = Conversation(
    convKey: string,
    userName: Option<string>,
    messageCount: nat,
    hasNotified: bool,
    hasAskedForDetails: bool)

  /** One side of an exchange. `name` is optional and never set by the chatbot. */
  datatype Message = Message(text: string, role: Role, name: Option<string>, convKey: string)

  /** A captured lead. An optional string the caller leaves out is stored as "". */
  datatype Notification = Notification(
    name: string,
    email: string,
    phone: string,
    company: string,
    designation: string,
    convKey: string,
    isContacted: bool)

  /** A conversation created with only its key: every other field takes its default. */
  function NewConversation(key: string): (c: Conversation)
    ensures c.convKey == key && c.userName == None && c.messageCount == 0
    ensures !c.hasNotified && !c.hasAskedForDetails
  {
    Conversation(key, None, 0, false, false)
  }

  predicate ConversationValid(c: Conversation) {
    c.convKey != ""
  }

  /** A message written by the chatbot: text, role and session key, no name. */
  function NewMessage(text: string, role: Role, key: string): (m: Message)
    ensures m.text == text && m.role == role && m.convKey == key && m.name == None
  {
    Message(text, role, None, key)
  }

  /** `message` and `convKey` are required. */
  predicate MessageValid(m: Message) {
    m.text != "" && m.convKey != ""
  }

  /** A notification as `notify` builds it; `isContacted` takes its default. */
  function NewNotification(name: string, email: string, phone: string, company: string,
                           designation: string, key: string): (n: Notification)
    ensures n.name == name && n.phone == phone && n.convKey == key
    ensures n.email == email && n.company == company && n.designation == designation
    ensures !n.isContacted
  {
    Notification(name, email, phone, company, designation, key, false)
  }

  /** `name`, `phone` and `convKey` are required; `email`, `company` and
      `designation` are not. */
  predicate NotificationValid(n: Notification) {
    n.name != "" && n.phone != "" && n.convKey != ""
  }

  /** The optional fields never decide whether a notification may be saved. */
  lemma NotificationOptionalFields(n: Notification, email: string, company: string, designation: string)
    ensures NotificationValid(n) <==>
            NotificationValid(n.(email := email, company := company, designation := designation))
  {
  }
}
