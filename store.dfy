/** The database helpers of the tool module (`notify`, `trackConversation`,
    `getconversation`, `updateusername`) over an in-memory picture of the three
    collections.

    Each helper is a sequence of database calls. Which call, if any, fails (a dropped
    connection, a timeout) is a parameter: `FailAt(i)` makes the i-th call of the helper
    throw, counting from 0. A `required` field left empty fails its save on every run,
    so validation is decided by the data, not by the fault. */
module Store {

  import opened Wrappers
  import opened Models

  /** The three collections: conversations by their unique key, messages and
      notifications in insertion order. */
  datatype Db = Db(
    conversations: map<string, Conversation>,
    messages: seq<Message>,
    notifications: seq<Notification>)

  const EMPTY_DB := Db(map[], [], [])

  /** What the schemas guarantee of stored records. */
  predicate DbValid(db: Db) {
    (forall k :: k in db.conversations ==> db.conversations[k].convKey == k && ConversationValid(db.conversations[k]))
    && (forall m :: m in db.messages ==> MessageValid(m))
    && (forall n :: n in db.notifications ==> NotificationValid(n))
  }

  /** The database call that throws, if any. */
  datatype Fault = NoFault | FailAt(step: nat)

  predicate Fails(f: Fault, step: nat) {
    f == FailAt(step)
  }

  /** The name the replies use for the portfolio owner. */
  const OWNER := "Anish"

  const ALREADY_NOTIFIED :=
    "I've already notified " + OWNER + " with your details. " +
    "Please wait for a response!"
  const MISSING_DETAILS :=
    "Please provide at least your name and phone number."
  const NOTIFY_ERROR :=
    "There was an error processing your request. " +
    "Please try again."

  function ThankYou(name: string, phone: string, email: string): string {
    "Thank you " + name + "! " +
    "I've notified " + OWNER + " about your interest. " +
    "He will reach out to you soon at "
      + phone + (if email != "" then " or " + email else "") + "."
  }

  // ---------------------------------------------------------------------------
  // getconversation: one call, `null` on failure
  // ---------------------------------------------------------------------------

  function GetConversationSpec(db: Db, key: string, f: Fault): (c: Option<Conversation>)
    ensures c.Some? <==> !Fails(f, 0) && key in db.conversations
    ensures c.Some? ==> c.value == db.conversations[key]
  {
    if Fails(f, 0) || key !in db.conversations then None else Some(db.conversations[key])
  }

  // ---------------------------------------------------------------------------
  // trackConversation: save user message (0), save bot message (1), find (2), save (3)
  // ---------------------------------------------------------------------------

  /** The conversation record after one more exchange. */
  function Counted(db: Db, key: string): Conversation {
    if key in db.conversations then
      var c := db.conversations[key];
      c.(messageCount := c.messageCount + 1)
    else NewConversation(key).(messageCount := 1)
  }

  /** The new database and the returned conversation (`null` on any failure). Writes
      that completed before a failure stay. */
  function TrackSpec(db: Db, key: string, userText: string, botText: string, f: Fault): (Db, Option<Conversation>) {
    var um := NewMessage(userText, User, key);
    var bm := NewMessage(botText, Bot, key);
    if Fails(f, 0) || !MessageValid(um) then (db, None)
    else
      var db1 := db.(messages := db.messages + [um]);
      if Fails(f, 1) || !MessageValid(bm) then (db1, None)
      else
        var db2 := db1.(messages := db1.messages + [bm]);
        var c := Counted(db, key);
        if Fails(f, 2) || Fails(f, 3) || !ConversationValid(c) then (db2, None)
        else (db2.(conversations := db2.conversations[key := c]), Some(c))
  }

  // ---------------------------------------------------------------------------
  // notify: find (0), save notification (1), save conversation (2)
  // ---------------------------------------------------------------------------

  /** The new database and the reply text. */
  function NotifySpec(db: Db, name: string, phone: string, email: string, company: string,
                      designation: string, key: string, f: Fault): (Db, string) {
    if Fails(f, 0) then (db, NOTIFY_ERROR)
    else if key in db.conversations && db.conversations[key].hasNotified then (db, ALREADY_NOTIFIED)
    else if name == "" || phone == "" then (db, MISSING_DETAILS)
    else
      var n := NewNotification(name, email, phone, company, designation, key);
      if Fails(f, 1) || !NotificationValid(n) then (db, NOTIFY_ERROR)
      else
        var db1 := db.(notifications := db.notifications + [n]);
        if key !in db.conversations then (db1, ThankYou(name, phone, email))
        else if Fails(f, 2) then (db1, NOTIFY_ERROR)
        else
          var c := db.conversations[key];
          (db1.(conversations := db.conversations[key := c.(hasNotified := true)]), ThankYou(name, phone, email))
  }

  // ---------------------------------------------------------------------------
  // updateusername: find (0), save (1)
  // ---------------------------------------------------------------------------

  function UpdateUserNameSpec(db: Db, key: string, userName: string, f: Fault): (Db, bool) {
    if Fails(f, 0) || key !in db.conversations || Fails(f, 1) then (db, false)
    else
      var c := db.conversations[key];
      (db.(conversations := db.conversations[key := c.(userName := Some(userName))]), true)
  }

  // ---------------------------------------------------------------------------
  // conversation.hasAskedForDetails = true; await conversation.save()
  // ---------------------------------------------------------------------------

  /** Saving the flag on a conversation the caller loaded: the save writes the one
      modified field, and throws (`false`) on a fault or when the record is gone. */
  function MarkAskedSpec(db: Db, key: string, f: Fault): (Db, bool) {
    if Fails(f, 0) || key !in db.conversations then (db, false)
    else
      var c := db.conversations[key];
      (db.(conversations := db.conversations[key := c.(hasAskedForDetails := true)]), true)
  }

  // ---------------------------------------------------------------------------
  // The collections, updated in place
  // ---------------------------------------------------------------------------

  class Store {
    var conversations: map<string, Conversation>
    var messages: seq<Message>
    var notifications: seq<Notification>

    function State(): Db
      reads this
    {
      Db(conversations, messages, notifications)
    }

    constructor()
      ensures State() == EMPTY_DB
    {
      conversations := map[];
      messages := [];
      notifications := [];
    }

    method GetConversation(key: string, f: Fault) returns (c: Option<Conversation>)
      ensures c == GetConversationSpec(State(), key, f)
    {
      if Fails(f, 0) || key !in conversations {
        c := None;
      } else {
        c := Some(conversations[key]);
      }
    }

    method TrackConversation(key: string, userText: string, botText: string, f: Fault)
      returns (c: Option<Conversation>)
      modifies this
      ensures (State(), c) == TrackSpec(old(State()), key, userText, botText, f)
    {
      var um := NewMessage(userText, User, key);
      if Fails(f, 0) || !MessageValid(um) {
        return None;
      }
      messages := messages + [um];
      var bm := NewMessage(botText, Bot, key);
      if Fails(f, 1) || !MessageValid(bm) {
        return None;
      }
      messages := messages + [bm];
      if Fails(f, 2) {
        return None;
      }
      var record: Conversation;
      if key !in conversations {
        record := NewConversation(key).(messageCount := 1);
      } else {
        record := conversations[key];
        record := record.(messageCount := record.messageCount + 1);
      }
      if Fails(f, 3) || !ConversationValid(record) {
        return None;
      }
      conversations := conversations[key := record];
      c := Some(record);
    }

    method Notify(name: string, phone: string, email: string, company: string,
                  designation: string, key: string, f: Fault) returns (reply: string)
      modifies this
      ensures (State(), reply) == NotifySpec(old(State()), name, phone, email, company, designation, key, f)
    {
      if Fails(f, 0) {
        return NOTIFY_ERROR;
      }
      var found := key in conversations;
      if found && conversations[key].hasNotified {
        return ALREADY_NOTIFIED;
      }
      if name == "" || phone == "" {
        return MISSING_DETAILS;
      }
      var n := NewNotification(name, email, phone, company, designation, key);
      if Fails(f, 1) || !NotificationValid(n) {
        return NOTIFY_ERROR;
      }
      notifications := notifications + [n];
      if found {
        if Fails(f, 2) {
          return NOTIFY_ERROR;
        }
        var c := conversations[key];
        conversations := conversations[key := c.(hasNotified := true)];
      }
      reply := ThankYou(name, phone, email);
    }

    method UpdateUserName(key: string, userName: string, f: Fault) returns (ok: bool)
      modifies this
      ensures (State(), ok) == UpdateUserNameSpec(old(State()), key, userName, f)
    {
      if Fails(f, 0) || key !in conversations || Fails(f, 1) {
        return false;
      }
      var c := conversations[key];
      conversations := conversations[key := c.(userName := Some(userName))];
      ok := true;
    }

    method MarkAsked(key: string, f: Fault) returns (ok: bool)
      modifies this
      ensures (State(), ok) == MarkAskedSpec(old(State()), key, f)
    {
      if Fails(f, 0) || key !in conversations {
        return false;
      }
      var c := conversations[key];
      conversations := conversations[key := c.(hasAskedForDetails := true)];
      ok := true;
    }
  }

  // ---------------------------------------------------------------------------
  // Properties
  // ---------------------------------------------------------------------------

  /** Tracking keeps the stored records valid, whatever call fails. */
  lemma TrackKeepsValid(db: Db, key: string, userText: string, botText: string, f: Fault)
    ensures DbValid(db) ==> DbValid(TrackSpec(db, key, userText, botText, f).0)
  {
  }

  /** Notifying keeps the stored records valid, whatever call fails. */
  lemma NotifyKeepsValid(db: Db, name: string, phone: string, email: string, company: string,
                         designation: string, key: string, f: Fault)
    ensures DbValid(db) ==> DbValid(NotifySpec(db, name, phone, email, company, designation, key, f).0)
  {
  }

  /** `notify` writes no message, and every reply it gives is non-empty. */
  lemma NotifyKeepsMessages(db: Db, name: string, phone: string, email: string, company: string,
                            designation: string, key: string, f: Fault)
    ensures var (db', reply) := NotifySpec(db, name, phone, email, company, designation, key, f);
      db'.messages == db.messages && reply != ""
  {
  }

  /** Saving the ask flag or a user name keeps the stored records valid. */
  lemma FlagUpdatesKeepValid(db: Db, key: string, userName: string, f: Fault)
    ensures DbValid(db) ==> DbValid(MarkAskedSpec(db, key, f).0)
    ensures DbValid(db) ==> DbValid(UpdateUserNameSpec(db, key, userName, f).0)
  {
  }

  /** A fully successful exchange stores the two messages, user first, and counts one
      more exchange; nothing else changes. */
  lemma TrackRecordsOneExchange(db: Db, key: string, userText: string, botText: string)
    requires DbValid(db) && key != "" && userText != "" && botText != ""
    ensures var (db', c) := TrackSpec(db, key, userText, botText, NoFault);
      c.Some?
      && db'.messages == db.messages + [Message(userText, User, None, key), Message(botText, Bot, None, key)]
      && db'.notifications == db.notifications
      && db'.conversations.Keys == db.conversations.Keys + {key}
      && (forall k :: k in db.conversations && k != key ==> db'.conversations[k] == db.conversations[k])
      && c.value == db'.conversations[key]
      && (key in db.conversations ==>
            var old_ := db.conversations[key];
            c.value == old_.(messageCount := old_.messageCount + 1))
      && (key !in db.conversations ==>
            c.value.messageCount == 1 && !c.value.hasNotified && !c.value.hasAskedForDetails && c.value.userName == None)
  {
  }

  /** Whatever fails, tracking only appends a prefix of the two messages, never touches
      notifications, and changes at most the conversation of its own key. */
  lemma TrackWritesAtMostItsOwn(db: Db, key: string, userText: string, botText: string, f: Fault)
    ensures var (db', c) := TrackSpec(db, key, userText, botText, f);
      var both := [NewMessage(userText, User, key), NewMessage(botText, Bot, key)];
      (exists n :: 0 <= n <= 2 && db'.messages == db.messages + both[..n])
      && db'.notifications == db.notifications
      && (forall k :: k != key ==> (k in db'.conversations <==> k in db.conversations))
      && (forall k :: k in db.conversations && k != key ==> db'.conversations[k] == db.conversations[k])
      && (c.None? ==> db'.conversations == db.conversations)
  {
    var (db', c) := TrackSpec(db, key, userText, botText, f);
    var both := [NewMessage(userText, User, key), NewMessage(botText, Bot, key)];
    if db'.messages == db.messages {
      assert db'.messages == db.messages + both[..0];
    } else if db'.messages == db.messages + [both[0]] {
      assert db'.messages == db.messages + both[..1];
    } else {
      assert db'.messages == db.messages + both[..2];
    }
  }

  /** A conversation already notified is never notified again: the reply says so and
      nothing is written. */
  lemma NotifyAfterNotifiedWritesNothing(db: Db, name: string, phone: string, email: string,
                                         company: string, designation: string, key: string, f: Fault)
    requires key in db.conversations && db.conversations[key].hasNotified && !Fails(f, 0)
    ensures NotifySpec(db, name, phone, email, company, designation, key, f) == (db, ALREADY_NOTIFIED)
  {
  }

  /** Without a name or a phone nothing is written. */
  lemma NotifyNeedsNameAndPhone(db: Db, name: string, phone: string, email: string,
                                company: string, designation: string, key: string, f: Fault)
    requires name == "" || phone == ""
    ensures NotifySpec(db, name, phone, email, company, designation, key, f).0 == db
    ensures !Fails(f, 0) && !(key in db.conversations && db.conversations[key].hasNotified) ==>
      NotifySpec(db, name, phone, email, company, designation, key, f).1 == MISSING_DETAILS
  {
  }

  /** A successful notification stores exactly one record with the given details, marks
      the conversation (when there is one) as notified and thanks the visitor. */
  lemma NotifyStoresOneLead(db: Db, name: string, phone: string, email: string,
                            company: string, designation: string, key: string)
    requires name != "" && phone != "" && key != ""
    requires !(key in db.conversations && db.conversations[key].hasNotified)
    ensures var (db', reply) := NotifySpec(db, name, phone, email, company, designation, key, NoFault);
      db'.notifications == db.notifications + [Notification(name, email, phone, company, designation, key, false)]
      && db'.messages == db.messages
      && db'.conversations.Keys == db.conversations.Keys
      && (key in db.conversations ==> db'.conversations[key] == db.conversations[key].(hasNotified := true))
      && (forall k :: k in db.conversations && k != key ==> db'.conversations[k] == db.conversations[k])
      && reply == ThankYou(name, phone, email)
  {
  }

  /** When the lead is stored but saving the notified flag fails, the visitor gets the
      error reply while the new record stays and the conversation is left unnotified. */
  lemma NotifyWithFailedFlagSave(db: Db, name: string, phone: string, email: string,
                                 company: string, designation: string, key: string)
    requires name != "" && phone != "" && key != ""
    requires key in db.conversations && !db.conversations[key].hasNotified
    ensures var (db', reply) := NotifySpec(db, name, phone, email, company, designation, key, FailAt(2));
      db'.notifications == db.notifications + [Notification(name, email, phone, company, designation, key, false)]
      && db'.messages == db.messages
      && db'.conversations == db.conversations
      && reply == NOTIFY_ERROR
  {
  }

  /** With the conversation on record, a second notification is refused: one lead per
      conversation. */
  lemma NotifyTwiceStoresOnce(db: Db, name: string, phone: string, email: string,
                              company: string, designation: string, key: string,
                              name2: string, phone2: string, f2: Fault)
    requires name != "" && phone != "" && key != "" && key in db.conversations
    requires !db.conversations[key].hasNotified && !Fails(f2, 0)
    ensures var db1 := NotifySpec(db, name, phone, email, company, designation, key, NoFault).0;
      var (db2, reply) := NotifySpec(db1, name2, phone2, email, company, designation, key, f2);
      db2 == db1 && reply == ALREADY_NOTIFIED
      && |db2.notifications| == |db.notifications| + 1
  {
  }

  /** Without a conversation record nothing remembers the notification: a second call
      stores a second lead. */
  lemma NotifyWithoutConversationRepeats(db: Db, name: string, phone: string, email: string,
                                         company: string, designation: string, key: string)
    requires name != "" && phone != "" && key != "" && key !in db.conversations
    ensures var db1 := NotifySpec(db, name, phone, email, company, designation, key, NoFault).0;
      var db2 := NotifySpec(db1, name, phone, email, company, designation, key, NoFault).0;
      |db2.notifications| == |db.notifications| + 2
  {
  }

  /** Renaming changes the user name of an existing conversation and nothing else. */
  lemma UpdateUserNameChangesOnlyTheName(db: Db, key: string, userName: string, f: Fault)
    ensures var (db', ok) := UpdateUserNameSpec(db, key, userName, f);
      (ok <==> key in db.conversations && !Fails(f, 0) && !Fails(f, 1))
      && db'.messages == db.messages && db'.notifications == db.notifications
      && db'.conversations.Keys == db.conversations.Keys
      && (forall k :: k in db.conversations ==>
            db'.conversations[k] == if ok && k == key then db.conversations[k].(userName := Some(userName))
                                    else db.conversations[k])
  {
  }

  /** What no helper a chat turn uses ever undoes: stored messages and notifications
      stay where they are, a stored conversation stays, its count never drops and its
      two flags are never cleared. */
  predicate Grows(db: Db, db': Db) {
    db.messages <= db'.messages
    && db.notifications <= db'.notifications
    && (forall k :: k in db.conversations ==>
          k in db'.conversations
          && db.conversations[k].messageCount <= db'.conversations[k].messageCount
          && (db.conversations[k].hasNotified ==> db'.conversations[k].hasNotified)
          && (db.conversations[k].hasAskedForDetails ==> db'.conversations[k].hasAskedForDetails))
  }

  lemma GrowsTransitive(a: Db, b: Db, c: Db)
    requires Grows(a, b) && Grows(b, c)
    ensures Grows(a, c)
  {
    assert a.messages <= c.messages;
  }

  /** Tracking only ever adds. */
  lemma TrackGrows(db: Db, key: string, userText: string, botText: string, f: Fault)
    ensures Grows(db, TrackSpec(db, key, userText, botText, f).0)
  {
    var db' := TrackSpec(db, key, userText, botText, f).0;
    TrackWritesAtMostItsOwn(db, key, userText, botText, f);
    var both := [NewMessage(userText, User, key), NewMessage(botText, Bot, key)];
    var n :| 0 <= n <= 2 && db'.messages == db.messages + both[..n];
    assert db.messages <= db'.messages;
  }

  /** Notifying only ever adds. */
  lemma NotifyGrows(db: Db, name: string, phone: string, email: string, company: string,
                    designation: string, key: string, f: Fault)
    ensures Grows(db, NotifySpec(db, name, phone, email, company, designation, key, f).0)
  {
    var db' := NotifySpec(db, name, phone, email, company, designation, key, f).0;
    if db'.notifications != db.notifications {
      var n := NewNotification(name, email, phone, company, designation, key);
      assert db'.notifications == db.notifications + [n];
    }
  }

  /** Saving the ask flag only ever adds. */
  lemma MarkAskedGrows(db: Db, key: string, f: Fault)
    ensures Grows(db, MarkAskedSpec(db, key, f).0)
  {
  }
}
