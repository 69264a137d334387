/**
  The chat screen of app/chat/index.jsx: normalising the message documents of
  a snapshot, finding the other participant, sending a message and clearing
  the reader's unread counter.
 */
module ChatScreen {
  import opened Js
  import opened Identity
  import opened Shared
  import opened ChatData
  import PetDetails

  // ------------------------------------------------------ snapshot mapping

  /** A JavaScript `Date`: milliseconds since the epoch, or an invalid date. */
  datatype DateValue = Date(ms: int) | InvalidDate

  /** The largest distance from the epoch a `Date` can hold, in milliseconds. */
  const MaxTime := 8_640_000_000_000_000

  /** `new Date(n)` for a number of milliseconds. */
  function DateOfMillis(n: int): (d: DateValue)
    ensures d.Date? <==> -MaxTime <= n <= MaxTime
    ensures d.Date? ==> d.ms == n
  {
    if -MaxTime <= n <= MaxTime then Date(n) else InvalidDate
  }

  /**
    The three-way coercion of `createdAt`: a server timestamp through
    `toDate()`, any other truthy value through `new Date(...)` (`parse` is the
    engine's date parser), and a missing or falsy value as the current time.
   */
  function CreatedAt(t: RawTime, now: int, parse: string -> DateValue): (d: DateValue)
    ensures t.ServerTimestamp? ==> d == DateOfMillis(t.millis)
    ensures t.NumberTime? && t.n != 0 ==> d == DateOfMillis(t.n)
    ensures t.StringTime? && t.s != "" ==> d == parse(t.s)
    ensures t.NoTime? || t == NumberTime(0) || t == StringTime("") ==> d == DateOfMillis(now)
  {
    match t
    case ServerTimestamp(ms) => DateOfMillis(ms)
    case NumberTime(n) => if n != 0 then DateOfMillis(n) else DateOfMillis(now)
    case StringTime(s) => if s != "" then parse(s) else DateOfMillis(now)
    case NoTime => DateOfMillis(now)
  }

  /** The `user` of a normalised message; `uid` is its `_id`. */
  datatype MsgUser = MsgUser(uid: string, name: string, avatar: Option<string>)

  /** A message in the shape the chat view renders. */
  datatype Message = Message(id: string, text: string, createdAt: DateValue, user: MsgUser, originalData: RawMessage)

  /** No user object: every field of the message's user falls back. */
  const NoRawUser := RawUser(None, None, None, None, None, None, None)

  /** The normalisation of one message document. */
  function Normalize(doc: MessageDoc, now: int, parse: string -> DateValue): (m: Message)
    ensures m.id == doc.id && m.originalData == doc.data
    ensures m.createdAt == CreatedAt(doc.data.createdAt, now, parse)
    ensures Defaulted(doc.data.text, "", m.text)
    ensures var u := if doc.data.user.Some? then doc.data.user.value else NoRawUser;
            && m.user.uid == FirstTruthy([u.uid, u.email, u.id], "unknown")
            && Defaulted(u.name, "User", m.user.name)
            && m.user.avatar == (if Truthy(u.avatar) then u.avatar else OrNull(u.imageUrl))
    ensures m.user.uid != "" && m.user.name != ""
    ensures m.user.avatar.Some? ==> m.user.avatar.value != ""
  {
    var data := doc.data;
    var u := if data.user.Some? then data.user.value else NoRawUser;
    Message(
      id := doc.id,
      text := Or(data.text, ""),
      createdAt := CreatedAt(data.createdAt, now, parse),
      user := MsgUser(
        uid := FirstTruthy([u.uid, u.email, u.id], "unknown"),
        name := Or(u.name, "User"),
        avatar := if Truthy(u.avatar) then u.avatar else OrNull(u.imageUrl)),
      originalData := data)
  }

  /** `snapshot.docs.map(...)`: one message per document, in the order the query delivers them. */
  function MapSnapshot(docs: seq<MessageDoc>, now: int, parse: string -> DateValue): (r: seq<Message>)
    ensures |r| == |docs|
    ensures forall i :: 0 <= i < |docs| ==> r[i] == Normalize(docs[i], now, parse)
  {
    if docs == [] then [] else [Normalize(docs[0], now, parse)] + MapSnapshot(docs[1..], now, parse)
  }

  /** The query's order: newest server timestamp first. */
  ghost predicate NewestFirst(docs: seq<MessageDoc>) {
    forall i, j :: 0 <= i < j < |docs| ==>
      docs[i].data.createdAt.ServerTimestamp? && docs[j].data.createdAt.ServerTimestamp? &&
      docs[i].data.createdAt.millis >= docs[j].data.createdAt.millis
  }

  ghost predicate MessagesNewestFirst(msgs: seq<Message>) {
    forall i, j :: 0 <= i < j < |msgs| ==>
      (msgs[i].createdAt.Date? && msgs[j].createdAt.Date? ==> msgs[i].createdAt.ms >= msgs[j].createdAt.ms)
  }

  /** Normalising keeps the store's newest-first order and the document ids. */
  lemma SnapshotKeepsOrder(docs: seq<MessageDoc>, now: int, parse: string -> DateValue)
    requires NewestFirst(docs)
    ensures MessagesNewestFirst(MapSnapshot(docs, now, parse))
    ensures forall i :: 0 <= i < |docs| ==> MapSnapshot(docs, now, parse)[i].id == docs[i].id
  {
  }

  /** A message without a usable `createdAt` (missing, 0 or '') is shown at the current time. */
  lemma MissingTimeShowsNow(doc: MessageDoc, now: int, parse: string -> DateValue)
    requires doc.data.createdAt.NoTime? || doc.data.createdAt == NumberTime(0) || doc.data.createdAt == StringTime("")
    requires -MaxTime <= now <= MaxTime
    ensures Normalize(doc, now, parse).createdAt == Date(now)
  {
  }

  /**
    A numeric `createdAt` goes through `new Date(n)`: it is read as milliseconds
    since the epoch, and a value out of the `Date` range shows as an invalid date.
   */
  lemma NumericTimeIsMillis(doc: MessageDoc, now: int, parse: string -> DateValue)
    requires doc.data.createdAt.NumberTime? && doc.data.createdAt.n != 0
    ensures var n := doc.data.createdAt.n;
            Normalize(doc, now, parse).createdAt == if -MaxTime <= n <= MaxTime then Date(n) else InvalidDate
  {
  }

  // ------------------------------------------------------ the other user

  /** The predicate of `chatData.users.find(...)`: does `cu` look like someone other than the viewer? */
  predicate IsOtherUser(cu: ChatUser, viewer: User, viewerEmail: Option<string>) {
    if Truthy(cu.email) && Truthy(viewerEmail) then !EqualsIgnoreCase(cu.email.value, viewerEmail.value)
    else if Truthy(cu.username) && Truthy(viewer.username) then cu.username.value != viewer.username.value
    else if Truthy(cu.id) && viewer.id != "" then cu.id.value != viewer.id
    else false
  }

  /** The index `find` stops at. */
  function FindOther(users: seq<ChatUser>, viewer: User, viewerEmail: Option<string>): (r: Option<nat>)
    ensures r.Some? ==> r.value < |users| && IsOtherUser(users[r.value], viewer, viewerEmail)
    ensures r.Some? ==> forall j :: 0 <= j < r.value ==> !IsOtherUser(users[j], viewer, viewerEmail)
    ensures r.None? ==> forall j :: 0 <= j < |users| ==> !IsOtherUser(users[j], viewer, viewerEmail)
  {
    if users == [] then None
    else if IsOtherUser(users[0], viewer, viewerEmail) then Some(0)
    else match FindOther(users[1..], viewer, viewerEmail)
      case None => None
      case Some(i) => Some(i + 1)
  }

  /** The chat partner shown in the header: the first other user, else `users[0]`, else nobody. */
  function OtherUser(users: seq<ChatUser>, viewer: User, viewerEmail: Option<string>): (r: Option<ChatUser>)
    ensures r.Some? <==> |users| > 0
    ensures r.Some? ==> r.value in users
    ensures FindOther(users, viewer, viewerEmail).Some? ==> r == Some(users[FindOther(users, viewer, viewerEmail).value])
    ensures |users| > 0 && FindOther(users, viewer, viewerEmail).None? ==> r == Some(users[0])
    ensures (exists j :: 0 <= j < |users| && IsOtherUser(users[j], viewer, viewerEmail)) ==>
              r.Some? && IsOtherUser(r.value, viewer, viewerEmail)
  {
    match FindOther(users, viewer, viewerEmail)
    case Some(i) => Some(users[i])
    case None => if |users| > 0 then Some(users[0]) else None
  }

  /** What `GetChatDetails` leaves in the screen's state. */
  datatype ChatDetails = NotLoaded | NotFound | Loaded(chatData: ChatDoc, chatUser: Option<ChatUser>)

  function LoadChatDetails(chats: map<string, ChatDoc>, chatId: string, user: Option<User>): (r: ChatDetails)
    ensures r.Loaded? <==> chatId != "" && user.Some? && chatId in chats
    ensures r.Loaded? ==> r.chatData == chats[chatId]
    ensures r.Loaded? ==> r.chatUser == OtherUser(chats[chatId].users, user.value, GetEmail(user))
  {
    if chatId == "" || user.None? then NotLoaded
    else if chatId !in chats then NotFound
    else
      var data := chats[chatId];
      Loaded(data, OtherUser(data.users, user.value, GetEmail(user)))
  }

  /** The user who created a chat sees the pet owner, the second entry, as the other user. */
  lemma CreatorSeesOwner(u: User, email: string, pet: PetDetails.Pet, nowIso: string)
    requires email != "" && u.id != ""
    requires u.primaryEmail == Some(email)
    requires !EqualsIgnoreCase(PetDetails.CurrentUsername(u), PetDetails.OwnerUsername(pet))
    requires u.id != "pet_owner_" + pet.id
    ensures var current := PetDetails.CurrentUsername(u);
            var owner := PetDetails.OwnerUsername(pet);
            var chat := PetDetails.NewChat(u, email, pet, current, owner, nowIso);
            OtherUser(chat.users, u, Some(email)) == Some(chat.users[1])
  {
  }

  /** Anyone whose email differs from the creator's, ignoring case, sees the creator as the other user. */
  lemma OwnerSeesCreator(u: User, email: string, pet: PetDetails.Pet, nowIso: string, viewer: User, viewerEmail: string)
    requires email != "" && viewerEmail != ""
    requires !EqualsIgnoreCase(email, viewerEmail)
    ensures var current := PetDetails.CurrentUsername(u);
            var owner := PetDetails.OwnerUsername(pet);
            var chat := PetDetails.NewChat(u, email, pet, current, owner, nowIso);
            OtherUser(chat.users, viewer, Some(viewerEmail)) == Some(chat.users[0])
  {
  }

  /**
    Opening the chat `InitiateChat` has just created loads that document, and
    its creator sees the pet owner's entry as the chat partner.
   */
  lemma CreatorOpensNewChat(chats: map<string, ChatDoc>, u: User, pet: PetDetails.Pet, nowIso: string)
    requires u.id != "" && Truthy(u.primaryEmail)
    requires u.id != "pet_owner_" + pet.id
    ensures var s := PetDetails.InitiateChatSpec(chats, Some(u), pet, nowIso);
            s.outcome.Created? ==>
              && LoadChatDetails(s.chats, s.outcome.id, Some(u)).Loaded?
              && LoadChatDetails(s.chats, s.outcome.id, Some(u)).chatUser == Some(s.chats[s.outcome.id].users[1])
  {
    var s := PetDetails.InitiateChatSpec(chats, Some(u), pet, nowIso);
    if s.outcome.Created? {
      var current, owner := PetDetails.CurrentUsername(u), PetDetails.OwnerUsername(pet);
      var email := u.primaryEmail.value;
      var doc := PetDetails.NewChat(u, email, pet, current, owner, nowIso);
      assert !EqualsIgnoreCase(current, owner);
      assert s.outcome.id == PetDetails.ChatIds(current, owner).0;
      assert s.chats[s.outcome.id] == doc;
      CreatorSeesOwner(u, email, pet, nowIso);
    }
  }

  // ------------------------------------------------------ unread counters

  /** The first participant whose email differs from `me`, ignoring case. */
  function FindOtherEmail(participants: seq<string>, me: string): (r: JsStr)
    ensures !r.Null?
    ensures r.Str? ==> r.s in participants && !EqualsIgnoreCase(r.s, me)
    ensures r.Undefined? <==> forall j :: 0 <= j < |participants| ==> EqualsIgnoreCase(participants[j], me)
  {
    if participants == [] then Undefined
    else if !EqualsIgnoreCase(participants[0], me) then Str(participants[0])
    else FindOtherEmail(participants[1..], me)
  }

  /** `find` returns the first participant that differs from `me`, wherever it is. */
  lemma {:induction false} FindOtherEmailIsFirst(participants: seq<string>, me: string, i: int)
    requires 0 <= i < |participants| && !EqualsIgnoreCase(participants[i], me)
    requires forall j :: 0 <= j < i ==> EqualsIgnoreCase(participants[j], me)
    ensures FindOtherEmail(participants, me) == Str(participants[i])
  {
    if i > 0 {
      FindOtherEmailIsFirst(participants[1..], me, i - 1);
    }
  }

  /** `getOtherUserEmail`: null without participants or without an email, undefined when `find` finds none. */
  function OtherUserEmail(chatData: Option<ChatDoc>, user: User): (r: JsStr)
    ensures r.Null? <==> chatData.None? || chatData.value.participants.None? || !Truthy(user.primaryEmail)
    ensures r.Str? ==> r.s in chatData.value.participants.value && !EqualsIgnoreCase(r.s, user.primaryEmail.value)
    ensures !r.Null? ==> r == FindOtherEmail(chatData.value.participants.value, user.primaryEmail.value)
  {
    var email := GetEmail(Some(user));
    if chatData.None? || chatData.value.participants.None? || !Truthy(email) then Null
    else FindOtherEmail(chatData.value.participants.value, email.value)
  }

  /** `getOtherUserUnreadCount`: the other user's count in the loaded chat data, 0 when unknown. */
  function OtherUserUnreadCount(chatData: Option<ChatDoc>, user: User): (r: int)
    ensures !TruthyStr(OtherUserEmail(chatData, user)) ==> r == 0
    ensures TruthyStr(OtherUserEmail(chatData, user)) ==>
              r == UnreadOf(chatData.value.unreadCount, OtherUserEmail(chatData, user).s)
  {
    var other := OtherUserEmail(chatData, user);
    if !TruthyStr(other) then 0 else UnreadOf(chatData.value.unreadCount, other.s)
  }

  // ------------------------------------------------------ sending

  /** `user?.fullName || user?.username || 'User'`. */
  function SenderName(u: User): (r: string)
    ensures r != ""
    ensures Truthy(u.fullName) ==> r == u.fullName.value
    ensures !Truthy(u.fullName) && Truthy(u.username) ==> r == u.username.value
    ensures !Truthy(u.fullName) && !Truthy(u.username) ==> r == "User"
  {
    var names := [u.fullName, u.username];
    assert names[0] == u.fullName && names[1] == u.username;
    FirstTruthy(names, "User")
  }

  /** `userEmail || userId`. */
  function SenderId(u: User): (r: string)
    ensures Truthy(u.primaryEmail) ==> r == u.primaryEmail.value
    ensures !Truthy(u.primaryEmail) ==> r == u.id
  {
    Or(u.primaryEmail, u.id)
  }

  /** The message document `onSend` adds: trimmed text, the sender, read by the sender. */
  function MessageToSave(u: User, text: string, now: int): RawMessage {
    RawMessage(
      text := Some(Trim(text)),
      createdAt := ServerTimestamp(now),
      user := Some(RawUser(
        uid := Some(SenderId(u)),
        email := u.primaryEmail,
        id := None,
        name := Some(SenderName(u)),
        avatar := OrNull(u.imageUrl),
        imageUrl := None,
        userId := Some(u.id))),
      readBy := [u.primaryEmail])
  }

  /**
    The chat update after a send: the untrimmed text as `lastMessage`, the
    sender, and the other user's count as read from the loaded chat data, plus one.
   */
  function AfterSend(doc: ChatDoc, u: User, text: string, nowIso: string, chatData: Option<ChatDoc>): (r: ChatDoc)
    ensures r.lastMessage == Some(text) && r.lastMessageTime == Some(nowIso) && r.updatedAt == Some(nowIso)
    ensures r.lastMessageSender == Some(Sender(u.id, SenderName(u), u.primaryEmail))
    ensures UnreadOf(r.unreadCount, Template(OtherUserEmail(chatData, u))) == OtherUserUnreadCount(chatData, u) + 1
    ensures forall k :: k != Template(OtherUserEmail(chatData, u)) ==> UnreadOf(r.unreadCount, k) == UnreadOf(doc.unreadCount, k)
    ensures r.(lastMessage := doc.lastMessage, lastMessageTime := doc.lastMessageTime,
               lastMessageSender := doc.lastMessageSender, updatedAt := doc.updatedAt,
               unreadCount := doc.unreadCount) == doc
  {
    doc.(
      lastMessage := Some(text),
      lastMessageTime := Some(nowIso),
      lastMessageSender := Some(Sender(u.id, SenderName(u), u.primaryEmail)),
      updatedAt := Some(nowIso),
      unreadCount := SetUnread(doc.unreadCount, Template(OtherUserEmail(chatData, u)), OtherUserUnreadCount(chatData, u) + 1))
  }

  datatype SendOutcome = CannotSend | NoMessage | BlankMessage | Sent(messageId: string, metadataUpdated: bool)

  /**
    `onSend`: nothing without a chat id or a user, without a message or with a
    blank one; otherwise the message is added and, when the chat document
    exists, its summary fields are updated.
   */
  method OnSend(db: ChatDb, chatId: string, user: Option<User>, newMessages: seq<string>,
                chatData: Option<ChatDoc>, now: int, nowIso: string, newId: string)
    returns (outcome: SendOutcome)
    modifies db
    ensures outcome.Sent? <==> chatId != "" && user.Some? && |newMessages| > 0 && Trim(newMessages[0]) != ""
    ensures !outcome.Sent? ==> db.chats == old(db.chats) && db.messages == old(db.messages)
    ensures outcome.Sent? ==>
              && outcome.messageId == newId
              && db.messages == old(db.messages)[chatId := old(db.MessagesOf(chatId)) + [MessageDoc(newId, MessageToSave(user.value, newMessages[0], now))]]
              && outcome.metadataUpdated == (chatId in old(db.chats))
              && db.chats == if chatId in old(db.chats)
                             then old(db.chats)[chatId := AfterSend(old(db.chats)[chatId], user.value, newMessages[0], nowIso, chatData)]
                             else old(db.chats)
  {
    if chatId == "" || user.None? {
      return CannotSend;
    }
    if |newMessages| == 0 {
      return NoMessage;
    }
    var text := newMessages[0];
    if Trim(text) == "" {
      return BlankMessage;
    }
    var saved := MessageToSave(user.value, text, now);
    db.messages := db.messages[chatId := db.MessagesOf(chatId) + [MessageDoc(newId, saved)]];
    if chatId in db.chats {
      db.chats := db.chats[chatId := AfterSend(db.chats[chatId], user.value, text, nowIso, chatData)];
      return Sent(newId, true);
    }
    return Sent(newId, false);
  }

  /** The saved message, read back through the snapshot mapping, shows the trimmed text and its sender. */
  lemma SentMessageReadsBack(u: User, text: string, now: int, later: int, parse: string -> DateValue, id: string)
    requires Trim(text) != ""
    requires -MaxTime <= now <= MaxTime
    ensures var m := Normalize(MessageDoc(id, MessageToSave(u, text, now)), later, parse);
            && m.text == Trim(text)
            && m.createdAt == Date(now)
            && m.user.uid == (if SenderId(u) != "" then SenderId(u) else "unknown")
            && m.user.name == SenderName(u)
            && m.user.avatar == OrNull(u.imageUrl)
            && m.originalData.readBy == [u.primaryEmail]
  {
    var saved := MessageToSave(u, text, now);
    var m := Normalize(MessageDoc(id, saved), later, parse);
    assert saved.text == Some(Trim(text)) && saved.createdAt == ServerTimestamp(now);
    assert m.text == Trim(text);
    var raw := saved.user.value;
    assert m.user.name == SenderName(u);
    var chain := [raw.uid, raw.email, raw.id];
    if SenderId(u) == "" {
      assert !Truthy(chain[0]) && !Truthy(chain[1]) && !Truthy(chain[2]);
    } else {
      assert Truthy(chain[0]);
    }
  }

  /** After a send the other user's count is the loaded value plus one. */
  lemma SendIncrementsOther(doc: ChatDoc, u: User, text: string, nowIso: string, chatData: Option<ChatDoc>)
    ensures var key := Template(OtherUserEmail(chatData, u));
            UnreadOf(AfterSend(doc, u, text, nowIso, chatData).unreadCount, key) == OtherUserUnreadCount(chatData, u) + 1
  {
  }

  /** A send writes one counter only: the sender's own count, and every other key, keep their value. */
  lemma SendLeavesOtherCounts(doc: ChatDoc, u: User, text: string, nowIso: string, chatData: Option<ChatDoc>, key: string)
    requires key != Template(OtherUserEmail(chatData, u))
    ensures UnreadOf(AfterSend(doc, u, text, nowIso, chatData).unreadCount, key) == UnreadOf(doc.unreadCount, key)
  {
  }

  lemma SenderCountUnchanged(doc: ChatDoc, u: User, text: string, nowIso: string, chatData: Option<ChatDoc>)
    requires OtherUserEmail(chatData, u).Str?
    ensures UnreadOf(AfterSend(doc, u, text, nowIso, chatData).unreadCount, u.primaryEmail.value) ==
            UnreadOf(doc.unreadCount, u.primaryEmail.value)
  {
    SendLeavesOtherCounts(doc, u, text, nowIso, chatData, u.primaryEmail.value);
  }

  /**
    A chat created by `InitiateChat` has no `participants` field, so a send
    into it writes the counter under the key "null".
   */
  lemma NewChatCountsUnderNull(u: User, email: string, pet: PetDetails.Pet, current: string, owner: string,
                               nowIso: string, sender: User)
    ensures var chat := PetDetails.NewChat(u, email, pet, current, owner, nowIso);
            && OtherUserEmail(Some(chat), sender) == Null && Template(OtherUserEmail(Some(chat), sender)) == "null"
            && OtherUserUnreadCount(Some(chat), sender) == 0
  {
  }

  // ------------------------------------------------------ reading

  /** `markMessagesAsRead` on one chat document: the reader's count is 0 and `lastSeen` holds only the reader. */
  function MarkReadDoc(doc: ChatDoc, user: User, nowIso: string): (r: ChatDoc)
    ensures UnreadOf(r.unreadCount, TemplateOpt(user.primaryEmail)) == 0
    ensures r.lastSeen == Some(map[TemplateOpt(user.primaryEmail) := nowIso])
    ensures forall k :: k != TemplateOpt(user.primaryEmail) ==> UnreadOf(r.unreadCount, k) == UnreadOf(doc.unreadCount, k)
    ensures r.(unreadCount := doc.unreadCount, lastSeen := doc.lastSeen) == doc
  {
    var key := TemplateOpt(GetEmail(Some(user)));
    doc.(unreadCount := SetUnread(doc.unreadCount, key, 0), lastSeen := Some(map[key := nowIso]))
  }

  /** Marking as read twice at the same time is marking once; the count stays 0. */
  lemma MarkReadIdempotent(doc: ChatDoc, user: User, nowIso: string)
    ensures MarkReadDoc(MarkReadDoc(doc, user, nowIso), user, nowIso) == MarkReadDoc(doc, user, nowIso)
  {
    var key := TemplateOpt(user.primaryEmail);
    var once := MarkReadDoc(doc, user, nowIso);
    assert once.unreadCount.UnreadMap?;
    assert once.unreadCount.counts[key := 0] == once.unreadCount.counts;
  }

  method MarkMessagesAsRead(db: ChatDb, chatId: string, user: Option<User>, nowIso: string)
    modifies db
    ensures db.messages == old(db.messages)
    ensures db.chats == if chatId != "" && user.Some? && chatId in old(db.chats)
                        then old(db.chats)[chatId := MarkReadDoc(old(db.chats)[chatId], user.value, nowIso)]
                        else old(db.chats)
  {
    if chatId == "" || user.None? {
      return;
    }
    if chatId in db.chats {
      db.chats := db.chats[chatId := MarkReadDoc(db.chats[chatId], user.value, nowIso)];
    }
  }
}
