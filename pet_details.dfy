/**
  The pet details screen of app/pet-details/index.jsx: the pet shown, built
  from the route parameters with a default for every field, and `InitiateChat`,
  which finds the chat between the signed-in user and the pet's owner or
  creates it.
 */
module PetDetails {
  import opened Js
  import opened Identity
  import opened Shared
  import opened ChatData

  /** The route parameters; any of them may be missing. */
  datatype Params = Params(
    id: Option<string>, name: Option<string>, username: Option<string>, about: Option<string>,
    breed: Option<string>, age: Option<string>, sex: Option<string>, price: Option<string>,
    category: Option<string>, address: Option<string>, postedDate: Option<string>,
    imageUrl: Option<string>, userImage: Option<string>, ownerName: Option<string>,
    ownerContact: Option<string>, ownerAddress: Option<string>)

  datatype Pet = Pet(
    id: string, name: string, username: string, about: string,
    breed: string, age: string, sex: string, price: string,
    category: string, address: string, postedDate: string,
    imageUrl: Option<string>, userImage: Option<string>, ownerName: string,
    ownerContact: string, ownerAddress: string)

  /** The `pet` object: each field is its parameter when that is truthy, else a fixed default. */
  function PetOf(p: Params): (pet: Pet)
    ensures Defaulted(p.id, "", pet.id)
    ensures Defaulted(p.name, "Unknown Pet", pet.name)
    ensures Defaulted(p.username, "Unknown Owner", pet.username)
    ensures Defaulted(p.about, "No description available.", pet.about)
    ensures Defaulted(p.breed, "Unknown Breed", pet.breed)
    ensures Defaulted(p.age, "Unknown", pet.age)
    ensures Defaulted(p.sex, "Unknown", pet.sex)
    ensures Defaulted(p.price, "N/A", pet.price)
    ensures Defaulted(p.category, "Pet", pet.category)
    ensures Defaulted(p.address, "Unknown Location", pet.address)
    ensures Defaulted(p.postedDate, "Recently", pet.postedDate)
    ensures pet.imageUrl == OrNull(p.imageUrl) && pet.userImage == OrNull(p.userImage)
    ensures Defaulted(p.ownerName, "John Doe", pet.ownerName)
    ensures Defaulted(p.ownerContact, "+1 234 567 8900", pet.ownerContact)
    ensures Defaulted(p.ownerAddress, "123 Pet Street, City", pet.ownerAddress)
  {
    Pet(
      id := Or(p.id, ""),
      name := Or(p.name, "Unknown Pet"),
      username := Or(p.username, "Unknown Owner"),
      about := Or(p.about, "No description available."),
      breed := Or(p.breed, "Unknown Breed"),
      age := Or(p.age, "Unknown"),
      sex := Or(p.sex, "Unknown"),
      price := Or(p.price, "N/A"),
      category := Or(p.category, "Pet"),
      address := Or(p.address, "Unknown Location"),
      postedDate := Or(p.postedDate, "Recently"),
      imageUrl := OrNull(p.imageUrl),
      userImage := OrNull(p.userImage),
      ownerName := Or(p.ownerName, "John Doe"),
      ownerContact := Or(p.ownerContact, "+1 234 567 8900"),
      ownerAddress := Or(p.ownerAddress, "123 Pet Street, City"))
  }

  /** Every text the screen shows is non-empty, whatever parameters are missing. */
  lemma PetFieldsNeverBlank(p: Params)
    ensures Displayable(PetOf(p))
  {
  }

  /** The route parameters that open the screen on `pet` itself, every field passed through. */
  function ParamsOf(pet: Pet): Params {
    Params(
      Some(pet.id), Some(pet.name), Some(pet.username), Some(pet.about),
      Some(pet.breed), Some(pet.age), Some(pet.sex), Some(pet.price),
      Some(pet.category), Some(pet.address), Some(pet.postedDate),
      pet.imageUrl, pet.userImage, Some(pet.ownerName),
      Some(pet.ownerContact), Some(pet.ownerAddress))
  }

  /** A pet as the screen can show it: no blank text, and an image is absent rather than empty. */
  predicate Displayable(pet: Pet) {
    && pet.name != "" && pet.username != "" && pet.about != "" && pet.breed != ""
    && pet.age != "" && pet.sex != "" && pet.price != "" && pet.category != ""
    && pet.address != "" && pet.postedDate != "" && pet.ownerName != ""
    && pet.ownerContact != "" && pet.ownerAddress != ""
    && (pet.imageUrl.Some? ==> pet.imageUrl.value != "")
    && (pet.userImage.Some? ==> pet.userImage.value != "")
  }

  /** The defaults only fill gaps: opening the screen with a displayable pet's own fields shows that same pet. */
  lemma PetOfRoundTrip(pet: Pet)
    requires Displayable(pet)
    ensures PetOf(ParamsOf(pet)) == pet
  {
  }

  /** Reopening the screen with the fields of a pet it shows shows that pet unchanged. */
  lemma ReopenShowsSamePet(p: Params)
    ensures PetOf(ParamsOf(PetOf(p))) == PetOf(p)
  {
    PetFieldsNeverBlank(p);
    PetOfRoundTrip(PetOf(p));
  }

  /** `user?.username || user?.fullName || 'User'`. */
  function CurrentUsername(u: User): (r: string)
    ensures r != ""
    ensures Truthy(u.username) ==> r == u.username.value
    ensures !Truthy(u.username) && Truthy(u.fullName) ==> r == u.fullName.value
    ensures !Truthy(u.username) && !Truthy(u.fullName) ==> r == "User"
  {
    var names := [u.username, u.fullName];
    assert names[0] == u.username && names[1] == u.fullName;
    FirstTruthy(names, "User")
  }

  /** `pet.username || 'Pet Owner'`. */
  function OwnerUsername(pet: Pet): (r: string)
    ensures r != ""
    ensures pet.username != "" ==> r == pet.username
    ensures pet.username == "" ==> r == "Pet Owner"
  {
    Or(Some(pet.username), "Pet Owner")
  }

  /** `docId1` and `docId2`: the two orders of the names, joined by an underscore. */
  function ChatIds(current: string, owner: string): (string, string) {
    (current + "_" + owner, owner + "_" + current)
  }

  /** The documents `where('id', 'in', [docId1, docId2])` returns: matched on the `id` field. */
  function Matching(chats: map<string, ChatDoc>, ids: (string, string)): (r: set<string>)
    ensures forall k :: k in r <==> k in chats && (chats[k].id == ids.0 || chats[k].id == ids.1)
  {
    set k | k in chats && (chats[k].id == ids.0 || chats[k].id == ids.1)
  }

  /** The outcome of `InitiateChat`; the two last carry the chat ids the screen navigates to. */
  datatype ChatStart =
    | SignInRequired
    | CannotChatWithSelf
    | MissingEmail
    | OpenExisting(ids: set<string>)
    | Created(id: string)

  /** The document `InitiateChat` writes at `docId1`. */
  function NewChat(u: User, email: string, pet: Pet, current: string, owner: string, nowIso: string): ChatDoc {
    ChatDoc(
      id := ChatIds(current, owner).0,
      users := [
        ChatUser(Some(u.id), Some(email), OrNull(u.imageUrl), Some(Or(u.fullName, "User")), Some(current)),
        ChatUser(Some("pet_owner_" + pet.id), None, OrNull(pet.userImage), Some(owner), Some(owner))
      ],
      petId := pet.id,
      petName := pet.name,
      petImage := pet.imageUrl,
      createdAt := nowIso,
      lastMessage := None,
      lastMessageTime := None,
      lastMessageSender := None,
      updatedAt := None,
      unreadCount := UnreadNumber(0),
      lastSeen := None,
      participants := None)
  }

  datatype Initiated = Initiated(outcome: ChatStart, chats: map<string, ChatDoc>)

  /** The query and, when it comes back empty, the `setDoc` of `doc` at `docId1`. */
  function OpenOrCreate(chats: map<string, ChatDoc>, ids: (string, string), doc: ChatDoc): Initiated {
    var found := Matching(chats, ids);
    if found != {} then Initiated(OpenExisting(found), chats)
    else Initiated(Created(ids.0), chats[ids.0 := doc])
  }

  /** `InitiateChat` on the `Chat` collection. */
  function InitiateChatSpec(chats: map<string, ChatDoc>, user: Option<User>, pet: Pet, nowIso: string): Initiated {
    if user.None? then Initiated(SignInRequired, chats)
    else
      var current := CurrentUsername(user.value);
      var owner := OwnerUsername(pet);
      if EqualsIgnoreCase(current, owner) then Initiated(CannotChatWithSelf, chats)
      else
        var email := GetEmail(user);
        if !Truthy(email) then Initiated(MissingEmail, chats)
        else
          OpenOrCreate(chats, ChatIds(current, owner), NewChat(user.value, email.value, pet, current, owner, nowIso))
  }

  /** Looks a chat up by both candidate ids and creates it at `docId1` when none exists. */
  method InitiateChat(db: ChatDb, user: Option<User>, pet: Pet, nowIso: string) returns (outcome: ChatStart)
    modifies db
    ensures var s := InitiateChatSpec(old(db.chats), user, pet, nowIso);
            outcome == s.outcome && db.chats == s.chats
    ensures db.messages == old(db.messages)
  {
    if user.None? {
      return SignInRequired;
    }
    var current := CurrentUsername(user.value);
    var owner := OwnerUsername(pet);
    EqualsIgnoreCaseIsLower(current, owner);
    if Lower(current) == Lower(owner) {
      return CannotChatWithSelf;
    }
    var email := GetEmail(user);
    if !Truthy(email) {
      return MissingEmail;
    }
    var ids := (current + "_" + owner, owner + "_" + current);
    var found := set k | k in db.chats && (db.chats[k].id == ids.0 || db.chats[k].id == ids.1);
    if found != {} {
      return OpenExisting(found);
    }
    db.chats := db.chats[ids.0 := NewChat(user.value, email.value, pet, current, owner, nowIso)];
    return Created(ids.0);
  }

  // ------------------------------------------------------------ properties

  /** Only the creation path writes; every other outcome leaves the collection as it was. */
  lemma OnlyCreationWrites(chats: map<string, ChatDoc>, user: Option<User>, pet: Pet, nowIso: string)
    ensures var s := InitiateChatSpec(chats, user, pet, nowIso);
            !s.outcome.Created? ==> s.chats == chats
  {
  }

  /** A user whose name matches the owner's in any letter case is refused, even without an email. */
  lemma SelfChatRejected(chats: map<string, ChatDoc>, u: User, pet: Pet, nowIso: string)
    requires EqualsIgnoreCase(CurrentUsername(u), OwnerUsername(pet))
    ensures InitiateChatSpec(chats, Some(u), pet, nowIso) == Initiated(CannotChatWithSelf, chats)
  {
  }

  /** A user who is not the owner but has no email is refused after the self-check, with no write. */
  lemma MissingEmailRejected(chats: map<string, ChatDoc>, u: User, pet: Pet, nowIso: string)
    requires !EqualsIgnoreCase(CurrentUsername(u), OwnerUsername(pet))
    requires !Truthy(u.primaryEmail)
    ensures InitiateChatSpec(chats, Some(u), pet, nowIso) == Initiated(MissingEmail, chats)
  {
  }

  /** Swapping the two roles looks for the same pair of ids, so it finds the same chats. */
  lemma {:induction false} RoleSwapFindsSameChats(chats: map<string, ChatDoc>, a: string, b: string)
    ensures Matching(chats, ChatIds(a, b)) == Matching(chats, ChatIds(b, a))
  {
    var l := Matching(chats, ChatIds(a, b));
    var r := Matching(chats, ChatIds(b, a));
    forall k ensures k in l <==> k in r {
    }
  }

  /**
    No duplicates: a chat is created only when no document matches either id,
    and afterwards exactly one document, the new one, matches.
   */
  lemma CreatesExactlyOne(chats: map<string, ChatDoc>, u: User, pet: Pet, nowIso: string)
    ensures var s := InitiateChatSpec(chats, Some(u), pet, nowIso);
            var ids := ChatIds(CurrentUsername(u), OwnerUsername(pet));
            s.outcome.Created? ==>
              && Matching(chats, ids) == {}
              && s.outcome.id == ids.0
              && Matching(s.chats, ids) == {ids.0}
              && s.chats[ids.0].id == ids.0
              && |s.chats[ids.0].users| == 2
              && s.chats[ids.0].users[0].id == Some(u.id)
              && s.chats[ids.0].users[0].email == u.primaryEmail
              && s.chats[ids.0].users[1].id == Some("pet_owner_" + pet.id)
              && s.chats[ids.0].users[1].email.None?
              && s.chats[ids.0].petId == pet.id && s.chats[ids.0].petName == pet.name
              && s.chats[ids.0].petImage == pet.imageUrl && s.chats[ids.0].createdAt == nowIso
              && s.chats[ids.0].lastMessage.None?
              && s.chats[ids.0].unreadCount == UnreadNumber(0)
              && s.chats[ids.0].participants.None?
  {
    var s := InitiateChatSpec(chats, Some(u), pet, nowIso);
    var current, owner := CurrentUsername(u), OwnerUsername(pet);
    var ids := ChatIds(current, owner);
    if s.outcome.Created? {
      var doc := NewChat(u, GetEmail(Some(u)).value, pet, current, owner, nowIso);
      assert s.chats == chats[ids.0 := doc];
      InsertMatchesOnlyItself(chats, ids, doc);
    }
  }

  /** Inserting a document whose `id` is `docId1` into a collection with no match leaves it the only match. */
  lemma InsertMatchesOnlyItself(chats: map<string, ChatDoc>, ids: (string, string), doc: ChatDoc)
    requires Matching(chats, ids) == {}
    requires doc.id == ids.0
    ensures Matching(chats[ids.0 := doc], ids) == {ids.0}
  {
    var after := Matching(chats[ids.0 := doc], ids);
    forall k | k in after ensures k == ids.0 {
      assert k !in Matching(chats, ids);
    }
  }

  /** Repeating the call finds the chat the first call created or found, and writes nothing. */
  lemma InitiateIdempotent(chats: map<string, ChatDoc>, user: Option<User>, pet: Pet, t1: string, t2: string)
    ensures var first := InitiateChatSpec(chats, user, pet, t1);
            var second := InitiateChatSpec(first.chats, user, pet, t2);
            && second.chats == first.chats
            && (first.outcome.Created? ==> second.outcome == OpenExisting({first.outcome.id}))
            && (first.outcome.OpenExisting? ==> second.outcome == first.outcome)
  {
    var first := InitiateChatSpec(chats, user, pet, t1);
    if first.outcome.Created? {
      CreatesExactlyOne(chats, user.value, pet, t1);
    }
  }

  /** Every document's `id` field is its document id; creation keeps it so. */
  ghost predicate IdsAreKeys(chats: map<string, ChatDoc>) {
    forall k :: k in chats ==> chats[k].id == k
  }

  lemma InitiatePreservesIdsAreKeys(chats: map<string, ChatDoc>, user: Option<User>, pet: Pet, nowIso: string)
    requires IdsAreKeys(chats)
    ensures IdsAreKeys(InitiateChatSpec(chats, user, pet, nowIso).chats)
  {
  }

  /**
    The ids are built from display names joined by `_`, so two different pairs
    of names can share an id: "a_b" with "c", and "a" with "b_c".
   */
  lemma UnderscoreNamesCollide()
    ensures ChatIds("a_b", "c").0 == ChatIds("a", "b_c").0
  {
  }
}
