# Pet adoption client: favourites, chat threads and form logic in Dafny

This project models the logic under the screens of a React Native pet-adoption app. The app keeps its data in Firestore. Here the collections are finite maps: `UserFavPet` keyed by email, `Chat` keyed by document id, and a sequence of `Messages` documents per chat. The project covers these parts:

- **Favourites** (`Shared/Shared.jsx`, `components/MarkFav.jsx`). Reading a record creates it when it is absent. An update merge-writes the `favorites` field. The heart button toggles an id, writing optimistically and rolling back on failure. It fetches the list once per component.
- **Chat creation** (`app/pet-details/index.jsx`). The pet shown is built from route parameters, each with a default. `InitiateChat` refuses a chat with yourself by comparing usernames case-insensitively. It looks for a chat under `current_owner` or `owner_current`, and creates one at `current_owner` when none is found.
- **Chat screen** (`app/chat/index.jsx`). Normalises message documents, including the three-way `createdAt` coercion. Finds the other participant. Sends a message and bumps the other user's unread counter. Marks the chat as read.
- **Chat list row** (`components/indox/UserItem.jsx`). Truncates the preview, picks the time-label bucket and shows the unread badge.
- **New pet form** (`app/add-new-pet/index.jsx`). Edits form keys, lists categories with `'None'` first, runs the ordered required-field checks, builds the trimmed record and sets the `isSubmitting` flag.

The component state is held by classes whose methods change it: `MarkFav.FavButton` and `AddNewPet.NewPetScreen`. The favourites store `Shared.FavStore` has its own read and write methods. The chat screens' writes (`PetDetails.InitiateChat`, `ChatScreen.OnSend`, `ChatScreen.MarkMessagesAsRead`) are module-level methods that update a `ChatData.ChatDb`. The pet write is `NewPetScreen.FinishSubmit`, which appends to an `AddNewPet.PetStore`. Every such method is proved equal to a pure function of the old state, and the properties are proved about those functions as lemmas.

Modules: `Js` (JavaScript value semantics: truthiness, `||` chains, `toLowerCase`, `trim`, template rendering of `null`/`undefined`), `Identity` (the signed-in user), `Shared`, `MarkFav`, `ChatData`, `PetDetails`, `ChatScreen`, `UserItem`, `AddNewPet`.

## Behaviour worth knowing

- A conversation id is the two display names joined by `_`: `current_owner` and `owner_current` (`app/pet-details/index.jsx:70-71`). Lookup is by the document's `id` field, with `in` over both candidates. `PetDetails.UnderscoreNamesCollide` shows that two different pairs of names can share an id.
- The owner's email is never resolved. The second entry of `users` has no `email`, and no `participants` field is written.
- A new chat's `unreadCount` is the number `0`. Sends and reads then write it through dotted paths.
- The other user's email is looked up in `participants`, which `InitiateChat` never writes. For such a chat the counter is written under the key `"null"` (`ChatScreen.NewChatCountsUnderNull`).
- The stored message text is trimmed, but `lastMessage` keeps the untrimmed text.
- A numeric `createdAt` goes through `new Date(n)`, so it is read as milliseconds (`ChatScreen.NumericTimeIsMillis`).
- `onSend` reads the other user's previous count from the chat data the screen loaded, not from the store at send time. The model takes that loaded chat data as a parameter.

## Model

| member | source | states |
|---|---|---|
| Js.FirstTruthy | app/chat/index.jsx:184 | a chain of or-fallbacks yields the default when no value is truthy, the head when it is truthy, and otherwise one of its truthy values |
| Js.FirstTruthyIsFirst | app/chat/index.jsx:184 | the chain yields its first non-empty present value, wherever in the chain that is |
| Js.Lower | app/pet-details/index.jsx:57 | `toLowerCase` keeps the length and lowers each character |
| Js.LowerIdempotent | app/chat/index.jsx:121-122 | lowering twice is lowering once |
| Js.EqualsIgnoreCaseIsLower | app/pet-details/index.jsx:57 | the letter-by-letter case-insensitive comparison holds exactly when both strings lower-case to the same string |
| Js.TrimIsCore | app/add-new-pet/index.jsx:104 | `trim` returns the slice of the input between two runs of white space, and the slice starts and ends with a non-space character |
| Js.TrimEmptyIffAllSpace | app/chat/index.jsx:246 | a text trims to empty exactly when it is all white space |
| Js.TrimIdempotent | app/add-new-pet/index.jsx:127-140 | trimming twice is trimming once |
| Shared.GetFavListSpec | Shared/Shared.jsx:7-24 | writes exactly when the email is truthy and has no record. No email gives `{favorites: []}` and no write. An existing record is returned unchanged. An absent one is created as `{email, favorites: []}`, and `{favorites: []}` is returned. Existing records are never altered |
| Shared.UpdateFavSpec | Shared/Shared.jsx:26-33 | no email: nothing changes; otherwise that email's `favorites` becomes exactly the list, its `email` field is kept (absent for a new record), and every other record is untouched |
| Shared.GetFavListTwiceWritesOnce | Shared/Shared.jsx:14-21 | a second read for the same user never writes, and sees the same favourites as the first |
| Shared.ReadAfterUpdate | Shared/Shared.jsx:11-32 | a read after an update returns the list written and does not write |
| Shared.UpdateFavLastWriterWins | Shared/Shared.jsx:30-32 | update with `a` then `b` equals update with `b`: replacement, not union |
| Shared.WithoutEmailNothingStored | Shared/Shared.jsx:4-9 | without a user with an email address, a read returns `{favorites: []}` and neither a read nor an update touches the collection |
| Shared.FavoritesKeyedByEmail | Shared/Shared.jsx:4-32 | records are keyed by the email address alone. An update is read back by every user with that address, and changes nothing that another address reads |
| Shared.FavStore.GetFavList | Shared/Shared.jsx:7-24 | the method returns the value and leaves the collection the spec function gives, and counts one write exactly when it creates a record |
| Shared.FavStore.UpdateFav | Shared/Shared.jsx:26-33 | the collection becomes the merge-write result, with one write when there is an email, none otherwise |
| MarkFav.RemoveAll | components/MarkFav.jsx:36 | the filtered list has no occurrence of the id and the same number of every other id |
| MarkFav.RemoveAllAppend | components/MarkFav.jsx:36 | filtering distributes over concatenation, so the kept ids stay in their original order |
| MarkFav.RemoveAllAbsent | components/MarkFav.jsx:36 | filtering out an absent id returns the list unchanged |
| MarkFav.Toggled | components/MarkFav.jsx:32-37 | `isFav` (membership) flips. Every other id keeps its count. A non-favourite is appended at the end |
| MarkFav.AddThenRemoveRestores | components/MarkFav.jsx:35-37 | toggling an absent id twice restores the original list |
| MarkFav.RemoveThenAdd | components/MarkFav.jsx:35-37 | toggling a favourite twice leaves the other ids in order with the id once at the end |
| MarkFav.FavButton.constructor | components/MarkFav.jsx:8-11 | a new component starts with an empty list and `hasFetched` false |
| MarkFav.FavButton.SetUser | components/MarkFav.jsx:9-28 | a render with a new `useUser()` value keeps the list and the `hasFetched` ref. The mount effect runs again exactly when `user?.id` changed |
| MarkFav.FavButton.FetchFavorites | components/MarkFav.jsx:14-28 | no user, or already fetched: nothing changes. Otherwise `hasFetched` becomes true, and the list is what the read returned (empty on failure). The store changes only as the read does. The local list then matches the stored one |
| MarkFav.FavButton.ToggleFav | components/MarkFav.jsx:34-48 | callable only when rendered (user and pet id present). The heart flips exactly when the write succeeds. On success the local list is the toggled list and the store holds that same list. On failure both keep their pre-toggle values. "Local list equals stored list" is preserved |
| PetDetails.PetFieldsNeverBlank | app/pet-details/index.jsx:26-43 | whatever parameters are missing, every text the screen shows is non-empty, and an image is either absent or non-empty |
| PetDetails.PetOfRoundTrip | app/pet-details/index.jsx:26-43 | the defaults only fill gaps: a displayable pet's own fields, passed as the parameters, give back that same pet |
| PetDetails.ReopenShowsSamePet | app/pet-details/index.jsx:26-43 | opening the screen with the fields of a pet it shows shows that pet unchanged |
| PetDetails.CurrentUsername | app/pet-details/index.jsx:54 | username, else full name, else `'User'`; never empty |
| PetDetails.OwnerUsername | app/pet-details/index.jsx:55 | the pet's username when it is non-empty, else `'Pet Owner'`; never empty |
| PetDetails.InitiateChat | app/pet-details/index.jsx:45-140 | outcome and new `Chat` collection are those of the lookup-or-create function; messages untouched |
| PetDetails.OnlyCreationWrites | app/pet-details/index.jsx:48-92 | unless a chat is created, the collection is unchanged (no user, self chat, no email, existing chat) |
| PetDetails.SelfChatRejected | app/pet-details/index.jsx:54-60 | usernames equal ignoring case are refused with no write, even for a user with no email |
| PetDetails.MissingEmailRejected | app/pet-details/index.jsx:63-67 | past the self-check, a missing email is refused with no write |
| PetDetails.RoleSwapFindsSameChats | app/pet-details/index.jsx:70-77 | swapping the current user and the owner finds exactly the same documents |
| PetDetails.CreatesExactlyOne | app/pet-details/index.jsx:96-121 | a chat is created only when none matches. Afterwards exactly one document matches: the new one at `docId1`. It has `id = docId1` and two users: the creator, with the creator's id and email, then `pet_owner_<pet id>` with no email. It carries the pet's id, name and image and the creation time, and has null `lastMessage`, `unreadCount = 0` and no `participants` |
| PetDetails.InsertMatchesOnlyItself | app/pet-details/index.jsx:96-97 | writing the new document into a collection with no match leaves it the only match |
| PetDetails.InitiateIdempotent | app/pet-details/index.jsx:75-121 | a repeated call writes nothing. It opens exactly the chat the first call created, or the same chats the first call found |
| PetDetails.InitiatePreservesIdsAreKeys | app/pet-details/index.jsx:96-97 | if every document's `id` field equals its document id, that stays true |
| PetDetails.UnderscoreNamesCollide | app/pet-details/index.jsx:70-71 | the pairs ("a_b", "c") and ("a", "b_c") produce the same `docId1` |
| ChatData.SetUnread | app/chat/index.jsx:279 | a dotted `unreadCount.key` update sets that key's count and leaves every other key's count as it was |
| ChatScreen.Normalize | app/chat/index.jsx:166-191 | keeps the document id and the raw data. Falls back as the code does: `text` to `''`; `_id` through `_id`, `email`, `id`, `'unknown'`; `name` to `'User'`; `avatar` through `avatar`, `imageUrl`, null. The sender id and name are never empty |
| ChatScreen.MapSnapshot | app/chat/index.jsx:163-194 | exactly one normalised message per document, position by position |
| ChatScreen.SnapshotKeepsOrder | app/chat/index.jsx:163-166 | documents newest-first by server timestamp give messages newest-first, with the same ids |
| ChatScreen.MissingTimeShowsNow | app/chat/index.jsx:170-177 | a message whose `createdAt` is missing, `0` or `''` is shown at the current time |
| ChatScreen.NumericTimeIsMillis | app/chat/index.jsx:172-174 | a non-zero numeric `createdAt` is read as milliseconds since the epoch, and one outside the `Date` range gives an invalid date |
| ChatScreen.FindOther | app/chat/index.jsx:120-140 | the index `find` stops at: the first user the predicate accepts (email ignoring case, else username, else id), none before it |
| ChatScreen.OtherUser | app/chat/index.jsx:119-147 | the chat partner is the user `find` stops at, the first one the predicate accepts. When none is accepted it is `users[0]`, and with no users there is none |
| ChatScreen.CreatorSeesOwner | app/chat/index.jsx:119-147 | in a chat created at pet-details, the creator sees the owner entry as the other user |
| ChatScreen.OwnerSeesCreator | app/chat/index.jsx:119-147 | any viewer whose email differs from the creator's, ignoring case, sees the creator entry |
| ChatScreen.CreatorOpensNewChat | app/chat/index.jsx:93-147 | opening the chat `InitiateChat` has just created loads that document, and its creator sees the pet owner's entry as the chat partner |
| ChatScreen.FindOtherEmail | app/chat/index.jsx:295-297 | a participant whose email differs from the viewer's ignoring case, or undefined exactly when every participant matches |
| ChatScreen.FindOtherEmailIsFirst | app/chat/index.jsx:295-297 | `find` returns the first participant that differs from the viewer ignoring case, wherever it is |
| ChatScreen.OtherUserEmail | app/chat/index.jsx:291-298 | null exactly when there is no chat data, no `participants` or no email. Otherwise it is the `find` over `participants`, and a participant it returns differs from the viewer ignoring case |
| ChatScreen.SenderName | app/chat/index.jsx:243 | the full name, else the username, else `'User'`; never empty |
| ChatScreen.AfterSend | app/chat/index.jsx:268-280 | `lastMessage` is the untrimmed text. The sender is recorded, and so is the time, as `lastMessageTime` and as `updatedAt`. The other user's count becomes its loaded value + 1. All other counts and every other field of the document stay as they were |
| ChatScreen.OnSend | app/chat/index.jsx:234-288 | sends iff there are a chat id, a user and a first message that is not blank; otherwise nothing is written. A send appends exactly one message document, and updates the chat iff its document exists |
| ChatScreen.SentMessageReadsBack | app/chat/index.jsx:250-261 | the saved message, normalised, shows the trimmed text and the send time. Its sender id is the email, else the user id. It shows the sender's name and avatar, and its raw data is read by the sender alone |
| ChatScreen.SendIncrementsOther | app/chat/index.jsx:279 | after a send the other user's count is the loaded count plus one |
| ChatScreen.SendLeavesOtherCounts | app/chat/index.jsx:279 | a send writes one counter only |
| ChatScreen.SenderCountUnchanged | app/chat/index.jsx:279 | when the other email is known, the sender's own count is not written |
| ChatScreen.NewChatCountsUnderNull | app/chat/index.jsx:291-306 | for a chat as pet-details creates it, the other email is null, the counter key is `"null"` and the loaded other count is 0 |
| ChatScreen.MarkReadDoc | app/chat/index.jsx:214-219 | the reader's count is 0 and `lastSeen` holds only the reader. Every other count and every other field stay as they were |
| ChatScreen.MarkReadIdempotent | app/chat/index.jsx:206-219 | marking as read twice is marking once, and the count stays 0 |
| ChatScreen.MarkMessagesAsRead | app/chat/index.jsx:206-223 | with a chat id, a user and an existing document, the chat becomes the marked-read document; otherwise nothing changes |
| UserItem.TruncateMessage | components/indox/UserItem.jsx:32-36 | empty or missing text gives `''`. Text of at most `max` characters (default 30) is unchanged. Longer text gives its first `max` characters and `'...'`, length `max + 3` |
| UserItem.TruncateBounds | components/indox/UserItem.jsx:32-36 | a preview is at most `max + 3` long, and non-empty for a non-empty message |
| UserItem.Preview | components/indox/UserItem.jsx:97 | an empty last message shows `'Start a conversation...'`; the preview is never empty |
| UserItem.DisplayName | components/indox/UserItem.jsx:79 | the name when it is non-empty, else `'Unknown User'` |
| UserItem.FormatTime | components/indox/UserItem.jsx:9-29 | a missing date gives `''`. Otherwise the label is: today under 24h, yesterday under 48h, weekday under 168h, a date beyond that. An invalid date gives the date label |
| UserItem.FormatTimeMonotone | components/indox/UserItem.jsx:14-28 | an older message never gets a more recent label |
| UserItem.Badge | components/indox/UserItem.jsx:66-70 | the badge shows iff the count is positive; it reads `'9+'` above 9, else the single digit |
| AddNewPet.HandleChange | app/add-new-pet/index.jsx:44-46 | only key `k` changes, and it takes the new value |
| AddNewPet.BuildCategoryList | app/add-new-pet/index.jsx:68-90 | the list is the `'None'` entry followed by one entry per fetched document in fetch order |
| AddNewPet.Validate | app/add-new-pet/index.jsx:104-122 | checks in order: blank name, then missing image, then missing sex, then missing category. Each error is reported exactly when the earlier checks pass and its own check fails |
| AddNewPet.InitialFormNeedsName | app/add-new-pet/index.jsx:28-42 | the initial form has every key and fails first on the pet name |
| AddNewPet.BuildPetData | app/add-new-pet/index.jsx:127-144 | `status` is `'available'`, `imageUrl` the picked image, `postedDate` the submit time, `sex` as chosen, and `'None'` is stored as no category |
| AddNewPet.PetDataTrimmed | app/add-new-pet/index.jsx:127-140 | each of the eleven text fields of the record is the trimmed form value, so it has no white space at either end. A form that passed validation gives a non-empty name |
| AddNewPet.ValidFormCategoryStored | app/add-new-pet/index.jsx:119-134 | a form that passed validation never stores the placeholder `'None'`. Its category is stored as chosen, or as no category exactly when `'None'` was chosen |
| AddNewPet.NewPetScreen.Change | app/add-new-pet/index.jsx:44-46 | the form becomes `HandleChange` of the old form, and nothing else changes |
| AddNewPet.NewPetScreen.PickImage | app/add-new-pet/index.jsx:62-64 | a picked image replaces the current one; a cancelled pick keeps it |
| AddNewPet.NewPetScreen.LoadCategories | app/add-new-pet/index.jsx:67-99 | a successful fetch sets the list with `'None'` first; a failed one leaves it |
| AddNewPet.NewPetScreen.BeginSubmit | app/add-new-pet/index.jsx:102-144 | the first failed check is returned, with no write and no flag change; otherwise `isSubmitting` is set and the record is built |
| AddNewPet.NewPetScreen.FinishSubmit | app/add-new-pet/index.jsx:149-168 | on success one record is appended, on failure none, and `isSubmitting` is false afterwards either way |

## Left out

- Rendering, styles, navigation (`router.push`, header options), alerts and console logging. The display-only components (`components/Home/*`, `PetDetails/*`, `app/user-post/index.jsx`, `app/(tabs)/*`) are not part of this model.
- Sign-in (`app/login/index.jsx`) and the token cache in `app/_layout.jsx`. The signed-in user is a parameter.
- The `onSnapshot` subscription and its teardown are event-driven. Only the per-snapshot mapping is modelled, over documents already in query order.
- Transport failures are modelled only by flags: the favourites fetch and write, the category fetch and the pet write. The `catch` blocks of `InitiateChat`, `onSend` and `markMessagesAsRead` are modelled only for an update of a missing chat document, which leaves everything unchanged. A failed request is assumed to write nothing.
- PetDetails.InitiateChat: with no user it is proved to write nothing. That it also reads nothing is not stated, because reads are not modelled.
- PetDetails.InitiateChat: returns every matching document id. Which of them the `forEach` navigation ends on is not modelled.
- Firestore splits a dotted field path at every `.`, so `unreadCount.a@x.com` writes a nested `unreadCount["a@x"]["com"]`. Every ordinary address contains a `.`, so the flat `unreadCount[email]` read of `getOtherUserUnreadCount` never sees what a send wrote. In the app, for a chat that has `participants`, the other user's count is therefore rewritten to 1 on every send and never accumulates. The model treats everything after `unreadCount.` as a single key. `ChatScreen.SendIncrementsOther`, `SendLeavesOtherCounts`, `SenderCountUnchanged`, `MarkReadDoc` and `MarkReadIdempotent` hold under that flattening only, that is, for addresses without a `.`.
- MarkFav.FavButton.SetUser: a new `user` is recorded and the method says whether the mount effect is due again. Running the effect is the separate call `FetchFavorites`, and React's render scheduling is not modelled.
- A dotted update through an `unreadCount` that is not an object is assumed to replace it with a one-entry object.
- Firestore's rejection of `undefined` field values (a sender without an email) is not modelled.
- `toLowerCase` is modelled on ASCII letters only. `length` and `substring` count characters where JavaScript counts UTF-16 code units.
- Date parsing of strings is the parameter `parse`, and the current time is a parameter. Locale formatting (`toLocaleTimeString`, `toLocaleDateString`) is left out; only the bucket choice is modelled, in whole milliseconds.
- Image picking permissions and the typing indicator.
- Concurrent writers (last-writer-wins races on favourites or counters).
- React's closure capture: which chat data `onSend` sees is the `chatData` parameter.
- The `'All'` prepend of `components/Home/Category.jsx` and the category query of `components/Home/PetListByCategory.jsx`.
