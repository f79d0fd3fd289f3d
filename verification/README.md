# TalkNo chat core in Dafny

TalkNo is a chat application: users exchange direct messages and post to channels that one
user administers and others join. This project models the core of its server handlers and of
its web client, and proves what they promise.

Server side:

- **Channel handlers** (`ChannelController`). Creating a channel, listing a user's channels,
  paged channel history, joining, leaving, and the channel details view. Each reply is a
  function of the channel document. The channel collection is a class (`ChannelDb`) whose
  join and leave methods save the new document. Its invariant: member lists never repeat an
  id, and messages are stored in time order.
- **Direct-message handlers** (`MessagesController`). Paged history of the conversation
  between two users, and the rule that names an uploaded file
  `uploads/files/<date>/<name with each white-space run replaced by _>`.
- **Shared paging arithmetic** (`History`). It covers `parseInt(x) || d`, `skip = (page - 1) * limit`,
  newest first, then skip, then limit, then reverse, and `hasMore`. It is proved to give
  disjoint pages that, fetched from page k down to 1, rebuild the history oldest first.

Client side:

- **The chat store** (`ChatSlice.ChatStore`). The store is a class with one field per store key. Each
  setter and list update states the whole new state (`Snapshot()`), and the list updates keep
  ids distinct.
- **The message pane** (`MessageContainer`). It covers the first load, loading older pages on
  scrolling to the top (keeping the reader's position), date separators, image detection and
  file-name display.
- **The browse-channels dialog** (`BrowseChannels`). It covers which channels are offered, the
  search, and joining. Its invariant is that the shown list is the search over the available
  list whenever that search does not throw. The search throws when it reads the missing first
  or last name of a channel's admin.
- **The message bar** (`MessageBar`). It covers what is emitted on the socket, and when.
- **The sidebar lists** (`ContactList`). They cover selection, labels, initials and online status.
- **The sign-in and sign-up checks** (`Auth`). The email check is proved equal to its regular
  expression.

Generic pieces live in `Text` and `ListOps`:

- `Text`: JavaScript white space and `trim`, ASCII lower-casing, `includes`, and the last
  `/` segment.
- `ListOps`: `filter`, `findIndex`, replace-first, and move-to-front.

Databases, sockets, HTTP and the DOM are not modelled. Their results become parameters:
- the stored documents;
- the response of a request (`PageResponse`, `UploadResult`, an `Option` for failure);
- the chosen file;
- the scroll height after rendering;
- the calendar day of each message.

A falsy JavaScript string (undefined or empty) is the empty string.

Behaviour kept as written:

- **Admin as a member.** The admin of a channel can also join it as a member. They are then
  listed in `members` and counted twice in `memberCount` (`AdminCanJoin`).
- **Channel history status.** Channel history answers with status 201. Its `hasMore` compares
  against the length of the channel's message-id list, not against the number of stored
  messages found.
- **Failed older-page load.** A failed older-page load clears the store's `isLoadingMore`, but
  the pane's own `isLoadingOlder` stays set. The pane then no longer jumps to new messages.
- **Older page without messages, or no chat type.** When the reply has no `messages`, or no
  chat type is set once the guard has passed, neither flag is cleared. `isLoadingMore` stays
  true, so no further older page loads until the chat is reloaded.
- **Channel file messages.** In a channel chat a file message is emitted whenever the upload
  resolved with a body, whatever its status. `isUploading` is cleared only on status 200.
- **Bare-id recipients in `addMessage`.** Outside a channel chat, `addMessage` replaces the
  recipient by `recipient._id`. A recipient that is already a bare id therefore becomes
  undefined.

## Model

| member | source | states |
|---|---|---|
| Text.Trim | client/src/pages/chat/components/chat-container/components/message-bar/MessageBar.jsx:42 | the result is a slice of the input with only white space cut from both ends, its own ends are not white space, and it is empty exactly when the input is all white space (the `trim()` the blank checks use) |
| Text.Lower | client/src/pages/chat/components/contacts-container/components/browse-channels/BrowseChannels.jsx:42-48 | same length, each character lower-cased (ASCII letters) at the same position |
| Text.Contains | client/src/pages/chat/components/contacts-container/components/browse-channels/BrowseChannels.jsx:42-48 | `includes`: true exactly when the needle occurs at some position of the haystack |
| Text.LastSegment | client/src/pages/chat/components/chat-container/components/message-container/MessageContainer.jsx:279-281 | `split("/").pop()`: a suffix of the path with no `/`, preceded by `/` whenever it is not the whole path |
| Text.LastSegmentAfterSlash | server/controllers/MessagesController.js:61 | the last segment of `dir + "/" + name` is `name` when `name` has no `/` |
| ListOps.Filter | client/src/store/slice/chat-slice.js:78 | `filter`: an order-preserving subsequence holding exactly the elements that pass |
| ListOps.FilterCounts | client/src/store/slice/chat-slice.js:78 | every element that passes is kept as often as it occurs, every other element is dropped |
| ListOps.FilterAppend | client/src/store/slice/chat-slice.js:78 | filtering distributes over concatenation |
| ListOps.FilterDistinct | server/controllers/ChannelController.js:150-152 | a filtered list without repetitions has none |
| ListOps.FilterDistinctKeys | client/src/store/slice/chat-slice.js:78 | a filtered list whose ids are distinct keeps them distinct |
| ListOps.FilterKeepsAll | server/controllers/ChannelController.js:150-152 | a filter every element passes changes nothing |
| ListOps.FilterCommutes | client/src/pages/chat/components/contacts-container/components/browse-channels/BrowseChannels.jsx:40-50 | two filters give the same list in either order |
| ListOps.FilterAgrees | server/controllers/MessagesController.js:17-20 | filters with the same verdict everywhere give the same list |
| ListOps.RemoveKey | client/src/store/slice/chat-slice.js:76-79 | `filter(x => x._id !== id)`: nothing with the id is left, everything else is kept, order preserved |
| ListOps.RemoveKeyAbsent | client/src/store/slice/chat-slice.js:76-79 | removing an id that is absent changes nothing |
| ListOps.RemoveKeyAppend | server/controllers/ChannelController.js:150-152 | removal distributes over concatenation |
| ListOps.RemoveKeyDistinct | server/controllers/ChannelController.js:150-152 | removal keeps a list without repetitions so |
| ListOps.RemoveKeyDistinctKeys | client/src/store/slice/chat-slice.js:76-79 | removal keeps ids distinct |
| ListOps.RemoveKeyCommutes | client/src/pages/chat/components/contacts-container/components/browse-channels/BrowseChannels.jsx:93-94 | removing an id before or after another filter gives the same list |
| ListOps.RemoveKeyKeepsOthers | server/controllers/ChannelController.js:150-152 | every other element keeps its number of occurrences |
| ListOps.FindIndex | client/src/store/slice/chat-slice.js:68-70 | `findIndex`: -1 exactly when no element has the key, else the first index that has it |
| ListOps.ReplaceFirst | client/src/store/slice/chat-slice.js:66-75 | same length; the first element with the new value's id becomes the new value; all other positions unchanged; no change when the id is absent |
| ListOps.MoveToFront | client/src/store/slice/chat-slice.js:116-122 | a permutation; the first match goes to index 0 and the rest keep their relative order; no change when absent |
| ListOps.MoveToFrontIdempotent | client/src/store/slice/chat-slice.js:116-122 | moving the same entry to the front twice equals once |
| ListOps.MoveToFrontDistinctKeys | client/src/store/slice/chat-slice.js:116-122 | moving an entry to the front keeps ids distinct |
| ListOps.PrependDistinctKeys | client/src/store/slice/chat-slice.js:143 | putting an entry with a new id in front keeps ids distinct |
| ListOps.ReplaceFirstDistinctKeys | client/src/store/slice/chat-slice.js:72 | replacing the entry with the same id keeps ids distinct |
| History.OrDefault | server/controllers/ChannelController.js:65-66 | `parseInt(x) || d`: a missing, non-numeric or zero value becomes `d`, any other value is kept; the result is at least 1 |
| History.NewestPage | server/controllers/ChannelController.js:74-77 | newest first, skip, limit, reverse is the contiguous block just older than the `skip` newest, at most `limit` long, oldest first |
| History.HasMoreIffOlderRemain | server/controllers/ChannelController.js:81 | `skip + returned < total` holds exactly when messages older than the page remain |
| History.WalkRebuildsSuffix | server/controllers/MessagesController.js:22-24 | pages k down to 1 concatenated are the `k * limit` newest messages, oldest first, without gaps |
| History.WalkRebuildsHistory | server/controllers/MessagesController.js:22-24 | enough pages rebuild the whole history in order |
| History.LaterPageIsOlder | server/controllers/MessagesController.js:10 | a later page number ends where or before an earlier one starts |
| History.PagesDisjoint | server/controllers/MessagesController.js:22-24 | pages with different numbers share no message when no message occurs twice |
| History.FilterAscending | server/controllers/MessagesController.js:16-22 | a filtered ascending history is ascending |
| History.PageAscending | server/controllers/MessagesController.js:38 | a page of an ascending history is ascending after `.reverse()` |
| History.TwentyFiveMessages | server/controllers/MessagesController.js:7-35 | 25 messages give a first page of the 20 newest with `hasMore` and a second page of the 5 oldest without |
| ChannelController.ResolvedCountFull | server/controllers/ChannelController.js:17-19 | the number of distinct known users among the ids is at most the number of ids, and equal exactly when all are known and none repeats |
| ChannelController.CreateReply | server/controllers/ChannelController.js:11-31 | 201 exactly when the caller is known and every id resolves to a distinct user, with admin = caller and members exactly as supplied; otherwise 400 with the matching message |
| ChannelController.JoinReply | server/controllers/ChannelController.js:105-121 | refused with 400 and no change exactly when already a member; otherwise appended once at the end, `memberCount` one higher, distinct members stay distinct |
| ChannelController.LeaveReply | server/controllers/ChannelController.js:138-155 | admin: 400, no change; non-member: 400, no change; otherwise 200, the caller gone, the rest an order-preserving subsequence with every other id as often as before |
| ChannelController.Details | server/controllers/ChannelController.js:189-202 | `isUserMember` iff listed or admin, `isUserAdmin` iff admin, the member list only for members, `memberCount` = members + 1 |
| ChannelController.ChannelHistory | server/controllers/ChannelController.js:74 | exactly the stored messages whose id is in the channel's list, in store order |
| ChannelController.ChannelPage | server/controllers/ChannelController.js:65-88 | 201 with the page block, at most `limit` long, `hasMore` iff `skip + returned` is below the length of the channel's message-id list, page and total echoed |
| ChannelController.ChannelPageAscending | server/controllers/ChannelController.js:74-84 | a page of a time-ordered store comes back in ascending time order |
| ChannelController.JoinTwiceRefused | server/controllers/ChannelController.js:105-107 | a second join by the same user is refused and changes nothing |
| ChannelController.AdminCanJoin | server/controllers/ChannelController.js:105-110 | the admin of a channel can join it as a member |
| ChannelController.LeaveUndoesJoin | server/controllers/ChannelController.js:150-152 | leaving after joining restores the member list |
| ChannelController.RemoveOnce | server/controllers/ChannelController.js:150-152 | removing an id that occurs once shortens the list by one |
| ChannelController.LeaveCount | server/controllers/ChannelController.js:150-152 | with distinct members a successful leave lowers `memberCount` by one |
| ChannelController.JoinRevealsMembers | server/controllers/ChannelController.js:189-202 | after a join the new member sees the member list |
| ChannelController.LeaveHidesMembers | server/controllers/ChannelController.js:189-202 | after a leave the former member is no longer a member and sees no list |
| ChannelController.ChannelDb.CreateChannel | server/controllers/ChannelController.js:6-36 | the reply is `CreateReply`; only on 201 is the channel stored; member lists stay distinct |
| ChannelController.ChannelDb.JoinChannel | server/controllers/ChannelController.js:95-126 | 404 and no change for an unknown channel, otherwise `JoinReply` saved; the store invariant is kept |
| ChannelController.ChannelDb.LeaveChannel | server/controllers/ChannelController.js:128-160 | 404 and no change for an unknown channel, otherwise `LeaveReply` saved; the store invariant is kept |
| ChannelController.ChannelDb.GetUserChannels | server/controllers/ChannelController.js:38-55 | 201 with exactly the channels the user administers or is listed in, each with `memberCount` = members + 1 |
| ChannelController.ChannelDb.GetChannelMessages | server/controllers/ChannelController.js:62-88 | 404 exactly for an unknown channel, otherwise `ChannelPage`; under the invariant the page is in ascending time order |
| ChannelController.ChannelDb.GetChannelDetails | server/controllers/ChannelController.js:176-205 | 404 exactly for an unknown channel, otherwise 200 with `Details` |
| ChannelController.JoinListsChannel | server/controllers/ChannelController.js:42-44 | after a join the channel is among the new member's channels |
| MessagesController.Conversation | server/controllers/MessagesController.js:16-21 | exactly the stored messages between the two users in either direction, in store order |
| MessagesController.ConversationSymmetric | server/controllers/MessagesController.js:17-20 | both participants get the same conversation |
| MessagesController.GetMessages | server/controllers/MessagesController.js:4-42 | 400 exactly when an id is missing; otherwise 200 with the block of at most `limit` conversation messages after the `skip` newest, oldest first, `hasMore` iff older ones remain, `totalMessages` the conversation size |
| MessagesController.PageOfConversation | server/controllers/MessagesController.js:22-38 | page k of `getMessages` with an explicit limit is the k-th newest page of the conversation |
| MessagesController.PagesRebuildConversation | server/controllers/MessagesController.js:22-38 | the pages k down to 1 concatenated are the history walk, and the whole conversation once `k * limit` covers it |
| MessagesController.PageAscending | server/controllers/MessagesController.js:22-38 | every page of a time-ordered store is in ascending timestamp order |
| MessagesController.SanitizeFrom | server/controllers/MessagesController.js:60 | the scan that replaces each white-space run emits no white space and is no longer than its input |
| MessagesController.Sanitize | server/controllers/MessagesController.js:60 | the stored name has no white space and is no longer than the original |
| MessagesController.SanitizeFromChars | server/controllers/MessagesController.js:60 | the scan emits only characters of its input and `_` |
| MessagesController.SanitizeChars | server/controllers/MessagesController.js:60 | the stored name holds only original characters or `_` |
| MessagesController.SanitizeFromKeepsClean | server/controllers/MessagesController.js:60 | text without white space passes the scan unchanged, inside a run or not |
| MessagesController.SanitizeKeepsCleanName | server/controllers/MessagesController.js:60 | a name without white space is kept as it is |
| MessagesController.SanitizeIdempotent | server/controllers/MessagesController.js:60 | sanitising twice equals once |
| MessagesController.SanitizeFromAppend | server/controllers/MessagesController.js:60 | the scan distributes over a split after a non-blank character, the second part scanned outside a run |
| MessagesController.SanitizeFromSkipsRun | server/controllers/MessagesController.js:60 | inside a run, further white space emits nothing |
| MessagesController.SanitizeAppend | server/controllers/MessagesController.js:60 | sanitising distributes over a split after a non-blank character |
| MessagesController.SanitizeLeadingRun | server/controllers/MessagesController.js:60 | a white-space run at the front becomes one `_` |
| MessagesController.SanitizeRun | server/controllers/MessagesController.js:60 | a white-space run of any length between non-blank parts becomes exactly one `_` |
| MessagesController.Decimal | server/controllers/MessagesController.js:55-56 | the date is written as decimal digits without a leading zero whose value is the date |
| MessagesController.UploadFile | server/controllers/MessagesController.js:49-67 | 400 exactly without a file; otherwise 200 with `uploads/files/<date>/<sanitised name>`, whose last segment is the sanitised name |
| ChatSlice.Initial | client/src/store/slice/chat-slice.js:2-18 | the initial store: no chat open, empty lists, no one online, no transfers |
| ChatSlice.Appended | client/src/store/slice/chat-slice.js:99-109 | in a channel chat the message is kept; otherwise only the recipient changes, to the populated user's id, to undefined for a bare id, and the call throws for an undefined recipient |
| ChatSlice.Counterpart | client/src/store/slice/chat-slice.js:126-133 | the recipient when the signed-in user sent the message, else the sender |
| ChatSlice.PromotedContacts | client/src/store/slice/chat-slice.js:135-146 | the counterparty's id is first; a new contact is prepended, a known one moved (a permutation); ids stay distinct |
| ChatSlice.PromotedContactsIdempotent | client/src/store/slice/chat-slice.js:135-146 | a second message from the same contact leaves the list as the first left it |
| ChatSlice.PromotedChannels | client/src/store/slice/chat-slice.js:114-123 | a permutation; the message's channel is first when listed and the others keep their order; no change without one; ids stay distinct |
| ChatSlice.UpdateChannelKeepsIds | client/src/store/slice/chat-slice.js:66-75 | `updateChannel` keeps every id at its index, so ids stay distinct |
| ChatSlice.RemoveChannelRemoves | client/src/store/slice/chat-slice.js:76-79 | after `removeChannel` the id is gone and ids stay distinct |
| ChatSlice.ChatStore.constructor | client/src/store/slice/chat-slice.js:1-18 | the store starts as `Initial` |
| ChatSlice.ChatStore.SetChannels | client/src/store/slice/chat-slice.js:19 | only `channels` changes |
| ChatSlice.ChatStore.SetIsUploading | client/src/store/slice/chat-slice.js:20 | only `isUploading` changes |
| ChatSlice.ChatStore.SetIsDownloading | client/src/store/slice/chat-slice.js:21 | only `isDownloading` changes |
| ChatSlice.ChatStore.SetFileUploadProgress | client/src/store/slice/chat-slice.js:22 | only `fileUploadProgress` changes |
| ChatSlice.ChatStore.SetFileDownloadProgress | client/src/store/slice/chat-slice.js:23-24 | only `fileDownloadProgress` changes |
| ChatSlice.ChatStore.SetOnlineUsers | client/src/store/slice/chat-slice.js:25 | the online set becomes the set of the given ids |
| ChatSlice.ChatStore.AddOnlineUser | client/src/store/slice/chat-slice.js:26-30 | the id is added, no other id changes, nothing else changes |
| ChatSlice.ChatStore.RemoveOnlineUser | client/src/store/slice/chat-slice.js:31-35 | the id is removed, no other id changes, nothing else changes |
| ChatSlice.ChatStore.SetSelectedChatType | client/src/store/slice/chat-slice.js:36 | only the chat type changes |
| ChatSlice.ChatStore.SetSelectedChatData | client/src/store/slice/chat-slice.js:37 | only the open chat changes |
| ChatSlice.ChatStore.SetSelectedChatMessages | client/src/store/slice/chat-slice.js:38-39 | only the loaded messages change |
| ChatSlice.ChatStore.SetDirectMessagesContacts | client/src/store/slice/chat-slice.js:40-41 | only the contact list changes |
| ChatSlice.ChatStore.SetMessagesPagination | client/src/store/slice/chat-slice.js:42-43 | only the pagination changes |
| ChatSlice.ChatStore.SetIsLoadingMore | client/src/store/slice/chat-slice.js:44-47 | only `isLoadingMore` changes; `hasMore`, `currentPage`, `totalMessages` stay |
| ChatSlice.ChatStore.LoadMoreMessages | client/src/store/slice/chat-slice.js:48-60 | older messages go in front of the loaded ones, both in order; pagination from the argument with loading off; not new |
| ChatSlice.ChatStore.SetIsNewMessage | client/src/store/slice/chat-slice.js:61 | only `isNewMessage` changes |
| ChatSlice.ChatStore.AddChannel | client/src/store/slice/chat-slice.js:62-65 | the channel is prepended; ids stay distinct when it is new |
| ChatSlice.ChatStore.UpdateChannel | client/src/store/slice/chat-slice.js:66-75 | the channels become `ReplaceFirst`; ids stay distinct |
| ChatSlice.ChatStore.RemoveChannel | client/src/store/slice/chat-slice.js:76-79 | the channels become `RemoveKey` and no channel with the id remains |
| ChatSlice.ChatStore.CloseChat | client/src/store/slice/chat-slice.js:81-93 | no chat is open afterwards; lists, online users and transfer state are kept |
| ChatSlice.ChatStore.AddMessage | client/src/store/slice/chat-slice.js:94-113 | throws (no change) exactly when `Appended` does; otherwise one entry appended at the end, no de-duplication, flagged as new |
| ChatSlice.ChatStore.AddChannelInChannelList | client/src/store/slice/chat-slice.js:114-124 | the channels become `PromotedChannels`; nothing else changes |
| ChatSlice.ChatStore.AddContactsInDMContacts | client/src/store/slice/chat-slice.js:125-147 | throws (no change) exactly without a signed-in user; otherwise the contacts become `PromotedContacts` of the counterparty |
| MessageContainer.PageRequest | client/src/pages/chat/components/chat-container/components/message-container/MessageContainer.jsx:124-147 | the direct-message request for a contact chat, the channel request for a channel chat, with limit 20; none without a chat type |
| MessageContainer.InitialRequest | client/src/pages/chat/components/chat-container/components/message-container/MessageContainer.jsx:38-87 | page 1, limit 20, of the kind the chat type names, exactly when the open chat has an id and a type |
| MessageContainer.MessagePane.constructor | client/src/pages/chat/components/chat-container/components/message-container/MessageContainer.jsx:33-36 | first load pending, no older load, scroll at 0 |
| MessageContainer.MessagePane.LoadInitial | client/src/pages/chat/components/chat-container/components/message-container/MessageContainer.jsx:38-93 | the request is `InitialRequest`; with it the first-load flag is raised and a body with messages replaces the list and the pagination; otherwise the store is unchanged |
| MessageContainer.MessagePane.LoadOlderMessages | client/src/pages/chat/components/chat-container/components/message-container/MessageContainer.jsx:112-166 | nothing while loading or without more; otherwise page `currentPage + 1`, the older page prepended and `scrollTop = newHeight - previousHeight`; a failure, or a missing chat under a chat type, only clears `isLoadingMore`; without a chat type or without `messages` both flags stay raised; the pane never jumps to the bottom meanwhile |
| MessageContainer.MessagePane.HandleScroll | client/src/pages/chat/components/chat-container/components/message-container/MessageContainer.jsx:168-179 | loads an older page exactly when `scrollTop <= 0`, `hasMore` and no load in flight, with the outcome of `LoadOlderMessages` on every path; otherwise nothing changes |
| MessageContainer.EndsWithAny | client/src/pages/chat/components/chat-container/components/message-container/MessageContainer.jsx:182-184 | true exactly when the text ends in a dot and one of the extensions |
| MessageContainer.IsImagePath | client/src/pages/chat/components/chat-container/components/message-container/MessageContainer.jsx:181-185 | true exactly when the lower-cased path ends in a dot and one of the twelve extensions |
| MessageContainer.LowerIdempotent | client/src/pages/chat/components/chat-container/components/message-container/MessageContainer.jsx:183 | lower-casing twice equals once |
| MessageContainer.ImagePathIgnoresCase | client/src/pages/chat/components/chat-container/components/message-container/MessageContainer.jsx:183 | a path and its lower-cased form are judged alike |
| MessageContainer.DisplayFileName | client/src/pages/chat/components/chat-container/components/message-container/MessageContainer.jsx:279-281 | the last segment when at most 35 long, else its first 20 characters and "..."; never longer than 35 |
| MessageContainer.UploadedNameShown | client/src/pages/chat/components/chat-container/components/message-container/MessageContainer.jsx:279-281 | a file uploaded under a name without `/` is shown under its sanitised name or that name cut short |
| MessageContainer.DateSeparators | client/src/pages/chat/components/chat-container/components/message-container/MessageContainer.jsx:187-192 | a separator before message i exactly when i is 0 or its day differs from message i - 1 |
| MessageContainer.OneSeparatorPerDay | client/src/pages/chat/components/chat-container/components/message-container/MessageContainer.jsx:187-192 | with time-ordered messages each day present gets exactly one separator, before its first message |
| MessageContainer.FirstOccurrence | client/src/pages/chat/components/chat-container/components/message-container/MessageContainer.jsx:188-192 | every value present has a first occurrence |
| BrowseChannels.Available | client/src/pages/chat/components/contacts-container/components/browse-channels/BrowseChannels.jsx:62-68 | exactly the fetched channels that are not in the user's list, do not list the user and are not administered by the user, in server order |
| BrowseChannels.Search | client/src/pages/chat/components/contacts-container/components/browse-channels/BrowseChannels.jsx:36-52 | `None` (the effect throws) exactly when the term is not blank and some channel misses on its name and then reads a missing admin name; otherwise everything for a blank term, or an order-preserving subsequence holding exactly the channels whose name or admin name contains the term, ignoring case |
| BrowseChannels.SearchThrowsOnlyOnMissingName | client/src/pages/chat/components/contacts-container/components/browse-channels/BrowseChannels.jsx:40-48 | with every admin's first and last name present the search never throws; a throw points at a listed admin with a missing name |
| BrowseChannels.NamelessAdminThrows | client/src/pages/chat/components/contacts-container/components/browse-channels/BrowseChannels.jsx:40-45 | a non-blank term that misses a channel's name makes the search throw when that channel's admin has no first name |
| BrowseChannels.SubsequenceReflexive | client/src/pages/chat/components/contacts-container/components/browse-channels/BrowseChannels.jsx:38 | a list is a subsequence of itself |
| BrowseChannels.SearchAfterRemove | client/src/pages/chat/components/contacts-container/components/browse-channels/BrowseChannels.jsx:93-94 | when the search does not throw, dropping a channel then searching does not throw either and equals searching then dropping it |
| BrowseChannels.SearchLacksRemoved | client/src/pages/chat/components/contacts-container/components/browse-channels/BrowseChannels.jsx:93-94 | a dropped channel is in neither the available list nor the search over it |
| BrowseChannels.IdSetSize | client/src/pages/chat/components/contacts-container/components/browse-channels/BrowseChannels.jsx:188 | a list of users with distinct ids has as many ids as entries |
| BrowseChannels.ShownMemberCountCountsPeople | client/src/pages/chat/components/contacts-container/components/browse-channels/BrowseChannels.jsx:188 | with distinct member ids and the admin not among the members, the shown count is the number of distinct people: the admin together with the members |
| BrowseChannels.ShownMemberCountListedAdmin | client/src/pages/chat/components/contacts-container/components/browse-channels/BrowseChannels.jsx:188 | an admin who is also listed as a member is counted twice: the shown count is one more than the number of distinct people |
| BrowseChannels.ChannelBrowser.constructor | client/src/pages/chat/components/contacts-container/components/browse-channels/BrowseChannels.jsx:23-27 | empty lists, empty term, nothing being joined; the shown list is the search |
| BrowseChannels.ChannelBrowser.SearchEffect | client/src/pages/chat/components/contacts-container/components/browse-channels/BrowseChannels.jsx:36-52 | the shown list becomes the search over the available list, or the search throws and the shown list stays; nothing else changes |
| BrowseChannels.ChannelBrowser.SetSearchTerm | client/src/pages/chat/components/contacts-container/components/browse-channels/BrowseChannels.jsx:36-52 | the term is set; the shown list becomes the search for it, or the search throws (`threw`) and the shown list stays |
| BrowseChannels.ChannelBrowser.FetchAllChannels | client/src/pages/chat/components/contacts-container/components/browse-channels/BrowseChannels.jsx:36-78 | with a response and a signed-in user both lists become `Available`, then the search effect narrows the shown list or throws and leaves it as `Available`; otherwise both lists are kept and nothing throws; loading ends |
| BrowseChannels.ChannelBrowser.BeginJoin | client/src/pages/chat/components/contacts-container/components/browse-channels/BrowseChannels.jsx:82 | the channel is marked as being joined |
| BrowseChannels.ChannelBrowser.DropJoined | client/src/pages/chat/components/contacts-container/components/browse-channels/BrowseChannels.jsx:93-94 | the channel leaves both lists and the search effect (lines 36-52) runs; the shown list lacks the channel whether or not the search throws; a search that did not throw before does not throw now, and the shown list is the old one without the channel |
| BrowseChannels.ChannelBrowser.CompleteJoin | client/src/pages/chat/components/contacts-container/components/browse-channels/BrowseChannels.jsx:90-106 | on success the channel is prepended in the store and gone from both dialog lists, and the search effect runs as in `DropJoined`; on failure nothing changes and nothing throws; the mark is cleared either way |
| BrowseChannels.ChannelBrowser.HandleJoinChannel | client/src/pages/chat/components/contacts-container/components/browse-channels/BrowseChannels.jsx:80-107 | the join starts and completes; on success the channel is prepended in the store, gone from the available list and from the shown list, and the search effect runs, throwing exactly when the search over the new available list throws; on failure nothing changes and nothing throws; the term and loading flag are kept |
| MessageBar.Envelope | client/src/pages/chat/components/chat-container/components/message-bar/MessageBar.jsx:44-59 | `sendMessage` with the recipient for a contact chat, `send-channel-message` with the channel id for a channel chat, none otherwise |
| MessageBar.Bar.constructor | client/src/pages/chat/components/chat-container/components/message-bar/MessageBar.jsx:22 | an empty draft |
| MessageBar.Bar.HandleAddEmoji | client/src/pages/chat/components/chat-container/components/message-bar/MessageBar.jsx:37-39 | the emoji is appended at the end of the draft |
| MessageBar.Bar.HandleSendMessage | client/src/pages/chat/components/chat-container/components/message-bar/MessageBar.jsx:41-62 | a blank draft sends nothing and stays; otherwise the trimmed, non-empty text is sent to the open chat and the draft becomes "" |
| MessageBar.Bar.HandleAttachmentChange | client/src/pages/chat/components/chat-container/components/message-bar/MessageBar.jsx:70-110 | a contact file message only on status 200 with a body; a channel file message whenever the upload resolved with a body; a rejection clears `isUploading` and sends nothing; `isUploading` stays set after a non-200 reply unless reading the user or chat throws |
| ContactList.HandleClick | client/src/components/contact-list.jsx:22-34 | the chat type follows the list, the entry becomes the open chat, messages are cleared only when a different chat was open |
| ContactList.Label | client/src/components/contact-list.jsx:110-112 | "first last" when both names are set, else the email, else "Unknown"; never empty |
| ContactList.Initial | client/src/components/contact-list.jsx:71-73 | one character: of the first name, else of the email, else "?" |
| ContactList.StatusText | client/src/components/contact-list.jsx:115 | "Online" exactly when the green dot shows, i.e. the id is online; otherwise "Offline" |
| ContactList.PresenceChangesOneStatus | client/src/components/contact-list.jsx:115 | adding or removing a user online changes that user's status only |
| Auth.IndexOf | client/src/pages/auth/Auth.jsx:25 | the first position of the character, or -1 when absent |
| Auth.PlainSlice | client/src/pages/auth/Auth.jsx:25 | a slice is a `[^\s@]+` run exactly when each of its characters is plain |
| Auth.ShapeGivesPattern | client/src/pages/auth/Auth.jsx:25 | one `@` not first, no white space and an inner dot after the `@` match the pattern |
| Auth.PatternGivesShape | client/src/pages/auth/Auth.jsx:25 | every match of the pattern has that shape |
| Auth.ValidateEmail | client/src/pages/auth/Auth.jsx:24-27 | true exactly when the string matches `^[^\s@]+@[^\s@]+\.[^\s@]+$` |
| Auth.ValidatePassword | client/src/pages/auth/Auth.jsx:29-38 | each broken rule once, in the fixed order; empty exactly when the password has 8 characters, an uppercase letter and a special character |
| Auth.CheckEmail | client/src/pages/auth/Auth.jsx:41-50 | accepted exactly for a valid email; "Email is required." for "", else "Please enter a valid email address." |
| Auth.ValidateLogin | client/src/pages/auth/Auth.jsx:40-57 | accepted exactly for a valid email and a non-empty password, checked in that order; strength is not checked |
| Auth.ValidateSignup | client/src/pages/auth/Auth.jsx:59-85 | accepted exactly for a valid email, a password breaking no rule and a matching confirmation; the first problem only is reported |
| Auth.SignupAcceptedLoginAccepted | client/src/pages/auth/Auth.jsx:40-85 | whatever sign-up accepts, sign-in accepts |
| Auth.LoginIgnoresStrength | client/src/pages/auth/Auth.jsx:51-56 | sign-in accepts a password that breaks all three rules |
| Auth.FormFields | client/src/pages/auth/Auth.jsx:158-236 | sign-in renders email then password; sign-up renders email, password, then confirmation |
| Auth.FormKeyPress | client/src/pages/auth/Auth.jsx:125-130 | a key other than Enter in any field does nothing |
| Auth.EnterFollowsFieldOrder | client/src/pages/auth/Auth.jsx:166-236 | each field's next field is the one rendered after it; the last field of each form has none |
| Auth.EnterSubmitsFromLastField | client/src/pages/auth/Auth.jsx:125-236 | Enter focuses the next rendered field, and submits exactly from the form's last field (password on sign-in, confirmation on sign-up); sign-in submits to `ValidateLogin`, sign-up to `ValidateSignup` |
| Auth.RejectionFocusesOwnField | client/src/pages/auth/Auth.jsx:40-84 | a rejected sign-in or sign-up focuses a field that its own form renders |

## Left out

- Database queries and `populate` are replaced by sequences, sets and maps of documents. Users are known by id only. Ids are compared as strings.
- `ChannelController.ChannelDb.GetUserChannels` returns a map keyed by channel id, so the `updatedAt` order of the list is not modelled.
- `getAllChannels` (server/controllers/ChannelController.js:162-174) is not part of this model: it only lists documents. Its result is the input of `BrowseChannels.ChannelBrowser.FetchAllChannels`.
- The 500 replies of the `catch` blocks are not modelled. They cover database failures, a missing caller id, and ids that are not valid object ids.
- `History.OrDefault`: query values are natural numbers or absent. Negative page or limit values, and `parseInt` of text with a numeric prefix, are not modelled.
- The ordering of messages with equal timestamps is not modelled. `History.Ascending` is assumed of the store, as an invariant of `ChannelDb` and as a precondition of the order lemmas.
- The concurrent read-modify-write race in join and leave is not modelled: the model is sequential.
- `mkdirSync`/`renameSync` of the upload are left out. `Date.now()` is a parameter of `MessagesController.UploadFile`.
- The multer configuration, the routes and the application bootstrap are left out.
- `Text.Lower` lower-cases ASCII letters only, not the full Unicode `toLowerCase`.
- String lengths (`length < 8`, `> 35`, `slice(0, 20)`, `charAt(0)`) are counted in characters, not in UTF-16 code units.
- Socket transport, presence broadcasting and server-side message routing are left out: only the client's `onlineUsers` set is modelled.
- Upload and download progress percentages use floating-point `Math.round`, so they are left out. The progress setters are kept.
- The file download (blob handling) in the message pane is left out.
- `scrollIntoView`, `setTimeout`, toasts and focus calls are left out. The timer that restores the scroll position is taken to fire right after the page arrives, with the new height as a parameter. Focus is returned as data (`Auth.Check`, `Auth.KeyAction`).
- The `moment` day formatting is left out: `MessageContainer.DateSeparators` takes each message's calendar day as an integer.
- `MessageContainer.MessagePane.LoadInitial`: reading the id of a missing open chat throws outside any `try`. This is returned as `threw`.
- `ChatSlice.ChatStore.AddContactsInDMContacts` takes the populated sender and recipient of a direct message. Bare-id or undefined parties are not modelled there.
- `BrowseChannels.ChannelBrowser.FetchAllChannels` treats a missing signed-in user as a failed fetch. In the source the throw happens only once a channel passes the first test. A channel whose admin is missing is not modelled.
- `BrowseChannels.Search`: a missing admin first or last name is the empty string, so the search throws on an admin name stored as `""`, where `"".toLowerCase()` would not throw. A thrown effect is reported as `threw` and the dialog keeps its state; the unmounting of the dialog that follows in the source is not modelled.
- `BrowseChannels.ChannelBrowser.HandleJoinChannel` takes the joined channel from the response. The server's error text shown on failure is not modelled.
- `ChatSlice.ChatStore.AddChannelInChannelList`, `ChatSlice.ChatStore.UpdateChannel` and `ChatSlice.ChatStore.AddContactsInDMContacts`: the new value of the list is modelled, as for every other setter. `AddChannelInChannelList` splices and unshifts the store's own channel array in place and never calls `set`. `AddContactsInDMContacts` does the same to the contact array and then calls `set` with that same array, so a subscriber comparing arrays sees no change. `UpdateChannel` writes the new channel into the store's own array before calling `set` with a copy, so the old array is changed under anyone still holding it. Neither the missing or unnoticed notifications nor the in-place mutation is captured.
- `MessageBar.Bar.HandleAttachmentChange` takes the presence of a file as a flag. The file's contents and the form data are not modelled.
- Rendering-only components are left out: channel info, new DM, chat header, contacts container, and create channel (whose submit is an empty stub).
- The authentication controller, and the sign-in and sign-up requests themselves, are not part of this model. Only the form checks are modelled.
