/**
 * The sidebar lists of contacts and channels: selecting an entry, and the label, initial and
 * online status shown for a contact.
 */
module ContactList {
  import opened Common
  import ChatSlice
  import MessageContainer

  /** An entry is highlighted when it is the open chat. */
  predicate Highlighted(selected: Option<ChatSlice.ChatData>, entry: ChatSlice.ChatData) {
    selected.Some? && MessageContainer.ChatId(selected.value) == MessageContainer.ChatId(entry)
  }

  /**
   * `handleClick`: the chat type follows the kind of list, the clicked entry becomes the open
   * chat, and the loaded messages are cleared only when another chat was open before.
   */
  method HandleClick(store: ChatSlice.ChatStore, isChannel: bool, entry: ChatSlice.ChatData)
    modifies store
    ensures var switched := old(store.selectedChatData).Some? && !Highlighted(old(store.selectedChatData), entry);
      store.Snapshot() == old(store.Snapshot()).(
        selectedChatType := if isChannel then ChatSlice.ChannelChat else ChatSlice.ContactChat,
        selectedChatData := Some(entry),
        selectedChatMessages := if switched then [] else old(store.selectedChatMessages))
    ensures Highlighted(store.selectedChatData, entry)
    ensures Highlighted(old(store.selectedChatData), entry) ==> store.selectedChatMessages == old(store.selectedChatMessages)
  {
    var previous := store.selectedChatData;
    store.SetSelectedChatType(if isChannel then ChatSlice.ChannelChat else ChatSlice.ContactChat);
    store.SetSelectedChatData(Some(entry));
    if previous.Some? && MessageContainer.ChatId(previous.value) != MessageContainer.ChatId(entry) {
      store.SetSelectedChatMessages([]);
    }
  }

  /** The contact's name as shown: "first last" when both are set, else the email, else "Unknown". */
  function Label(u: ChatSlice.UserInfo): (r: string)
    ensures r != []
    ensures u.firstName != "" && u.lastName != "" ==> r == u.firstName + " " + u.lastName
    ensures (u.firstName == "" || u.lastName == "") && u.email != "" ==> r == u.email
    ensures (u.firstName == "" || u.lastName == "") && u.email == "" ==> r == "Unknown"
  {
    if u.firstName != "" && u.lastName != "" then u.firstName + " " + u.lastName
    else if u.email != "" then u.email
    else "Unknown"
  }

  /** The avatar letter: the first character of the first name, else of the email, else "?". */
  function Initial(u: ChatSlice.UserInfo): (r: string)
    ensures |r| == 1
    ensures u.firstName != "" ==> r[0] == u.firstName[0]
    ensures u.firstName == "" && u.email != "" ==> r[0] == u.email[0]
    ensures u.firstName == "" && u.email == "" ==> r == "?"
  {
    if u.firstName != "" then u.firstName[..1]
    else if u.email != "" then u.email[..1]
    else "?"
  }

  /** The status line under a contact; the green dot is shown exactly when it reads "Online". */
  function StatusText(online: set<UserId>, id: UserId): (r: string)
    ensures r == "Online" <==> DotShown(online, id)
    ensures r == "Online" || r == "Offline"
  {
    if id in online then "Online" else "Offline"
  }

  predicate DotShown(online: set<UserId>, id: UserId) {
    id in online
  }

  /** Presence events change the status of that contact only. */
  lemma PresenceChangesOneStatus(online: set<UserId>, u: UserId, v: UserId)
    ensures StatusText(online + {u}, u) == "Online"
    ensures StatusText(online - {u}, u) == "Offline"
    ensures v != u ==> StatusText(online + {u}, v) == StatusText(online, v)
    ensures v != u ==> StatusText(online - {u}, v) == StatusText(online, v)
  {
  }
}
