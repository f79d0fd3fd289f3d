/**
 * The client's chat store: the open chat, its loaded messages and pagination, the channel
 * list, the direct-message contact list, the set of online users and the upload/download
 * flags, with the setters and list updates the components call.
 */
module ChatSlice {
  import opened Common
  import ListOps

  datatype UserInfo = UserInfo(id: UserId, email: string, firstName: string, lastName: string)

  datatype ChannelInfo = ChannelInfo(id: ChannelId, name: string, admin: UserInfo, members: seq<UserInfo>)

  /** A message's sender or recipient as it arrives: a populated user, a bare id, or undefined. */
  datatype Ref = Populated(user: UserInfo) | IdOnly(id: UserId) | Undefined

  datatype MessageType = TextMessage | FileMessage

  datatype Message = Message(
    id: MessageId,
    sender: Ref,
    recipient: Ref,
    channelId: Option<ChannelId>,
    messageType: MessageType,
    content: string,
    fileUrl: string,
    timestamp: int)

  /** `selectedChatType`: undefined, "contact" or "channel". */
  datatype ChatType = NoChat | ContactChat | ChannelChat

  datatype ChatData = Contact(contact: UserInfo) | Group(channel: ChannelInfo)

  datatype Pagination = Pagination(hasMore: bool, currentPage: int, isLoadingMore: bool, totalMessages: int)

  const InitialPagination := Pagination(true, 1, false, 0)

  /** Every key of the store, plus the signed-in user that the auth part of the store holds. */
  datatype StoreState = StoreState(
    selectedChatType: ChatType,
    selectedChatData: Option<ChatData>,
    selectedChatMessages: seq<Message>,
    directMessagesContacts: seq<UserInfo>,
    isUploading: bool,
    isDownloading: bool,
    fileUploadProgress: int,
    fileDownloadProgress: int,
    channels: seq<ChannelInfo>,
    onlineUsers: set<UserId>,
    messagesPagination: Pagination,
    isNewMessage: bool,
    userInfo: Option<UserInfo>)

  function ChannelKey(c: ChannelInfo): ChannelId { c.id }

  function ContactKey(u: UserInfo): UserId { u.id }

  /** No chat is open: the state the store starts in and the one `closeChat` returns to. */
  predicate NoChatOpen(st: StoreState) {
    && st.selectedChatType == NoChat
    && st.selectedChatData == None
    && st.selectedChatMessages == []
    && st.messagesPagination == InitialPagination
    && !st.isNewMessage
  }

  /** The store as created, for a given signed-in user. */
  function Initial(user: Option<UserInfo>): (st: StoreState)
    ensures NoChatOpen(st) && st.userInfo == user
    ensures st.channels == [] && st.directMessagesContacts == [] && st.onlineUsers == {}
    ensures !st.isUploading && !st.isDownloading
  {
    StoreState(NoChat, None, [], [], false, false, 0, 0, [], {}, InitialPagination, false, user)
  }

  /**
   * The entry `addMessage` appends: unchanged in a channel chat; otherwise `recipient._id`
   * replaces the recipient, which throws when the recipient is undefined and yields undefined
   * when it is already a bare id.
   */
  function Appended(m: Message, chatType: ChatType): (r: Option<Message>)
    ensures r.None? <==> chatType != ChannelChat && m.recipient.Undefined?
    ensures chatType == ChannelChat ==> r == Some(m)
    ensures r.Some? ==> r.value.(recipient := m.recipient) == m
    ensures r.Some? && chatType != ChannelChat ==>
      (m.recipient.Populated? ==> r.value.recipient == IdOnly(m.recipient.user.id))
      && (m.recipient.IdOnly? ==> r.value.recipient == Undefined)
  {
    if chatType == ChannelChat then Some(m)
    else
      match m.recipient
      case Populated(u) => Some(m.(recipient := IdOnly(u.id)))
      case IdOnly(_) => Some(m.(recipient := Undefined))
      case Undefined => None
  }

  /** The other party of a direct message, seen from the signed-in user `me`. */
  function Counterpart(me: UserId, sender: UserInfo, recipient: UserInfo): (u: UserInfo)
    ensures u == sender || u == recipient
    ensures sender.id == me ==> u == recipient
    ensures sender.id != me ==> u == sender
  {
    if sender.id == me then recipient else sender
  }

  /**
   * `addContactsInDMContacts` on the list: a known contact (matched by id) moves to the
   * front as it was stored, an unknown one is put in front.
   */
  function PromotedContacts(dms: seq<UserInfo>, from: UserInfo): (r: seq<UserInfo>)
    ensures |r| > 0 && r[0].id == from.id
    ensures ListOps.FindIndex(dms, ContactKey, from.id) == -1 ==> r == [from] + dms
    ensures ListOps.FindIndex(dms, ContactKey, from.id) != -1 ==> multiset(r) == multiset(dms)
    ensures ListOps.DistinctKeys(dms, ContactKey) ==> ListOps.DistinctKeys(r, ContactKey)
  {
    if ListOps.FindIndex(dms, ContactKey, from.id) == -1 then
      assert ListOps.DistinctKeys(dms, ContactKey) ==> ListOps.DistinctKeys([from] + dms, ContactKey) by {
        if ListOps.DistinctKeys(dms, ContactKey) {
          ListOps.PrependDistinctKeys(dms, ContactKey, from);
        }
      }
      [from] + dms
    else
      assert ListOps.DistinctKeys(dms, ContactKey) ==>
        ListOps.DistinctKeys(ListOps.MoveToFront(dms, ContactKey, from.id), ContactKey) by {
        if ListOps.DistinctKeys(dms, ContactKey) {
          ListOps.MoveToFrontDistinctKeys(dms, ContactKey, from.id);
        }
      }
      ListOps.MoveToFront(dms, ContactKey, from.id)
  }

  /** A second message from the same contact leaves the list as the first one left it. */
  lemma PromotedContactsIdempotent(dms: seq<UserInfo>, from: UserInfo)
    ensures PromotedContacts(PromotedContacts(dms, from), from) == PromotedContacts(dms, from)
  {
    var r := PromotedContacts(dms, from);
    assert ListOps.FindIndex(r, ContactKey, from.id) == 0;
    if ListOps.FindIndex(dms, ContactKey, from.id) != -1 {
      ListOps.MoveToFrontIdempotent(dms, ContactKey, from.id);
    } else {
      assert ListOps.MoveToFront(r, ContactKey, from.id) == [r[0]] + r[1..];
    }
  }

  /** `addChannelInChannelList` on the list: the channel the message belongs to moves to the front. */
  function PromotedChannels(cs: seq<ChannelInfo>, channelId: Option<ChannelId>): (r: seq<ChannelInfo>)
    ensures multiset(r) == multiset(cs)
    ensures channelId.None? || ListOps.FindIndex(cs, ChannelKey, channelId.value) == -1 ==> r == cs
    ensures channelId.Some? && ListOps.FindIndex(cs, ChannelKey, channelId.value) != -1 ==>
      var i := ListOps.FindIndex(cs, ChannelKey, channelId.value);
      r[0] == cs[i] && r[0].id == channelId.value && r[1..] == cs[..i] + cs[i + 1..]
    ensures ListOps.DistinctKeys(cs, ChannelKey) ==> ListOps.DistinctKeys(r, ChannelKey)
  {
    match channelId
    case None => cs
    case Some(id) =>
      assert ListOps.DistinctKeys(cs, ChannelKey) ==>
        ListOps.DistinctKeys(ListOps.MoveToFront(cs, ChannelKey, id), ChannelKey) by {
        if ListOps.DistinctKeys(cs, ChannelKey) {
          ListOps.MoveToFrontDistinctKeys(cs, ChannelKey, id);
        }
      }
      ListOps.MoveToFront(cs, ChannelKey, id)
  }

  /** `updateChannel` keeps the list's ids, so a list without duplicate ids stays so. */
  lemma UpdateChannelKeepsIds(cs: seq<ChannelInfo>, updated: ChannelInfo)
    requires ListOps.DistinctKeys(cs, ChannelKey)
    ensures ListOps.DistinctKeys(ListOps.ReplaceFirst(cs, ChannelKey, updated), ChannelKey)
    ensures forall i :: 0 <= i < |cs| ==> ListOps.ReplaceFirst(cs, ChannelKey, updated)[i].id == cs[i].id
  {
    ListOps.ReplaceFirstDistinctKeys(cs, ChannelKey, updated);
  }

  /** After `removeChannel` no channel with that id is left, and the ids stay distinct. */
  lemma RemoveChannelRemoves(cs: seq<ChannelInfo>, id: ChannelId)
    requires ListOps.DistinctKeys(cs, ChannelKey)
    ensures ListOps.FindIndex(ListOps.RemoveKey(cs, ChannelKey, id), ChannelKey, id) == -1
    ensures ListOps.DistinctKeys(ListOps.RemoveKey(cs, ChannelKey, id), ChannelKey)
  {
    ListOps.RemoveKeyDistinctKeys(cs, ChannelKey, id);
  }

  class ChatStore {
    var selectedChatType: ChatType
    var selectedChatData: Option<ChatData>
    var selectedChatMessages: seq<Message>
    var directMessagesContacts: seq<UserInfo>
    var isUploading: bool
    var isDownloading: bool
    var fileUploadProgress: int
    var fileDownloadProgress: int
    var channels: seq<ChannelInfo>
    var onlineUsers: set<UserId>
    var messagesPagination: Pagination
    var isNewMessage: bool
    var userInfo: Option<UserInfo>

    ghost function Snapshot(): StoreState
      reads this
    {
      StoreState(selectedChatType, selectedChatData, selectedChatMessages, directMessagesContacts,
        isUploading, isDownloading, fileUploadProgress, fileDownloadProgress, channels, onlineUsers,
        messagesPagination, isNewMessage, userInfo)
    }

    constructor (user: Option<UserInfo>)
      ensures Snapshot() == Initial(user)
    {
      selectedChatType := NoChat;
      selectedChatData := None;
      selectedChatMessages := [];
      directMessagesContacts := [];
      isUploading := false;
      isDownloading := false;
      fileUploadProgress := 0;
      fileDownloadProgress := 0;
      channels := [];
      onlineUsers := {};
      messagesPagination := InitialPagination;
      isNewMessage := false;
      userInfo := user;
    }

    method SetChannels(cs: seq<ChannelInfo>)
      modifies this
      ensures Snapshot() == old(Snapshot()).(channels := cs)
    {
      channels := cs;
    }

    method SetIsUploading(b: bool)
      modifies this
      ensures Snapshot() == old(Snapshot()).(isUploading := b)
    {
      isUploading := b;
    }

    method SetIsDownloading(b: bool)
      modifies this
      ensures Snapshot() == old(Snapshot()).(isDownloading := b)
    {
      isDownloading := b;
    }

    method SetFileUploadProgress(p: int)
      modifies this
      ensures Snapshot() == old(Snapshot()).(fileUploadProgress := p)
    {
      fileUploadProgress := p;
    }

    method SetFileDownloadProgress(p: int)
      modifies this
      ensures Snapshot() == old(Snapshot()).(fileDownloadProgress := p)
    {
      fileDownloadProgress := p;
    }

    /** `setOnlineUsers`: the set of the given ids. */
    method SetOnlineUsers(users: seq<UserId>)
      modifies this
      ensures Snapshot() == old(Snapshot()).(onlineUsers := set u | u in users)
    {
      onlineUsers := set u | u in users;
    }

    method AddOnlineUser(u: UserId)
      modifies this
      ensures Snapshot() == old(Snapshot()).(onlineUsers := old(onlineUsers) + {u})
      ensures u in onlineUsers
    {
      onlineUsers := onlineUsers + {u};
    }

    method RemoveOnlineUser(u: UserId)
      modifies this
      ensures Snapshot() == old(Snapshot()).(onlineUsers := old(onlineUsers) - {u})
      ensures u !in onlineUsers
    {
      onlineUsers := onlineUsers - {u};
    }

    method SetSelectedChatType(t: ChatType)
      modifies this
      ensures Snapshot() == old(Snapshot()).(selectedChatType := t)
    {
      selectedChatType := t;
    }

    method SetSelectedChatData(d: Option<ChatData>)
      modifies this
      ensures Snapshot() == old(Snapshot()).(selectedChatData := d)
    {
      selectedChatData := d;
    }

    method SetSelectedChatMessages(ms: seq<Message>)
      modifies this
      ensures Snapshot() == old(Snapshot()).(selectedChatMessages := ms)
    {
      selectedChatMessages := ms;
    }

    method SetDirectMessagesContacts(dms: seq<UserInfo>)
      modifies this
      ensures Snapshot() == old(Snapshot()).(directMessagesContacts := dms)
    {
      directMessagesContacts := dms;
    }

    method SetMessagesPagination(p: Pagination)
      modifies this
      ensures Snapshot() == old(Snapshot()).(messagesPagination := p)
    {
      messagesPagination := p;
    }

    /** `setIsLoadingMore`: only the loading flag of the pagination changes. */
    method SetIsLoadingMore(b: bool)
      modifies this
      ensures Snapshot() == old(Snapshot()).(messagesPagination := old(messagesPagination).(isLoadingMore := b))
    {
      messagesPagination := messagesPagination.(isLoadingMore := b);
    }

    /**
     * `loadMoreMessages`: an older page goes in front of the loaded messages, the pagination
     * takes the server's figures with loading finished, and the list is not flagged as new.
     */
    method LoadMoreMessages(older: seq<Message>, hasMore: bool, currentPage: int, totalMessages: int)
      modifies this
      ensures Snapshot() == old(Snapshot()).(
        selectedChatMessages := older + old(selectedChatMessages),
        messagesPagination := Pagination(hasMore, currentPage, false, totalMessages),
        isNewMessage := false)
      ensures selectedChatMessages[|older|..] == old(selectedChatMessages)
    {
      selectedChatMessages := older + selectedChatMessages;
      messagesPagination := Pagination(hasMore, currentPage, false, totalMessages);
      isNewMessage := false;
    }

    method SetIsNewMessage(b: bool)
      modifies this
      ensures Snapshot() == old(Snapshot()).(isNewMessage := b)
    {
      isNewMessage := b;
    }

    /** `addChannel`: the channel goes in front; a list without duplicate ids stays so when it is new. */
    method AddChannel(c: ChannelInfo)
      modifies this
      ensures Snapshot() == old(Snapshot()).(channels := [c] + old(channels))
      ensures ListOps.DistinctKeys(old(channels), ChannelKey) && ListOps.FindIndex(old(channels), ChannelKey, c.id) == -1 ==>
        ListOps.DistinctKeys(channels, ChannelKey)
    {
      if ListOps.DistinctKeys(channels, ChannelKey) && ListOps.FindIndex(channels, ChannelKey, c.id) == -1 {
        ListOps.PrependDistinctKeys(channels, ChannelKey, c);
      }
      channels := [c] + channels;
    }

    /** `updateChannel`: the first channel with the same id is replaced in place; nothing happens without one. */
    method UpdateChannel(updated: ChannelInfo)
      modifies this
      ensures Snapshot() == old(Snapshot()).(channels := ListOps.ReplaceFirst(old(channels), ChannelKey, updated))
      ensures ListOps.DistinctKeys(old(channels), ChannelKey) ==> ListOps.DistinctKeys(channels, ChannelKey)
    {
      if ListOps.DistinctKeys(channels, ChannelKey) {
        UpdateChannelKeepsIds(channels, updated);
      }
      channels := ListOps.ReplaceFirst(channels, ChannelKey, updated);
    }

    /** `removeChannel`: every channel with the id is filtered out. */
    method RemoveChannel(id: ChannelId)
      modifies this
      ensures Snapshot() == old(Snapshot()).(channels := ListOps.RemoveKey(old(channels), ChannelKey, id))
      ensures ListOps.FindIndex(channels, ChannelKey, id) == -1
    {
      channels := ListOps.RemoveKey(channels, ChannelKey, id);
    }

    /** `closeChat`: back to no open chat; lists, flags and online users are kept. */
    method CloseChat()
      modifies this
      ensures Snapshot() == old(Snapshot()).(
        selectedChatType := NoChat,
        selectedChatData := None,
        selectedChatMessages := [],
        messagesPagination := InitialPagination,
        isNewMessage := false)
      ensures NoChatOpen(Snapshot())
    {
      selectedChatType := NoChat;
      selectedChatData := None;
      selectedChatMessages := [];
      messagesPagination := InitialPagination;
      isNewMessage := false;
    }

    /**
     * `addMessage`: the entry goes after the loaded messages and the list is flagged as new;
     * `threw` when the recipient projection fails, and then nothing changes.
     */
    method AddMessage(m: Message) returns (threw: bool)
      modifies this
      ensures threw <==> Appended(m, old(selectedChatType)).None?
      ensures threw ==> Snapshot() == old(Snapshot())
      ensures !threw ==> Snapshot() == old(Snapshot()).(
        selectedChatMessages := old(selectedChatMessages) + [Appended(m, old(selectedChatType)).value],
        isNewMessage := true)
    {
      var entry := Appended(m, selectedChatType);
      if entry.None? {
        return true;
      }
      selectedChatMessages := selectedChatMessages + [entry.value];
      isNewMessage := true;
      return false;
    }

    /** `addChannelInChannelList`: the message's channel moves to the front of the list. */
    method AddChannelInChannelList(m: Message)
      modifies this
      ensures Snapshot() == old(Snapshot()).(channels := PromotedChannels(old(channels), m.channelId))
    {
      channels := PromotedChannels(channels, m.channelId);
    }

    /**
     * `addContactsInDMContacts`: the other party of the message becomes the first contact;
     * `threw` without a signed-in user, and then nothing changes.
     */
    method AddContactsInDMContacts(sender: UserInfo, recipient: UserInfo) returns (threw: bool)
      modifies this
      ensures threw <==> old(userInfo).None?
      ensures threw ==> Snapshot() == old(Snapshot())
      ensures !threw ==> Snapshot() == old(Snapshot()).(directMessagesContacts :=
        PromotedContacts(old(directMessagesContacts), Counterpart(old(userInfo).value.id, sender, recipient)))
    {
      if userInfo.None? {
        return true;
      }
      var from := Counterpart(userInfo.value.id, sender, recipient);
      directMessagesContacts := PromotedContacts(directMessagesContacts, from);
      return false;
    }
  }
}
