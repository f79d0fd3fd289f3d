/**
 * The message bar: the draft text, emoji insertion, sending the draft over the socket and
 * sending an attachment after uploading it.
 */
module MessageBar {
  import opened Common
  import Text
  import ChatSlice
  import MessageContainer

  /** The two socket events the bar emits, with their payloads (`None` for an undefined field). */
  datatype Emit =
    | SendMessage(sender: UserId, content: Option<string>, recipient: UserId, messageType: ChatSlice.MessageType, fileUrl: Option<string>)
    | SendChannelMessage(sender: UserId, content: Option<string>, messageType: ChatSlice.MessageType, fileUrl: Option<string>, channelId: ChannelId)

  /** The outcome of the upload request: rejected, or resolved with a status and a body holding `filePath`. */
  datatype UploadResult = Rejected | Resolved(status: int, filePath: Option<string>)

  /** The event for a message of the given kind in the open chat; none without a chat type. */
  function Envelope(chatType: ChatSlice.ChatType, me: UserId, chatId: string, messageType: ChatSlice.MessageType,
                    content: Option<string>, fileUrl: Option<string>): (e: Option<Emit>)
    ensures e.None? <==> chatType == ChatSlice.NoChat
    ensures chatType == ChatSlice.ContactChat ==> e == Some(SendMessage(me, content, chatId, messageType, fileUrl))
    ensures chatType == ChatSlice.ChannelChat ==> e == Some(SendChannelMessage(me, content, messageType, fileUrl, chatId))
  {
    match chatType
    case NoChat => None
    case ContactChat => Some(SendMessage(me, content, chatId, messageType, fileUrl))
    case ChannelChat => Some(SendChannelMessage(me, content, messageType, fileUrl, chatId))
  }

  /** The content of an emitted event. */
  function ContentOf(e: Emit): Option<string> {
    match e
    case SendMessage(_, content, _, _, _) => content
    case SendChannelMessage(_, content, _, _, _) => content
  }

  class Bar {
    const store: ChatSlice.ChatStore
    /** The draft in the input. */
    var message: string

    constructor (s: ChatSlice.ChatStore)
      ensures store == s && message == ""
    {
      store := s;
      message := "";
    }

    /** `handleAddEmoji`: the emoji is appended to the draft. */
    method HandleAddEmoji(emoji: string)
      modifies this
      ensures message == old(message) + emoji
      ensures |message| == |old(message)| + |emoji| && message[..|old(message)|] == old(message)
    {
      message := message + emoji;
    }

    /**
     * `handleSendMessage`: a blank draft sends nothing and stays. Otherwise the trimmed draft
     * is emitted as a text message to the open chat and the draft is cleared; `threw` when no
     * user is signed in or no chat is open, and then the draft stays.
     */
    method HandleSendMessage() returns (emitted: Option<Emit>, threw: bool)
      modifies this
      ensures Text.IsBlank(old(message)) ==> emitted.None? && !threw && message == old(message)
      ensures threw ==> emitted.None? && message == old(message)
      ensures !Text.IsBlank(old(message)) && store.selectedChatType != ChatSlice.NoChat ==>
        (threw <==> store.userInfo.None? || store.selectedChatData.None?)
      ensures !Text.IsBlank(old(message)) && !threw ==>
        && message == ""
        && (store.selectedChatType == ChatSlice.NoChat ==> emitted.None?)
        && (store.selectedChatType != ChatSlice.NoChat ==>
              emitted == Envelope(store.selectedChatType, store.userInfo.value.id,
                                  MessageContainer.ChatId(store.selectedChatData.value),
                                  ChatSlice.TextMessage, Some(Text.Trim(old(message))), None))
      ensures emitted.Some? ==> ContentOf(emitted.value) == Some(Text.Trim(old(message))) && Text.Trim(old(message)) != []
    {
      if Text.IsBlank(message) {
        return None, false;
      }
      if store.selectedChatType != ChatSlice.NoChat {
        if store.userInfo.None? || store.selectedChatData.None? {
          return None, true;
        }
        emitted := Envelope(store.selectedChatType, store.userInfo.value.id,
                            MessageContainer.ChatId(store.selectedChatData.value),
                            ChatSlice.TextMessage, Some(Text.Trim(message)), None);
      } else {
        emitted := None;
      }
      threw := false;
      message := "";
    }

    /**
     * `handleAttachmentChange`: without a file nothing happens. Otherwise the upload flag is
     * raised; a 200 response with a body clears it and, in a contact chat, emits the file
     * message. In a channel chat the file message is emitted whenever the request resolved
     * with a body, whatever its status. A rejected request, or reading a missing body, user
     * or chat, clears the flag and emits nothing.
     */
    method HandleAttachmentChange(file: bool, upload: UploadResult) returns (emitted: Option<Emit>)
      modifies store
      ensures !file ==> emitted.None? && store.Snapshot() == old(store.Snapshot())
      ensures store.Snapshot() == old(store.Snapshot()).(isUploading := store.isUploading)
      ensures file && upload.Rejected? ==> emitted.None? && !store.isUploading
      ensures file && upload.Resolved? && upload.status == 200 && upload.filePath.Some? ==> !store.isUploading
      ensures (file && upload.Resolved? && !(upload.status == 200 && upload.filePath.Some?)
               && store.selectedChatType != ChatSlice.ChannelChat) ==> emitted.None? && store.isUploading
      ensures (file && upload.Resolved? && upload.status != 200 && upload.filePath.Some?
               && store.selectedChatType == ChatSlice.ChannelChat) ==>
          (store.isUploading <==> store.userInfo.Some? && store.selectedChatData.Some?)
      ensures file && upload.Resolved? && upload.filePath.None? && store.selectedChatType == ChatSlice.ChannelChat ==>
        emitted.None? && !store.isUploading
      ensures emitted.Some? ==>
        && upload.Resolved? && upload.filePath.Some? && store.userInfo.Some? && store.selectedChatData.Some?
        && emitted == Envelope(store.selectedChatType, store.userInfo.value.id,
                               MessageContainer.ChatId(store.selectedChatData.value),
                               ChatSlice.FileMessage, None, upload.filePath)
      ensures file && upload.Resolved? && upload.filePath.Some? && store.userInfo.Some? && store.selectedChatData.Some? ==>
        (emitted.Some? <==> store.selectedChatType == ChatSlice.ChannelChat
                            || (store.selectedChatType == ChatSlice.ContactChat && upload.status == 200))
    {
      emitted := None;
      if !file {
        return;
      }
      store.SetIsUploading(true);
      match upload
      case Rejected =>
        store.SetIsUploading(false);
      case Resolved(status, filePath) =>
        if status == 200 && filePath.Some? {
          store.SetIsUploading(false);
          if store.selectedChatType == ChatSlice.ContactChat {
            if store.userInfo.None? || store.selectedChatData.None? {
              store.SetIsUploading(false);
              return;
            }
            emitted := Envelope(store.selectedChatType, store.userInfo.value.id,
                                MessageContainer.ChatId(store.selectedChatData.value),
                                ChatSlice.FileMessage, None, filePath);
          }
        }
        if store.selectedChatType == ChatSlice.ChannelChat {
          if filePath.None? || store.userInfo.None? || store.selectedChatData.None? {
            store.SetIsUploading(false);
            return;
          }
          emitted := Envelope(store.selectedChatType, store.userInfo.value.id,
                              MessageContainer.ChatId(store.selectedChatData.value),
                              ChatSlice.FileMessage, None, filePath);
        }
    }
  }
}
