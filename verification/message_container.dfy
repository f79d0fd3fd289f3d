/**
 * The message pane: loading the first page of the open chat, loading older pages when the
 * pane is scrolled to the top (keeping the reader's position), when it jumps to the newest
 * message, where date separators go, and how file messages are shown.
 */
module MessageContainer {
  import opened Common
  import Text
  import ChatSlice
  import MessagesController
  import ServerModels

  const PageLimit := 20

  /** The two history requests: the direct-message POST and the channel GET. */
  datatype Request = ContactPage(peer: UserId, page: int, limit: int) | ChannelPage(channel: ChannelId, page: int, limit: int)

  /** What a history request yields: a failure (rejected promise) or the response body. */
  datatype PageResponse =
    | Failed
    | Answered(messages: Option<seq<ChatSlice.Message>>, hasMore: bool, currentPage: int, totalMessages: int)

  /** `selectedChatData._id`. */
  function ChatId(data: ChatSlice.ChatData): string {
    match data
    case Contact(u) => u.id
    case Group(c) => c.id
  }

  /** The request for `page` of the open chat, by the chat type; none without a chat type. */
  function PageRequest(chatType: ChatSlice.ChatType, data: ChatSlice.ChatData, page: int): (r: Option<Request>)
    ensures r.None? <==> chatType == ChatSlice.NoChat
    ensures chatType == ChatSlice.ContactChat ==> r == Some(ContactPage(ChatId(data), page, PageLimit))
    ensures chatType == ChatSlice.ChannelChat ==> r == Some(ChannelPage(ChatId(data), page, PageLimit))
  {
    match chatType
    case NoChat => None
    case ContactChat => Some(ContactPage(ChatId(data), page, PageLimit))
    case ChannelChat => Some(ChannelPage(ChatId(data), page, PageLimit))
  }

  /** The first-load effect asks for page 1 when the open chat has an id. */
  function InitialRequest(chatType: ChatSlice.ChatType, data: ChatSlice.ChatData): (r: Option<Request>)
    ensures r.Some? <==> ChatId(data) != "" && chatType != ChatSlice.NoChat
    ensures r.Some? ==> r.value.page == 1 && r.value.limit == PageLimit
    ensures r.Some? ==> (r.value.ContactPage? <==> chatType == ChatSlice.ContactChat)
  {
    if ChatId(data) == "" then None else PageRequest(chatType, data, 1)
  }

  /** The pagination record the pane stores after a page arrives. */
  function Settled(resp: PageResponse): ChatSlice.Pagination
    requires resp.Answered?
  {
    ChatSlice.Pagination(resp.hasMore, resp.currentPage, false, resp.totalMessages)
  }

  /**
   * The auto-scroll effect: jump to the newest message on the first load or a new message,
   * never while an older page is loading.
   */
  predicate ScrollsToBottom(isInitialLoad: bool, isNewMessage: bool, isLoadingMore: bool, isLoadingOlder: bool) {
    (isInitialLoad || isNewMessage) && !isLoadingMore && !isLoadingOlder
  }

  /** The test `handleScroll` makes before loading an older page. */
  predicate WantsOlder(scrollTop: int, p: ChatSlice.Pagination) {
    scrollTop <= 0 && p.hasMore && !p.isLoadingMore
  }

  class MessagePane {
    const store: ChatSlice.ChatStore
    var isInitialLoad: bool
    var isLoadingOlder: bool
    /** The scroll position and content height of the pane's scrolling element. */
    var scrollTop: int
    var scrollHeight: int

    constructor (s: ChatSlice.ChatStore)
      ensures store == s && isInitialLoad && !isLoadingOlder && scrollTop == 0 && scrollHeight == 0
    {
      store := s;
      isInitialLoad := true;
      isLoadingOlder := false;
      scrollTop := 0;
      scrollHeight := 0;
    }

    /** Whether the auto-scroll effect jumps to the newest message in the current state. */
    predicate AtBottomWanted()
      reads this, store
    {
      ScrollsToBottom(isInitialLoad, store.isNewMessage, store.messagesPagination.isLoadingMore, isLoadingOlder)
    }

    /**
     * The first-load effect for the open chat: with a request, the first-load flag is raised and
     * a response carrying messages replaces the loaded list and the pagination; a failure or a
     * body without messages changes nothing else. `threw` when no chat data is open.
     */
    method LoadInitial(resp: PageResponse) returns (req: Option<Request>, threw: bool)
      modifies this, store
      ensures threw <==> old(store.selectedChatData).None?
      ensures !threw ==> req == InitialRequest(old(store.selectedChatType), old(store.selectedChatData).value)
      ensures threw || req.None? ==> store.Snapshot() == old(store.Snapshot()) && isInitialLoad == old(isInitialLoad)
      ensures req.Some? ==> isInitialLoad
      ensures req.Some? && resp.Answered? && resp.messages.Some? ==>
        store.Snapshot() == old(store.Snapshot()).(selectedChatMessages := resp.messages.value, messagesPagination := Settled(resp))
      ensures req.Some? && !(resp.Answered? && resp.messages.Some?) ==> store.Snapshot() == old(store.Snapshot())
      ensures isLoadingOlder == old(isLoadingOlder) && scrollTop == old(scrollTop) && scrollHeight == old(scrollHeight)
    {
      if store.selectedChatData.None? {
        return None, true;
      }
      threw := false;
      req := InitialRequest(store.selectedChatType, store.selectedChatData.value);
      if req.Some? {
        isInitialLoad := true;
        if resp.Answered? && resp.messages.Some? {
          store.SetSelectedChatMessages(resp.messages.value);
          store.SetMessagesPagination(Settled(resp));
        }
      }
    }

    /**
     * `loadOlderMessages`: nothing while a page is loading or when no older page exists.
     * Otherwise the loading flags are raised and page `currentPage + 1` is requested; an
     * arriving page goes in front of the loaded messages and the pane is scrolled by the
     * height it added, so the message that was on top stays in view. A failure, including
     * reading the id of a missing chat under a contact or channel type, only clears the
     * store's loading flag. Without a chat type, or when the body has no messages, both
     * loading flags stay raised.
     */
    method LoadOlderMessages(resp: PageResponse, newScrollHeight: int) returns (req: Option<Request>)
      modifies this, store
      ensures var p := old(store.messagesPagination);
        p.isLoadingMore || !p.hasMore ==>
          req.None? && store.Snapshot() == old(store.Snapshot())
          && isInitialLoad == old(isInitialLoad) && isLoadingOlder == old(isLoadingOlder) && scrollTop == old(scrollTop)
      ensures var p := old(store.messagesPagination);
        !p.isLoadingMore && p.hasMore ==> !isInitialLoad
      ensures var p := old(store.messagesPagination);
        !p.isLoadingMore && p.hasMore && old(store.selectedChatData).Some? ==>
          req == PageRequest(old(store.selectedChatType), old(store.selectedChatData).value, p.currentPage + 1)
      ensures var p := old(store.messagesPagination);
        !p.isLoadingMore && p.hasMore && old(store.selectedChatType) == ChatSlice.NoChat ==>
          req.None? && store.Snapshot() == old(store.Snapshot()).(messagesPagination := p.(isLoadingMore := true))
          && isLoadingOlder && scrollTop == old(scrollTop)
      ensures var p := old(store.messagesPagination);
        !p.isLoadingMore && p.hasMore && old(store.selectedChatType) != ChatSlice.NoChat && old(store.selectedChatData).None? ==>
          req.None? && store.Snapshot() == old(store.Snapshot()) && isLoadingOlder && scrollTop == old(scrollTop)
      ensures req.Some? && resp.Answered? && resp.messages.Some? ==>
        && store.Snapshot() == old(store.Snapshot()).(
             selectedChatMessages := resp.messages.value + old(store.selectedChatMessages),
             messagesPagination := Settled(resp),
             isNewMessage := false)
        && scrollTop == newScrollHeight - old(scrollHeight)
        && !isLoadingOlder
      ensures req.Some? && resp.Answered? && resp.messages.None? ==>
        store.Snapshot() == old(store.Snapshot()).(messagesPagination := old(store.messagesPagination).(isLoadingMore := true))
        && isLoadingOlder && scrollTop == old(scrollTop)
      ensures req.Some? && resp.Failed? ==>
        store.Snapshot() == old(store.Snapshot()) && isLoadingOlder && scrollTop == old(scrollTop)
      ensures scrollHeight == if req.Some? && resp.Answered? && resp.messages.Some? then newScrollHeight else old(scrollHeight)
      ensures !old(store.messagesPagination.isLoadingMore) && old(store.messagesPagination.hasMore) ==> !AtBottomWanted()
    {
      if store.messagesPagination.isLoadingMore || !store.messagesPagination.hasMore {
        return None;
      }
      var previousScrollHeight := scrollHeight;
      store.SetIsLoadingMore(true);
      isInitialLoad := false;
      isLoadingOlder := true;
      var nextPage := store.messagesPagination.currentPage + 1;
      if store.selectedChatType == ChatSlice.NoChat {
        return None;
      }
      if store.selectedChatData.None? {
        // reading the id of a missing chat throws inside the try block
        store.SetIsLoadingMore(false);
        return None;
      }
      req := PageRequest(store.selectedChatType, store.selectedChatData.value, nextPage);
      match resp
      case Failed =>
        store.SetIsLoadingMore(false);
      case Answered(messages, _, _, _) =>
        if messages.Some? {
          store.LoadMoreMessages(messages.value, resp.hasMore, resp.currentPage, resp.totalMessages);
          scrollHeight := newScrollHeight;
          scrollTop := newScrollHeight - previousScrollHeight;
          isLoadingOlder := false;
        }
    }

    /**
     * `handleScroll`: an older page is loaded exactly when the pane is at the top and one may
     * be, with the outcome `loadOlderMessages` gives.
     */
    method HandleScroll(resp: PageResponse, newScrollHeight: int) returns (req: Option<Request>)
      modifies this, store
      ensures !WantsOlder(old(scrollTop), old(store.messagesPagination)) ==>
        req.None? && store.Snapshot() == old(store.Snapshot()) && isInitialLoad == old(isInitialLoad)
        && isLoadingOlder == old(isLoadingOlder) && scrollTop == old(scrollTop) && scrollHeight == old(scrollHeight)
      ensures WantsOlder(old(scrollTop), old(store.messagesPagination)) ==> !isInitialLoad && !AtBottomWanted()
      ensures WantsOlder(old(scrollTop), old(store.messagesPagination)) && old(store.selectedChatData).Some? ==>
        req == PageRequest(old(store.selectedChatType), old(store.selectedChatData).value, old(store.messagesPagination.currentPage) + 1)
      ensures var p := old(store.messagesPagination);
        WantsOlder(old(scrollTop), p) && old(store.selectedChatType) == ChatSlice.NoChat ==>
          req.None? && store.Snapshot() == old(store.Snapshot()).(messagesPagination := p.(isLoadingMore := true))
          && isLoadingOlder && scrollTop == old(scrollTop)
      ensures var p := old(store.messagesPagination);
        WantsOlder(old(scrollTop), p) && old(store.selectedChatType) != ChatSlice.NoChat && old(store.selectedChatData).None? ==>
          req.None? && store.Snapshot() == old(store.Snapshot()) && isLoadingOlder && scrollTop == old(scrollTop)
      ensures req.Some? && resp.Answered? && resp.messages.Some? ==>
        && store.Snapshot() == old(store.Snapshot()).(
             selectedChatMessages := resp.messages.value + old(store.selectedChatMessages),
             messagesPagination := Settled(resp),
             isNewMessage := false)
        && scrollTop == newScrollHeight - old(scrollHeight)
        && !isLoadingOlder
      ensures req.Some? && resp.Answered? && resp.messages.None? ==>
        store.Snapshot() == old(store.Snapshot()).(messagesPagination := old(store.messagesPagination).(isLoadingMore := true))
        && isLoadingOlder && scrollTop == old(scrollTop)
      ensures req.Some? && resp.Failed? ==>
        store.Snapshot() == old(store.Snapshot()) && isLoadingOlder && scrollTop == old(scrollTop)
      ensures scrollHeight == if req.Some? && resp.Answered? && resp.messages.Some? then newScrollHeight else old(scrollHeight)
    {
      if WantsOlder(scrollTop, store.messagesPagination) {
        req := LoadOlderMessages(resp, newScrollHeight);
      } else {
        req := None;
      }
    }
  }

  /** The extensions `checkIfImage` accepts, compared without regard to case. */
  const ImageExtensions: seq<string> :=
    ["jpg", "jpeg", "png", "gif", "bmp", "tiff", "tif", "webp", "svg", "ico", "heic", "heif"]

  function EndsWithAny(s: string, exts: seq<string>): (b: bool)
    ensures b <==> exists e :: e in exts && Text.HasSuffix(s, "." + e)
  {
    if exts == [] then false
    else Text.HasSuffix(s, "." + exts[0]) || EndsWithAny(s, exts[1..])
  }

  /** `checkIfImage`: the path ends in a dot and an image extension, in any letter case. */
  function IsImagePath(path: string): (b: bool)
    ensures b <==> exists e :: e in ImageExtensions && Text.HasSuffix(Text.Lower(path), "." + e)
  {
    EndsWithAny(Text.Lower(path), ImageExtensions)
  }

  lemma LowerIdempotent(s: string)
    ensures Text.Lower(Text.Lower(s)) == Text.Lower(s)
  {
    assert forall i :: 0 <= i < |s| ==> Text.LowerChar(Text.LowerChar(s[i])) == Text.LowerChar(s[i]);
  }

  /** Letter case does not matter: a path and its lower-cased form are judged alike. */
  lemma ImagePathIgnoresCase(path: string)
    ensures IsImagePath(Text.Lower(path)) == IsImagePath(path)
  {
    LowerIdempotent(path);
  }

  const NameLimit := 35
  const ShortName := 20

  /** The file name shown for a file message: the last path segment, cut to 20 characters and "..." when longer than 35. */
  function DisplayFileName(fileUrl: string): (r: string)
    ensures var name := Text.LastSegment(fileUrl);
      && |r| <= NameLimit
      && (|name| <= NameLimit ==> r == name)
      && (|name| > NameLimit ==> r == name[..ShortName] + "...")
  {
    var name := Text.LastSegment(fileUrl);
    if |name| > NameLimit then name[..ShortName] + "..." else name
  }

  /**
   * A file uploaded under a name without `/` is shown under its stored, sanitised name,
   * or that name cut short.
   */
  lemma UploadedNameShown(f: MessagesController.UploadedFile, date: nat)
    requires '/' !in f.originalName
    ensures var path := MessagesController.UploadFile(Some(f), date).body;
      var name := MessagesController.Sanitize(f.originalName);
      DisplayFileName(path) == if |name| <= NameLimit then name else name[..ShortName] + "..."
  {
  }

  /** A separator goes before the message at `i` when it starts a new calendar day. */
  ghost predicate StartsDay(days: seq<int>, i: int)
    requires 0 <= i < |days|
  {
    i == 0 || days[i] != days[i - 1]
  }

  /**
   * `renderMessages`: one pass over the messages' calendar days, remembering the last day
   * seen, marks where a date separator is drawn.
   */
  method DateSeparators(days: seq<int>) returns (show: seq<bool>)
    ensures |show| == |days|
    ensures forall i :: 0 <= i < |days| ==> (show[i] <==> StartsDay(days, i))
  {
    var lastDate: Option<int> := None;
    show := [];
    var i := 0;
    while i < |days|
      invariant 0 <= i <= |days| && |show| == i
      invariant lastDate == if i == 0 then None else Some(days[i - 1])
      invariant forall k :: 0 <= k < i ==> (show[k] <==> StartsDay(days, k))
    {
      var showDate := lastDate != Some(days[i]);
      lastDate := Some(days[i]);
      show := show + [showDate];
      i := i + 1;
    }
  }

  ghost predicate NonDecreasing(days: seq<int>) {
    forall a, b :: 0 <= a <= b < |days| ==> days[a] <= days[b]
  }

  /**
   * With the messages in time order, every day that occurs gets exactly one separator,
   * before its first message.
   */
  lemma {:induction false} OneSeparatorPerDay(days: seq<int>, d: int)
    requires NonDecreasing(days)
    requires d in days
    ensures exists i :: 0 <= i < |days| && days[i] == d && StartsDay(days, i)
    ensures forall i, j :: 0 <= i < j < |days| && days[i] == d && days[j] == d ==> !StartsDay(days, j)
  {
    var first :| 0 <= first < |days| && days[first] == d && forall k :: 0 <= k < first ==> days[k] != d by {
      var j :| 0 <= j < |days| && days[j] == d;
      FirstOccurrence(days, d, j);
    }
    assert StartsDay(days, first);
    forall i, j | 0 <= i < j < |days| && days[i] == d && days[j] == d ensures !StartsDay(days, j) {
      assert days[i] <= days[j - 1] <= days[j];
    }
  }

  lemma {:induction false} FirstOccurrence(days: seq<int>, d: int, j: int)
    requires 0 <= j < |days| && days[j] == d
    ensures exists f :: 0 <= f < |days| && days[f] == d && forall k :: 0 <= k < f ==> days[k] != d
    decreases j
  {
    if exists k :: 0 <= k < j && days[k] == d {
      var k :| 0 <= k < j && days[k] == d;
      FirstOccurrence(days, d, k);
    } else {
      assert forall k :: 0 <= k < j ==> days[k] != d;
    }
  }
}
