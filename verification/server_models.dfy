/** The documents the server handlers read and write, and the shape of their replies. */
module ServerModels {
  import opened Common

  /** A channel document: its admin and the ordered lists of member and message ids. */
  datatype Channel = Channel(name: string, admin: UserId, members: seq<UserId>, messages: seq<MessageId>)

  /** A stored message; `recipient` is "" for a channel message. */
  datatype StoredMessage = StoredMessage(id: MessageId, sender: UserId, recipient: string, timestamp: int)

  function Time(m: StoredMessage): int {
    m.timestamp
  }

  /** A reply: a status with a JSON body (`res.status(..).json(..)`) or with text (`.send(..)`). */
  datatype Reply<T> = Json(status: nat, body: T) | Text(status: nat, text: string)

  /** One page of history, as both history handlers return it. */
  datatype HistoryPage = HistoryPage(messages: seq<StoredMessage>, hasMore: bool, currentPage: nat, totalMessages: nat)
}
