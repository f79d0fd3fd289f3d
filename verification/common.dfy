/** Shared vocabulary: an optional value and the identifier types. */
module Common {

  /** A value that may be absent (JavaScript `undefined` / `null`). */
  datatype Option<+T> = None | Some(value: T)

  /** Document identifiers (Mongo ObjectIds as their string form). */
  type UserId = string
  type ChannelId = string
  type MessageId = string
}
