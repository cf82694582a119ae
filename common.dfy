/** Shared vocabulary: the optional-value wrapper and the identifier kinds the bot handles. */
module Common {

  /** A value that may be absent; stands for the source's `null` results. */
  datatype Option<T> = None | Some(value: T)

  type GuildId = string
  type ChannelId = string
  type MessageId = string
  type UserId = string
  type RoleId = string
  type EmojiId = string

  /** A point in time, kept as the ISO-8601 text that the webhook payload carries. */
  type IsoTime = string
}
