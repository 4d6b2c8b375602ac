/** The exceptions of the library (`DiscordException` and its subclasses)
    and the `IOException`s of the transport, as values. */
module Exceptions {

  /** An `IOException`, told apart by its cause. */
  datatype IOException = IOException(cause: string)

  /** `DiscordException` and its subclasses. */
  datatype DiscordException =
    | NoDiscord(message: string)                              // NoDiscordException
    | NotConnected(message: string)                           // NotConnectedException
    | PipeCloseFailed(cause: IOException)                     // DiscordException wrapping an IOException
}
