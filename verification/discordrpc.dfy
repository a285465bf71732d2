/** The two things the extension exchanges with the native Discord RPC library:
    the RichPresence record and the calls made on the client. */
module DiscordRpc {
  import opened Wrappers

  /** The fields of DiscordRPC.RichPresence that the extension sets. A string left
      unset is null (None); an unset timestamp is 0. */
  datatype RichPresence = RichPresence(
    state: Option<string>,
    details: Option<string>,
    startTimestamp: int,
    largeImageKey: Option<string>,
    largeImageText: Option<string>,
    smallImageKey: Option<string>,
    smallImageText: Option<string>)

  /** `new DiscordRPC.RichPresence()`: every field at its default. */
  const Blank: RichPresence := RichPresence(None, None, 0, None, None, None, None)

  /** A call into the client: DiscordController.Initialize (which calls
      DiscordRPC.Initialize), DiscordRPC.UpdatePresence and DiscordRPC.Shutdown. */
  datatype ClientCall = Init | Update(presence: RichPresence) | Shutdown
}
