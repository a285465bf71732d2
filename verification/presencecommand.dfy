/** The menu commands (PresenceCommand.cs): six toggles, each flipping one
    setting and then saving the settings, and the status each reports when the
    menu is shown. */
module PresenceCommand {
  import opened Wrappers
  import opened Configuration
  import opened DiscordRpc

  const DisplayFileNameId: int := 0x1021
  const DisplaySolutionNameId: int := 0x1022
  const DisplayTimestampId: int := 0x1023
  const ResetTimestampId: int := 0x1024
  const ToggleImagePositionId: int := 0x1025
  const TogglePresenceId: int := 0x1026

  datatype Command =
    | ToggleFileName
    | ToggleSolutionName
    | ToggleTimestamp
    | ToggleTimestampReset
    | ToggleImagePosition
    | TogglePresence

  /** The command ID each command is registered under. */
  function Id(c: Command): int {
    match c
    case ToggleFileName => DisplayFileNameId
    case ToggleSolutionName => DisplaySolutionNameId
    case ToggleTimestamp => DisplayTimestampId
    case ToggleTimestampReset => ResetTimestampId
    case ToggleImagePosition => ToggleImagePositionId
    case TogglePresence => TogglePresenceId
  }

  /** The setting each command's handler flips. */
  function FlagOf(c: Command): Flag {
    match c
    case ToggleFileName => DisplayFileName
    case ToggleSolutionName => DisplayProject
    case ToggleTimestamp => DisplayTimestamp
    case ToggleTimestampReset => ResetTimestamp
    case ToggleImagePosition => DisplayFileTypeAsLargeImage
    case TogglePresence => PresenceEnabled
  }

  /** The command registered under an ID, if any. Being the inverse of Id, it
      shows that the six IDs are pairwise distinct. */
  function CommandOf(id: int): (r: Option<Command>)
    ensures r.Some? ==> Id(r.value) == id
    ensures forall c :: Id(c) == id ==> r == Some(c)
  {
    if id == DisplayFileNameId then Some(ToggleFileName)
    else if id == DisplaySolutionNameId then Some(ToggleSolutionName)
    else if id == DisplayTimestampId then Some(ToggleTimestamp)
    else if id == ResetTimestampId then Some(ToggleTimestampReset)
    else if id == ToggleImagePositionId then Some(ToggleImagePosition)
    else if id == TogglePresenceId then Some(TogglePresence)
    else None
  }

  /** Commands are told apart by their IDs. */
  lemma IdsDistinct(c: Command, d: Command)
    requires c != d
    ensures Id(c) != Id(d)
  {
    assert CommandOf(Id(c)) == Some(c);
  }

  /** C#'s `^`. */
  function Xor(a: bool, b: bool): bool {
    a != b
  }

  /** GetSettingValue: the setting behind a command ID, false for any other ID. */
  function GetSettingValue(config: Config, commandId: int): (r: bool)
    ensures CommandOf(commandId).None? ==> !r
    ensures CommandOf(commandId).Some? ==> r == Get(config, FlagOf(CommandOf(commandId).value))
  {
    match commandId
    case 0x1021 => config.displayFileName
    case 0x1022 => config.displayProject
    case 0x1023 => config.displayTimestamp
    case 0x1024 => config.resetTimestamp
    case 0x1025 => config.displayFileTypeAsLargeImage
    case 0x1026 => config.presenceEnabled
    case _ => false
  }

  /** The toggle lambdas: each XORs its own setting with true. */
  function Toggle(config: Config, c: Command): (r: Config)
    ensures r == Set(config, FlagOf(c), !Get(config, FlagOf(c)))
    ensures Get(r, FlagOf(c)) == !Get(config, FlagOf(c))
    ensures forall f :: f != FlagOf(c) ==> Get(r, f) == Get(config, f)
  {
    match c
    case TogglePresence => config.(presenceEnabled := Xor(config.presenceEnabled, true))
    case ToggleFileName => config.(displayFileName := Xor(config.displayFileName, true))
    case ToggleSolutionName => config.(displayProject := Xor(config.displayProject, true))
    case ToggleTimestamp => config.(displayTimestamp := Xor(config.displayTimestamp, true))
    case ToggleTimestampReset => config.(resetTimestamp := Xor(config.resetTimestamp, true))
    case ToggleImagePosition =>
      config.(displayFileTypeAsLargeImage := Xor(config.displayFileTypeAsLargeImage, true))
  }

  /** Toggling twice gives back the settings one started from. */
  lemma {:induction false} ToggleTwice(config: Config, c: Command)
    ensures Toggle(Toggle(config, c), c) == config
  {
    match c
    case ToggleFileName =>
    case ToggleSolutionName =>
    case ToggleTimestamp =>
    case ToggleTimestampReset =>
    case ToggleImagePosition =>
    case TogglePresence =>
  }

  /** Seen through command IDs: a toggle changes the value reported for its own
      ID and no other. */
  lemma ToggleSeenThroughIds(config: Config, c: Command, id: int)
    ensures GetSettingValue(Toggle(config, c), id) ==
              if id == Id(c) then !GetSettingValue(config, id) else GetSettingValue(config, id)
  {
    match c
    case ToggleFileName =>
    case ToggleSolutionName =>
    case ToggleTimestamp =>
    case ToggleTimestampReset =>
    case ToggleImagePosition =>
    case TogglePresence =>
  }

  /** What executing a command leaves: the settings, the settings file and the
      client calls made. */
  datatype Executed = Executed(config: Config, store: Store, calls: seq<ClientCall>)

  /** DisableIfNeeded: shut the client down when presence is now off. */
  function DisableIfNeeded(config: Config): (calls: seq<ClientCall>)
    ensures calls == [] || calls == [Shutdown]
    ensures Shutdown in calls <==> !config.presenceEnabled
  {
    if !config.presenceEnabled then [Shutdown] else []
  }

  /** A command's invocation list: its toggle (with DisableIfNeeded for the
      presence command), then Config.Save. */
  function Execute(config: Config, c: Command): (r: Executed)
    ensures r.config == Toggle(config, c)
    ensures r.store == Some(r.config)
    ensures Shutdown in r.calls <==> c == TogglePresence && !r.config.presenceEnabled
    ensures r.calls == [] || r.calls == [Shutdown]
  {
    var config' := Toggle(config, c);
    var calls := if c == TogglePresence then DisableIfNeeded(config') else [];
    Executed(config', Save(config'), calls)
  }

  /** What the menu shows for a command, and the client calls its status
      handlers make. Commands other than the reset command never assign
      Visible, so they keep the menu command's default of visible. */
  datatype Status = Status(checked: bool, visible: bool, calls: seq<ClientCall>)

  /** The BeforeQueryStatus handlers: every command reports GetSettingValue of its
      ID as checked; the presence command, while presence is on, also starts the
      client and publishes the current presence; the reset command is visible only
      while timestamps are displayed. */
  function QueryStatus(config: Config, presence: RichPresence, c: Command): (r: Status)
    ensures r.checked == Get(config, FlagOf(c))
    ensures r.visible <==> c != ToggleTimestampReset || config.displayTimestamp
    ensures r.calls == if c == TogglePresence && config.presenceEnabled then [Init, Update(presence)] else []
  {
    var checked := GetSettingValue(config, Id(c));
    var visible := if c == ToggleTimestampReset then config.displayTimestamp else true;
    var calls := if c == TogglePresence && config.presenceEnabled then [Init, Update(presence)] else [];
    Status(checked, visible, calls)
  }

  /** After a command runs, the menu shows it checked exactly when its setting is
      now on, that is, when it was off before. */
  lemma CheckedAfterExecute(config: Config, presence: RichPresence, c: Command)
    ensures var after := Execute(config, c).config;
      QueryStatus(after, presence, c).checked == Get(after, FlagOf(c)) == !Get(config, FlagOf(c))
  {
  }
}
