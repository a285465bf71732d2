# Discord Rich Presence for Visual Studio — a Dafny model of the presence core

The extension shows, in Discord, what a developer is doing in Visual Studio.
Whenever a window is activated it rebuilds a Rich Presence record — the
language image and the Visual Studio image (in either size role), the file
name, "Developing <solution>", and a start timestamp that is either held from
the first switch or reset on each switch — and publishes it to the Discord
client if presence is enabled. Six menu commands flip the six settings and save
them; turning presence off shuts the client down. The settings are loaded at
start-up, or created with defaults when no settings file exists.

This project models that core as pure functions over immutable values:

- `PathNames` — the parts of .NET's `Path` the handler uses (`GetFileName`,
  `GetExtension`, `GetFileNameWithoutExtension`) on Windows separators.
- `Configuration` — the settings record, its defaults and the load-or-create
  rule, with the settings file as a store holding nothing or one record.
- `DiscordRpc` — the `RichPresence` record and the client calls (`Init`,
  `Update(p)`, `Shutdown`), which every step returns as a trace.
- `RpcPackage` — the `Languages` table, `OnWindowSwitch`, `Initialize` and
  `QueryClose` of the package.
- `PresenceCommand` — command IDs, `GetSettingValue`, the toggles, saving,
  `DisableIfNeeded` and the menu status handlers.
- `WorkedExample` — two consecutive concrete window switches.
- `Session` — the package state driven by a sequence of callbacks, with the
  properties that hold over whole sessions.

Behaviours of the code a reader might not expect:

- Turning presence back on does not start or publish anything by itself. The
  client is started again only when the presence command's status is queried.
- Toggling an appearance setting only saves the settings. The presence is
  rebuilt at the next window switch.
- The timestamp state is never reset, not even when presence is turned off and
  on again.
- The client has no ready, closed or error state. The callbacks only write to
  the console.
- With timestamps hidden, `startTimestamp` is the record's default 0, not null.
- `DisplayFileTypeAsLargeImage` is used by the package and by the commands, but
  the settings record does not declare it. It is modelled as a sixth flag, and
  its default is a parameter (`largeDefault`).
- `DiscordController` declares its presence field as `Presence`, but the package
  and the commands use `presence`. The model has one current presence.

## Model

| member | source | states |
|---|---|---|
| `PathNames.FileName` | discord-rpc-vs/DiscordRPCVSPackage.cs:173 | The file name is the suffix of the path after its last separator: a suffix, free of separators, and either the whole path or preceded by a separator |
| `PathNames.Extension` | discord-rpc-vs/DiscordRPCVSPackage.cs:146 | The extension is a separator-free suffix of the path, empty or a '.' and at least one more character; the backward scan agrees with reading the last segment from its last '.', giving "" when there is none or it ends the path |
| `PathNames.FileNameWithoutExtension` | discord-rpc-vs/DiscordRPCVSPackage.cs:176 | The solution's name is a prefix of its file name, free of separators, cut exactly at a '.' when the file name has one |
| `PathNames.ScanWithinSegment` | discord-rpc-vs/DiscordRPCVSPackage.cs:142-147 | The backward scan from any position sees the extension of the last path segment before it |
| `PathNames.FileNameSplitsAtExtension` | discord-rpc-vs/DiscordRPCVSPackage.cs:176 | When there is an extension, name-without-extension followed by the extension is the file name |
| `PathNames.NoExtensionExamples` | discord-rpc-vs/DiscordRPCVSPackage.cs:142-147 | A name with no '.' and a name ending in '.' both have the empty extension |
| `RpcPackage.AddAll` | discord-rpc-vs/DiscordRPCVSPackage.cs:75-89 | A dictionary initializer succeeds exactly when its keys are distinct and new; the result then holds the old pairs and every entry's pair |
| `RpcPackage.LanguagesConstructed` | discord-rpc-vs/DiscordRPCVSPackage.cs:75-89 | Building the Languages dictionary does not throw: its twelve extensions are pairwise distinct |
| `RpcPackage.LanguagesHoldEntries` | discord-rpc-vs/DiscordRPCVSPackage.cs:75-89 | The extension-to-image map holds exactly the initializer's twelve pairs |
| `RpcPackage.LanguagesBuilt` | discord-rpc-vs/DiscordRPCVSPackage.cs:75-89 | Adding the twelve initializer pairs to an empty dictionary gives exactly the map the image lookup reads |
| `RpcPackage.LanguageImageMapped` | discord-rpc-vs/DiscordRPCVSPackage.cs:154-155 | A listed extension yields its language's image key, with the caption equal to the key |
| `RpcPackage.LanguageImageUnmapped` | discord-rpc-vs/DiscordRPCVSPackage.cs:166-167 | Any unlisted extension, the empty one included, yields "smallvs" with an empty caption |
| `RpcPackage.LanguageImageExamples` | discord-rpc-vs/DiscordRPCVSPackage.cs:84-87 | `.c` and `.h` both give "clang", `.go` gives "go", no document (extension "") gives the fallback, and the case-sensitive lookup sends `.CS` to the fallback |
| `RpcPackage.WithImages` | discord-rpc-vs/DiscordRPCVSPackage.cs:150-169 | The language image is large and Visual Studio small when the flag is on, the roles exchanged when off; details, state and timestamp stay at their defaults |
| `RpcPackage.WithText` | discord-rpc-vs/DiscordRPCVSPackage.cs:171-176 | details is set, to the document's file name, iff file names are shown and a document is open; state is "Developing " and the solution's name without extension iff projects are shown and a solution exists; nothing else changes |
| `RpcPackage.WithTimestamp` | discord-rpc-vs/DiscordRPCVSPackage.cs:178-191 | The two-step timestamp code equals the policy: 0 when hidden, now on reset or first capture, else the captured instant; the state is captured once and then kept |
| `RpcPackage.OnWindowSwitch` | discord-rpc-vs/DiscordRPCVSPackage.cs:139-195 | A switch builds a fresh presence: images by role; details iff file name shown and a document is open; state iff project shown and a solution exists; the timestamp policy; an Update call iff presence is enabled |
| `RpcPackage.ImageRolesSwap` | discord-rpc-vs/DiscordRPCVSPackage.cs:150-169 | Flipping the image-position flag exchanges large and small images exactly and changes nothing else |
| `RpcPackage.HidingFileNameOnlyDropsDetails` | discord-rpc-vs/DiscordRPCVSPackage.cs:172-173 | With the file name hidden, the presence equals the one with it shown, except that details is unset |
| `RpcPackage.TimestampHeldSteady` | discord-rpc-vs/DiscordRPCVSPackage.cs:179-191 | With reset off, a first switch at t0 and a later one at t1 both show t0 |
| `RpcPackage.TimestampResetEachSwitch` | discord-rpc-vs/DiscordRPCVSPackage.cs:186-188 | With reset on, each switch shows its own instant while the captured instant stays the first |
| `WorkedExample.FirstSwitchExample` | discord-rpc-vs/DiscordRPCVSPackage.cs:139-195 | main.py in demo.sln with everything shown gives details "main.py", state "Developing demo", the python image and start t0, and is published |
| `WorkedExample.SecondSwitchExample` | discord-rpc-vs/DiscordRPCVSPackage.cs:139-195 | Continuing from the first switch's timestamp state, a later switch to util.go at t1 gives details "util.go", the unchanged state "Developing demo", the go image and start t0, keeps the stamp, and is published |
| `RpcPackage.Initialize` | discord-rpc-vs/DiscordRPCVSPackage.cs:113-128 | Start-up loads the settings (saved back), starts with no captured instant, and starts the client and publishes only when presence is enabled |
| `RpcPackage.QueryClose` | discord-rpc-vs/DiscordRPCVSPackage.cs:226-230 | Closing shuts the client down whatever the settings |
| `Configuration.Fresh` | discord-rpc-vs/Config/Configuration.cs:17-37 | A new settings record has all five declared flags true |
| `Configuration.Save` | discord-rpc-vs/Config/Configuration.cs:77-90 | After saving, the store holds exactly the saved record |
| `Configuration.Deserialize` | discord-rpc-vs/Config/Configuration.cs:43-72 | With no file the defaults are returned, with a file its record is returned unchanged, and either way the store then holds the returned record |
| `Configuration.DeserializeIdempotent` | discord-rpc-vs/Config/Configuration.cs:43-72 | Loading again from what a load left behind gives the same record and store |
| `PresenceCommand.CommandOf` | discord-rpc-vs/PresenceCommand.cs:17-22 | The ID lookup is the inverse of the command-to-ID assignment |
| `PresenceCommand.IdsDistinct` | discord-rpc-vs/PresenceCommand.cs:17-22 | The six command IDs are pairwise distinct |
| `PresenceCommand.GetSettingValue` | discord-rpc-vs/PresenceCommand.cs:108-120 | The value for a command's ID is the setting that command flips; any other ID gives false |
| `PresenceCommand.Toggle` | discord-rpc-vs/PresenceCommand.cs:56-78 | Each command negates its own setting and leaves the other five unchanged: the result is the settings with that one flag assigned its negation |
| `PresenceCommand.ToggleTwice` | discord-rpc-vs/PresenceCommand.cs:71-78 | Toggling twice restores the settings |
| `PresenceCommand.ToggleSeenThroughIds` | discord-rpc-vs/PresenceCommand.cs:108-120 | After a toggle, the reported value changes for that command's ID and for no other ID |
| `PresenceCommand.DisableIfNeeded` | discord-rpc-vs/PresenceCommand.cs:102-106 | Shutdown is called exactly when presence is off |
| `PresenceCommand.Execute` | discord-rpc-vs/PresenceCommand.cs:41-60 | A command toggles, then saves, so the store holds the new settings; it calls Shutdown iff it is the presence command and presence is now off |
| `PresenceCommand.QueryStatus` | discord-rpc-vs/PresenceCommand.cs:46-76 | The checked mark is the command's setting; the reset command is visible iff timestamps are shown; the presence query starts the client and publishes the current presence iff presence is on |
| `PresenceCommand.CheckedAfterExecute` | discord-rpc-vs/PresenceCommand.cs:46-50 | After a command runs, its checked mark equals the new setting, the negation of the old |
| `Session.Step` | discord-rpc-vs/PresenceCommand.cs:41-78 | Settings change only through commands; the file stays in sync; a captured instant stays; Init and Update happen only while enabled; Shutdown only on close or on turning presence off |
| `Session.RunKeepsStoreInSync` | discord-rpc-vs/PresenceCommand.cs:41-44 | Over any sequence of events, the settings file keeps holding the in-memory settings |
| `Session.SessionKeepsStoreInSync` | discord-rpc-vs/Config/Configuration.cs:43-72 | From any settings file, start-up followed by any events leaves file and memory in agreement |
| `Session.RunKeepsCapturedInstant` | discord-rpc-vs/DiscordRPCVSPackage.cs:58-63 | Once captured, the initial instant is never changed or released by any later events |
| `Session.RunWithoutCommandsKeepsConfig` | discord-rpc-vs/PresenceCommand.cs:56-78 | Events other than commands never change the settings |
| `Session.HeldAcrossSession` | discord-rpc-vs/DiscordRPCVSPackage.cs:179-191 | After the first shown switch at t0, any later switch with reset off shows t0, whatever happened between |
| `Session.SwitchIgnoresPreviousPresence` | discord-rpc-vs/DiscordRPCVSPackage.cs:150-169 | A switch's outcome does not depend on the presence shown before it; only the timestamp state carries over |
| `Session.CommandTwiceRestores` | discord-rpc-vs/PresenceCommand.cs:58 | Running a command twice restores the settings and saves them |
| `Session.PresenceOffAndOn` | discord-rpc-vs/PresenceCommand.cs:56-69 | Presence off shuts down; switches then publish nothing; turning it on publishes nothing; the next status query starts the client and publishes the last built presence |

## Left out

- The clock: `now` is an input, one value per window switch, where the handler reads the clock twice. The truncating 32-bit cast of the seconds count is not modelled.
- `GetExactPathName` asks the filesystem for a path's on-disk casing. The model keeps the path as given.
- Only the Windows path rules the handler needs are modelled. Invalid-character checks and null paths of .NET `Path` are not.
- JSON serialization, the settings file's location and directory creation. The file is a store of one record. Fields missing from a JSON file are not modelled.
- `DiscordController` and the native DiscordRPC library. Client calls are trace entries, and the callbacks only log.
- The four older command classes (`ToggleTimestampReset`, `ToggleProjectNameDisplay`, `ToggleTimestampDisplay`, `ToggleImagePosition`). They are never registered, and they duplicate commands modelled here.
- Package registration, DTE event subscription and menu-service lookup are host wiring. A window activation and a menu status query are events of the session.
- `RichPresence` fields the extension never sets (end timestamp, party and secrets) are not modelled.
