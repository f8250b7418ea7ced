# RetroFlow launcher and chat server, modelled in Dafny

RetroFlow is a terminal game launcher with an online chat. This project models
its core and proves properties about that model.

- **The launcher's command loop** (`retro_launcher.py`). Each line typed at
  the `C:\RETROFLOW>` prompt is stripped, lower-cased and split into a
  command word and its arguments, then dispatched.
- **The game catalogue** (`src/game_manager.py`). Games are found by walking
  the `Games` folder and every removable drive. Each game gets the emulator
  profile of its file extension. The games are sorted by name and numbered
  `"1"`, `"2"`, … for `play` and `info`.
- **`launch_game`** (`src/launcher.py`). It checks the game record, builds
  the emulator command line and spawns it.
- **The chat server's `ConnectionManager`** (`server.py`). It keeps four
  username-keyed dicts: connections, user records, ping tasks and typing
  timestamps. Broadcasts evict every user whose connection fails.
- **The `/ws` endpoint** (`server.py`). It handles the join, then chat,
  Flowey questions, typing, pong and leave frames, and finally removes the
  user.
- **The terminal client `OnlineChatClient`** (`src/online_chat.py`). It
  keeps the roster and the "is typing" line up to date from the frames it
  receives.

Modules, one per concern:

| Module | Contents |
|---|---|
| `Text` | Python's `strip`, `lower`, `replace`, `startswith`/`endswith`/`in`, and pathlib's `name`, `suffix` and `stem` |
| `Sorting` | `sorted(..., key=...)`: a stable insertion sort under Python's code-point string order |
| `Dicts` | Insertion-ordered dicts |
| `Wire` | JSON frames |
| `Registry` | The manager's dicts as a value, plus the pure functions that say how each operation changes them |
| `ChatServer` | The `ConnectionManager` class |
| `ChatEndpoint` | `websocket_endpoint` |
| `ChatClient` | The `OnlineChatClient` class |
| `Profiles` | `EMULATOR_PROFILES` |
| `GameManager` | Discovery, drives, numbering and the `Catalog` class holding the three module-level lists |
| `Launcher` | `launch_game` |
| `CommandLine` | The main loop |

The network is modelled as an outbox of deliveries. A connection whose
transport fails belongs to the set `broken`, and every send on it raises.
The clock is an integer count of seconds passed in by the caller. The file
system, psutil, `subprocess.Popen` and the Gemini call are parameters.

Behaviours of the code that the model keeps as written:

- The AI request type is `"flowey"`, and its answer is broadcast to everyone as a chat from `"Flowey"`.
- A frame that is not valid JSON ends the server session; it is not ignored.
- The client sends chat without a username. The server relays the frame verbatim, so receivers show it from `"???"` (`ChatClient.OnlineChatClient.HandleMessage`).
- When `join` is rejected because the name is taken, the endpoint's `finally` still calls `remove_connection` with that name. The user who already holds the name is evicted (`ChatEndpoint.Serve`).
- An empty username is falsy, so the `finally` does not remove it.
- `log` is offered for completion but has no branch, so it is reported as an unknown command.
- Only the first space splits a line, so `play  3` looks up `" 3"` and fails.
- If sending `join` raises, `connect` returns False, but the client keeps the socket and stays marked connected.
- If sending `leave` raises, the typing-cleanup task is not cancelled.
- Every line the client prints goes through prompt_toolkit's `HTML`, which raises on text that is not well-formed markup. Names and chat text are inserted unescaped, so a departed user whose name holds `<` or `&` stays on the typing line (`ChatClient.OnlineChatClient.HandleMessage`). In `connect` the same holds for the server URL and the user's own name: a URL that does not parse stops connect before it dials, and a name that does not parse makes connect return False after the join was sent and the client was marked connected, with no cleanup task started (`ChatClient.OnlineChatClient.Connect`).
- A user whose last pong is late is evicted at the first ping check that sees it. That check comes after a 15-second interval plus a 5-second timeout per round.

## Model

| member | source | states |
|---|---|---|
| Text.TrimStart | retro_launcher.py:71 | the result is a suffix of the input; everything dropped is whitespace; the result does not start with whitespace |
| Text.TrimEnd | retro_launcher.py:71 | the result is a prefix of the input; everything dropped is whitespace; the result does not end with whitespace |
| Text.StripSpec | src/online_chat.py:76 | `strip()` is empty exactly when the text is all whitespace; otherwise it starts and ends with a non-space |
| Text.StripIdempotent | retro_launcher.py:71 | stripping twice is stripping once |
| Text.Lower | retro_launcher.py:71 | `lower()` keeps the length and lowers each character on its own |
| Text.LowerIsLower | retro_launcher.py:71 | lowered text has no upper-case letter, and lowering is idempotent |
| Text.LowerStrip | retro_launcher.py:71 | lowering and stripping commute, so `strip().lower()` equals `lower().strip()` |
| Text.ContainsAt | src/game_manager.py:82 | Python's `in` on strings holds exactly when the pattern occurs at some index |
| Text.ReplaceAbsent | src/online_chat.py:26 | `replace` of a pattern that does not occur leaves the text unchanged |
| Text.ReplaceLeading | src/online_chat.py:26 | `replace` turns a leading occurrence of the pattern into the replacement and goes on after it |
| Text.LastIndexOf | src/game_manager.py:105 | the result is -1 or the index of the character, and no later index holds it |
| Text.BaseNameSpec | src/game_manager.py:105 | `Path.name` ends the path, is either the whole path or follows a `/`, and contains no `/` |
| Text.Suffix | src/game_manager.py:65 | `Path.suffix` is empty or a dot followed by no other dot |
| Text.StemSuffix | src/game_manager.py:70 | stem followed by suffix gives back the file name; without a suffix the stem is the whole name |
| Text.SuffixOf | src/game_manager.py:65 | a non-empty stem followed by a dot-led extension with no other dot splits back into that stem and that extension |
| Text.NatToString | src/game_manager.py:111 | `str(n)` is non-empty, all digits, and has no leading zero |
| Text.DecimalRoundTrip | src/game_manager.py:111 | reading `str(n)` back as a decimal gives n |
| Text.NatToStringInjective | src/game_manager.py:111 | different numbers get different keys |
| Sorting.BelowTotal | src/game_manager.py:113 | Python string order is total: of two different strings, one comes first |
| Sorting.BelowTransitive | src/game_manager.py:113 | Python string order is transitive |
| Sorting.BelowAsymmetric | src/game_manager.py:113 | no two strings come before each other |
| Sorting.SortBySorted | src/game_manager.py:75 | `sorted(..., key=name)` is ordered by key and is a permutation of its input |
| Sorting.SortByStable | src/game_manager.py:75 | the sort is stable: items with equal keys keep their input order |
| Dicts.PutSpec | server.py:44-49 | assigning a key keeps the dict well formed, keeps an existing key's place, appends a new one, and changes no other key |
| Dicts.RemoveAllSpec | server.py:55-58 | deleting keys keeps the dict well formed, removes exactly those keys and leaves every other entry unchanged |
| Dicts.RemoveAllTwice | server.py:53-58 | deleting keys in two rounds is deleting their union once |
| Dicts.RemoveAbsent | server.py:55-58 | deleting keys that are absent changes nothing |
| Dicts.DropDistinct | server.py:103-104 | the keys of a dict stay free of duplicates after deletions |
| Registry.Casualties | server.py:68-75 | a broadcast evicts either nobody or every connected user whose transport fails; nobody exactly when no such user exists other than the excluded one |
| Registry.CasualtiesCases | server.py:70-75 | the two cases of a broadcast's evictions, spelled out |
| Registry.CasualtiesNone | server.py:77-85 | a broadcast without an excluded user evicts every user whose transport fails |
| Registry.FanoutSpec | server.py:70-73 | with no failures, a broadcast writes to exactly the snapshot's users other than the excluded one, each over its own connection |
| Registry.FanoutSkipsExcluded | server.py:72 | the excluded user never receives the broadcast |
| Registry.EvictSpec | server.py:53-58 | disconnect keeps the registry coherent, removes the names from every dict, cancels their ping tasks and leaves everyone else's entries unchanged |
| Registry.EvictTwice | server.py:53-58 | disconnecting twice is disconnecting once, and two rounds of evictions evict their union |
| Registry.EvictAbsent | server.py:53-58 | disconnecting names that are neither connected nor typing changes nothing |
| Registry.EvictBroken | server.py:98-101 | once the users with failing transports are evicted, no connected user's transport fails |
| Registry.JoinedSpec | server.py:42-50 | connect stores the connection and a fresh record (last_pong = connected_at = now) under the name, and changes no other user's connection |
| Registry.JoinedSurvives | server.py:42-51 | a newcomer with a working transport is still connected, with its record, after the user_joined broadcast |
| Registry.WithTypingSpec | server.py:87-91 | after update_typing_status the name is typing exactly when the flag says so, stamped now; other names are untouched |
| Registry.TypingChangesOnce | server.py:92-96 | reporting typing twice changes the typing set only once; clearing a name that is not typing changes nothing, so nothing is broadcast |
| Registry.RemovalChain | server.py:98-101 | remove_connection's disconnect and two broadcasts together evict the name plus every user whose transport fails, and no one else |
| ChatServer.ConnectionManager.constructor | server.py:33-40 | the manager starts with no connections, users, ping tasks or typing users |
| ChatServer.ConnectionManager.GetUserList | server.py:103-104 | the roster lists every registered name once, in registration order |
| ChatServer.ConnectionManager.Disconnect | server.py:53-58 | the name is gone from all four dicts and its ping task is cancelled; other users are untouched; disconnecting an absent name is a no-op |
| ChatServer.ConnectionManager.Send | server.py:71-72 | a send over a working transport is delivered; one over a failing transport raises and delivers nothing |
| ChatServer.ConnectionManager.SendOrRemove | server.py:71-75 | a successful send changes no registry; a failed one evicts that user and every other failing one, and meanwhile only notices go out over working transports |
| ChatServer.ConnectionManager.Broadcast | server.py:68-75 | every user of the snapshot other than the excluded one, whose transport works, receives the message; nothing else goes out except eviction notices; the failing users are evicted unless the only one is the excluded user; with no failures the output is exactly the fan-out in snapshot order |
| ChatServer.ConnectionManager.SendAll | server.py:70-75 | the loop over the snapshot keeps the broadcast's progress invariant up to the end of the snapshot |
| ChatServer.ConnectionManager.BroadcastOne | server.py:71-75 | one pass of the loop keeps the broadcast's progress invariant |
| ChatServer.ConnectionManager.BroadcastUserEvent | server.py:77-79 | every connected user with a working transport gets the event with the roster as it was; all failing users are evicted |
| ChatServer.ConnectionManager.BroadcastTypingStatus | server.py:81-85 | every connected user with a working transport gets the list of typing names; all failing users are evicted |
| ChatServer.ConnectionManager.RemoveConnection | server.py:98-101 | the name and every user whose transport fails are evicted; every user who remains gets user_left with the roster minus the name, and after it the typing_status list; only notices go out |
| ChatServer.ConnectionManager.AnnounceDeparture | server.py:100-101 | the failing users are evicted; every user still connected got user_left with the roster as it was, and after it the typing_status list; only notices go out |
| ChatServer.RemovalNotices | server.py:98-101 | when user_left reached every connected working user and the failing ones were evicted before the typing roster went out, everyone left connected got user_left first and typing_status later, and only notices over working transports went out |
| ChatServer.ConnectionManager.Connect | server.py:42-51 | a new ping task is started; everyone gets user_joined with the roster including the newcomer; a newcomer with a working transport stays connected with record (name, now, now) |
| ChatServer.ConnectionManager.UpdateTypingStatus | server.py:87-96 | the flag is stored; a broadcast happens exactly when the typing set changed, and then reaches every connected user; otherwise nothing is sent |
| ChatServer.ConnectionManager.Pong | server.py:220-222 | a registered name's last_pong becomes now and nothing else changes; an unregistered name changes nothing |
| ChatServer.ConnectionManager.PingSend | server.py:108-113 | a ping task stops when it was cancelled or its user is gone; otherwise it pings, and a failed ping removes the user |
| ChatServer.ConnectionManager.PingCheck | server.py:114-119 | the task goes on exactly when it is not cancelled and the user is gone or ponged within the last 5 seconds; otherwise the user is removed |
| ChatServer.ConnectionManager.PeriodicPing | server.py:106-119 | a cancelled task, or one whose user is not connected, changes nothing; for a connected user the task sends one ping per round and runs exactly as many rounds as there are wake-ups before the first check that finds the last pong more than ping_timeout seconds old (none when the user's transport fails); if every check passes, only the user's last pong changes; otherwise the user and every user whose transport fails are evicted; a task that stops early is cancelled or its user is gone |
| ChatServer.ConnectionManager.PingRound | server.py:107-119 | one round: it goes on exactly when the transport works and the last pong, once the pongs of the wake-up arrived, is at most ping_timeout seconds old; then one ping is sent and only the last pong changes; otherwise the user and every user whose transport fails are evicted |
| ChatServer.ConnectionManager.TakePongs | server.py:220-222 | the pongs that arrive while the task sleeps stamp the user's last pong with the last arrival, and change nothing else; for a user not in the registry nothing changes |
| ChatServer.FirstStaleIs | server.py:116-117 | the number of rounds a task runs is n exactly when the checks of the first n wake-ups all pass and the next one, if any, fails |
| ChatServer.RanStep | server.py:107-119 | after rounds that all went on, one more round either extends that run or ends the task with the outcome `PeriodicPing` promises |
| ChatEndpoint.JoinName | server.py:201 | a join keeps its own username; without one the name is `User_` followed by the number of registered users plus one |
| ChatEndpoint.RelayNotEchoed | server.py:214 | a chat broadcast that excludes the sender, followed by a typing update, never sends the chat back to the sender |
| ChatEndpoint.Welcome | server.py:206-207 | the newcomer is sent the System welcome and the roster; it proceeds exactly when its transport works |
| ChatEndpoint.Admit | server.py:205-207 | a free name is connected, then sent the welcome and the roster as the last two frames |
| ChatEndpoint.Handshake | server.py:197-208 | only a join starts a session; a taken name gets only the error frame; a free name is connected and ends up with the welcome and the roster, and the session proceeds exactly when its transport works |
| ChatEndpoint.Relay | server.py:214-218 | the frame reaches every user of the snapshot other than the excluded one whose transport works, and the sender is no longer typing |
| ChatEndpoint.Dispatch | server.py:211-223 | chat reaches everyone else and is not echoed; flowey's answer reaches everyone; typing sets the flag; pong refreshes last_pong; leave stops the loop; any other type changes nothing |
| ChatEndpoint.Session | server.py:210-224 | the loop runs on while frames are JSON objects other than leave, and stops at the first that is not, at that frame's time |
| ChatEndpoint.Farewell | server.py:225-226 | a non-empty name is no longer connected or registered afterwards; an empty name changes nothing |
| ChatEndpoint.Serve | server.py:193-226 | a non-join first frame changes nothing; a taken or finished session's name ends up removed, including the user who already held a taken name; a session still open has stayed on JSON frames other than leave |
| ChatClient.WsUrlSpec | src/online_chat.py:26 | the dialled URL ends in `/ws`; an `http://` URL is dialled as `ws://`; a URL without `http://` only gets `/ws` appended |
| ChatClient.SweepSpec | src/online_chat.py:93-97 | a sweep keeps exactly the typing entries at most 5 seconds old, with their stamps, in their order |
| ChatClient.SweepIdempotent | src/online_chat.py:93-97 | sweeping again at the same time removes nothing |
| ChatClient.OnlineChatClient.constructor | src/online_chat.py:10-19 | a client starts with no socket, not connected, no roster, nobody typing and no cleanup task |
| ChatClient.OnlineChatClient.Connect | src/online_chat.py:24-37 | connect returns True exactly when the "Connecting to" line parses, the socket opens, the join is sent and the "Connected" line parses; nothing changes when the first line fails or the dial fails; once the socket opens the client is connected; the join, carrying the username, is recorded exactly when it was sent; the cleanup task is started only on success and only when none is running |
| ChatClient.OnlineChatClient.HandleMessage | src/online_chat.py:48-73 | chat clears the sender's typing entry; user_joined, user_left and user_list replace the roster (user_left also clears the departed name, unless its line fails to parse first); typing_status makes the typing set exactly the listed names other than the client's own, stamped now; a ping is answered with one pong; nothing else is sent; the handler raises exactly when a printed line fails to parse as markup, or a pong cannot be sent |
| ChatClient.OnlineChatClient.ApplyTypingStatus | src/online_chat.py:66-71 | the typing set becomes exactly the listed names other than the client's own, each stamped with the arrival time |
| ChatClient.OnlineChatClient.StampListed | src/online_chat.py:68-69 | every listed name other than the client's own is stamped now, and no entry is lost |
| ChatClient.OnlineChatClient.DropUnlisted | src/online_chat.py:70-71 | exactly the entries whose names are not listed are dropped, and the rest keep their stamps |
| ChatClient.OnlineChatClient.SendMessage | src/online_chat.py:75-77 | a chat frame without a username is sent exactly when the client is connected and the text is not blank |
| ChatClient.OnlineChatClient.CallFlowey | src/online_chat.py:79-81 | a flowey question is sent exactly when the client is connected |
| ChatClient.OnlineChatClient.Disconnect | src/online_chat.py:83-87 | afterwards there is no socket and the client is not connected; leave is sent when there was a socket; the cleanup task is cancelled unless that send raised |
| ChatClient.OnlineChatClient.StaleNames | src/online_chat.py:93 | the names selected for removal are exactly those stamped more than 5 seconds ago |
| ChatClient.OnlineChatClient.Sweep | src/online_chat.py:92-97 | one pass removes exactly the stale names |
| ChatClient.OnlineChatClient.RunSweeper | src/online_chat.py:89-97 | the sweeper only removes entries, and after its last wake-up no stale entry is left |
| GameManager.FirstPickSpec | src/game_manager.py:53-57 | the chosen item is the first that passes the test, and nothing is chosen exactly when no item passes |
| GameManager.FindEmulatorExecutable | src/game_manager.py:50-57 | the executable is the first file of the folder that is an `.exe` (Windows) or executable (Linux, macOS); none for a missing folder or another platform |
| GameManager.FoundSpec | src/game_manager.py:63-73 | every game found comes from a file with a known extension, and every such file yields its game |
| GameManager.GameOfSpec | src/game_manager.py:65-73 | a game's profile is its extension's profile, its name is the file's stem, and launcher_found says whether an emulator was found |
| GameManager.DiscoveredSpec | src/game_manager.py:59-75 | the games are sorted by name, are a permutation of those found, keep walk order among equal names, and are none for a path that cannot be walked |
| GameManager.FindGames | src/game_manager.py:65-73 | the walk loop yields one game per recognised file, in walk order |
| GameManager.DiscoverGamesInPath | src/game_manager.py:59-75 | the method returns the sorted discovery of the path |
| GameManager.KeptMountsSpec | src/game_manager.py:80-89 | a mount point is reported exactly when some removable partition mounted there is larger than 100 MB |
| GameManager.DetectRemovableDrives | src/game_manager.py:77-93 | the drives reported are the kept mount points, in partition order |
| GameManager.SortedIdsSpec | src/game_manager.py:113 | the drive ids are visited in sorted order, each id exactly once |
| GameManager.NumberMapAt | src/game_manager.py:108-116 | the game at place p of the display order is numbered `str(p)` |
| GameManager.NumberMapKeys | src/game_manager.py:108-116 | every number is `str(p)` for a place p of the list |
| GameManager.NumberMapSize | src/game_manager.py:108-116 | there are exactly as many numbers as games |
| GameManager.NumberMapLookup | src/game_manager.py:108-116 | a number found in the map is a decimal naming a place and gives the game there; every place's decimal is found |
| GameManager.NumberGames | src/game_manager.py:108-116 | numbering runs over the local games, then each drive's games in sorted drive-id order |
| GameManager.CollectedSpec | src/game_manager.py:103-106 | every kept drive has an entry under its id, and every entry holds what discovery found on that drive |
| GameManager.CollectCartridges | src/game_manager.py:103-106 | the drive loop builds the cartridge dict drive by drive |
| GameManager.Catalog.constructor | src/game_manager.py:23-25 | the catalogue starts empty |
| GameManager.Catalog.FindGameByNumber | src/game_manager.py:43-46 | a found game is the one at the place the number names in the display order; every place's number finds its game |
| GameManager.Catalog.UpdateGameLists | src/game_manager.py:97-122 | the local games, the cartridge games of each kept drive and a map numbering them all in display order replace the catalogue together |
| Launcher.CatalogueGameLaunches | src/launcher.py:28-36 | a catalogue game passes the guard exactly when an emulator executable was found, and is reported under its own name |
| Launcher.CommandShape | src/launcher.py:39-54 | the command line starts with the emulator (or with `open -a` and the bundle on macOS), carries the profile's arguments in order, and ends with the game path |
| Launcher.LaunchGame | src/launcher.py:15-76 | an incomplete record is refused with a message naming the game and spawns nothing; otherwise the command line is spawned and the message reports the outcome; success exactly when the spawn succeeded |
| CommandLine.CommandWord | retro_launcher.py:77-78 | the command word is the longest space-free prefix of the line |
| CommandLine.SplitSpec | retro_launcher.py:77-79 | the command word holds no space; the word, a space and the arguments give back the line; a line without a space has empty arguments |
| CommandLine.SplitJoin | retro_launcher.py:77-79 | splitting undoes joining a space-free command and its arguments with a space |
| CommandLine.ReadSkipsBlank | retro_launcher.py:71-75 | a line is skipped exactly when it is all whitespace |
| CommandLine.ReadIgnoresCase | retro_launcher.py:71 | case and surrounding whitespace do not change what a line does |
| CommandLine.ReadCommandWord | retro_launcher.py:71-78 | a command word is non-empty, holds no space and no upper-case letter |
| CommandLine.PlayGuard | retro_launcher.py:102-110 | play launches a game exactly when the arguments are a number in the map and that game's emulator was found |
| CommandLine.UsageGuards | retro_launcher.py:102-128 | play, info and ai without arguments only print their usage line |
| CommandLine.DispatchWords | retro_launcher.py:83-144 | only exit ends the loop; clear and cls are the same command; any other unknown word is reported as unknown |
| CommandLine.EntriesAt | retro_launcher.py:70-79 | the script holds one entry per prompt result, and entry i is what result i reads as on its own |
| CommandLine.QuitIsLast | retro_launcher.py:83-84 | nothing is performed after exit |
| CommandLine.Perform | retro_launcher.py:83-144 | one command acts against the current game map; scan installs the freshly discovered local and cartridge games and their numbering, and any other command leaves the game lists unchanged; play spawns exactly the command line of a launchable game |
| CommandLine.ShellStep | retro_launcher.py:64-144 | one turn of the loop: at end of input or on exit the run is finished as `RunShell` promises; otherwise the loop advances one entry with the actions, launches and game lists that entry leaves |
| CommandLine.RunShell | retro_launcher.py:63-144 | on one fixed host state and with no background rescan between prompts, the loop performs the actions its input calls for, stops at end of input or exit, and spawns exactly the command lines of its successful plays; the game lists are the last scan's when scan was performed, and the initial ones otherwise |

## Left out

- Printed text, ANSI colours, sounds, `time.sleep` and screen clearing are not modelled. Whether prompt_toolkit's `HTML` accepts a printed line is an input of `HandleMessage` and `Connect`, since a line that does not parse raises.
- An exception raised by `handle_message` other than a JSON or type error ends `listen_for_messages` (src/online_chat.py:41-43); the model returns `raised` and does not model the end of the loop.
- ChatClient.OnlineChatClient.Connect: the failure line at src/online_chat.py:36 puts the exception's text through the same markup; the model assumes it parses, so a failed connect returns False rather than raising.
- ChatClient.OnlineChatClient.RunSweeper: does not model that the redraw after a sweep (src/online_chat.py:97) can raise on a name holding markup and end the cleanup task; the stale names are already removed by then.
- `send_personal_message` (server.py:60-66) is never called by the endpoint, so it is not modelled.
- `listen_for_messages` (src/online_chat.py:39-46) is the socket read loop; `HandleMessage` models its body per frame.
- `GameScannerThread` (src/game_manager.py:124-137), started at retro_launcher.py:43-44, calls `update_game_lists` every 30 seconds (src/config.py:87) beside the prompt loop. The model assumes no timer rescan happens between prompts, and `RunShell` takes one `Host` state for the whole run, so the game lists change only through the `scan` command.
- The SQLite game library, the HTTP game endpoints, `scan_and_add_games` and file copying in server.py are not part of this model.
- `get_flowey_response` is a function parameter. It calls Gemini, which cannot be modelled.
- The `apikey` and `settings` commands read and write the `.env` file interactively; they become plain actions.
- `ai`, `drives`, `list` and `info` only print; they become plain actions.
- `os.walk`, `Path.iterdir`, `os.access`, psutil partitions and `disk_usage` are inputs of a `Host` value.
- `subprocess.Popen` is a function from the command line to its outcome.
- asyncio locks and interleaving are left out: each manager operation runs to completion before another starts.
- A ping task is not cancelled while it runs its own removal; cancellation is recorded in `cancelled`.
- Timestamps are integer seconds, not `datetime` values or ISO strings.
- Path normalisation is not modelled: paths are plain strings joined with `/`.
- `lower` lowers ASCII letters only; other characters are left as they are.
- JSON parsing is not modelled. A frame is a record of optional fields. Text that does not parse, or is not an object, is one `Garbled` event.
- A field that is absent and one that is null are the same `None`.
- ChatServer.ConnectionManager.PeriodicPing: one round per wake-up in a finite list. It does not model the unbounded `while True`.
- ChatEndpoint.Session: relates the loop to the frames that keep it going. It does not restate each frame's effect; `ChatEndpoint.Dispatch` states those per frame.
- ChatClient.OnlineChatClient.ApplyTypingStatus: says which names are typing and their stamps, not the order in which the dict holds them.
- GameManager.Catalog.FindGameByNumber: a number with a leading zero is refused only through `GameManager.NumberMapKeys`, not by this contract directly.
