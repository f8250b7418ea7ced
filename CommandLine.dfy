/** The command loop of main (retro_launcher.py:63-144): read a line,
    normalise it, split off the command word and dispatch. Screen output,
    sounds, sleeps and the interactive key prompt are not modelled; each
    line's effect is the Action it selects. */
module CommandLine {
  import opened Wrappers
  import opened Text
  import opened Dicts
  import opened GameManager
  import opened Launcher

  /** command_line = line.strip().lower() */
  function Normalise(line: string): string
  {
    Lower(Strip(line))
  }

  /** The text before the first space. */
  function CommandWord(s: string): (w: string)
    ensures |w| <= |s| && w == s[..|w|]
    ensures forall i :: 0 <= i < |w| ==> w[i] != ' '
    ensures |w| < |s| ==> s[|w|] == ' '
  {
    if s == [] || s[0] == ' ' then [] else [s[0]] + CommandWord(s[1..])
  }

  /** parts = command_line.split(' ', 1): the command word, and everything
      after the first space (or "" when there is none). */
  function Split(line: string): (string, string)
  {
    var command := CommandWord(line);
    if |command| < |line| then (command, line[|command| + 1..]) else (command, "")
  }

  /** The command word holds no space; with a space in the line, the line is
      command + " " + args; without one, the whole line is the command. */
  lemma SplitSpec(line: string)
    ensures ' ' !in Split(line).0
    ensures ' ' in line ==> line == Split(line).0 + " " + Split(line).1
    ensures ' ' !in line ==> Split(line) == (line, "")
  {
    var w := CommandWord(line);
    if |w| < |line| {
      assert line == w + [line[|w|]] + line[|w| + 1..];
    } else {
      assert w == line;
    }
  }

  /** Splitting undoes joining with a space, for a command without spaces. */
  lemma {:induction false} SplitJoin(command: string, args: string)
    requires ' ' !in command
    ensures Split(command + " " + args) == (command, args)
  {
    var line := command + " " + args;
    CommandWordOf(command, args);
    assert line[|command| + 1..] == args;
  }

  lemma {:induction false} CommandWordOf(command: string, args: string)
    requires ' ' !in command
    ensures CommandWord(command + " " + args) == command
  {
    var line := command + " " + args;
    if command != [] {
      assert line[0] == command[0];
      assert line[1..] == command[1..] + " " + args;
      CommandWordOf(command[1..], args);
    }
  }

  /** What the loop does with one line. */
  datatype Action =
    | Quit
    | ClearScreen
    | ShowHelp
    | ShowList
    | Rescan
    | Play(game: Game)
    | ShowInfo(game: Game)
    | ShowDrives
    | AskAi(question: string)
    | SetApiKey
    | ShowSettings
    | Complain(message: string)

  const UsagePlay := "Usage: play <number>"
  const UsageInfo := "Usage: info <number>"
  const UsageAi := "Usage: ai <your question>"

  function InvalidNumber(args: string): string
  {
    "Invalid game number: '" + args + "'."
  }

  function NoEmulator(g: Game): string
  {
    "Emulator for '" + g.system + "' not found."
  }

  function UnknownCommand(command: string): string
  {
    "Unknown command: '" + command + "'. Type 'help' for a list of commands."
  }

  /** The words the loop acts on. ("log" is offered for completion but has
      no branch, so it is an unknown command.) */
  predicate Known(command: string)
  {
    command in ["exit", "clear", "cls", "help", "list", "scan", "play", "info", "drives", "ai", "apikey", "settings"]
  }

  /** The action for one command word and its arguments, given the current
      game map (find_game_by_number is a lookup in it). */
  function Dispatch(command: string, args: string, gameMap: map<string, Game>): Action
  {
    if command == "exit" then Quit
    else if command == "clear" || command == "cls" then ClearScreen
    else if command == "help" then ShowHelp
    else if command == "list" then ShowList
    else if command == "scan" then Rescan
    else if command == "play" then
      if args == "" then Complain(UsagePlay)
      else if args !in gameMap then Complain(InvalidNumber(args))
      else if !gameMap[args].launcherFound then Complain(NoEmulator(gameMap[args]))
      else Play(gameMap[args])
    else if command == "info" then
      if args == "" then Complain(UsageInfo)
      else if args in gameMap then ShowInfo(gameMap[args])
      else Complain(InvalidNumber(args))
    else if command == "drives" then ShowDrives
    else if command == "ai" then
      if args == "" then Complain(UsageAi) else AskAi(args)
    else if command == "apikey" then SetApiKey
    else if command == "settings" then ShowSettings
    else Complain(UnknownCommand(command))
  }

  /** What the prompt gave: end of input (EOF or Ctrl-C), a line that is
      empty once stripped, or a command word with its arguments. */
  datatype Entry = EndOfInput | Blank | Entered(command: string, args: string)

  /** One prompt result, normalised and split. */
  function Read(line: Option<string>): Entry
  {
    if line.None? then EndOfInput
    else
      var commandLine := Normalise(line.value);
      if commandLine == [] then Blank
      else
        var (command, args) := Split(commandLine);
        Entered(command, args)
  }

  /** A line is skipped exactly when it is all whitespace. */
  lemma ReadSkipsBlank(line: string)
    ensures Read(Some(line)) == Blank <==> IsBlank(line)
  {
    StripSpec(line);
  }

  /** Case and surrounding whitespace do not matter. */
  lemma ReadIgnoresCase(line: string)
    ensures Read(Some(Lower(line))) == Read(Some(line))
    ensures Read(Some(Strip(line))) == Read(Some(line))
  {
    LowerStrip(line);
    LowerIsLower(Strip(line));
    StripIdempotent(line);
  }

  /** The command word is lower case and holds no space. */
  lemma ReadCommandWord(line: string)
    requires Read(Some(line)).Entered?
    ensures ' ' !in Read(Some(line)).command && Read(Some(line)).command != []
    ensures forall i :: 0 <= i < |Read(Some(line)).command| ==> !('A' <= Read(Some(line)).command[i] <= 'Z')
  {
    var t := Normalise(line);
    StripSpec(line);
    LowerCharSpace(Strip(line)[0]);
    LowerIsLower(Strip(line));
    SplitSpec(t);
  }

  /** play runs only a game the map holds under exactly the argument text
      and whose emulator was found. */
  lemma PlayGuard(command: string, args: string, gameMap: map<string, Game>, g: Game)
    ensures Dispatch(command, args, gameMap) == Play(g)
        <==> command == "play" && args != "" && args in gameMap && gameMap[args] == g && g.launcherFound
  {
  }

  /** play, info and ai without arguments only print their usage line. */
  lemma UsageGuards(args: string, gameMap: map<string, Game>)
    requires args == ""
    ensures Dispatch("play", args, gameMap) == Complain(UsagePlay)
    ensures Dispatch("info", args, gameMap) == Complain(UsageInfo)
    ensures Dispatch("ai", args, gameMap) == Complain(UsageAi)
  {
  }

  /** exit is the only word that ends the loop, clear and cls are the same
      command, and a word the loop does not know is reported as unknown. */
  lemma DispatchWords(command: string, args: string, gameMap: map<string, Game>)
    ensures Dispatch(command, args, gameMap) == Quit <==> command == "exit"
    ensures Dispatch(command, args, gameMap) == ClearScreen <==> command == "clear" || command == "cls"
    ensures !Known(command) ==> Dispatch(command, args, gameMap) == Complain(UnknownCommand(command))
  {
  }

  /** The actions a run of prompt results performs: end of input stops,
      exit stops after recording Quit, and scan replaces the game map with
      the rescanned one. */
  function Actions(rescanned: map<string, Game>, gameMap: map<string, Game>, entries: seq<Entry>): seq<Action>
    decreases |entries|
  {
    if entries == [] then []
    else
      match entries[0]
      case EndOfInput => []
      case Blank => Actions(rescanned, gameMap, entries[1..])
      case Entered(command, args) =>
        var action := Dispatch(command, args, gameMap);
        if action == Quit then [Quit]
        else [action] + Actions(rescanned, MapAfter(rescanned, gameMap, action), entries[1..])
  }

  function Entries(lines: seq<Option<string>>): seq<Entry>
  {
    if lines == [] then [] else [Read(lines[0])] + Entries(lines[1..])
  }

  /** One entry per prompt result. */
  lemma {:induction false} EntriesLength(lines: seq<Option<string>>)
    ensures |Entries(lines)| == |lines|
  {
    if lines != [] {
      EntriesLength(lines[1..]);
    }
  }

  /** Entry i is what prompt result i reads as. */
  lemma {:induction false} EntriesAt(lines: seq<Option<string>>, i: nat)
    requires i < |lines|
    ensures |Entries(lines)| == |lines| && Entries(lines)[i] == Read(lines[i])
  {
    EntriesLength(lines[1..]);
    if i > 0 {
      EntriesAt(lines[1..], i - 1);
    }
  }

  /** The command line one action hands to the operating system, if any:
      a play whose record gets past launch_game's guard. */
  function LaunchOf(platform: Platform, action: Action): seq<seq<string>>
  {
    match action
    case Play(g) =>
      var info := InfoOf(g);
      if Complete(info) then [Command(platform, info.emulatorExe.value, info.profile.value.args, info.path.value)] else []
    case _ => []
  }

  /** The command lines a run of actions hands to the operating system. */
  function Launches(platform: Platform, actions: seq<Action>): seq<seq<string>>
  {
    if actions == [] then [] else LaunchOf(platform, actions[0]) + Launches(platform, actions[1..])
  }

  /** After exit no further line is read: the loop stops at the first exit. */
  lemma {:induction false} QuitIsLast(rescanned: map<string, Game>, gameMap: map<string, Game>, entries: seq<Entry>, i: nat)
    requires i < |Actions(rescanned, gameMap, entries)|
    requires Actions(rescanned, gameMap, entries)[i] == Quit
    ensures i == |Actions(rescanned, gameMap, entries)| - 1
    decreases |entries|
  {
    match entries[0]
    case Blank => QuitIsLast(rescanned, gameMap, entries[1..], i);
    case Entered(command, args) =>
      var action := Dispatch(command, args, gameMap);
      if action != Quit {
        QuitIsLast(rescanned, MapAfter(rescanned, gameMap, action), entries[1..], i - 1);
      }
  }

  /** One entered command: dispatch it against the current game map, then
      carry out what it asks of the catalogue and of the operating system
      (scan rescans, play launches; exit is left to the caller). */
  method Perform(cat: Catalog, h: Host, command: string, args: string, spawn: seq<string> -> Spawn)
    returns (action: Action, launched: seq<seq<string>>)
    requires cat.Valid()
    modifies cat
    ensures cat.Valid()
    ensures action == Dispatch(command, args, old(cat.gameMap))
    ensures cat.gameMap == MapAfter(ScannedMap(h), old(cat.gameMap), action)
    ensures ListsAfter(h, old(cat.localGames), old(cat.cartridgeGames), action == Rescan, cat.localGames, cat.cartridgeGames)
    ensures launched == LaunchOf(h.platform, action)
  {
    action := Dispatch(command, args, cat.GameMap());
    launched := [];
    if action == Rescan {
      cat.UpdateGameLists(h);
    } else if action.Play? {
      var info := InfoOf(action.game);
      var ok, message, spawned := LaunchGame(h.platform, info, spawn);
      if spawned.Some? {
        launched := [spawned.value];
      }
    }
  }

  /** The catalogue's local and cartridge lists after a run that rescanned
      or not: a scan installs what discovery finds on the host, and
      otherwise the lists stay as they were. */
  predicate ListsAfter(h: Host, local0: seq<Game>, carts0: Dict<seq<Game>>, rescanned: bool,
                       local: seq<Game>, carts: Dict<seq<Game>>)
  {
    if rescanned then local == Discovered(h, GamesDirectory(h)) && carts == Collected(h, KeptMounts(h.platform, h.partitions))
    else local == local0 && carts == carts0
  }

  /** Lists after a run, then after one more command. */
  lemma ListsStep(h: Host, local0: seq<Game>, carts0: Dict<seq<Game>>, rescanned: bool,
                  local1: seq<Game>, carts1: Dict<seq<Game>>, scan: bool, local2: seq<Game>, carts2: Dict<seq<Game>>)
    requires ListsAfter(h, local0, carts0, rescanned, local1, carts1)
    requires ListsAfter(h, local1, carts1, scan, local2, carts2)
    ensures ListsAfter(h, local0, carts0, rescanned || scan, local2, carts2)
  {
  }

  lemma RescanIn(performed: seq<Action>, action: Action)
    ensures (Rescan in performed + [action]) == ((Rescan in performed) || action == Rescan)
  {
  }

  /** The game map after an action: scan installs the rescanned one. */
  function MapAfter(rescanned: map<string, Game>, gameMap: map<string, Game>, action: Action): map<string, Game>
  {
    if action == Rescan then rescanned else gameMap
  }

  /** One step of the loop over Actions: `done` followed by what the
      remaining entries perform is the whole run. */
  lemma ActionsAdvance(rescanned: map<string, Game>, gameMap: map<string, Game>, entries: seq<Entry>, i: nat,
                       done: seq<Action>, total: seq<Action>)
    requires i < |entries|
    requires done + Actions(rescanned, gameMap, entries[i..]) == total
    ensures entries[i].EndOfInput? ==> done == total
    ensures entries[i].Blank? ==> done + Actions(rescanned, gameMap, entries[i + 1..]) == total
    ensures entries[i].Entered? ==>
      var action := Dispatch(entries[i].command, entries[i].args, gameMap);
      if action == Quit then done + [Quit] == total
      else (done + [action]) + Actions(rescanned, MapAfter(rescanned, gameMap, action), entries[i + 1..]) == total
  {
    var rest := entries[i..];
    assert rest[0] == entries[i] && rest[1..] == entries[i + 1..];
    if entries[i].EndOfInput? {
      assert done + [] == done;
    }
  }

  /** Where the main loop stands before reading entry `i`: the actions
      `done` so far, followed by what the entries from `i` on perform on
      `gameMap`, make up the whole run from `start`; `launched` holds what
      those actions handed to the operating system; and the lists are what
      the rescans among them left. */
  ghost predicate Running(h: Host, start: map<string, Game>, local0: seq<Game>, carts0: Dict<seq<Game>>,
                          entries: seq<Entry>, i: nat, done: seq<Action>, launched: seq<seq<string>>,
                          gameMap: map<string, Game>, local: seq<Game>, carts: Dict<seq<Game>>)
  {
    && i <= |entries|
    && done + Actions(ScannedMap(h), gameMap, entries[i..]) == Actions(ScannedMap(h), start, entries)
    && launched == Launches(h.platform, done)
    && ListsAfter(h, local0, carts0, Rescan in done, local, carts)
  }

  /** What the main loop promises once it stops. */
  ghost predicate Finished(h: Host, start: map<string, Game>, local0: seq<Game>, carts0: Dict<seq<Game>>,
                           entries: seq<Entry>, done: seq<Action>, launched: seq<seq<string>>,
                           local: seq<Game>, carts: Dict<seq<Game>>)
  {
    && done == Actions(ScannedMap(h), start, entries)
    && launched == Launches(h.platform, done)
    && ListsAfter(h, local0, carts0, Rescan in done, local, carts)
  }

  /** Before the first prompt nothing has been done. */
  lemma RunningStart(h: Host, start: map<string, Game>, local0: seq<Game>, carts0: Dict<seq<Game>>, entries: seq<Entry>)
    ensures Running(h, start, local0, carts0, entries, 0, [], [], start, local0, carts0)
  {
    assert entries[0..] == entries;
    assert [] + Actions(ScannedMap(h), start, entries) == Actions(ScannedMap(h), start, entries);
  }

  /** The loop stops at the end of the script or at end of input. */
  lemma RunningEnd(h: Host, start: map<string, Game>, local0: seq<Game>, carts0: Dict<seq<Game>>,
                   entries: seq<Entry>, i: nat, done: seq<Action>, launched: seq<seq<string>>,
                   gameMap: map<string, Game>, local: seq<Game>, carts: Dict<seq<Game>>)
    requires Running(h, start, local0, carts0, entries, i, done, launched, gameMap, local, carts)
    requires i == |entries| || entries[i].EndOfInput?
    ensures Finished(h, start, local0, carts0, entries, done, launched, local, carts)
  {
    if i == |entries| {
      assert entries[i..] == [];
      assert done + [] == done;
    } else {
      ActionsAdvance(ScannedMap(h), gameMap, entries, i, done, Actions(ScannedMap(h), start, entries));
    }
  }

  /** A blank line is skipped. */
  lemma RunningBlank(h: Host, start: map<string, Game>, local0: seq<Game>, carts0: Dict<seq<Game>>,
                     entries: seq<Entry>, i: nat, done: seq<Action>, launched: seq<seq<string>>,
                     gameMap: map<string, Game>, local: seq<Game>, carts: Dict<seq<Game>>)
    requires Running(h, start, local0, carts0, entries, i, done, launched, gameMap, local, carts)
    requires i < |entries| && entries[i].Blank?
    ensures Running(h, start, local0, carts0, entries, i + 1, done, launched, gameMap, local, carts)
  {
    ActionsAdvance(ScannedMap(h), gameMap, entries, i, done, Actions(ScannedMap(h), start, entries));
  }

  /** One command performed: either the loop ends on exit or it goes on to
      the next entry with the map, launches and lists the command left. */
  lemma RunningEntered(h: Host, start: map<string, Game>, local0: seq<Game>, carts0: Dict<seq<Game>>,
                       entries: seq<Entry>, i: nat, done: seq<Action>, launched: seq<seq<string>>,
                       gameMap: map<string, Game>, local: seq<Game>, carts: Dict<seq<Game>>,
                       action: Action, commands: seq<seq<string>>, local2: seq<Game>, carts2: Dict<seq<Game>>)
    requires Running(h, start, local0, carts0, entries, i, done, launched, gameMap, local, carts)
    requires i < |entries| && entries[i].Entered?
    requires action == Dispatch(entries[i].command, entries[i].args, gameMap)
    requires commands == LaunchOf(h.platform, action)
    requires ListsAfter(h, local, carts, action == Rescan, local2, carts2)
    ensures action == Quit ==> Finished(h, start, local0, carts0, entries, done + [action], launched + commands, local2, carts2)
    ensures action != Quit ==>
      Running(h, start, local0, carts0, entries, i + 1, done + [action], launched + commands,
              MapAfter(ScannedMap(h), gameMap, action), local2, carts2)
  {
    ActionsAdvance(ScannedMap(h), gameMap, entries, i, done, Actions(ScannedMap(h), start, entries));
    LaunchesAppend(h.platform, done, action);
    ListsStep(h, local0, carts0, Rescan in done, local, carts, action == Rescan, local2, carts2);
    RescanIn(done, action);
  }

  /** One turn of the main loop: read one prompt result and act on it.
      `stop` says the loop ends here, at end of input or on exit. */
  method ShellStep(cat: Catalog, h: Host, line: Option<string>, spawn: seq<string> -> Spawn,
                   ghost start: map<string, Game>, ghost local0: seq<Game>, ghost carts0: Dict<seq<Game>>,
                   ghost entries: seq<Entry>, ghost i: nat, done: seq<Action>, launched: seq<seq<string>>)
    returns (stop: bool, done': seq<Action>, launched': seq<seq<string>>)
    requires cat.Valid()
    requires i < |entries| && entries[i] == Read(line)
    requires Running(h, start, local0, carts0, entries, i, done, launched, cat.gameMap, cat.localGames, cat.cartridgeGames)
    modifies cat
    ensures cat.Valid()
    ensures stop ==> Finished(h, start, local0, carts0, entries, done', launched', cat.localGames, cat.cartridgeGames)
    ensures !stop ==>
      Running(h, start, local0, carts0, entries, i + 1, done', launched', cat.gameMap, cat.localGames, cat.cartridgeGames)
  {
    var entry := Read(line);
    done', launched' := done, launched;
    if entry.EndOfInput? {
      RunningEnd(h, start, local0, carts0, entries, i, done, launched, cat.gameMap, cat.localGames, cat.cartridgeGames);
      return true, done', launched';
    }
    if entry.Blank? {
      RunningBlank(h, start, local0, carts0, entries, i, done, launched, cat.gameMap, cat.localGames, cat.cartridgeGames);
      return false, done', launched';
    }
    ghost var gameMap, local, carts := cat.gameMap, cat.localGames, cat.cartridgeGames;
    var action, commands := Perform(cat, h, entry.command, entry.args, spawn);
    RunningEntered(h, start, local0, carts0, entries, i, done, launched, gameMap, local, carts,
                   action, commands, cat.localGames, cat.cartridgeGames);
    done', launched' := done + [action], launched + commands;
    stop := action == Quit;
  }

  /** The main loop over a script of prompt results. `performed` lists the
      actions taken, `launched` the command lines handed to Popen. */
  method RunShell(cat: Catalog, h: Host, lines: seq<Option<string>>, spawn: seq<string> -> Spawn)
    returns (performed: seq<Action>, launched: seq<seq<string>>)
    requires cat.Valid()
    modifies cat
    ensures cat.Valid()
    ensures performed == Actions(ScannedMap(h), old(cat.gameMap), Entries(lines))
    ensures launched == Launches(h.platform, performed)
    ensures ListsAfter(h, old(cat.localGames), old(cat.cartridgeGames), Rescan in performed, cat.localGames, cat.cartridgeGames)
  {
    performed, launched := [], [];
    ghost var start, local0, carts0 := cat.gameMap, cat.localGames, cat.cartridgeGames;
    ghost var entries := Entries(lines);
    EntriesLength(lines);
    RunningStart(h, start, local0, carts0, entries);
    var i := 0;
    while i < |lines|
      invariant 0 <= i <= |lines|
      invariant cat.Valid()
      invariant Running(h, start, local0, carts0, entries, i, performed, launched, cat.gameMap, cat.localGames, cat.cartridgeGames)
    {
      EntriesAt(lines, i);
      var stop;
      stop, performed, launched := ShellStep(cat, h, lines[i], spawn, start, local0, carts0, entries, i, performed, launched);
      if stop {
        return;
      }
      i := i + 1;
    }
    RunningEnd(h, start, local0, carts0, entries, i, performed, launched, cat.gameMap, cat.localGames, cat.cartridgeGames);
  }

  /** Launches of one more action. */
  lemma {:induction false} LaunchesAppend(platform: Platform, actions: seq<Action>, a: Action)
    ensures Launches(platform, actions + [a]) == Launches(platform, actions) + LaunchOf(platform, a)
    decreases |actions|
  {
    if actions == [] {
      assert actions + [a] == [a];
    } else {
      assert (actions + [a])[1..] == actions[1..] + [a];
      LaunchesAppend(platform, actions[1..], a);
    }
  }
}
