/** launch_game (src/launcher.py:15-76): check that a game record carries
    what a launch needs, build the emulator command line, hand it to the
    operating system and report the outcome. Spawning the process is a
    parameter: a function from the command line to what the spawn did. */
module Launcher {
  import opened Wrappers
  import opened Text
  import opened Profiles
  import opened GameManager

  /** The keys launch_game reads from its game_info dictionary; a key that is
      absent (or holds None) is None here. */
  datatype LaunchInfo = LaunchInfo(
    emulatorExe: Option<string>,
    path: Option<string>,
    profile: Option<Profile>,
    name: Option<string>)

  /** The dictionary a catalogue game passes in. */
  function InfoOf(g: Game): LaunchInfo
  {
    LaunchInfo(g.emulatorExe, Some(g.path), Some(g.profile), Some(g.name))
  }

  /** What subprocess.Popen did with a command line. */
  datatype Spawn = Spawned | NotFound | OsError(detail: string)

  /** game_info.get('name', 'Unknown Game') */
  function NameOf(info: LaunchInfo): string
  {
    info.name.GetOr("Unknown Game")
  }

  /** all([emulator_path, game_path, profile]): a Path and a non-empty profile
      dictionary are always truthy, so only an absent value fails. */
  predicate Complete(info: LaunchInfo)
  {
    info.emulatorExe.Some? && info.path.Some? && info.profile.Some?
  }

  /** A macOS application bundle is started through `open -a`. */
  predicate OpensBundle(platform: Platform, exe: string)
  {
    platform == Darwin && EndsWith(exe, ".app")
  }

  /** The part of the command line in front of the profile arguments. */
  function Prefix(platform: Platform, exe: string): seq<string>
  {
    if OpensBundle(platform, exe) then ["open", "-a", exe, "--args"] else [exe]
  }

  /** The whole command line: prefix, profile arguments, game path. */
  function Command(platform: Platform, exe: string, args: seq<string>, path: string): seq<string>
  {
    Prefix(platform, exe) + args + [path]
  }

  /** The command line starts with the emulator (or with `open -a` and the
      bundle), carries the profile arguments in order, and ends with the
      game path. */
  lemma CommandShape(platform: Platform, exe: string, args: seq<string>, path: string)
    ensures var cmd := Command(platform, exe, args, path);
      var p := if OpensBundle(platform, exe) then 4 else 1;
      && |cmd| == p + |args| + 1
      && cmd[p..p + |args|] == args
      && cmd[|cmd| - 1] == path
      && (OpensBundle(platform, exe) ==> cmd[..4] == ["open", "-a", exe, "--args"])
      && (!OpensBundle(platform, exe) ==> cmd[0] == exe)
  {
    var cmd := Command(platform, exe, args, path);
    var pre := Prefix(platform, exe);
    assert cmd == pre + args + [path];
    assert cmd[|pre|..|pre| + |args|] == args;
    if OpensBundle(platform, exe) {
      assert cmd[..4] == pre;
    }
  }

  /** The user-facing message of a spawn outcome. */
  function SpawnMessage(name: string, exe: string, outcome: Spawn): string
  {
    match outcome
    case Spawned => "Launching " + name + "..."
    case NotFound => "Emulator not found at path: " + exe
    case OsError(detail) => "An OS error occurred while launching: " + detail
  }

  /** launch_game. `launched` is the command line handed to Popen, None when
      the guard refused the record. */
  method LaunchGame(platform: Platform, info: LaunchInfo, spawn: seq<string> -> Spawn)
    returns (ok: bool, message: string, launched: Option<seq<string>>)
    ensures !Complete(info) ==>
              (!ok && launched == None && message == "Incomplete game info provided for " + NameOf(info) + ".")
    ensures Complete(info) ==>
              (&& launched == Some(Command(platform, info.emulatorExe.value, info.profile.value.args, info.path.value))
               && message == SpawnMessage(NameOf(info), info.emulatorExe.value, spawn(launched.value)))
    ensures ok <==> launched.Some? && spawn(launched.value) == Spawned
  {
    var name := NameOf(info);
    if !Complete(info) {
      return false, "Incomplete game info provided for " + name + ".", None;
    }
    var exe := info.emulatorExe.value;
    var cmd: seq<string>;
    if platform == Darwin && EndsWith(exe, ".app") {
      cmd := ["open", "-a", exe, "--args"];
    } else {
      cmd := [exe];
    }
    cmd := cmd + info.profile.value.args;
    cmd := cmd + [info.path.value];
    launched := Some(cmd);
    var outcome := spawn(cmd);
    match outcome {
      case Spawned =>
        ok, message := true, "Launching " + name + "...";
      case NotFound =>
        ok, message := false, "Emulator not found at path: " + exe;
      case OsError(detail) =>
        ok, message := false, "An OS error occurred while launching: " + detail;
    }
  }

  /** A catalogue game gets past the guard exactly when an emulator
      executable was found for it, and is reported under its own name. */
  lemma CatalogueGameLaunches(g: Game)
    ensures Complete(InfoOf(g)) <==> g.emulatorExe.Some?
    ensures NameOf(InfoOf(g)) == g.name
  {
  }
}
