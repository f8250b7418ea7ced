/** Game discovery and the numbered catalogue (src/game_manager.py). The
    file system and psutil are inputs: a Host says what each directory
    lists, what os.walk yields under a path and which partitions are
    mounted. The module-level lists the scanner thread replaces become the
    fields of a Catalog. */
module GameManager {
  import opened Wrappers
  import opened Text
  import opened Sorting
  import opened Dicts
  import opened Profiles

  /** platform.system(), as far as the code tells the values apart. */
  datatype Platform = Windows | Darwin | Linux | OtherPlatform

  /** MIN_DRIVE_SIZE_MB (src/config.py:88) */
  const MinDriveSizeMb: int := 100

  /** An entry of Path.iterdir(): its name, whether it is a regular file,
      and whether os.access grants X_OK on it. */
  datatype Item = Item(name: string, isFile: bool, executable: bool)

  /** One file os.walk reports: the directory it is in and its name. */
  datatype WalkedFile = WalkedFile(root: string, filename: string)

  /** A psutil partition: its mount point, its option string, and the total
      size disk_usage reports, None when disk_usage raises
      FileNotFoundError or PermissionError. */
  datatype Partition = Partition(mountpoint: string, opts: string, total: Option<int>)

  /** What the scan reads from the machine: listDir(p) is None when p is
      not a directory, and so is walk(p). */
  datatype Host = Host(
    platform: Platform,
    projectRoot: string,
    listDir: string -> Option<seq<Item>>,
    walk: string -> Option<seq<WalkedFile>>,
    partitions: seq<Partition>)

  /** A game_info dictionary (src/game_manager.py:69-73). */
  datatype Game = Game(
    name: string,
    path: string,
    system: string,
    profile: Profile,
    launcherFound: bool,
    emulatorExe: Option<string>)

  /** Path / name */
  function JoinPath(dir: string, name: string): string
  {
    dir + "/" + name
  }

  /** GAMES_DIRECTORY and EMULATORS_DIRECTORY (src/config.py:18-19) */
  function GamesDirectory(h: Host): string
  {
    JoinPath(h.projectRoot, "Games")
  }

  function EmulatorsDirectory(h: Host): string
  {
    JoinPath(h.projectRoot, "Emulators")
  }

  // ---------------------------------------------------------------------
  // Emulator selection (src/game_manager.py:50-57)

  /** The test applied to each item of an emulator folder. */
  predicate Picks(platform: Platform, it: Item)
  {
    it.isFile
    && ((platform == Windows && Lower(Suffix(it.name)) == ".exe")
        || ((platform == Linux || platform == Darwin) && it.executable))
  }

  /** The first item that passes the test. */
  function FirstPick(platform: Platform, items: seq<Item>): Option<Item>
  {
    if items == [] then None
    else if Picks(platform, items[0]) then Some(items[0])
    else FirstPick(platform, items[1..])
  }

  /** FirstPick yields the earliest passing item, and None only when no item
      passes. */
  lemma {:induction false} FirstPickSpec(platform: Platform, items: seq<Item>)
    ensures FirstPick(platform, items).Some?
      ==> exists i :: 0 <= i < |items| && items[i] == FirstPick(platform, items).value
                      && Picks(platform, items[i]) && forall j :: 0 <= j < i ==> !Picks(platform, items[j])
    ensures FirstPick(platform, items).None? <==> forall i :: 0 <= i < |items| ==> !Picks(platform, items[i])
  {
    if items != [] && !Picks(platform, items[0]) {
      FirstPickSpec(platform, items[1..]);
      if FirstPick(platform, items[1..]).Some? {
        var i :| 0 <= i < |items[1..]| && items[1..][i] == FirstPick(platform, items[1..]).value
                 && Picks(platform, items[1..][i]) && forall j :: 0 <= j < i ==> !Picks(platform, items[1..][j]);
        assert items[i + 1] == items[1..][i];
        forall j | 0 <= j < i + 1 ensures !Picks(platform, items[j]) {
          if j > 0 {
            assert items[j] == items[1..][j - 1];
          }
        }
      }
      if forall i :: 0 <= i < |items[1..]| ==> !Picks(platform, items[1..][i]) {
        forall i | 0 <= i < |items| ensures !Picks(platform, items[i]) {
          if i > 0 {
            assert items[i] == items[1..][i - 1];
          }
        }
      }
    }
  }

  /** The executable _find_emulator_executable returns for a folder name. */
  function EmulatorFor(h: Host, folder: string): Option<string>
  {
    var dir := JoinPath(EmulatorsDirectory(h), folder);
    match h.listDir(dir)
    case None => None
    case Some(items) =>
      match FirstPick(h.platform, items)
      case None => None
      case Some(it) => Some(JoinPath(dir, it.name))
  }

  /** _find_emulator_executable: a folder that is not a directory has no
      executable; otherwise the first file that is an .exe on Windows, or
      executable on Linux and macOS; no file on any other platform. */
  method FindEmulatorExecutable(h: Host, folder: string) returns (exe: Option<string>)
    ensures exe == EmulatorFor(h, folder)
    ensures h.listDir(JoinPath(EmulatorsDirectory(h), folder)).None? ==> exe.None?
    ensures h.platform == OtherPlatform ==> exe.None?
  {
    var dir := JoinPath(EmulatorsDirectory(h), folder);
    var listing := h.listDir(dir);
    if listing.None? {
      return None;
    }
    var items := listing.value;
    var i := 0;
    while i < |items|
      invariant 0 <= i <= |items|
      invariant FirstPick(h.platform, items[i..]) == FirstPick(h.platform, items)
    {
      if items[i].isFile {
        if h.platform == Windows && Lower(Suffix(items[i].name)) == ".exe" {
          return Some(JoinPath(dir, items[i].name));
        } else if (h.platform == Linux || h.platform == Darwin) && items[i].executable {
          return Some(JoinPath(dir, items[i].name));
        }
      }
      assert items[i..][1..] == items[i + 1..];
      i := i + 1;
    }
    return None;
  }

  // ---------------------------------------------------------------------
  // Discovery (src/game_manager.py:59-75)

  /** A walked file is a game when its lower-cased suffix has a profile. */
  predicate Recognised(f: WalkedFile)
  {
    Lower(Suffix(f.filename)) in EmulatorProfiles
  }

  /** The game_info built for a recognised file. */
  function GameOf(h: Host, f: WalkedFile): Game
    requires Recognised(f)
  {
    var profile := EmulatorProfiles[Lower(Suffix(f.filename))];
    var exe := EmulatorFor(h, profile.emulatorFolder);
    Game(Stem(f.filename), JoinPath(f.root, f.filename), profile.system, profile, exe.Some?, exe)
  }

  /** found_games before sorting: one game per recognised file, in walk order. */
  function Found(h: Host, files: seq<WalkedFile>): seq<Game>
  {
    if files == [] then []
    else
      var last := files[|files| - 1];
      Found(h, files[..|files| - 1]) + (if Recognised(last) then [GameOf(h, last)] else [])
  }

  function GameName(g: Game): string
  {
    g.name
  }

  /** What _discover_games_in_path returns for a base path. */
  function Discovered(h: Host, base: string): seq<Game>
  {
    match h.walk(base)
    case None => []
    case Some(files) => SortBy(Found(h, files), GameName)
  }

  /** Every found game comes from a recognised file and every recognised
      file yields its game. */
  lemma {:induction false} FoundSpec(h: Host, files: seq<WalkedFile>)
    ensures forall g :: g in Found(h, files) ==> exists f :: f in files && Recognised(f) && g == GameOf(h, f)
    ensures forall f :: f in files && Recognised(f) ==> GameOf(h, f) in Found(h, files)
  {
    if files != [] {
      var init := files[..|files| - 1];
      var last := files[|files| - 1];
      FoundSpec(h, init);
      assert files == init + [last];
    }
  }

  /** Each game's fields agree: system and profile come from the suffix's
      profile, launcher_found says whether an executable was found, and the
      name is the file name without its suffix. */
  lemma GameOfSpec(h: Host, f: WalkedFile)
    requires Recognised(f)
    ensures GameOf(h, f).profile == EmulatorProfiles[Lower(Suffix(f.filename))]
    ensures GameOf(h, f).system == GameOf(h, f).profile.system
    ensures GameOf(h, f).launcherFound <==> GameOf(h, f).emulatorExe.Some?
    ensures GameOf(h, f).emulatorExe == EmulatorFor(h, GameOf(h, f).profile.emulatorFolder)
    ensures GameOf(h, f).name + Suffix(f.filename) == f.filename
    ensures GameOf(h, f).path == JoinPath(f.root, f.filename)
  {
    StemSuffix(f.filename);
  }

  /** The result is sorted by name, holds exactly the found games, keeps
      the walk order among equal names, and is empty for a base path that
      is not a directory. */
  lemma DiscoveredSpec(h: Host, base: string)
    ensures SortedBy(Discovered(h, base), GameName)
    ensures h.walk(base).None? ==> Discovered(h, base) == []
    ensures h.walk(base).Some? ==> multiset(Discovered(h, base)) == multiset(Found(h, h.walk(base).value))
    ensures h.walk(base).Some?
      ==> forall k :: WithKey(Discovered(h, base), GameName, k) == WithKey(Found(h, h.walk(base).value), GameName, k)
  {
    if h.walk(base).Some? {
      var found := Found(h, h.walk(base).value);
      SortBySorted(found, GameName);
      forall k ensures WithKey(Discovered(h, base), GameName, k) == WithKey(found, GameName, k) {
        SortByStable(found, GameName, k);
      }
    }
  }

  /** The body of the os.walk loop for one file: its game, if the suffix
      is recognised (src/game_manager.py:66-73). */
  method GameForFile(h: Host, f: WalkedFile) returns (game: seq<Game>)
    ensures game == if Recognised(f) then [GameOf(h, f)] else []
  {
    var ext := Lower(Suffix(f.filename));
    if ext in EmulatorProfiles {
      var profile := EmulatorProfiles[ext];
      var exe := FindEmulatorExecutable(h, profile.emulatorFolder);
      game := [Game(Stem(f.filename), JoinPath(f.root, f.filename), profile.system, profile, exe.Some?, exe)];
    } else {
      game := [];
    }
  }

  /** Walking one more file appends that file's game, if any. */
  lemma FoundStep(h: Host, files: seq<WalkedFile>, i: nat)
    requires i < |files|
    ensures Found(h, files[..i + 1]) == Found(h, files[..i]) + (if Recognised(files[i]) then [GameOf(h, files[i])] else [])
  {
    assert files[..i + 1][..i] == files[..i];
  }

  /** The os.walk loop of _discover_games_in_path: one game per recognised
      file, in walk order (src/game_manager.py:65-73). */
  method FindGames(h: Host, files: seq<WalkedFile>) returns (found: seq<Game>)
    ensures found == Found(h, files)
  {
    found := [];
    var i := 0;
    while i < |files|
      invariant 0 <= i <= |files|
      invariant found == Found(h, files[..i])
    {
      var game := GameForFile(h, files[i]);
      FoundStep(h, files, i);
      found := found + game;
      i := i + 1;
    }
    assert files[..i] == files;
  }

  /** _discover_games_in_path (src/game_manager.py:59-75): walk the base
      path, build a game for each file with a known extension, then sort by
      name; a path the walk cannot open gives no games. */
  method DiscoverGamesInPath(h: Host, base: string) returns (games: seq<Game>)
    ensures games == Discovered(h, base)
  {
    var listing := h.walk(base);
    if listing.None? {
      return [];
    }
    var found := FindGames(h, listing.value);
    games := SortBy(found, GameName);
  }

  // ---------------------------------------------------------------------
  // Removable drives (src/game_manager.py:77-93)

  /** 'removable' in the options, or a macOS /Volumes/ or Linux /media/ mount. */
  predicate IsRemovable(platform: Platform, p: Partition)
  {
    || Contains(Lower(p.opts), "removable")
    || (platform == Darwin && StartsWith(p.mountpoint, "/Volumes/"))
    || (platform == Linux && StartsWith(p.mountpoint, "/media/"))
  }

  /** A drive is kept when it is removable and larger than MIN_DRIVE_SIZE_MB. */
  predicate Kept(platform: Platform, p: Partition)
  {
    IsRemovable(platform, p) && p.total.Some? && p.total.value > MinDriveSizeMb * 1024 * 1024
  }

  function KeptMounts(platform: Platform, ps: seq<Partition>): seq<string>
  {
    if ps == [] then []
    else
      var last := ps[|ps| - 1];
      KeptMounts(platform, ps[..|ps| - 1]) + (if Kept(platform, last) then [last.mountpoint] else [])
  }

  /** A mount point is reported exactly when some partition mounted there
      is kept, and no more drives than partitions are reported. */
  lemma {:induction false} KeptMountsSpec(platform: Platform, ps: seq<Partition>)
    ensures forall m :: m in KeptMounts(platform, ps) <==> exists p :: p in ps && Kept(platform, p) && p.mountpoint == m
    ensures |KeptMounts(platform, ps)| <= |ps|
  {
    if ps != [] {
      var init := ps[..|ps| - 1];
      KeptMountsSpec(platform, init);
      assert ps == init + [ps[|ps| - 1]];
    }
  }

  /** detect_removable_drives: the kept mount points, in partition order. */
  method DetectRemovableDrives(h: Host) returns (drives: seq<string>)
    ensures drives == KeptMounts(h.platform, h.partitions)
  {
    drives := [];
    var minSizeBytes := MinDriveSizeMb * 1024 * 1024;
    var i := 0;
    while i < |h.partitions|
      invariant 0 <= i <= |h.partitions|
      invariant drives == KeptMounts(h.platform, h.partitions[..i])
    {
      var p := h.partitions[i];
      var isRemovable := Contains(Lower(p.opts), "removable")
                         || (h.platform == Darwin && StartsWith(p.mountpoint, "/Volumes/"))
                         || (h.platform == Linux && StartsWith(p.mountpoint, "/media/"));
      assert h.partitions[..i + 1][..i] == h.partitions[..i];
      if isRemovable {
        if p.total.Some? && p.total.value > minSizeBytes {
          drives := drives + [p.mountpoint];
        }
      }
      i := i + 1;
    }
    assert h.partitions[..i] == h.partitions;
  }

  /** f"{drive_path.name} ({str(drive_path)})" */
  function DriveId(mount: string): string
  {
    BaseName(mount) + " (" + mount + ")"
  }

  // ---------------------------------------------------------------------
  // Numbering (src/game_manager.py:97-122)

  function Ident(s: string): string
  {
    s
  }

  /** The drive ids in the order sorted() gives them. */
  function SortedIds(cartridges: Dict<seq<Game>>): (ids: seq<string>)
    requires cartridges.Valid()
    ensures forall id :: id in ids ==> id in cartridges.entries
  {
    SortBySorted(cartridges.order, Ident);
    var ids := SortBy(cartridges.order, Ident);
    assert forall id :: id in ids ==> id in multiset(cartridges.order);
    ids
  }

  /** The drive ids come out sorted, each stored id exactly once. */
  lemma SortedIdsSpec(cartridges: Dict<seq<Game>>)
    requires cartridges.Valid()
    ensures SortedBy(SortedIds(cartridges), Ident)
    ensures multiset(SortedIds(cartridges)) == multiset(cartridges.order)
  {
    SortBySorted(cartridges.order, Ident);
  }

  /** The games of the given drive ids, one drive after the other. */
  function Flatten(cartridges: map<string, seq<Game>>, ids: seq<string>): seq<Game>
    requires forall id :: id in ids ==> id in cartridges
  {
    if ids == [] then []
    else Flatten(cartridges, ids[..|ids| - 1]) + cartridges[ids[|ids| - 1]]
  }

  lemma FlattenStep(cartridges: map<string, seq<Game>>, ids: seq<string>, k: nat, local: seq<Game>)
    requires k < |ids| && forall id :: id in ids ==> id in cartridges
    ensures local + Flatten(cartridges, ids[..k + 1]) == local + Flatten(cartridges, ids[..k]) + cartridges[ids[k]]
  {
    assert ids[..k + 1][..k] == ids[..k];
  }

  /** The games in display order: the local ones, then each drive's in
      sorted drive-id order. */
  function Listing(local: seq<Game>, cartridges: Dict<seq<Game>>): seq<Game>
    requires cartridges.Valid()
  {
    local + Flatten(cartridges.entries, SortedIds(cartridges))
  }

  /** The map the game_number loops build: game i of the list under str(i + 1). */
  function NumberMap(all: seq<Game>): map<string, Game>
  {
    if all == [] then map[]
    else NumberMap(all[..|all| - 1])[NatToString(|all|) := all[|all| - 1]]
  }

  /** The game at place p (counting from 1) is numbered str(p). */
  lemma {:induction false} NumberMapAt(all: seq<Game>, p: nat)
    requires 1 <= p <= |all|
    ensures NatToString(p) in NumberMap(all) && NumberMap(all)[NatToString(p)] == all[p - 1]
  {
    var n := |all|;
    var init := all[..n - 1];
    var m0 := NumberMap(init);
    var key := NatToString(p);
    var top := NatToString(n);
    assert NumberMap(all) == m0[top := all[n - 1]];
    if p == n {
      assert key == top;
    } else {
      NumberMapAt(init, p);
      NatToStringInjective(p, n);
      assert key in m0 && m0[key] == all[p - 1];
      assert key != top;
      assert NumberMap(all)[key] == m0[key];
    }
  }

  /** The place a key numbers: every key is str(p) for a place p of the list. */
  lemma {:induction false} NumberMapPlace(all: seq<Game>, k: string) returns (p: nat)
    requires k in NumberMap(all)
    ensures 1 <= p <= |all| && k == NatToString(p)
  {
    var n := |all|;
    var init := all[..n - 1];
    var m0 := NumberMap(init);
    var top := NatToString(n);
    assert NumberMap(all) == m0[top := all[n - 1]];
    if k == top {
      p := n;
    } else {
      assert k in m0;
      p := NumberMapPlace(init, k);
    }
  }

  /** Every key is the decimal of a place in the list. */
  lemma NumberMapKeys(all: seq<Game>)
    ensures forall k :: k in NumberMap(all) ==> exists i :: 1 <= i <= |all| && k == NatToString(i)
  {
    forall k | k in NumberMap(all) ensures exists i :: 1 <= i <= |all| && k == NatToString(i) {
      var p := NumberMapPlace(all, k);
      assert 1 <= p <= |all| && k == NatToString(p);
    }
    assert forall k :: k in NumberMap(all) ==> exists i :: 1 <= i <= |all| && k == NatToString(i);
  }

  /** There are exactly as many numbers as games. */
  lemma {:induction false} NumberMapSize(all: seq<Game>)
    ensures |NumberMap(all)| == |all|
  {
    if all != [] {
      var n := |all|;
      var init := all[..n - 1];
      var m0 := NumberMap(init);
      var top := NatToString(n);
      assert NumberMap(all) == m0[top := all[n - 1]];
      NumberMapSize(init);
      if top in m0 {
        var p := NumberMapPlace(init, top);
        NatToStringInjective(p, n);
        assert false;
      }
    }
  }

  /** A number in the map is the decimal of a place, and finds the game there. */
  lemma NumberMapFind(all: seq<Game>, num: string)
    requires num in NumberMap(all)
    ensures IsDecimal(num) && 1 <= DecimalValue(num) <= |all| && NumberMap(all)[num] == all[DecimalValue(num) - 1]
  {
    var p := NumberMapPlace(all, num);
    DecimalRoundTrip(p);
    NumberMapAt(all, p);
  }

  /** A number finds the game at its place, and only the decimal numbers
      of places are found. */
  lemma NumberMapLookup(all: seq<Game>, num: string)
    ensures num in NumberMap(all)
      ==> IsDecimal(num) && 1 <= DecimalValue(num) <= |all| && NumberMap(all)[num] == all[DecimalValue(num) - 1]
    ensures forall i :: 1 <= i <= |all| && num == NatToString(i) ==> num in NumberMap(all) && NumberMap(all)[num] == all[i - 1]
  {
    forall i | 1 <= i <= |all| && num == NatToString(i)
      ensures num in NumberMap(all) && NumberMap(all)[num] == all[i - 1]
    {
      NumberMapAt(all, i);
    }
    if num in NumberMap(all) {
      NumberMapFind(all, num);
    }
  }

  /** Numbering a run of games continues from the next free number. */
  method NumberRun(gameMap: map<string, Game>, ghost done: seq<Game>, games: seq<Game>, gameNumber: nat)
    returns (gameMap': map<string, Game>, gameNumber': nat)
    requires gameMap == NumberMap(done) && gameNumber == |done| + 1
    ensures gameMap' == NumberMap(done + games) && gameNumber' == |done + games| + 1
  {
    gameMap', gameNumber' := gameMap, gameNumber;
    assert done + games[..0] == done;
    var j := 0;
    while j < |games|
      invariant 0 <= j <= |games|
      invariant gameMap' == NumberMap(done + games[..j]) && gameNumber' == |done + games[..j]| + 1
    {
      ghost var prev := done + games[..j];
      gameMap' := gameMap'[NatToString(gameNumber') := games[j]];
      assert done + games[..j + 1] == prev + [games[j]];
      assert (prev + [games[j]])[..|prev|] == prev;
      gameNumber' := gameNumber' + 1;
      j := j + 1;
    }
    assert games[..j] == games;
  }

  /** The game_number loops of update_game_lists: "1".."N" over the local
      games, then over each drive's games in sorted drive-id order. */
  method NumberGames(local: seq<Game>, cartridges: Dict<seq<Game>>) returns (gameMap: map<string, Game>)
    requires cartridges.Valid()
    ensures gameMap == NumberMap(Listing(local, cartridges))
  {
    var gameNumber;
    gameMap, gameNumber := NumberRun(map[], [], local, 1);
    assert [] + local == local;
    var ids := SortedIds(cartridges);
    var k := 0;
    assert Flatten(cartridges.entries, ids[..0]) == [];
    assert local + [] == local;
    while k < |ids|
      invariant 0 <= k <= |ids|
      invariant gameMap == NumberMap(local + Flatten(cartridges.entries, ids[..k]))
      invariant gameNumber == |local + Flatten(cartridges.entries, ids[..k])| + 1
    {
      ghost var flat := Flatten(cartridges.entries, ids[..k]);
      var games := cartridges.entries[ids[k]];
      gameMap, gameNumber := NumberRun(gameMap, local + flat, games, gameNumber);
      FlattenStep(cartridges.entries, ids, k, local);
      k := k + 1;
    }
    assert ids[..k] == ids;
  }

  /** The cartridge dict the drive loop builds: each drive's games stored
      under its id, in drive order. */
  function Collected(h: Host, drives: seq<string>): Dict<seq<Game>>
  {
    if drives == [] then Dict([], map[])
    else
      var d := drives[|drives| - 1];
      Collected(h, drives[..|drives| - 1]).Put(DriveId(d), Discovered(h, d))
  }

  /** The cartridge dict c holds one entry per drive id, and each entry is
      what discovery found on a drive with that id. */
  ghost predicate HoldsDrives(h: Host, c: Dict<seq<Game>>, drives: seq<string>)
  {
    c.Valid()
    && (forall d :: d in drives ==> DriveId(d) in c.entries)
    && (forall id :: id in c.entries ==> exists d :: d in drives && DriveId(d) == id && c.entries[id] == Discovered(h, d))
  }

  /** Collecting the drives in turn gives a dict holding every drive. */
  lemma {:induction false} CollectedSpec(h: Host, drives: seq<string>)
    ensures HoldsDrives(h, Collected(h, drives), drives)
  {
    if drives != [] {
      var init := drives[..|drives| - 1];
      var d := drives[|drives| - 1];
      var c0 := Collected(h, init);
      var id0 := DriveId(d);
      var c := c0.Put(id0, Discovered(h, d));
      assert Collected(h, drives) == c;
      assert drives == init + [d];
      CollectedSpec(h, init);
      PutSpec(c0, id0, Discovered(h, d));
      forall id | id in c.entries
        ensures exists e :: e in drives && DriveId(e) == id && c.entries[id] == Discovered(h, e)
      {
        if id == id0 {
          assert d in drives && DriveId(d) == id && c.entries[id] == Discovered(h, d);
        } else {
          assert c.Get(id) == c0.Get(id);
          var e :| e in init && DriveId(e) == id && c0.entries[id] == Discovered(h, e);
          assert e in drives && DriveId(e) == id && c.entries[id] == Discovered(h, e);
        }
      }
      forall e | e in drives ensures DriveId(e) in c.entries {
        if DriveId(e) != id0 {
          assert e in init;
          assert c.Get(DriveId(e)) == c0.Get(DriveId(e));
        }
      }
    }
  }

  /** The drive loop of update_game_lists (src/game_manager.py:103-106). */
  method CollectCartridges(h: Host, drives: seq<string>) returns (cartridges: Dict<seq<Game>>)
    ensures cartridges == Collected(h, drives)
  {
    cartridges := Dict([], map[]);
    var i := 0;
    while i < |drives|
      invariant 0 <= i <= |drives|
      invariant cartridges == Collected(h, drives[..i])
    {
      var id := DriveId(drives[i]);
      var games := DiscoverGamesInPath(h, drives[i]);
      assert drives[..i + 1][..i] == drives[..i];
      cartridges := cartridges.Put(id, games);
      i := i + 1;
    }
    assert drives[..i] == drives;
  }

  /** The game map a scan of the host produces. */
  function ScannedMap(h: Host): map<string, Game>
  {
    var cartridges := Collected(h, KeptMounts(h.platform, h.partitions));
    CollectedSpec(h, KeptMounts(h.platform, h.partitions));
    NumberMap(Listing(Discovered(h, GamesDirectory(h)), cartridges))
  }

  /** The module state of src/game_manager.py:23-25 that the scanner
      replaces and the getters copy. */
  class Catalog {
    var localGames: seq<Game>
    var cartridgeGames: Dict<seq<Game>>
    var gameMap: map<string, Game>

    /** The game map numbers the games in display order. */
    ghost predicate Valid()
      reads this
    {
      cartridgeGames.Valid() && gameMap == NumberMap(Listing(localGames, cartridgeGames))
    }

    constructor ()
      ensures Valid()
      ensures localGames == [] && cartridgeGames == Dict([], map[]) && gameMap == map[]
    {
      localGames := [];
      cartridgeGames := Dict([], map[]);
      gameMap := map[];
    }

    /** get_local_games, get_cartridge_games, get_game_map
        (src/game_manager.py:31-41): copies, which in this model are the
        values themselves. */
    function LocalGames(): seq<Game>
      reads this
    {
      localGames
    }

    function CartridgeGames(): Dict<seq<Game>>
      reads this
    {
      cartridgeGames
    }

    function GameMap(): map<string, Game>
      reads this
    {
      gameMap
    }

    /** find_game_by_number (src/game_manager.py:43-46): the game numbered
        num, if any. */
    function FindGameByNumber(num: string): (r: Option<Game>)
      reads this
      requires Valid()
      ensures r.Some? ==> IsDecimal(num) && 1 <= DecimalValue(num) <= |Listing(localGames, cartridgeGames)|
                          && r.value == Listing(localGames, cartridgeGames)[DecimalValue(num) - 1]
      ensures forall i :: 1 <= i <= |Listing(localGames, cartridgeGames)| && num == NatToString(i)
                ==> r == Some(Listing(localGames, cartridgeGames)[i - 1])
    {
      NumberMapLookup(Listing(localGames, cartridgeGames), num);
      if num in gameMap then Some(gameMap[num]) else None
    }

    /** update_game_lists (src/game_manager.py:97-122): discover the local
        games, then each kept drive's games under its id, then number them
        all, and replace the three lists together. */
    method UpdateGameLists(h: Host)
      modifies this
      ensures Valid()
      ensures localGames == Discovered(h, GamesDirectory(h))
      ensures cartridgeGames == Collected(h, KeptMounts(h.platform, h.partitions))
      ensures HoldsDrives(h, cartridgeGames, KeptMounts(h.platform, h.partitions))
      ensures gameMap == ScannedMap(h)
    {
      var newLocal := DiscoverGamesInPath(h, GamesDirectory(h));
      var drives := DetectRemovableDrives(h);
      var newCartridges := CollectCartridges(h, drives);
      CollectedSpec(h, drives);
      var newMap := NumberGames(newLocal, newCartridges);
      localGames, cartridgeGames, gameMap := newLocal, newCartridges, newMap;
    }
  }
}
