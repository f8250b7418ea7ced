/** The emulator profiles of src/config.py:38-62: which emulator folder
    runs a game file of a given extension, the console's display name, and
    the arguments put before the game path. */
module Profiles {
  datatype Profile = Profile(emulatorFolder: string, system: string, args: seq<string>)

  /** EMULATOR_PROFILES, keyed by the lower-case extension with its dot. */
  const EmulatorProfiles: map<string, Profile> := map[
    ".nes" := Profile("fceux", "Nintendo Entertainment System", []),
    ".smc" := Profile("snes9x", "Super Nintendo", []),
    ".sfc" := Profile("snes9x", "Super Nintendo", []),
    ".gb" := Profile("mgba", "Game Boy", []),
    ".gbc" := Profile("mgba", "Game Boy Color", []),
    ".gba" := Profile("mgba", "Game Boy Advance", []),
    ".n64" := Profile("project64", "Nintendo 64", []),
    ".z64" := Profile("project64", "Nintendo 64", []),
    ".md" := Profile("gens", "Sega Genesis", []),
    ".gen" := Profile("gens", "Sega Genesis", []),
    ".ps1" := Profile("epsxe", "PlayStation", []),
    ".bin" := Profile("epsxe", "PlayStation", []),
    ".wad" := Profile("gzdoom", "Doom Engine", ["-iwad"]),
    ".exe" := Profile("dosbox", "MS-DOS", ["-exit"])
  ]
}
