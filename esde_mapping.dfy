/**
 * The constant table from Vimm's Lair category names to ES-DE (EmulationStation
 * Desktop Edition) system folders, full names and expected file extensions,
 * grouped as the source groups it.
 */
module EsdeMapping {
  import opened Common
  import opened Paths

  /** A name fit to be an ES-DE system folder: one path segment with no
      upper-case letter. */
  predicate LowerFolder(f: string)
  {
    ValidPart(f) && forall i :: 0 <= i < |f| ==> !IsUpper(f[i])
  }

  type FolderName = f: string | LowerFolder(f) witness "nes"

  /** One row of the category table; every folder in it is a `FolderName`. */
  datatype SystemMapping = SystemMapping(
    vimmCategory: string,
    esdeFolder: FolderName,
    fullName: string,
    fileExtensions: seq<string>)

  /** The category table, in its declaration order (a Python dict keeps it). */
  const Mapping: seq<(string, SystemMapping)> :=
    NintendoConsoles + NintendoHandhelds + SegaConsoles + SonyConsoles + MicrosoftConsoles
    + AtariConsoles + NecConsoles + SnkConsoles + OtherSystems

  /** Nintendo consoles. */
  const NintendoConsoles: seq<(string, SystemMapping)> := [
    ("NES", SystemMapping("NES", "nes", "Nintendo Entertainment System", [".nes", ".zip", ".7z"])),
    ("Nintendo", SystemMapping("Nintendo", "nes", "Nintendo Entertainment System", [".nes", ".zip", ".7z"])),
    ("SNES", SystemMapping("SNES", "snes", "Super Nintendo", [".sfc", ".smc", ".zip", ".7z"])),
    ("Super Nintendo", SystemMapping("Super Nintendo", "snes", "Super Nintendo", [".sfc", ".smc", ".zip", ".7z"])),
    ("N64", SystemMapping("N64", "n64", "Nintendo 64", [".n64", ".z64", ".v64", ".zip", ".7z"])),
    ("Nintendo 64", SystemMapping("Nintendo 64", "n64", "Nintendo 64", [".n64", ".z64", ".v64", ".zip", ".7z"])),
    ("GameCube", SystemMapping("GameCube", "gc", "Nintendo GameCube", [".iso", ".gcm", ".gcz", ".rvz", ".ciso", ".7z"])),
    ("Wii", SystemMapping("Wii", "wii", "Nintendo Wii", [".iso", ".wbfs", ".rvz", ".wia", ".gcz"])),
    ("WiiWare", SystemMapping("WiiWare", "wii", "Nintendo Wii", [".wad"]))
  ]

  /** Nintendo handhelds. */
  const NintendoHandhelds: seq<(string, SystemMapping)> := [
    ("GB", SystemMapping("GB", "gb", "Nintendo Game Boy", [".gb", ".zip", ".7z"])),
    ("Game Boy", SystemMapping("Game Boy", "gb", "Nintendo Game Boy", [".gb", ".zip", ".7z"])),
    ("GBC", SystemMapping("GBC", "gbc", "Nintendo Game Boy Color", [".gbc", ".zip", ".7z"])),
    ("Game Boy Color", SystemMapping("Game Boy Color", "gbc", "Nintendo Game Boy Color", [".gbc", ".zip", ".7z"])),
    ("GBA", SystemMapping("GBA", "gba", "Nintendo Game Boy Advance", [".gba", ".zip", ".7z"])),
    ("Game Boy Advance", SystemMapping("Game Boy Advance", "gba", "Nintendo Game Boy Advance", [".gba", ".zip", ".7z"])),
    ("DS", SystemMapping("DS", "nds", "Nintendo DS", [".nds", ".zip", ".7z"])),
    ("Nintendo DS", SystemMapping("Nintendo DS", "nds", "Nintendo DS", [".nds", ".zip", ".7z"])),
    ("3DS", SystemMapping("3DS", "n3ds", "Nintendo 3DS", [".3ds", ".cia", ".cxi", ".app"])),
    ("Nintendo 3DS", SystemMapping("Nintendo 3DS", "n3ds", "Nintendo 3DS", [".3ds", ".cia", ".cxi", ".app"])),
    ("Virtual Boy", SystemMapping("Virtual Boy", "virtualboy", "Nintendo Virtual Boy", [".vb", ".vboy", ".zip", ".7z"]))
  ]

  /** Sega consoles, in two parts. */
  const SegaConsoles: seq<(string, SystemMapping)> := SegaConsolesFirst + SegaConsolesSecond

  const SegaConsolesFirst: seq<(string, SystemMapping)> := [
    ("Genesis", SystemMapping("Genesis", "genesis", "Sega Genesis", [".md", ".gen", ".bin", ".zip", ".7z"])),
    ("Mega Drive", SystemMapping("Mega Drive", "megadrive", "Sega Mega Drive", [".md", ".gen", ".bin", ".zip", ".7z"])),
    ("Master System", SystemMapping("Master System", "mastersystem", "Sega Master System", [".sms", ".zip", ".7z"])),
    ("Sega CD", SystemMapping("Sega CD", "segacd", "Sega CD", [".chd", ".cue", ".iso"])),
    ("Mega-CD", SystemMapping("Mega-CD", "megacd", "Sega Mega-CD", [".chd", ".cue", ".iso"]))
  ]

  const SegaConsolesSecond: seq<(string, SystemMapping)> := [
    ("32X", SystemMapping("32X", "sega32x", "Sega 32X", [".32x", ".zip", ".7z"])),
    ("Sega 32X", SystemMapping("Sega 32X", "sega32x", "Sega 32X", [".32x", ".zip", ".7z"])),
    ("Saturn", SystemMapping("Saturn", "saturn", "Sega Saturn", [".chd", ".cue", ".iso", ".zip", ".7z"])),
    ("Dreamcast", SystemMapping("Dreamcast", "dreamcast", "Sega Dreamcast", [".chd", ".cdi", ".gdi", ".cue"])),
    ("Game Gear", SystemMapping("Game Gear", "gamegear", "Sega Game Gear", [".gg", ".zip", ".7z"]))
  ]

  /** Sony consoles. */
  const SonyConsoles: seq<(string, SystemMapping)> := [
    ("PS1", SystemMapping("PS1", "psx", "Sony PlayStation", [".chd", ".cue", ".bin", ".iso", ".pbp", ".m3u"])),
    ("PlayStation", SystemMapping("PlayStation", "psx", "Sony PlayStation", [".chd", ".cue", ".bin", ".iso", ".pbp", ".m3u"])),
    ("PS2", SystemMapping("PS2", "ps2", "Sony PlayStation 2", [".chd", ".iso", ".cso", ".gz"])),
    ("PlayStation 2", SystemMapping("PlayStation 2", "ps2", "Sony PlayStation 2", [".chd", ".iso", ".cso", ".gz"])),
    ("PS3", SystemMapping("PS3", "ps3", "Sony PlayStation 3", [".iso", ".pkg"])),
    ("PlayStation 3", SystemMapping("PlayStation 3", "ps3", "Sony PlayStation 3", [".iso", ".pkg"])),
    ("PSP", SystemMapping("PSP", "psp", "Sony PlayStation Portable", [".iso", ".cso", ".pbp", ".chd"])),
    ("PlayStation Portable", SystemMapping("PlayStation Portable", "psp", "Sony PlayStation Portable", [".iso", ".cso", ".pbp", ".chd"]))
  ]

  /** Microsoft consoles. */
  const MicrosoftConsoles: seq<(string, SystemMapping)> := [
    ("Xbox", SystemMapping("Xbox", "xbox", "Microsoft Xbox", [".iso"])),
    ("Xbox 360", SystemMapping("Xbox 360", "xbox360", "Microsoft Xbox 360", [".iso", ".xex"])),
    ("Xbox 360 (Digital)", SystemMapping("Xbox 360 (Digital)", "xbox360", "Microsoft Xbox 360", [".iso", ".xex"]))
  ]

  /** Atari consoles. */
  const AtariConsoles: seq<(string, SystemMapping)> := [
    ("Atari 2600", SystemMapping("Atari 2600", "atari2600", "Atari 2600", [".a26", ".bin", ".zip", ".7z"])),
    ("Atari 5200", SystemMapping("Atari 5200", "atari5200", "Atari 5200", [".a52", ".bin", ".zip", ".7z"])),
    ("Atari 7800", SystemMapping("Atari 7800", "atari7800", "Atari 7800", [".a78", ".bin", ".zip", ".7z"])),
    ("Jaguar", SystemMapping("Jaguar", "atarijaguar", "Atari Jaguar", [".j64", ".jag", ".zip", ".7z"])),
    ("Jaguar CD", SystemMapping("Jaguar CD", "atarijaguarcd", "Atari Jaguar CD", [".cdi", ".cue"])),
    ("Lynx", SystemMapping("Lynx", "atarilynx", "Atari Lynx", [".lnx", ".zip", ".7z"]))
  ]

  /** NEC consoles. */
  const NecConsoles: seq<(string, SystemMapping)> := [
    ("TurboGrafx-16", SystemMapping("TurboGrafx-16", "tg16", "NEC TurboGrafx-16", [".pce", ".zip", ".7z"])),
    ("TurboGrafx-CD", SystemMapping("TurboGrafx-CD", "tg-cd", "NEC TurboGrafx-CD", [".chd", ".cue"])),
    ("PC Engine", SystemMapping("PC Engine", "pcengine", "NEC PC Engine", [".pce", ".zip", ".7z"])),
    ("PC Engine CD", SystemMapping("PC Engine CD", "pcenginecd", "NEC PC Engine CD", [".chd", ".cue"]))
  ]

  /** SNK consoles. */
  const SnkConsoles: seq<(string, SystemMapping)> := [
    ("Neo Geo", SystemMapping("Neo Geo", "neogeo", "SNK Neo Geo", [".zip", ".7z"])),
    ("Neo Geo CD", SystemMapping("Neo Geo CD", "neogeocd", "SNK Neo Geo CD", [".chd", ".cue"])),
    ("Neo Geo Pocket", SystemMapping("Neo Geo Pocket", "ngp", "SNK Neo Geo Pocket", [".ngp", ".zip", ".7z"])),
    ("Neo Geo Pocket Color", SystemMapping("Neo Geo Pocket Color", "ngpc", "SNK Neo Geo Pocket Color", [".ngc", ".zip", ".7z"]))
  ]

  /** Other systems. */
  const OtherSystems: seq<(string, SystemMapping)> := [
    ("CD-i", SystemMapping("CD-i", "cdimono1", "Philips CD-i", [".chd", ".cue", ".iso"])),
    ("3DO", SystemMapping("3DO", "3do", "3DO Interactive Multiplayer", [".chd", ".cue", ".iso"]))
  ]
}
