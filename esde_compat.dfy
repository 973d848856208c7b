/**
 * ES-DE (EmulationStation Desktop Edition) output naming: the constant table
 * from Vimm's Lair categories to ES-DE system folders, file-name sanitising,
 * and the paths a downloaded ROM or an extraction directory get.
 *
 * Regular-expression classes are ASCII here: `\s` is `Common.IsSpace`, `\d`
 * is `Common.IsDigit`, and `lower()` only maps 'A'..'Z'.
 */
module EsdeCompat {
  import opened Common
  import opened Paths
  import opened EsdeMapping

  // ---------------------------------------------------------------------------
  // Table lookups

  /** `dict.get(key)` over an association list: the first row with that key. */
  function Lookup(table: seq<(string, SystemMapping)>, key: string): (r: Option<SystemMapping>)
    ensures r.None? <==> forall k :: 0 <= k < |table| ==> table[k].0 != key
    ensures r.Some? ==> exists k :: 0 <= k < |table| && table[k].0 == key && table[k].1 == r.value
  {
    if table == [] then None
    else if table[0].0 == key then Some(table[0].1)
    else
      var r := Lookup(table[1..], key);
      assert forall k :: 1 <= k < |table| ==> table[k] == table[1..][k - 1];
      r
  }

  /** A row is keyed by its own category. */
  predicate RowWellFormed(row: (string, SystemMapping))
  {
    row.0 == row.1.vimmCategory
  }

  predicate AllRowsWellFormed(table: seq<(string, SystemMapping)>)
  {
    forall k :: 0 <= k < |table| ==> RowWellFormed(table[k])
  }

  lemma RowsConcat(a: seq<(string, SystemMapping)>, b: seq<(string, SystemMapping)>)
    requires AllRowsWellFormed(a) && AllRowsWellFormed(b)
    ensures AllRowsWellFormed(a + b)
  {
    assert forall k :: |a| <= k < |a + b| ==> (a + b)[k] == b[k - |a|];
  }

  lemma NintendoConsolesWellFormed()
    ensures AllRowsWellFormed(NintendoConsoles)
  {
  }

  lemma NintendoHandheldsWellFormed()
    ensures AllRowsWellFormed(NintendoHandhelds)
  {
  }

  lemma SegaConsolesWellFormed()
    ensures AllRowsWellFormed(SegaConsoles)
  {
    SegaConsolesFirstWellFormed();
    SegaConsolesSecondWellFormed();
    RowsConcat(SegaConsolesFirst, SegaConsolesSecond);
  }

  lemma SegaConsolesFirstWellFormed()
    ensures AllRowsWellFormed(SegaConsolesFirst)
  {
  }

  lemma SegaConsolesSecondWellFormed()
    ensures AllRowsWellFormed(SegaConsolesSecond)
  {
  }

  lemma SonyConsolesWellFormed()
    ensures AllRowsWellFormed(SonyConsoles)
  {
  }

  lemma MicrosoftConsolesWellFormed()
    ensures AllRowsWellFormed(MicrosoftConsoles)
  {
  }

  lemma AtariConsolesWellFormed()
    ensures AllRowsWellFormed(AtariConsoles)
  {
  }

  lemma NecConsolesWellFormed()
    ensures AllRowsWellFormed(NecConsoles)
  {
  }

  lemma SnkConsolesWellFormed()
    ensures AllRowsWellFormed(SnkConsoles)
  {
  }

  lemma OtherSystemsWellFormed()
    ensures AllRowsWellFormed(OtherSystems)
  {
  }

  /** Every key equals its row's category. */
  lemma MappingWellFormed()
    ensures AllRowsWellFormed(Mapping)
  {
    NintendoConsolesWellFormed();
    NintendoHandheldsWellFormed();
    SegaConsolesWellFormed();
    SonyConsolesWellFormed();
    MicrosoftConsolesWellFormed();
    AtariConsolesWellFormed();
    NecConsolesWellFormed();
    SnkConsolesWellFormed();
    OtherSystemsWellFormed();
    RowsConcat(NintendoConsoles, NintendoHandhelds);
    RowsConcat(NintendoConsoles + NintendoHandhelds, SegaConsoles);
    RowsConcat(NintendoConsoles + NintendoHandhelds + SegaConsoles, SonyConsoles);
    RowsConcat(NintendoConsoles + NintendoHandhelds + SegaConsoles + SonyConsoles, MicrosoftConsoles);
    RowsConcat(NintendoConsoles + NintendoHandhelds + SegaConsoles + SonyConsoles + MicrosoftConsoles, AtariConsoles);
    RowsConcat(NintendoConsoles + NintendoHandhelds + SegaConsoles + SonyConsoles + MicrosoftConsoles + AtariConsoles, NecConsoles);
    RowsConcat(NintendoConsoles + NintendoHandhelds + SegaConsoles + SonyConsoles + MicrosoftConsoles + AtariConsoles + NecConsoles, SnkConsoles);
    RowsConcat(NintendoConsoles + NintendoHandhelds + SegaConsoles + SonyConsoles + MicrosoftConsoles + AtariConsoles + NecConsoles + SnkConsoles, OtherSystems);
  }

  /** `get_system_mapping` */
  function GetSystemMapping(category: string): (r: Option<SystemMapping>)
    ensures r.Some? ==> r.value.vimmCategory == category && LowerFolder(r.value.esdeFolder)
    ensures r.None? <==> forall k :: 0 <= k < |Mapping| ==> Mapping[k].0 != category
  {
    MappingWellFormed();
    Lookup(Mapping, category)
  }

  /** `get_supported_systems`: the table's keys in order. */
  function GetSupportedSystems(): (r: seq<string>)
    ensures |r| == |Mapping|
    ensures forall k :: 0 <= k < |r| ==> GetSystemMapping(r[k]).Some?
  {
    Map(Mapping, (e: (string, SystemMapping)) => e.0)
  }

  /** The folder for a category the table does not know: lowercased, spaces
      become underscores, hyphens are dropped. */
  function FallbackFolder(category: string): (r: string)
    ensures |r| <= |category|
    ensures ' ' !in r && '-' !in r
    ensures forall i :: 0 <= i < |r| ==> !IsUpper(r[i])
  {
    RemoveChar(ReplaceChar(Lower(category), ' ', '_'), '-')
  }

  /** A category already in fallback form is its own folder, so the fallback
      is idempotent. */
  lemma FallbackFolderFixed(category: string)
    requires ' ' !in category && '-' !in category
    requires forall i :: 0 <= i < |category| ==> !IsUpper(category[i])
    ensures FallbackFolder(category) == category
  {
    assert Lower(category) == category;
    assert ReplaceChar(category, ' ', '_') == category;
  }

  lemma FallbackFolderIdempotent(category: string)
    ensures FallbackFolder(FallbackFolder(category)) == FallbackFolder(category)
  {
    FallbackFolderFixed(FallbackFolder(category));
  }

  lemma FallbackExample()
    ensures FallbackFolder("Unknown System") == "unknown_system"
  {
    assert Lower("Unknown System") == "unknown system";
    assert ReplaceChar("unknown system", ' ', '_') == "unknown_system";
    assert '-' !in "unknown_system";
  }

  /** `get_esde_folder` */
  function GetEsdeFolder(category: string): (r: string)
    ensures GetSystemMapping(category).Some? ==> r == GetSystemMapping(category).value.esdeFolder
    ensures GetSystemMapping(category).None? ==> r == FallbackFolder(category)
    ensures forall i :: 0 <= i < |r| ==> !IsUpper(r[i])
  {
    match GetSystemMapping(category)
    case Some(m) => m.esdeFolder
    case None => FallbackFolder(category)
  }

  /** `get_expected_extensions` */
  function GetExpectedExtensions(category: string): (r: seq<string>)
    ensures GetSystemMapping(category).Some? ==> r == GetSystemMapping(category).value.fileExtensions
    ensures GetSystemMapping(category).None? ==> r == [".zip", ".7z"]
  {
    match GetSystemMapping(category)
    case Some(m) => m.fileExtensions
    case None => [".zip", ".7z"]
  }

  // ---------------------------------------------------------------------------
  // File-name sanitising

  /** The class `[\\/:*?"<>|]`. */
  predicate IsInvalidChar(c: char)
  {
    c == '\\' || c == '/' || c == ':' || c == '*' || c == '?' || c == '"' || c == '<' || c == '>' || c == '|'
  }

  /** The class `[_\s]`. */
  predicate InRun(c: char) { c == '_' || IsSpace(c) }

  predicate IsSpaceOrDot(c: char) { c == ' ' || c == '.' }

  predicate NoInvalid(s: string)
  {
    forall i :: 0 <= i < |s| ==> !IsInvalidChar(s[i])
  }

  /** The shape left by collapsing: the only run character is a single space. */
  predicate Collapsed(s: string)
  {
    (forall i :: 0 <= i < |s| ==> s[i] == ' ' || !InRun(s[i]))
    && (forall i :: 0 <= i < |s| - 1 ==> !(s[i] == ' ' && s[i + 1] == ' '))
  }

  /** `re.sub(r'[\\/:*?"<>|]', "_", s)` */
  function ReplaceInvalid(s: string): (r: string)
    ensures |r| == |s|
    ensures forall i :: 0 <= i < |s| ==> r[i] == (if IsInvalidChar(s[i]) then '_' else s[i])
  {
    seq(|s|, i requires 0 <= i < |s| => if IsInvalidChar(s[i]) then '_' else s[i])
  }

  /** `re.sub(r"[_\s]+", " ", s)`: every maximal run becomes one space. */
  function Collapse(s: string): (r: string)
    ensures r == [] <==> s == []
    ensures s != [] ==> r[0] == (if InRun(s[0]) then ' ' else s[0])
    decreases |s|
  {
    if s == [] then []
    else if InRun(s[0]) then [' '] + Collapse(LStripBy(s[1..], InRun))
    else [s[0]] + Collapse(s[1..])
  }

  /** Collapsing keeps only characters of its input, plus spaces. */
  lemma {:induction false} CollapseChars(s: string)
    ensures forall i :: 0 <= i < |Collapse(s)| ==> Collapse(s)[i] == ' ' || Collapse(s)[i] in s
    decreases |s|
  {
    if s != [] {
      if InRun(s[0]) {
        var t := LStripBy(s[1..], InRun);
        CollapseChars(t);
        assert forall c :: c in t ==> c in s;
      } else {
        CollapseChars(s[1..]);
      }
    }
  }

  /** After collapsing, the only run character left is a lone space. */
  lemma {:induction false} CollapseShape(s: string)
    ensures Collapsed(Collapse(s))
    decreases |s|
  {
    if s != [] {
      if InRun(s[0]) {
        var t := LStripBy(s[1..], InRun);
        CollapseShape(t);
        var r := Collapse(t);
        assert r != [] ==> r[0] != ' ';
        assert Collapse(s) == [' '] + r;
      } else {
        CollapseShape(s[1..]);
        assert Collapse(s) == [s[0]] + Collapse(s[1..]);
      }
    }
  }

  /** A collapsed string passes the collapse step unchanged. */
  lemma {:induction false} CollapseFixed(s: string)
    requires Collapsed(s)
    ensures Collapse(s) == s
    decreases |s|
  {
    if s != [] {
      var t := s[1..];
      CollapsedStep(s);
      CollapseFixed(t);
      assert s == [s[0]] + t;
    }
  }

  /** A collapsed string's tail is collapsed, and a run character at its head
      is a lone space. */
  lemma CollapsedStep(s: string)
    requires Collapsed(s) && s != []
    ensures Collapsed(s[1..])
    ensures InRun(s[0]) ==> s[0] == ' ' && LStripBy(s[1..], InRun) == s[1..]
  {
    SliceKeepsShape(s, 1, |s|);
    if InRun(s[0]) && |s| > 1 {
      assert s[1] == s[1..][0];
    }
  }

  /** Both shapes survive taking a slice. */
  lemma SliceKeepsShape(s: string, i: int, j: int)
    requires 0 <= i <= j <= |s|
    ensures NoInvalid(s) ==> NoInvalid(s[i..j])
    ensures Collapsed(s) ==> Collapsed(s[i..j])
  {
    assert forall k :: 0 <= k < j - i ==> s[i..j][k] == s[i + k];
  }

  const MaxNameLength := 200

  const UnknownGame := "Unknown Game"

  /** Everything `sanitize_filename` can return, and nothing else. */
  predicate Clean(s: string)
  {
    0 < |s| <= MaxNameLength && NoInvalid(s) && Collapsed(s)
    && !IsSpaceOrDot(s[0]) && !IsSpaceOrDot(s[|s| - 1])
  }

  /** The first three steps: replace invalid characters, collapse runs and
      `strip(" .")`. */
  function ReplaceCollapseStrip(title: string): (c: string)
    ensures NoInvalid(c) && Collapsed(c)
    ensures c != [] ==> !IsSpaceOrDot(c[0]) && !IsSpaceOrDot(c[|c| - 1])
  {
    var a := ReplaceInvalid(title);
    var b := Collapse(a);
    CollapseChars(a);
    CollapseShape(a);
    assert NoInvalid(b);
    var i := StripStart(b, IsSpaceOrDot);
    SliceKeepsShape(b, i, i + |StripBy(b, IsSpaceOrDot)|);
    StripBy(b, IsSpaceOrDot)
  }

  lemma UnknownGameClean()
    ensures Clean(UnknownGame)
  {
  }

  /** The last step: cut to 200 characters and strip spaces and dots again. */
  function Truncate(d: string): (e: string)
    requires d != [] && NoInvalid(d) && Collapsed(d)
    requires !IsSpaceOrDot(d[0]) && !IsSpaceOrDot(d[|d| - 1])
    ensures Clean(e)
  {
    if |d| > MaxNameLength then
      var e := RStripBy(d[..MaxNameLength], IsSpaceOrDot);
      assert d[..MaxNameLength][..|e|] == d[..|e|];
      SliceKeepsShape(d, 0, |e|);
      e
    else d
  }

  /** `sanitize_filename(title)`: replace invalid characters, collapse runs,
      strip spaces and dots, default when empty, cut at 200 characters. */
  function Sanitize(title: string): (r: string)
    ensures Clean(r)
  {
    var c := ReplaceCollapseStrip(title);
    UnknownGameClean();
    Truncate(if c == [] then UnknownGame else c)
  }

  /** A clean title passes every step unchanged. */
  lemma SanitizeClean(title: string)
    requires Clean(title)
    ensures Sanitize(title) == title
  {
    assert ReplaceInvalid(title) == title;
    CollapseFixed(title);
  }

  /** `sanitize_filename` returns its argument exactly when that argument is clean. */
  lemma SanitizeFixedIff(title: string)
    ensures Sanitize(title) == title <==> Clean(title)
  {
    if Clean(title) {
      SanitizeClean(title);
    }
  }

  lemma SanitizeIdempotent(title: string)
    ensures Sanitize(Sanitize(title)) == Sanitize(title)
  {
    SanitizeClean(Sanitize(title));
  }

  /** The output has no underscore, no whitespace but single spaces, and none
      of the invalid characters. */
  lemma SanitizeShape(title: string)
    ensures '_' !in Sanitize(title)
    ensures forall i :: 0 <= i < |Sanitize(title)| - 1 ==> !(Sanitize(title)[i] == ' ' && Sanitize(title)[i + 1] == ' ')
    ensures forall c :: IsInvalidChar(c) ==> c !in Sanitize(title)
  {
    var r := Sanitize(title);
    assert forall i :: 0 <= i < |r| ==> r[i] != '_';
  }

  lemma SanitizeExamples()
    ensures Sanitize("Super Mario Bros") == "Super Mario Bros"
    ensures Sanitize("") == UnknownGame
  {
    SanitizeClean("Super Mario Bros");
  }

  // ---------------------------------------------------------------------------
  // ROM paths

  /** The index of the first digit of `s`, or `|s|` when it has none. */
  function FirstDigitIndex(s: string): (i: nat)
    ensures i <= |s|
    ensures forall j :: 0 <= j < i ==> !IsDigit(s[j])
    ensures i < |s| ==> IsDigit(s[i])
  {
    if s == [] || IsDigit(s[0]) then 0 else 1 + FirstDigitIndex(s[1..])
  }

  /** `run` is a maximal digit run at `i`, with no digit before it. */
  predicate FirstRunAt(s: string, run: string, i: int)
  {
    OccursAt(s, run, i)
    && (forall j :: 0 <= j < i ==> !IsDigit(s[j]))
    && (i + |run| == |s| || !IsDigit(s[i + |run|]))
  }

  function DigitPrefix(s: string): (r: string)
    requires s != [] && IsDigit(s[0])
    ensures IsDigits(r) && StartsWith(s, r)
    ensures |r| == |s| || !IsDigit(s[|r|])
  {
    if |s| == 1 || !IsDigit(s[1]) then [s[0]] else [s[0]] + DigitPrefix(s[1..])
  }

  /** The first run of digits, as `re.search(r"(\d+)", s).group(1)`. */
  function FirstDigitRun(s: string): (r: Option<string>)
    ensures r.None? <==> forall i :: 0 <= i < |s| ==> !IsDigit(s[i])
    ensures r.Some? ==> IsDigits(r.value) && FirstRunAt(s, r.value, FirstDigitIndex(s))
  {
    var i := FirstDigitIndex(s);
    if i == |s| then None
    else
      var d := DigitPrefix(s[i..]);
      assert s[i..][..|d|] == s[i..i + |d|];
      Some(d)
  }

  /** The labels that mean "no disc suffix", compared lowercased. */
  const SingleDiscLabels: set<string> := {"single disc", "single", "1", "disc 1"}

  /** The " (Disc N)" part of a ROM file name. */
  function DiscSuffix(discNumber: Option<string>): (r: string)
    ensures discNumber.None? ==> r == ""
    ensures discNumber.Some? && Lower(discNumber.value) in SingleDiscLabels ==> r == ""
    ensures r != "" ==> discNumber.Some? && FirstDigitRun(discNumber.value).Some?
  {
    match discNumber
    case None => ""
    case Some(d) =>
      if d == "" || Lower(d) in SingleDiscLabels then ""
      else match FirstDigitRun(d)
        case None => ""
        case Some(n) => " (Disc " + n + ")"
  }

  /** The suffix is omitted exactly for an absent or empty label, a single-disc
      label, or a label without digits; otherwise it names the first digit run. */
  lemma DiscSuffixRule(discNumber: Option<string>)
    ensures DiscSuffix(discNumber) == "" <==>
      (discNumber.None? || discNumber.value == "" || Lower(discNumber.value) in SingleDiscLabels
       || forall i :: 0 <= i < |discNumber.value| ==> !IsDigit(discNumber.value[i]))
    ensures DiscSuffix(discNumber) != "" ==>
      var n := FirstDigitRun(discNumber.value);
      n.Some? && FirstRunAt(discNumber.value, n.value, FirstDigitIndex(discNumber.value))
      && DiscSuffix(discNumber) == " (Disc " + n.value + ")"
  {
  }

  /** The scraper labels the first disc of a multi-disc game "Disc 1": it gets
      no suffix, while "Disc 2" gets one. */
  lemma DiscOneQuirk()
    ensures DiscSuffix(Some("Disc 1")) == ""
    ensures DiscSuffix(Some("Disc 2")) == " (Disc 2)"
  {
    DiscOneNoSuffix();
    DiscTwoSuffix();
  }

  lemma DiscOneNoSuffix()
    ensures DiscSuffix(Some("Disc 1")) == ""
  {
    assert Lower("Disc 1") == "disc 1";
  }

  lemma DiscTwoSuffix()
    ensures DiscSuffix(Some("Disc 2")) == " (Disc 2)"
  {
    var d := "Disc 2";
    assert Lower(d) == "disc 2";
    assert Lower(d) !in SingleDiscLabels;
    assert FirstDigitIndex(d) == 5;
    assert d[5..] == "2";
    assert DigitPrefix("2") == "2";
    assert FirstDigitRun(d) == Some("2");
  }

  /** A non-empty extension gets a leading dot if it lacks one. */
  function NormalizeExtension(ext: string): (r: string)
    ensures r == "" <==> ext == ""
    ensures r != "" ==> r[0] == '.'
    ensures StartsWith(ext, ".") ==> r == ext
    ensures ext != "" && !StartsWith(ext, ".") ==> r == "." + ext
  {
    if ext != "" && !StartsWith(ext, ".") then "." + ext else ext
  }

  /** The file name part of `generate_rom_path`. */
  function RomFileName(title: string, discNumber: Option<string>, ext: string): string
  {
    Sanitize(title) + DiscSuffix(discNumber) + NormalizeExtension(ext)
  }

  /** `generate_rom_path`: base / folder / file name. */
  function GenerateRomPath(base: Path, category: string, title: string, discNumber: Option<string>, ext: string): (r: Path)
    ensures base.absolute ==> r.absolute
    ensures Valid(base) ==> Valid(r)
  {
    JoinPath(JoinPath(base, GetEsdeFolder(category)), RomFileName(title, discNumber, ext))
  }

  /** `generate_extraction_directory`: base / folder; title and disc are ignored. */
  function GenerateExtractionDirectory(base: Path, category: string, title: string, discNumber: Option<string>): (r: Path)
    ensures base.absolute ==> r.absolute
    ensures Valid(base) ==> Valid(r)
  {
    JoinPath(base, GetEsdeFolder(category))
  }

  lemma DiscSuffixNoSlash(discNumber: Option<string>)
    ensures '/' !in DiscSuffix(discNumber)
  {
    DiscSuffixRule(discNumber);
    var r := DiscSuffix(discNumber);
    if r != "" {
      var n := FirstDigitRun(discNumber.value).value;
      assert r == " (Disc " + n + ")";
      assert forall i :: 0 <= i < |n| ==> n[i] != '/';
      assert '/' !in " (Disc " && '/' !in ")";
    }
  }

  lemma RomFileNameIsSegment(title: string, discNumber: Option<string>, ext: string)
    requires '/' !in ext
    ensures ValidPart(RomFileName(title, discNumber, ext))
  {
    var s := Sanitize(title);
    var f := RomFileName(title, discNumber, ext);
    assert f[0] == s[0];
    DiscSuffixNoSlash(discNumber);
    assert '/' !in NormalizeExtension(ext);
  }

  /** For a folder that is one segment and an extension without '/', the ROM
      path is base + [folder, title + suffix + extension]: its parent is the
      extraction directory and its name the sanitised file name. */
  lemma RomPathShape(base: Path, category: string, title: string, discNumber: Option<string>, ext: string)
    requires Valid(base)
    requires ValidPart(GetEsdeFolder(category))
    requires '/' !in ext
    ensures GenerateRomPath(base, category, title, discNumber, ext)
      == Path(base.absolute, base.parts + [GetEsdeFolder(category), RomFileName(title, discNumber, ext)])
    ensures Parent(GenerateRomPath(base, category, title, discNumber, ext))
      == GenerateExtractionDirectory(base, category, title, discNumber)
    ensures Name(GenerateRomPath(base, category, title, discNumber, ext)) == RomFileName(title, discNumber, ext)
  {
    RomFileNameIsSegment(title, discNumber, ext);
    JoinTwoSegments(base, GetEsdeFolder(category), RomFileName(title, discNumber, ext));
  }

  lemma JoinTwoSegments(base: Path, folder: string, name: string)
    requires ValidPart(folder) && ValidPart(name)
    ensures JoinPath(JoinPath(base, folder), name) == Path(base.absolute, base.parts + [folder, name])
    ensures Parent(JoinPath(JoinPath(base, folder), name)) == JoinPath(base, folder)
    ensures Name(JoinPath(JoinPath(base, folder), name)) == name
  {
    JoinSegment(base, folder);
    JoinSegment(JoinPath(base, folder), name);
    var parts := base.parts + [folder, name];
    assert parts[..|parts| - 1] == base.parts + [folder];
  }

  /** Every category in the table has a one-segment folder. */
  lemma MappedFolderIsSegment(category: string)
    requires GetSystemMapping(category).Some?
    ensures ValidPart(GetEsdeFolder(category))
  {
  }

  /** The extension given (dot added) is the ROM path's suffix when it holds
      no further dot. */
  lemma RomPathSuffix(base: Path, category: string, title: string, discNumber: Option<string>, ext: string)
    requires Valid(base)
    requires ValidPart(GetEsdeFolder(category))
    requires ext != "" && '/' !in ext
    requires forall i :: 0 <= i < |ext| ==> ext[i] != '.' || i == 0
    requires ext != "."
    ensures Suffix(GenerateRomPath(base, category, title, discNumber, ext)) == NormalizeExtension(ext)
  {
    RomPathShape(base, category, title, discNumber, ext);
    RomFileNameSuffix(title, discNumber, ext);
  }

  lemma RomFileNameSuffix(title: string, discNumber: Option<string>, ext: string)
    requires ext != "" && '/' !in ext
    requires forall i :: 0 <= i < |ext| ==> ext[i] != '.' || i == 0
    requires ext != "."
    ensures SuffixOfName(RomFileName(title, discNumber, ext)) == NormalizeExtension(ext)
  {
    var san := Sanitize(title);
    assert |san| > 0;
    var stem := san + DiscSuffix(discNumber);
    var e := NormalizeExtension(ext);
    ExtensionDotFirst(ext);
    SuffixAfterStem(stem, e);
    assert RomFileName(title, discNumber, ext) == stem + e;
  }

  lemma ExtensionDotFirst(ext: string)
    requires ext != "" && ext != "."
    requires forall i :: 0 <= i < |ext| ==> ext[i] != '.' || i == 0
    ensures var e := NormalizeExtension(ext);
      |e| >= 2 && e[0] == '.' && forall j :: 0 < j < |e| ==> e[j] != '.'
  {
    var e := NormalizeExtension(ext);
    if !StartsWith(ext, ".") {
      assert e == "." + ext;
      forall j | 0 < j < |e|
        ensures e[j] != '.'
      {
        assert e[j] == ext[j - 1];
      }
    }
  }

  /** A name ending in a dotted extension without further dots, after a
      non-empty stem, has that extension as its suffix. */
  lemma SuffixAfterStem(stem: string, e: string)
    requires stem != [] && |e| >= 2 && e[0] == '.'
    requires forall j :: 0 < j < |e| ==> e[j] != '.'
    ensures SuffixOfName(stem + e) == e
  {
    var name := stem + e;
    assert forall j :: |stem| <= j < |name| ==> name[j] == e[j - |stem|];
    assert name[|stem|] == '.';
    assert LastDot(name) == |stem|;
    assert name[|stem|..] == e;
  }
}
