/**
 * The data view's pure logic: searching the scraped games by title and
 * category, and the display record of one game.  The table widgets are not
 * modelled.
 */
module DataView {
  import opened Common
  import opened Models
  import Numbers

  // ---------------------------------------------------------------------------
  // Search

  /** `search_query.lower().strip()` */
  function QueryKey(query: string): string
  {
    Strip(Lower(query))
  }

  /** `key in game.title.lower()` */
  predicate TitleMatches(key: string, game: GameData)
  {
    ContainsFrom(Lower(game.title), key, 0)
  }

  /** A category filter applies unless it is None, "" or "All". */
  predicate CategoryActive(category: Option<string>)
  {
    category.Some? && category.value != "" && category.value != "All"
  }

  /** The comprehension conditions as tests. */
  function TitleTest(query: string): GameData -> bool
  {
    (g: GameData) => TitleMatches(QueryKey(query), g)
  }

  function CategoryTest(category: Option<string>): GameData -> bool
    requires category.Some?
  {
    (g: GameData) => g.category == category.value
  }

  /** The title step: skipped for an empty query (before stripping). */
  function ByTitle(games: seq<GameData>, query: string): seq<GameData>
  {
    if query != "" then Filter(games, TitleTest(query)) else games
  }

  /** The category step. */
  function ByCategory(games: seq<GameData>, category: Option<string>): seq<GameData>
  {
    if CategoryActive(category) then Filter(games, CategoryTest(category)) else games
  }

  /** `filter_games`: the title step, then the category step. */
  function FilterGames(games: seq<GameData>, query: string, category: Option<string>): (r: seq<GameData>)
    ensures |r| <= |games|
    ensures forall k :: 0 <= k < |r| ==> r[k] in games
    ensures query == "" && !CategoryActive(category) ==> r == games
  {
    ByCategory(ByTitle(games, query), category)
  }

  /** The two tests a game must pass to be kept. */
  ghost predicate Keep(game: GameData, query: string, category: Option<string>)
  {
    && (query != "" ==> Contains(Lower(game.title), QueryKey(query)))
    && (CategoryActive(category) ==> game.category == category.value)
  }

  /** The result keeps the input's order: it is the input with some games
      left out. */
  lemma FilterKeepsOrder(games: seq<GameData>, query: string, category: Option<string>)
    ensures Subsequence(FilterGames(games, query, category), games)
  {
    var t := ByTitle(games, query);
    if query != "" {
      FilterSubsequence(games, TitleTest(query));
    } else {
      SubsequenceOfSelf(games);
    }
    if CategoryActive(category) {
      FilterSubsequence(t, CategoryTest(category));
      SubsequenceTrans(FilterGames(games, query, category), t, games);
    }
  }

  lemma {:induction false} SubsequenceOfSelf(xs: seq<GameData>)
    ensures Subsequence(xs, xs)
  {
    if xs != [] {
      SubsequenceOfSelf(xs[1..]);
    }
  }

  lemma {:induction false} SubsequenceTrans(a: seq<GameData>, b: seq<GameData>, c: seq<GameData>)
    requires Subsequence(a, b) && Subsequence(b, c)
    ensures Subsequence(a, c)
    decreases |c|
  {
    if a != [] {
      assert c != [];
      if b[0] == c[0] && Subsequence(b[1..], c[1..]) {
        if a[0] == b[0] && Subsequence(a[1..], b[1..]) {
          SubsequenceTrans(a[1..], b[1..], c[1..]);
        } else {
          SubsequenceTrans(a, b[1..], c[1..]);
        }
      } else {
        SubsequenceTrans(a, b, c[1..]);
      }
    }
  }

  /** A game is in the result exactly when it is in the input and passes
      both tests. */
  lemma FilterKeepsIff(games: seq<GameData>, query: string, category: Option<string>, g: GameData)
    ensures g in FilterGames(games, query, category) <==> g in games && Keep(g, query, category)
  {
    var t := ByTitle(games, query);
    if query != "" {
      FilterMember(games, TitleTest(query), g);
    }
    if CategoryActive(category) {
      FilterMember(t, CategoryTest(category), g);
    }
  }

  /** Every result passes both tests: its lowercased title contains the
      query's key and its category is the one asked for. */
  lemma ResultsMatch(games: seq<GameData>, query: string, category: Option<string>)
    ensures forall k :: 0 <= k < |FilterGames(games, query, category)| ==>
      Keep(FilterGames(games, query, category)[k], query, category)
  {
    var r := FilterGames(games, query, category);
    forall k | 0 <= k < |r|
      ensures Keep(r[k], query, category)
    {
      assert r[k] in r;
      FilterKeepsIff(games, query, category, r[k]);
    }
  }

  /** With no category filter, a query that strips to nothing keeps every
      game, in order. */
  lemma BlankSearchKeepsAll(games: seq<GameData>, query: string, category: Option<string>)
    requires QueryKey(query) == ""
    requires !CategoryActive(category)
    ensures FilterGames(games, query, category) == games
  {
    if query != "" {
      forall k | 0 <= k < |games|
        ensures TitleMatches(QueryKey(query), games[k])
      {
        assert OccursAt(Lower(games[k].title), "", 0);
      }
      FilterAll(games, TitleTest(query));
    }
  }

  /** Filtering by category first gives the same games. */
  lemma FiltersCommute(games: seq<GameData>, query: string, category: Option<string>)
    ensures ByTitle(ByCategory(games, category), query) == FilterGames(games, query, category)
  {
    if query != "" && CategoryActive(category) {
      FilterCommute(games, TitleTest(query), CategoryTest(category));
    }
  }

  /** Filtering the result again with the same search changes nothing. */
  lemma FilterIdempotentSearch(games: seq<GameData>, query: string, category: Option<string>)
    ensures FilterGames(FilterGames(games, query, category), query, category) == FilterGames(games, query, category)
  {
    if query != "" && CategoryActive(category) {
      FilterPairIdempotent(games, TitleTest(query), CategoryTest(category));
    } else if query != "" {
      FilterIdempotent(games, TitleTest(query));
    } else if CategoryActive(category) {
      FilterIdempotent(games, CategoryTest(category));
    }
  }

  // ---------------------------------------------------------------------------
  // Display record

  /** The display form of one disc. */
  datatype DiscDetail = DiscDetail(discNumber: string, mediaId: string, downloadUrl: string, fileSize: string)

  /** The display record of a game; `scraped_at` and the serialised disc list
      are not part of it. */
  datatype DisplayInfo = DisplayInfo(
    title: string,
    category: string,
    gameUrl: string,
    discCount: string,
    discs: seq<DiscDetail>)

  const KiB := 1024
  const MiB := 1024 * 1024
  const GiB := 1024 * 1024 * 1024

  /** The scale `_format_file_size` picks for a size: the value shown and
      its unit.  Only bytes are shown as an integer. */
  function Scale(size: int): (r: (real, string))
    ensures size >= KiB ==> 1.0 <= r.0
    ensures KiB <= size < GiB ==> r.0 < 1024.0
    ensures size >= GiB ==> r.1 == " GB" && r.0 * GiB as real == size as real
    ensures MiB <= size < GiB ==> r.1 == " MB" && r.0 * MiB as real == size as real
    ensures KiB <= size < MiB ==> r.1 == " KB" && r.0 * KiB as real == size as real
    ensures size < KiB ==> r == (size as real, " B")
  {
    if size >= GiB then (size as real / GiB as real, " GB")
    else if size >= MiB then (size as real / MiB as real, " MB")
    else if size >= KiB then (size as real / KiB as real, " KB")
    else (size as real, " B")
  }

  /** `_format_file_size`; `fixed1` is Python's `{:.1f}` formatting. */
  function FormatFileSize(size: Option<int>, fixed1: real -> string): (r: string)
    ensures size.None? ==> r == "Unknown"
    ensures size.Some? && size.value >= GiB ==> r == fixed1(size.value as real / GiB as real) + " GB"
    ensures size.Some? && MiB <= size.value < GiB ==> r == fixed1(size.value as real / MiB as real) + " MB"
    ensures size.Some? && KiB <= size.value < MiB ==> r == fixed1(size.value as real / KiB as real) + " KB"
    ensures size.Some? && size.value < KiB ==> r == IntToString(size.value) + " B"
  {
    match size
    case None => "Unknown"
    case Some(n) =>
      if n >= KiB then fixed1(Scale(n).0) + Scale(n).1 else IntToString(n) + " B"
  }

  /** The size column of a disc: "Unknown" for no size and for size 0,
      which Python treats as false. */
  function SizeText(size: Option<int>, fixed1: real -> string): (r: string)
    ensures size.None? || size.value == 0 ==> r == "Unknown"
  {
    if size.None? || size.value == 0 then "Unknown" else FormatFileSize(size, fixed1)
  }

  function DetailOf(d: DiscInfo, fixed1: real -> string): (r: DiscDetail)
    ensures r.discNumber == d.discNumber && r.mediaId == d.mediaId && r.downloadUrl == d.downloadUrl
  {
    DiscDetail(d.discNumber, d.mediaId, d.downloadUrl, SizeText(d.fileSize, fixed1))
  }

  /** The loop of `get_game_display_info` that lists the discs. */
  method DiscDetails(discs: seq<DiscInfo>, fixed1: real -> string) returns (details: seq<DiscDetail>)
    ensures |details| == |discs|
    ensures forall k :: 0 <= k < |discs| ==> details[k] == DetailOf(discs[k], fixed1)
  {
    details := [];
    var i := 0;
    while i < |discs|
      invariant 0 <= i <= |discs|
      invariant |details| == i
      invariant forall k :: 0 <= k < i ==> details[k] == DetailOf(discs[k], fixed1)
    {
      details := details + [DetailOf(discs[i], fixed1)];
      i := i + 1;
    }
  }

  /** `get_game_display_info`: the game's own fields, the disc count as text
      that reads back as the number of discs, and one detail per disc. */
  method GameDisplayInfo(game: GameData, fixed1: real -> string) returns (info: DisplayInfo)
    ensures info.title == game.title && info.category == game.category && info.gameUrl == game.gameUrl
    ensures info.discCount == IntToString(|game.discs|)
    ensures Numbers.ParseInt(info.discCount) == Some(|game.discs|)
    ensures |info.discs| == |game.discs|
    ensures forall k :: 0 <= k < |game.discs| ==> info.discs[k] == DetailOf(game.discs[k], fixed1)
  {
    var details := DiscDetails(game.discs, fixed1);
    Numbers.ParseIntOfString(|game.discs|);
    info := DisplayInfo(game.title, game.category, game.gameUrl, IntToString(|game.discs|), details);
  }
}
