/**
 * The frozen records shared by the services: a disc (one downloadable file of
 * a game), a scraped game, and the application configuration.
 */
module Models {
  import opened Common
  import opened Paths

  /** One downloadable disc or file of a game. */
  datatype DiscInfo = DiscInfo(
    discNumber: string,
    mediaId: string,
    downloadUrl: string,
    fileSize: Option<int>)

  /** A game as scraped from a listing page and its detail page.  The scrape
      time is an opaque timestamp; the rating is on a 0-100 scale. */
  datatype GameData = GameData(
    title: string,
    gameUrl: string,
    category: string,
    discs: seq<DiscInfo>,
    scrapedAt: int,
    rating: Option<real>,
    ratingCount: Option<int>)

  /** The eight-field configuration record the configuration service reads
      and writes. */
  datatype AppConfig = AppConfig(
    targetLetters: seq<string>,
    downloadDirectory: Path,
    concurrentDownloads: int,
    requestDelay: real,
    logLevel: string,
    minimumScore: Option<real>,
    concurrentScrapes: int,
    autoQueueDownloads: bool)

  /** Progress of a scraping run as reported to the user interface. */
  datatype ScrapingProgress = ScrapingProgress(
    currentLetter: string,
    currentGame: string,
    gamesProcessed: int,
    totalGames: int,
    errors: seq<string>,
    gamesSkipped: int)

  /** The number of discs over a list of games. */
  function TotalDiscs(games: seq<GameData>): (n: nat)
    ensures games == [] ==> n == 0
    ensures |games| == 1 ==> n == |games[0].discs|
  {
    if games == [] then 0 else |games[0].discs| + TotalDiscs(games[1..])
  }

  lemma {:induction false} TotalDiscsConcat(a: seq<GameData>, b: seq<GameData>)
    ensures TotalDiscs(a + b) == TotalDiscs(a) + TotalDiscs(b)
  {
    if a == [] {
      assert a + b == b;
    } else {
      TotalDiscsConcat(a[1..], b);
      assert (a + b)[1..] == a[1..] + b;
    }
  }
}
