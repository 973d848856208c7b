/**
 * The scraper's decisions, with the site as an input: a listing page is the
 * list of links in its game table, a detail page is the handful of values the
 * scraper reads from it (the title candidates, the download form's action, the
 * media ids found in its scripts, the hidden media-id input and the rating).
 * HTML parsing, base64 decoding and the rating's regular expressions happen
 * before these values are formed and are not part of the model.
 *
 * Games are scraped one after another, as with `concurrent_scrapes=1`.
 */
module GameScraper {
  import opened Common
  import opened Models
  import EsdeCompat

  const SiteBaseUrl := "https://vimm.net/vault"
  const DefaultDownloadBase := "https://dl3.vimm.net"
  const VaultPrefix := "/vault/"

  // ---------------------------------------------------------------------------
  // Listing pages

  /** An anchor of the game table: its `href` and its text. */
  datatype Link = Link(href: string, text: string)

  /** A fetched letter page; `gameTable` is None when the page has no game table. */
  datatype ListingPage = ListingPage(gameTable: Option<seq<Link>>)

  /** A link leads to a game when its target is "/vault/" and then digits only. */
  predicate IsGameLink(href: string)
    ensures IsGameLink(href) ==> |href| > |VaultPrefix| && IsDigit(href[|href| - 1])
  {
    StartsWith(href, VaultPrefix) && IsDigits(href[|VaultPrefix|..])
  }

  function GameUrl(href: string): string
  {
    "https://vimm.net" + href
  }

  /** Game links are exactly the vault prefix followed by a numeric id, and
      their URL is the vault base, a '/', and that id. */
  lemma GameLinkShape(href: string)
    ensures IsGameLink(href) <==> exists id :: IsDigits(id) && href == VaultPrefix + id
    ensures IsGameLink(href) ==>
      GameUrl(href) == SiteBaseUrl + "/" + href[|VaultPrefix|..] && IsDigits(href[|VaultPrefix|..])
  {
    if IsGameLink(href) {
      assert href == VaultPrefix + href[|VaultPrefix|..];
    }
    forall id | IsDigits(id) && href == VaultPrefix + id
      ensures IsGameLink(href)
    {
      assert href[..|VaultPrefix|] == VaultPrefix;
      assert href[|VaultPrefix|..] == id;
    }
  }

  /** The (URL, title) pairs the extraction pass collects, in page order. */
  function GameLinks(links: seq<Link>): (r: seq<(string, string)>)
    ensures |r| <= |links|
  {
    if links == [] then []
    else
      var l := links[|links| - 1];
      GameLinks(links[..|links| - 1]) + (if IsGameLink(l.href) then [(GameUrl(l.href), Strip(l.text))] else [])
  }

  /** The number of game links the counting pass finds. */
  function LinkCount(links: seq<Link>): nat
  {
    if links == [] then 0
    else LinkCount(links[..|links| - 1]) + (if IsGameLink(links[|links| - 1].href) then 1 else 0)
  }

  /** Both passes use the same test: the extraction pass visits exactly as
      many games as the counting pass counted. */
  lemma {:induction false} GameLinksCounted(links: seq<Link>)
    ensures |GameLinks(links)| == LinkCount(links)
  {
    if links != [] {
      GameLinksCounted(links[..|links| - 1]);
    }
  }

  /** Every collected URL is a game URL under the vault base. */
  predicate IsGameUrl(u: string)
  {
    StartsWith(u, SiteBaseUrl + "/") && IsDigits(u[|SiteBaseUrl| + 1..])
  }

  lemma {:induction false} GameLinksAreGameUrls(links: seq<Link>)
    ensures forall k :: 0 <= k < |GameLinks(links)| ==> IsGameUrl(GameLinks(links)[k].0)
  {
    if links != [] {
      var init := links[..|links| - 1];
      var l := links[|links| - 1];
      GameLinksAreGameUrls(init);
      if IsGameLink(l.href) {
        GameLinkShape(l.href);
        var u := GameUrl(l.href);
        assert u[..|SiteBaseUrl| + 1] == SiteBaseUrl + "/";
        assert u[|SiteBaseUrl| + 1..] == l.href[|VaultPrefix|..];
      }
    }
  }

  // ---------------------------------------------------------------------------
  // Detail pages

  /** The values read from a game page.  `canvasTitle` is the decoded `data-v`
      text of the title canvas (None when the canvas or its attribute is absent
      or does not decode); `ogTitle` the `og:title` content; `titleTag` and `h1`
      the text of those elements; `formAction` the download form's action;
      `scriptMediaIds` the ids matched in the page's scripts, in order;
      `mediaIdInput` the value of the hidden `mediaId` input. */
  datatype DetailPage = DetailPage(
    canvasTitle: Option<string>,
    ogTitle: Option<string>,
    titleTag: Option<string>,
    h1: Option<string>,
    formAction: Option<string>,
    scriptMediaIds: seq<string>,
    mediaIdInput: Option<string>,
    rating: Option<real>,
    ratingCount: Option<int>)

  predicate IsSlash(c: char) { c == '/' }

  /** The download server: a protocol-relative action gets "https:", an
      absolute one is kept, both without trailing '/'; anything else, or no
      action, leaves the default server. */
  function DownloadBase(action: Option<string>): (r: string)
    ensures action.Some? && StartsWith(action.value, "//") ==> r == "https:" + RStripBy(action.value, IsSlash)
    ensures action.Some? && !StartsWith(action.value, "//") && StartsWith(action.value, "http") ==>
      r == RStripBy(action.value, IsSlash)
    ensures action.None? || !(StartsWith(action.value, "//") || StartsWith(action.value, "http")) ==>
      r == DefaultDownloadBase
  {
    if action.Some? && action.value != "" then
      var a := action.value;
      if StartsWith(a, "//") then "https:" + RStripBy(a, IsSlash)
      else if StartsWith(a, "http") then RStripBy(a, IsSlash)
      else DefaultDownloadBase
    else DefaultDownloadBase
  }

  /** Whatever the form says, the base is an http(s) address with no trailing
      '/', so appending "/?mediaId=" never doubles the slash. */
  lemma DownloadBaseShape(action: Option<string>)
    ensures StartsWith(DownloadBase(action), "http")
    ensures DownloadBase(action)[|DownloadBase(action)| - 1] != '/'
  {
    if action.Some? && action.value != "" {
      var a := action.value;
      var s := RStripBy(a, IsSlash);
      if StartsWith(a, "//") {
        assert ("https:" + s)[..4] == "http";
      } else if StartsWith(a, "http") {
        assert !IsSlash(a[3]);
        assert |s| >= 4;
        assert s[..4] == a[..4];
      }
    }
  }

  function MediaUrl(base: string, id: string): string
  {
    base + "/?mediaId=" + id
  }

  /** The label of the `idx`-th (1-based) of `count` script media ids. */
  function DiscLabel(idx: nat, count: nat): string
  {
    if count > 1 then "Disc " + NatToString(idx) else "Disc 1"
  }

  function ScriptDisc(base: string, ids: seq<string>, k: nat): DiscInfo
    requires k < |ids|
  {
    DiscInfo(DiscLabel(k + 1, |ids|), ids[k], MediaUrl(base, ids[k]), None)
  }

  /** The disc list of `_extract_disc_info`: one disc per script media id, or
      else one disc from the hidden input, or else none. */
  function DiscList(base: string, ids: seq<string>, input: Option<string>): (r: seq<DiscInfo>)
    ensures |r| == (if ids != [] then |ids| else if input.Some? then 1 else 0)
    ensures ids == [] && input.Some? ==> r[0].mediaId == input.value
  {
    if ids != [] then seq(|ids|, k requires 0 <= k < |ids| => ScriptDisc(base, ids, k))
    else if input.Some? then [DiscInfo("Disc 1", input.value, MediaUrl(base, input.value), None)]
    else []
  }

  /** With script ids, the k-th disc is "Disc k+1" for the k-th id, whether
      there is one id or several; its size is unknown. */
  lemma DiscListFromScripts(base: string, ids: seq<string>, input: Option<string>)
    requires ids != []
    ensures var r := DiscList(base, ids, input);
      |r| == |ids|
      && forall k :: 0 <= k < |ids| ==>
           r[k].discNumber == "Disc " + NatToString(k + 1) && r[k].mediaId == ids[k]
           && r[k].downloadUrl == MediaUrl(base, ids[k]) && r[k].fileSize.None?
  {
    assert NatToString(1) == "1";
  }

  /** Without script ids the hidden input gives exactly one "Disc 1", and
      without it the list is empty. */
  lemma DiscListFallback(base: string, input: Option<string>)
    ensures input.Some? ==> DiscList(base, [], input) == [DiscInfo("Disc 1", input.value, MediaUrl(base, input.value), None)]
    ensures input.None? ==> DiscList(base, [], input) == []
  {
  }

  /** Since the scraper labels the first disc "Disc 1", the ROM path of the
      first disc of a multi-disc game has no disc suffix while the second has
      " (Disc 2)". */
  lemma ScrapedDiscSuffixes(base: string, ids: seq<string>, input: Option<string>)
    requires |ids| >= 2
    ensures EsdeCompat.DiscSuffix(Some(DiscList(base, ids, input)[0].discNumber)) == ""
    ensures EsdeCompat.DiscSuffix(Some(DiscList(base, ids, input)[1].discNumber)) == " (Disc 2)"
  {
    var r := DiscList(base, ids, input);
    assert r[0].discNumber == "Disc 1";
    assert r[1].discNumber == "Disc 2" by {
      assert NatToString(2) == "2";
    }
    EsdeCompat.DiscOneQuirk();
  }

  // ---------------------------------------------------------------------------
  // Titles

  const VaultTitlePrefix := "The Vault:"

  /** `\s*\([^)]+\)$` at the start of `s`: optional whitespace, then the
      parenthesised tail. */
  function SystemTail(s: string): bool
    decreases |s|
  {
    if s != [] && IsSpace(s[0]) then SystemTail(s[1..]) else ParenTail(s)
  }

  /** `\([^)]+\)$`: a parenthesised group without ')' inside that ends the
      text, or is followed only by a final newline. */
  predicate ParenTail(r: string)
  {
    |r| >= 3 && r[0] == '(' && (ClosesAt(r, |r| - 1) || (r[|r| - 1] == '\n' && ClosesAt(r, |r| - 2)))
  }

  predicate ClosesAt(r: string, j: int)
  {
    2 <= j < |r| && r[j] == ')' && forall i :: 1 <= i < j ==> r[i] != ')'
  }

  lemma {:induction false} SystemTailStrip(s: string)
    ensures SystemTail(s) == ParenTail(LStripBy(s, IsSpace))
    decreases |s|
  {
    if s != [] && IsSpace(s[0]) {
      SystemTailStrip(s[1..]);
    }
  }

  predicate NoNewline(t: string, i: int, j: int)
    requires 0 <= i <= j <= |t|
  {
    forall m :: i <= m < j ==> t[m] != '\n'
  }

  /** The lazy group `(.+?)` can end `k` characters after `a`: it is not
      empty, holds no newline, and the rest of the pattern matches after it. */
  predicate GroupAt(t: string, a: nat, k: nat)
  {
    1 <= k && a + k <= |t| && NoNewline(t, a, a + k) && SystemTail(t[a + k..])
  }

  /** The whole pattern matches with the group at `t[a..a+k]`. */
  predicate VaultMatchAt(t: string, a: nat, k: nat)
  {
    |VaultTitlePrefix| <= a <= |t| && (forall i :: |VaultTitlePrefix| <= i < a ==> IsSpace(t[i])) && GroupAt(t, a, k)
  }

  /** The shortest group length from `k` on. */
  function LazyGroup(t: string, a: nat, k: nat): (r: Option<nat>)
    requires 1 <= k && a + k <= |t| + 1
    requires NoNewline(t, a, a + k - 1)
    ensures r.Some? ==> k <= r.value && GroupAt(t, a, r.value) && forall j: nat :: k <= j < r.value ==> !GroupAt(t, a, j)
    ensures r.None? ==> forall j: nat :: k <= j ==> !GroupAt(t, a, j)
    decreases |t| + 1 - (a + k)
  {
    if a + k > |t| then None
    else if t[a + k - 1] == '\n' then None
    else if SystemTail(t[a + k..]) then Some(k)
    else LazyGroup(t, a, k + 1)
  }

  /** The greedy `\s*` before the group: the longest whitespace run first,
      giving back one character at a time. */
  function LeadIn(t: string, a: nat): (r: Option<(nat, nat)>)
    requires |VaultTitlePrefix| <= a <= |t|
    requires forall i :: |VaultTitlePrefix| <= i < a ==> IsSpace(t[i])
    ensures r.None? ==> forall b: nat, k: nat :: b <= a ==> !VaultMatchAt(t, b, k)
    ensures r.Some? ==>
      r.value.0 <= a && VaultMatchAt(t, r.value.0, r.value.1)
      && (forall b: nat, k: nat :: r.value.0 < b <= a ==> !VaultMatchAt(t, b, k))
      && (forall k: nat :: VaultMatchAt(t, r.value.0, k) ==> r.value.1 <= k)
    decreases a
  {
    match LazyGroup(t, a, 1)
    case Some(n) => Some((a, n))
    case None => if a == |VaultTitlePrefix| then None else LeadIn(t, a - 1)
  }

  /** The end of the whitespace run after the prefix. */
  function BlankEnd(t: string): (e: nat)
    requires |VaultTitlePrefix| <= |t|
    ensures |VaultTitlePrefix| <= e <= |t|
    ensures forall i :: |VaultTitlePrefix| <= i < e ==> IsSpace(t[i])
    ensures e < |t| ==> !IsSpace(t[e])
  {
    var p := |VaultTitlePrefix|;
    var rest := LStripBy(t[p..], IsSpace);
    assert forall i :: p <= i < |t| - |rest| ==> t[i] == t[p..][i - p];
    assert |rest| > 0 ==> t[|t| - |rest|] == rest[0];
    |t| - |rest|
  }

  /** The match the engine reports: the group after the longest whitespace
      run that works, as short as it can be there. */
  ghost predicate PreferredMatch(t: string, a: nat, n: nat)
  {
    VaultMatchAt(t, a, n)
    && (forall b: nat, k: nat :: a < b ==> !VaultMatchAt(t, b, k))
    && (forall k: nat :: VaultMatchAt(t, a, k) ==> n <= k)
  }

  /** The span of `re.match(r"The Vault:\s*(.+?)\s*\([^)]+\)$", t).group(1)`:
      there is one iff some split fits the pattern, and it is the preferred
      one. */
  function VaultMatch(t: string): (r: Option<(nat, nat)>)
    ensures r.None? ==> !StartsWith(t, VaultTitlePrefix) || forall a: nat, k: nat :: !VaultMatchAt(t, a, k)
    ensures r.Some? ==> StartsWith(t, VaultTitlePrefix) && PreferredMatch(t, r.value.0, r.value.1)
  {
    if !StartsWith(t, VaultTitlePrefix) then None
    else
      var e := BlankEnd(t);
      NoMatchPastBlank(t);
      LeadIn(t, e)
  }

  /** The title the page-title strategy reads: the group's text. */
  function VaultTitleMatch(t: string): (r: Option<string>)
    ensures r.Some? ==> r.value != "" && '\n' !in r.value
  {
    match VaultMatch(t)
    case None => None
    case Some((a, n)) =>
      GroupText(t, a, n);
      Some(t[a..a + n])
  }

  lemma GroupText(t: string, a: nat, n: nat)
    requires GroupAt(t, a, n)
    ensures t[a..a + n] != "" && '\n' !in t[a..a + n]
  {
    var s := t[a..a + n];
    forall i | 0 <= i < |s|
      ensures s[i] != '\n'
    {
      assert s[i] == t[a + i];
    }
  }

  lemma NoMatchPastBlank(t: string)
    requires |VaultTitlePrefix| <= |t|
    ensures forall b: nat, k: nat :: BlankEnd(t) < b ==> !VaultMatchAt(t, b, k)
  {
    var e := BlankEnd(t);
    forall b: nat, k: nat | e < b
      ensures !VaultMatchAt(t, b, k)
    {
      if e < |t| {
        assert !IsSpace(t[e]);
      }
    }
  }

  /** A page title "The Vault: X (Y)" yields X when X is a plain name (no
      newline, no '(' and no surrounding blanks) and Y is non-empty without
      ')'. */
  function VaultTitleText(x: string, y: string): string
  {
    (VaultTitlePrefix + " ") + x + (" (" + y + ")")
  }

  lemma VaultTitleOf(x: string, y: string)
    requires x != [] && !IsSpace(x[0]) && !IsSpace(x[|x| - 1])
    requires '\n' !in x && '(' !in x
    requires y != [] && ')' !in y
    ensures VaultTitleMatch(VaultTitleText(x, y)) == Some(x)
  {
    var t := VaultTitleText(x, y);
    NameMatches(t, x, y);
    NameIsShortest(t, x, y);
    assert StartsWith(t, VaultTitlePrefix);
    ReportedMatch(t, 11, |x|);
    MiddleSlice(VaultTitlePrefix + " ", x, " (" + y + ")");
  }

  lemma MiddleSlice(a: string, b: string, c: string)
    ensures (a + b + c)[|a|..|a| + |b|] == b
    ensures (a + b + c)[|a| + |b|..] == c
  {
  }

  lemma NameMatches(t: string, x: string, y: string)
    requires x != [] && !IsSpace(x[0]) && '\n' !in x
    requires y != [] && ')' !in y
    requires t == VaultTitleText(x, y)
    ensures VaultMatchAt(t, 11, |x|)
    ensures forall b: nat, k: nat :: 11 < b ==> !VaultMatchAt(t, b, k)
  {
    MiddleSlice(VaultTitlePrefix + " ", x, " (" + y + ")");
    TailOfName(y);
    assert t[10] == ' ';
    assert forall m :: 11 <= m < 11 + |x| ==> t[m] == x[m - 11];
    assert t[11] == x[0];
  }

  lemma NameIsShortest(t: string, x: string, y: string)
    requires x != [] && !IsSpace(x[|x| - 1]) && '(' !in x
    requires t == VaultTitleText(x, y)
    ensures forall k: nat :: VaultMatchAt(t, 11, k) ==> |x| <= k
  {
    forall k: nat | VaultMatchAt(t, 11, k)
      ensures |x| <= k
    {
      if k < |x| {
        TailNotInsideName(t, k, x, y);
      }
    }
  }

  /** A match with nothing to its right, and shortest at its start, is the
      one reported. */
  lemma ReportedMatch(t: string, a: nat, n: nat)
    requires StartsWith(t, VaultTitlePrefix)
    requires VaultMatchAt(t, a, n)
    requires forall b: nat, k: nat :: a < b ==> !VaultMatchAt(t, b, k)
    requires forall k: nat :: VaultMatchAt(t, a, k) ==> n <= k
    ensures VaultMatch(t) == Some((a, n))
  {
    var r := VaultMatch(t);
    assert r.None? ==> !VaultMatchAt(t, a, n);
    assert r.Some?;
    var a', n' := r.value.0, r.value.1;
    assert PreferredMatch(t, a', n');
    assert VaultMatchAt(t, a', n');
    assert a' < a ==> !VaultMatchAt(t, a, n);
    assert a' == a;
    assert n' <= n && n <= n';
  }

  lemma TailOfName(y: string)
    requires y != [] && ')' !in y
    ensures SystemTail(" (" + y + ")")
  {
    var s := " (" + y + ")";
    assert s[1..] == "(" + y + ")";
    assert ClosesAt(s[1..], |s| - 2);
    assert SystemTail(s[1..]);
  }

  lemma TailNotInsideName(t: string, k: nat, x: string, y: string)
    requires x != [] && !IsSpace(x[|x| - 1]) && '(' !in x
    requires t == VaultTitleText(x, y)
    requires 1 <= k < |x|
    ensures !SystemTail(t[11 + k..])
  {
    var s := t[11 + k..];
    SystemTailStrip(s);
    assert s[..|x| - k] == x[k..];
  }

  // ---------------------------------------------------------------------------
  // Title strategies

  /** The page-title strategy: the stripped title text, when it has the vault
      form. */
  function PageTitleName(tag: Option<string>): (r: Option<string>)
    ensures r.Some? ==> r.value != ""
  {
    if tag.Some? then VaultTitleMatch(Strip(tag.value)) else None
  }

  function H1Name(h1: Option<string>): Option<string>
  {
    if h1.Some? then Some(Strip(h1.value)) else None
  }

  /** `_extract_game_title`: the canvas text, the `og:title` content, the
      vault page title, then the `h1` text, the first that gives a non-empty
      title. */
  function ExtractGameTitle(p: DetailPage): (r: Option<string>)
    ensures r.Some? ==> r.value != ""
  {
    if p.canvasTitle.Some? && p.canvasTitle.value != "" then p.canvasTitle
    else if p.ogTitle.Some? && p.ogTitle.value != "" then p.ogTitle
    else if PageTitleName(p.titleTag).Some? then PageTitleName(p.titleTag)
    else if p.h1.Some? && Strip(p.h1.value) != "" then Some(Strip(p.h1.value))
    else None
  }

  predicate Usable(c: Option<string>) { c.Some? && c.value != "" }

  /** The strategies' results, in the order they are tried. */
  function TitleCandidates(p: DetailPage): seq<Option<string>>
  {
    [p.canvasTitle, p.ogTitle, PageTitleName(p.titleTag), H1Name(p.h1)]
  }

  /** The index of the first usable candidate, or the number of candidates. */
  function FirstUsable(cs: seq<Option<string>>): (i: nat)
    ensures i <= |cs|
    ensures forall j :: 0 <= j < i ==> !Usable(cs[j])
    ensures i < |cs| ==> Usable(cs[i])
  {
    if cs == [] then 0 else if Usable(cs[0]) then 0 else FirstUsable(cs[1..]) + 1
  }

  /** The strategies are tried in order and the first non-empty result wins;
      no title at all when none gives one. */
  lemma TitleStrategyOrder(p: DetailPage)
    ensures var cs := TitleCandidates(p);
      var i := FirstUsable(cs);
      ExtractGameTitle(p) == (if i < |cs| then cs[i] else None)
  {
    var cs := TitleCandidates(p);
    var i := FirstUsable(cs);
    if Usable(cs[0]) {
      assert i == 0;
    } else if Usable(cs[1]) {
      assert i == 1;
    } else if Usable(cs[2]) {
      assert i == 2;
    } else if Usable(cs[3]) {
      assert i == 3;
    } else {
      assert i == 4;
    }
  }

  // ---------------------------------------------------------------------------
  // One game

  /** The minimum-score filter: with no minimum, or no rating, the game is
      kept; otherwise it is kept unless its rating is below the minimum. */
  predicate Admits(minimumScore: Option<real>, rating: Option<real>)
    ensures minimumScore.None? || rating.None? ==> Admits(minimumScore, rating)
    ensures minimumScore.Some? && rating.Some? ==> (Admits(minimumScore, rating) <==> rating.value >= minimumScore.value)
  {
    minimumScore.None? || rating.None? || !(rating.value < minimumScore.value)
  }

  /** Raising the minimum only drops more games; no minimum drops none. */
  lemma AdmitsMonotone(low: real, high: real, rating: Option<real>)
    requires low <= high
    ensures Admits(Some(high), rating) ==> Admits(Some(low), rating)
    ensures Admits(None, rating)
    ensures rating.Some? ==> (Admits(Some(high), rating) <==> high <= rating.value)
  {
  }

  /** `_extract_category_from_url`: the category being scraped. */
  function GameCategory(current: string): (r: string)
    ensures r != ""
    ensures current != "" ==> r == current
  {
    if current != "" then current else "Unknown"
  }

  /** `scrape_game_details` on a fetched page (or the exception text of the
      fetch). */
  function GameDetails(url: string, fetched: Result<DetailPage>, category: string, now: int): (r: Result<GameData>)
    ensures fetched.Err? ==> r == Err(fetched.error)
    ensures fetched.Ok? && ExtractGameTitle(fetched.value).None? ==> r == Err(TitleNotFound)
    ensures r.Ok? ==>
      var p := fetched.value;
      r.value.title != "" && Some(r.value.title) == ExtractGameTitle(p) && r.value.gameUrl == url
      && r.value.category == GameCategory(category)
      && r.value.discs == DiscList(DownloadBase(p.formAction), p.scriptMediaIds, p.mediaIdInput)
      && r.value.scrapedAt == now && r.value.rating == p.rating && r.value.ratingCount == p.ratingCount
  {
    match fetched
    case Err(e) => Err(e)
    case Ok(p) =>
      match ExtractGameTitle(p)
      case None => Err(TitleNotFound)
      case Some(title) =>
        Ok(GameData(title, url, GameCategory(category),
                    DiscList(DownloadBase(p.formAction), p.scriptMediaIds, p.mediaIdInput),
                    now, p.rating, p.ratingCount))
  }

  const TitleNotFound := "Game title not found on page"

  // ---------------------------------------------------------------------------
  // A run as a sequence of events

  /** The site: a letter page or a game page for a URL, or the text of the
      exception fetching it raised.  A letter page is fetched twice in a run,
      once by the counting pass (`countListing`) and once by the scraping pass
      (`listing`), and the two fetches need not give the same answer. */
  datatype Site = Site(countListing: string -> Result<ListingPage>, listing: string -> Result<ListingPage>,
                       details: string -> Result<DetailPage>)

  function LetterPageUrl(category: string, letter: string): string
  {
    SiteBaseUrl + "/" + category + "/" + letter
  }

  /** What happens at one step of a run: a letter is started, a game is
      processed (and yielded), skipped for its score, or fails, or a letter
      page fails. */
  datatype ScrapeEvent =
    | Began(letter: string)
    | Processed(title: string, game: GameData)
    | Skipped(title: string)
    | GameFailed(title: string, message: string)
    | LetterFailed(letter: string, message: string)

  function GameErrorText(title: string, message: string): (r: string)
    ensures OccursAt(r, title, 23)
  {
    var r := "Failed to scrape game '" + title + "': " + message;
    assert r[23..23 + |title|] == title;
    r
  }

  function LetterErrorText(letter: string, message: string): (r: string)
    ensures OccursAt(r, letter, 24)
  {
    var r := "Failed to scrape letter " + letter + ": " + message;
    assert r[24..24 + |letter|] == letter;
    r
  }

  /** The outcome of `scrape_single_game` for one (URL, link title) pair. */
  function LinkOutcome(details: string -> Result<DetailPage>, minimumScore: Option<real>, category: string,
                       now: int, link: (string, string)): (e: ScrapeEvent)
    ensures e.Processed? || e.Skipped? || e.GameFailed?
    ensures !e.GameFailed? ==> e.title == link.1
    ensures e.GameFailed? ==> e.title == link.1
    ensures e.Processed? ==>
      Admits(minimumScore, e.game.rating) && e.game.title != "" && e.game.category == GameCategory(category)
      && e.game.gameUrl == link.0
  {
    match GameDetails(link.0, details(link.0), category, now)
    case Err(m) => GameFailed(link.1, m)
    case Ok(g) => if Admits(minimumScore, g.rating) then Processed(link.1, g) else Skipped(link.1)
  }

  /** The outcomes of the games of one page, in link order. */
  function LinkOutcomes(details: string -> Result<DetailPage>, minimumScore: Option<real>, category: string,
                        now: int, urls: seq<(string, string)>): (r: seq<ScrapeEvent>)
    ensures |r| == |urls|
    ensures forall k :: 0 <= k < |urls| ==> r[k] == LinkOutcome(details, minimumScore, category, now, urls[k])
  {
    if urls == [] then []
    else
      var init := urls[..|urls| - 1];
      assert forall k :: 0 <= k < |init| ==> init[k] == urls[k];
      LinkOutcomes(details, minimumScore, category, now, init)
      + [LinkOutcome(details, minimumScore, category, now, urls[|urls| - 1])]
  }

  lemma LinkOutcomesSnoc(details: string -> Result<DetailPage>, minimumScore: Option<real>, category: string,
                         now: int, urls: seq<(string, string)>, i: nat)
    requires i < |urls|
    ensures LinkOutcomes(details, minimumScore, category, now, urls[..i + 1])
      == LinkOutcomes(details, minimumScore, category, now, urls[..i])
         + [LinkOutcome(details, minimumScore, category, now, urls[i])]
  {
    assert urls[..i + 1][..i] == urls[..i];
  }

  /** The game events of a letter page that loaded. */
  function PageEvents(site: Site, category: string, minimumScore: Option<real>, now: int, letter: string): seq<ScrapeEvent>
  {
    match site.listing(LetterPageUrl(category, letter))
    case Err(_) => []
    case Ok(page) =>
      match page.gameTable
      case None => []
      case Some(links) =>
        LinkOutcomes(site.details, minimumScore, category, now, GameLinks(links))
  }

  function LetterEvents(site: Site, category: string, minimumScore: Option<real>, now: int, letter: string): seq<ScrapeEvent>
  {
    [Began(letter)]
    + match site.listing(LetterPageUrl(category, letter))
      case Err(m) => [LetterFailed(letter, m)]
      case Ok(_) => PageEvents(site, category, minimumScore, now, letter)
  }

  /** The events of the letter pass of `scrape_category`, letter by letter. */
  function CategoryEvents(site: Site, category: string, minimumScore: Option<real>, now: int,
                          letters: seq<string>): seq<ScrapeEvent>
  {
    if letters == [] then []
    else CategoryEvents(site, category, minimumScore, now, letters[..|letters| - 1])
         + LetterEvents(site, category, minimumScore, now, letters[|letters| - 1])
  }

  lemma CategoryEventsSnoc(site: Site, category: string, minimumScore: Option<real>, now: int,
                           letters: seq<string>, i: nat)
    requires i < |letters|
    ensures CategoryEvents(site, category, minimumScore, now, letters[..i + 1])
      == CategoryEvents(site, category, minimumScore, now, letters[..i])
         + LetterEvents(site, category, minimumScore, now, letters[i])
  {
    assert letters[..i + 1][..i] == letters[..i];
  }

  /** What the progress counters record for one event. */
  function Record(p: ScrapingProgress, e: ScrapeEvent): ScrapingProgress
  {
    match e
    case Began(l) => p.(currentLetter := l)
    case Processed(t, _) => p.(currentGame := t, gamesProcessed := p.gamesProcessed + 1)
    case Skipped(t) => p.(currentGame := t, gamesSkipped := p.gamesSkipped + 1)
    case GameFailed(t, m) => p.(currentGame := t, errors := p.errors + [GameErrorText(t, m)])
    case LetterFailed(l, m) => p.(errors := p.errors + [LetterErrorText(l, m)])
  }

  function Replay(p: ScrapingProgress, evs: seq<ScrapeEvent>): ScrapingProgress
  {
    if evs == [] then p else Record(Replay(p, evs[..|evs| - 1]), evs[|evs| - 1])
  }

  /** The games a run yields, in order. */
  function Yielded(evs: seq<ScrapeEvent>): seq<GameData>
  {
    if evs == [] then []
    else Yielded(evs[..|evs| - 1]) + (if evs[|evs| - 1].Processed? then [evs[|evs| - 1].game] else [])
  }

  predicate NotBegan(e: ScrapeEvent) { !e.Began? }

  /** The number of outcomes among the events. */
  function Settled(evs: seq<ScrapeEvent>): nat
  {
    |Filter(evs, NotBegan)|
  }

  /** Letters of the list whose page could not be fetched. */
  function FailedLetters(listing: string -> Result<ListingPage>, category: string, letters: seq<string>): nat
  {
    if letters == [] then 0
    else FailedLetters(listing, category, letters[..|letters| - 1])
         + (if listing(LetterPageUrl(category, letters[|letters| - 1])).Err? then 1 else 0)
  }

  /** The game links a pass finds on a letter page, 0 when the fetch fails. */
  function LetterLinkCount(listing: string -> Result<ListingPage>, category: string, letter: string): nat
  {
    match listing(LetterPageUrl(category, letter))
    case Err(_) => 0
    case Ok(page) =>
      match page.gameTable
      case None => 0
      case Some(links) => LinkCount(links)
  }

  /** `_count_total_games` over the fetches of `listing`: a letter whose page
      fails counts 0. */
  function TotalLinks(listing: string -> Result<ListingPage>, category: string, letters: seq<string>): nat
  {
    if letters == [] then 0
    else TotalLinks(listing, category, letters[..|letters| - 1]) + LetterLinkCount(listing, category, letters[|letters| - 1])
  }

  lemma {:induction false} ReplayConcat(p: ScrapingProgress, a: seq<ScrapeEvent>, b: seq<ScrapeEvent>)
    ensures Replay(p, a + b) == Replay(Replay(p, a), b)
    decreases |b|
  {
    if b == [] {
      assert a + b == a;
    } else {
      ReplayConcat(p, a, b[..|b| - 1]);
      assert (a + b)[..|a + b| - 1] == a + b[..|b| - 1];
    }
  }

  lemma {:induction false} YieldedConcat(a: seq<ScrapeEvent>, b: seq<ScrapeEvent>)
    ensures Yielded(a + b) == Yielded(a) + Yielded(b)
    decreases |b|
  {
    if b == [] {
      assert a + b == a;
    } else {
      YieldedConcat(a, b[..|b| - 1]);
      assert (a + b)[..|a + b| - 1] == a + b[..|b| - 1];
    }
  }

  /** Every outcome adds exactly one to processed, skipped or the error list,
      and every processed game is yielded; the total is not touched. */
  lemma {:induction false} ReplayTally(p: ScrapingProgress, evs: seq<ScrapeEvent>)
    ensures var q := Replay(p, evs);
      q.gamesProcessed + q.gamesSkipped + |q.errors| == p.gamesProcessed + p.gamesSkipped + |p.errors| + Settled(evs)
      && q.gamesProcessed == p.gamesProcessed + |Yielded(evs)|
      && q.totalGames == p.totalGames
  {
    if evs != [] {
      var init := evs[..|evs| - 1];
      ReplayTally(p, init);
      assert evs == init + [evs[|evs| - 1]];
      FilterConcat(init, [evs[|evs| - 1]], NotBegan);
    }
  }

  /** A letter adds one outcome if its page fails and one per game link
      otherwise. */
  lemma LetterSettled(site: Site, category: string, minimumScore: Option<real>, now: int, letter: string)
    ensures Settled(LetterEvents(site, category, minimumScore, now, letter))
      == (if site.listing(LetterPageUrl(category, letter)).Err? then 1 else LetterLinkCount(site.listing, category, letter))
  {
    var rest := LetterEvents(site, category, minimumScore, now, letter)[1..];
    assert LetterEvents(site, category, minimumScore, now, letter) == [Began(letter)] + rest;
    FilterConcat([Began(letter)], rest, NotBegan);
    if site.listing(LetterPageUrl(category, letter)).Ok? {
      PageSettled(site, category, minimumScore, now, letter);
    }
  }

  lemma PageSettled(site: Site, category: string, minimumScore: Option<real>, now: int, letter: string)
    requires site.listing(LetterPageUrl(category, letter)).Ok?
    ensures Settled(PageEvents(site, category, minimumScore, now, letter)) == LetterLinkCount(site.listing, category, letter)
  {
    var page := site.listing(LetterPageUrl(category, letter)).value;
    if page.gameTable.Some? {
      FilterAll(PageEvents(site, category, minimumScore, now, letter), NotBegan);
      GameLinksCounted(page.gameTable.value);
    }
  }

  /** Over a run, the outcomes number the game links the scraping pass found
      plus the letters whose page it could not fetch. */
  lemma {:induction false} CategorySettled(site: Site, category: string, minimumScore: Option<real>, now: int,
                                           letters: seq<string>)
    ensures Settled(CategoryEvents(site, category, minimumScore, now, letters))
      == TotalLinks(site.listing, category, letters) + FailedLetters(site.listing, category, letters)
  {
    if letters != [] {
      var init := letters[..|letters| - 1];
      CategorySettled(site, category, minimumScore, now, init);
      LetterSettled(site, category, minimumScore, now, letters[|letters| - 1]);
      FilterConcat(CategoryEvents(site, category, minimumScore, now, init),
                   LetterEvents(site, category, minimumScore, now, letters[|letters| - 1]), NotBegan);
    }
  }

  /** The two passes saw the same answer for every letter page. */
  predicate PassesAgree(site: Site, category: string, letters: seq<string>)
  {
    forall k :: 0 <= k < |letters| ==>
      site.countListing(LetterPageUrl(category, letters[k])) == site.listing(LetterPageUrl(category, letters[k]))
  }

  /** Passes that agree count the same links. */
  lemma {:induction false} AgreeingPassesCount(site: Site, category: string, letters: seq<string>)
    requires PassesAgree(site, category, letters)
    ensures TotalLinks(site.countListing, category, letters) == TotalLinks(site.listing, category, letters)
  {
    if letters != [] {
      var init := letters[..|letters| - 1];
      assert forall k :: 0 <= k < |init| ==> init[k] == letters[k];
      AgreeingPassesCount(site, category, init);
      assert site.countListing(LetterPageUrl(category, letters[|letters| - 1]))
          == site.listing(LetterPageUrl(category, letters[|letters| - 1]));
    }
  }

  /** Starting from cleared counters with the counting pass's total: every
      link the scraping pass found ends as exactly one of processed, skipped
      or an error, each letter page it could not fetch adds one error, and the
      processed games are the ones yielded.  The counters add up to the total
      plus the failed letters only when the two passes agree. */
  lemma ScrapeBalance(site: Site, category: string, minimumScore: Option<real>, now: int, letters: seq<string>,
                      letter0: string, game0: string)
    ensures var evs := CategoryEvents(site, category, minimumScore, now, letters);
      var q := Replay(ScrapingProgress(letter0, game0, 0, TotalLinks(site.countListing, category, letters), [], 0), evs);
      && q.totalGames == TotalLinks(site.countListing, category, letters)
      && q.gamesProcessed + q.gamesSkipped + |q.errors|
         == TotalLinks(site.listing, category, letters) + FailedLetters(site.listing, category, letters)
      && q.gamesProcessed == |Yielded(evs)|
      && (PassesAgree(site, category, letters) ==>
            q.gamesProcessed + q.gamesSkipped + |q.errors| == q.totalGames + FailedLetters(site.listing, category, letters))
  {
    var evs := CategoryEvents(site, category, minimumScore, now, letters);
    ReplayTally(ScrapingProgress(letter0, game0, 0, TotalLinks(site.countListing, category, letters), [], 0), evs);
    CategorySettled(site, category, minimumScore, now, letters);
    if PassesAgree(site, category, letters) {
      AgreeingPassesCount(site, category, letters);
    }
  }

  /** A game passes the score filter and carries the run's category. */
  predicate GoodGame(g: GameData, minimumScore: Option<real>, category: string)
  {
    Admits(minimumScore, g.rating) && g.title != "" && g.category == GameCategory(category)
  }

  predicate GoodEvents(evs: seq<ScrapeEvent>, minimumScore: Option<real>, category: string)
  {
    forall k :: 0 <= k < |evs| && evs[k].Processed? ==> GoodGame(evs[k].game, minimumScore, category)
  }

  lemma {:induction false} YieldedGood(evs: seq<ScrapeEvent>, minimumScore: Option<real>, category: string)
    requires GoodEvents(evs, minimumScore, category)
    ensures forall k :: 0 <= k < |Yielded(evs)| ==> GoodGame(Yielded(evs)[k], minimumScore, category)
  {
    if evs != [] {
      YieldedGood(evs[..|evs| - 1], minimumScore, category);
    }
  }

  lemma {:induction false} CategoryEventsGood(site: Site, category: string, minimumScore: Option<real>, now: int,
                                              letters: seq<string>)
    ensures GoodEvents(CategoryEvents(site, category, minimumScore, now, letters), minimumScore, category)
  {
    if letters != [] {
      var init := letters[..|letters| - 1];
      CategoryEventsGood(site, category, minimumScore, now, init);
      LetterEventsGood(site, category, minimumScore, now, letters[|letters| - 1]);
      GoodEventsConcat(CategoryEvents(site, category, minimumScore, now, init),
                       LetterEvents(site, category, minimumScore, now, letters[|letters| - 1]), minimumScore, category);
    }
  }

  lemma GoodEventsConcat(a: seq<ScrapeEvent>, b: seq<ScrapeEvent>, minimumScore: Option<real>, category: string)
    requires GoodEvents(a, minimumScore, category) && GoodEvents(b, minimumScore, category)
    ensures GoodEvents(a + b, minimumScore, category)
  {
    assert forall k :: |a| <= k < |a + b| ==> (a + b)[k] == b[k - |a|];
  }

  lemma LetterEventsGood(site: Site, category: string, minimumScore: Option<real>, now: int, letter: string)
    ensures GoodEvents(LetterEvents(site, category, minimumScore, now, letter), minimumScore, category)
  {
    var rest := LetterEvents(site, category, minimumScore, now, letter)[1..];
    assert LetterEvents(site, category, minimumScore, now, letter) == [Began(letter)] + rest;
    if site.listing(LetterPageUrl(category, letter)).Ok? {
      PageEventsGood(site, category, minimumScore, now, letter);
    }
    GoodEventsConcat([Began(letter)], rest, minimumScore, category);
  }

  lemma PageEventsGood(site: Site, category: string, minimumScore: Option<real>, now: int, letter: string)
    ensures GoodEvents(PageEvents(site, category, minimumScore, now, letter), minimumScore, category)
  {
  }

  /** Every game a run yields passed the score filter, has a title and the
      run's category. */
  lemma YieldedGamesGood(site: Site, category: string, minimumScore: Option<real>, now: int, letters: seq<string>)
    ensures var ys := Yielded(CategoryEvents(site, category, minimumScore, now, letters));
      forall k :: 0 <= k < |ys| ==> GoodGame(ys[k], minimumScore, category)
  {
    CategoryEventsGood(site, category, minimumScore, now, letters);
    YieldedGood(CategoryEvents(site, category, minimumScore, now, letters), minimumScore, category);
  }

  // ---------------------------------------------------------------------------
  // The service

  class GameScraperService {
    const minimumScore: Option<real>
    var currentCategory: string
    var currentLetter: string
    var currentGame: string
    var gamesProcessed: int
    var gamesSkipped: int
    var totalGames: int
    var errors: seq<string>
    var cancelled: bool

    /** The counters as `get_scraping_progress` reports them. */
    function Progress(): ScrapingProgress
      reads this
    {
      ScrapingProgress(currentLetter, currentGame, gamesProcessed, totalGames, errors, gamesSkipped)
    }

    constructor(minimumScore: Option<real>)
      ensures this.minimumScore == minimumScore
      ensures Progress() == ScrapingProgress("", "", 0, 0, [], 0)
      ensures currentCategory == "" && !cancelled
    {
      this.minimumScore := minimumScore;
      currentCategory := "";
      currentLetter := "";
      currentGame := "";
      gamesProcessed := 0;
      gamesSkipped := 0;
      totalGames := 0;
      errors := [];
      cancelled := false;
    }

    method GetScrapingProgress() returns (p: ScrapingProgress)
      ensures p == Progress()
    {
      p := ScrapingProgress(currentLetter, currentGame, gamesProcessed, totalGames, errors, gamesSkipped);
    }

    method CancelScraping()
      modifies this
      ensures cancelled
      ensures Progress() == old(Progress()) && currentCategory == old(currentCategory)
    {
      cancelled := true;
    }

    /** The link loop of `_scrape_letter_page` that collects game URLs. */
    static method CollectGameUrls(links: seq<Link>) returns (urls: seq<(string, string)>)
      ensures urls == GameLinks(links)
    {
      urls := [];
      for i := 0 to |links|
        invariant urls == GameLinks(links[..i])
      {
        var l := links[i];
        assert links[..i + 1][..i] == links[..i];
        if IsGameLink(l.href) {
          urls := urls + [(GameUrl(l.href), Strip(l.text))];
        }
      }
      assert links[..|links|] == links;
    }

    /** `_extract_disc_info`, with its loop over the script media ids. */
    static method ExtractDiscInfo(p: DetailPage) returns (discs: seq<DiscInfo>)
      ensures discs == DiscList(DownloadBase(p.formAction), p.scriptMediaIds, p.mediaIdInput)
    {
      var base := DownloadBase(p.formAction);
      var ids := p.scriptMediaIds;
      discs := [];
      if ids != [] {
        var idx := 0;
        while idx < |ids|
          invariant 0 <= idx <= |ids|
          invariant |discs| == idx
          invariant forall k :: 0 <= k < idx ==> discs[k] == ScriptDisc(base, ids, k)
        {
          var discNumber := if |ids| > 1 then "Disc " + NatToString(idx + 1) else "Disc 1";
          discs := discs + [DiscInfo(discNumber, ids[idx], base + "/?mediaId=" + ids[idx], None)];
          if |ids| == 1 {
            break;
          }
          idx := idx + 1;
        }
      } else if p.mediaIdInput.Some? {
        discs := [DiscInfo("Disc 1", p.mediaIdInput.value, base + "/?mediaId=" + p.mediaIdInput.value, None)];
      }
    }

    /** `scrape_game_details` */
    method ScrapeGameDetails(url: string, site: Site, now: int) returns (r: Result<GameData>)
      ensures r == GameDetails(url, site.details(url), currentCategory, now)
    {
      var fetched := site.details(url);
      if fetched.Err? {
        return Err(fetched.error);
      }
      var page := fetched.value;
      var title := ExtractGameTitle(page);
      if title.None? {
        return Err(TitleNotFound);
      }
      var discs := ExtractDiscInfo(page);
      var category := if currentCategory != "" then currentCategory else "Unknown";
      r := Ok(GameData(title.value, url, category, discs, now, page.rating, page.ratingCount));
    }

    /** `_count_total_games`: `category`, or the category of the previous run
        when it is empty. */
    method CountTotalGames(letters: seq<string>, category: string, site: Site)
      modifies this
      ensures totalGames == TotalLinks(site.countListing, if category != "" then category else currentCategory, letters)
      ensures currentLetter == old(currentLetter) && currentGame == old(currentGame)
      ensures gamesProcessed == old(gamesProcessed) && gamesSkipped == old(gamesSkipped)
      ensures errors == old(errors) && currentCategory == old(currentCategory) && cancelled == old(cancelled)
    {
      var cat := if category != "" then category else currentCategory;
      var total := 0;
      for i := 0 to |letters|
        invariant total == TotalLinks(site.countListing, cat, letters[..i])
      {
        assert letters[..i + 1][..i] == letters[..i];
        var fetched := site.countListing(LetterPageUrl(cat, letters[i]));
        if fetched.Ok? && fetched.value.gameTable.Some? {
          total := total + LinkCount(fetched.value.gameTable.value);
        }
      }
      assert letters[..|letters|] == letters;
      totalGames := total;
    }

    /** `scrape_single_game` for one (URL, title) pair. */
    method ScrapeSingleGame(link: (string, string), site: Site, now: int) returns (g: Option<GameData>)
      modifies this
      ensures var e := LinkOutcome(site.details, minimumScore, currentCategory, now, link);
        Progress() == Record(old(Progress()), e) && g == (if e.Processed? then Some(e.game) else None)
      ensures currentCategory == old(currentCategory) && cancelled == old(cancelled)
    {
      currentGame := link.1;
      var r := ScrapeGameDetails(link.0, site, now);
      if r.Err? {
        errors := errors + [GameErrorText(link.1, r.error)];
        return None;
      }
      var game := r.value;
      if minimumScore.Some? && game.rating.Some? && game.rating.value < minimumScore.value {
        gamesSkipped := gamesSkipped + 1;
        return None;
      }
      gamesProcessed := gamesProcessed + 1;
      g := Some(game);
    }

    /** `_scrape_letter_page`: the games yielded, or the text of the exception
        fetching the page raised (before anything changed). */
    method ScrapeLetterPage(letter: string, category: string, site: Site, now: int)
      returns (games: seq<GameData>, failure: Option<string>)
      requires category == currentCategory
      modifies this
      ensures var fetched := site.listing(LetterPageUrl(category, letter));
        var evs := PageEvents(site, category, minimumScore, now, letter);
        failure == (if fetched.Err? then Some(fetched.error) else None)
        && Progress() == Replay(old(Progress()), evs) && games == Yielded(evs)
      ensures currentCategory == old(currentCategory) && cancelled == old(cancelled)
    {
      games := [];
      var fetched := site.listing(LetterPageUrl(category, letter));
      if fetched.Err? {
        return [], Some(fetched.error);
      }
      failure := None;
      if fetched.value.gameTable.None? {
        return;
      }
      var urls := CollectGameUrls(fetched.value.gameTable.value);
      games := ScrapeGames(urls, site, now);
    }

    /** The tasks of `_scrape_letter_page`, one `scrape_single_game` per link,
        taken in link order. */
    method ScrapeGames(urls: seq<(string, string)>, site: Site, now: int) returns (games: seq<GameData>)
      modifies this
      ensures var evs := LinkOutcomes(site.details, minimumScore, currentCategory, now, urls);
        Progress() == Replay(old(Progress()), evs) && games == Yielded(evs)
      ensures currentCategory == old(currentCategory) && cancelled == old(cancelled)
    {
      games := [];
      ghost var p0 := Progress();
      ghost var cat := currentCategory;
      for i := 0 to |urls|
        invariant Progress() == Replay(p0, LinkOutcomes(site.details, minimumScore, cat, now, urls[..i]))
        invariant games == Yielded(LinkOutcomes(site.details, minimumScore, cat, now, urls[..i]))
        invariant currentCategory == cat && cancelled == old(cancelled)
      {
        LinkOutcomesSnoc(site.details, minimumScore, cat, now, urls, i);
        var g := ScrapeSingleGame(urls[i], site, now);
        if g.Some? {
          games := games + [g.value];
        }
      }
      assert urls[..|urls|] == urls;
    }

    /** One letter of the loop of `scrape_category`. */
    method ScrapeLetter(letter: string, site: Site, now: int) returns (games: seq<GameData>)
      modifies this
      ensures var evs := LetterEvents(site, currentCategory, minimumScore, now, letter);
        Progress() == Replay(old(Progress()), evs) && games == Yielded(evs)
      ensures currentCategory == old(currentCategory) && cancelled == old(cancelled)
    {
      currentLetter := letter;
      ghost var began := [Began(letter)];
      ghost var p1 := Progress();
      assert p1 == Replay(old(Progress()), began);
      var failure;
      games, failure := ScrapeLetterPage(letter, currentCategory, site, now);
      ghost var evs := LetterEvents(site, currentCategory, minimumScore, now, letter);
      if failure.Some? {
        errors := errors + [LetterErrorText(letter, failure.value)];
        assert evs == began + [LetterFailed(letter, failure.value)];
      } else {
        assert evs == began + PageEvents(site, currentCategory, minimumScore, now, letter);
      }
      ReplayConcat(old(Progress()), began, evs[1..]);
      YieldedConcat(began, evs[1..]);
      assert began + evs[1..] == evs;
    }

    /** `scrape_category`: clear the counters, count the links, then scrape
        the letters in order; a letter whose page fails adds one error and the
        run goes on. */
    method ScrapeCategory(category: string, letters: seq<string>, site: Site, now: int) returns (games: seq<GameData>)
      modifies this
      ensures var countCat := if category != "" then category else old(currentCategory);
        var evs := CategoryEvents(site, category, minimumScore, now, letters);
        Progress() == Replay(ScrapingProgress(old(currentLetter), old(currentGame), 0, TotalLinks(site.countListing, countCat, letters), [], 0), evs)
        && games == Yielded(evs)
      ensures currentCategory == category && !cancelled
    {
      gamesProcessed := 0;
      gamesSkipped := 0;
      totalGames := 0;
      errors := [];
      cancelled := false;
      CountTotalGames(letters, category, site);
      currentCategory := category;
      ghost var p0 := Progress();
      games := [];
      for i := 0 to |letters|
        invariant Progress() == Replay(p0, CategoryEvents(site, category, minimumScore, now, letters[..i]))
        invariant games == Yielded(CategoryEvents(site, category, minimumScore, now, letters[..i]))
        invariant currentCategory == category && !cancelled
      {
        var more := ScrapeLetter(letters[i], site, now);
        games := games + more;
        ghost var before := CategoryEvents(site, category, minimumScore, now, letters[..i]);
        CategoryEventsSnoc(site, category, minimumScore, now, letters, i);
        ReplayConcat(p0, before, LetterEvents(site, category, minimumScore, now, letters[i]));
        YieldedConcat(before, LetterEvents(site, category, minimumScore, now, letters[i]));
      }
      assert letters[..|letters|] == letters;
    }
  }

}
