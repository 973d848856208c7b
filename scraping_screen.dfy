/**
 * The scraping screen's form logic: which letters and which category a run
 * scrapes, whether a run starts, and the text of the error panel.  The
 * widgets and the background worker are not modelled; the texts read from
 * the inputs are parameters.
 */
module ScrapingScreen {
  import opened Common
  import Config
  import SettingsForm

  // ---------------------------------------------------------------------------
  // Target letters

  /** `list("ABCDEFGHIJKLMNOPQRSTUVWXYZ")` */
  function Alphabet(): (r: seq<string>)
    ensures |r| == 26
    ensures forall k :: 0 <= k < 26 ==> r[k] == [(65 + k) as char]
  {
    seq(26, k requires 0 <= k < 26 => [(65 + k) as char])
  }

  /** `_get_target_letters`: all 26 letters for a blank input; otherwise the
      cleaned comma-separated pieces that are single letters. */
  function TargetLetters(text: string): (r: seq<string>)
    ensures forall k :: 0 <= k < |r| ==> Config.IsLetter(r[k])
    ensures Strip(text) == "" ==> |r| == 26
  {
    var s := Strip(text);
    if s == "" then Alphabet()
    else Filter(SettingsForm.FormLetters(s), Config.IsLetter)
  }

  /** A blank input stands for the whole alphabet, A to Z in order. */
  lemma BlankIsAlphabet(text: string)
    requires Strip(text) == ""
    ensures |TargetLetters(text)| == 26
    ensures forall k :: 0 <= k < 26 ==> TargetLetters(text)[k] == [(65 + k) as char]
  {
  }

  /** Otherwise the letters are the form's pieces, in their order and with
      duplicates, less those that are not a single letter. */
  lemma TargetLettersFiltered(text: string)
    requires Strip(text) != ""
    ensures TargetLetters(text) == Filter(SettingsForm.FormLetters(text), Config.IsLetter)
  {
    SettingsForm.FormLettersOfStripped(text);
  }

  /** Every target letter is one uppercase letter. */
  lemma TargetLettersAreLetters(text: string)
    ensures forall k :: 0 <= k < |TargetLetters(text)| ==>
      Config.IsLetter(TargetLetters(text)[k]) && SettingsForm.IsClean(TargetLetters(text)[k])
  {
    var s := Strip(text);
    if s != "" {
      SettingsForm.CleanedPieces(Split(s, ','));
    }
  }

  /** Text the settings form accepts yields the form's letters unfiltered. */
  lemma AcceptedLettersKept(text: string)
    requires SettingsForm.LettersError(text).None?
    ensures TargetLetters(text) == SettingsForm.FormLetters(Strip(text))
  {
    var s := Strip(text);
    FilterAll(SettingsForm.FormLetters(s), Config.IsLetter);
  }

  /** `_populate_form` writes `", ".join(config.target_letters)`; reading
      that text back gives the same letters when they are uppercase. */
  lemma PopulateThenRead(letters: seq<string>)
    requires letters != []
    requires forall k :: 0 <= k < |letters| ==> Config.IsLetter(letters[k]) && SettingsForm.IsClean(letters[k])
    ensures TargetLetters(Join(letters, ", ")) == letters
  {
    var t := Join(letters, ", ");
    JoinedLetters(letters);
    SettingsForm.FormLettersOfStripped(t);
    FilterAll(letters, Config.IsLetter);
  }

  /** Uppercase single letters joined by ", " split back into themselves. */
  lemma {:induction false} JoinedLetters(letters: seq<string>)
    requires letters != []
    requires forall k :: 0 <= k < |letters| ==> Config.IsLetter(letters[k]) && SettingsForm.IsClean(letters[k])
    ensures SettingsForm.FormLetters(Join(letters, ", ")) == letters
  {
    var l := letters[0];
    LetterPiece(l);
    if |letters| == 1 {
      SplitNoSep(l, ',');
    } else {
      var rest := letters[1..];
      var j := Join(rest, ", ");
      JoinedLetters(rest);
      var q := Split(j, ',');
      SplitAfterComma(l, j);
      CleanSpacedHead(q);
      SettingsForm.CleanConcat([l], [" " + q[0]] + q[1..]);
      assert letters == [l] + rest;
    }
  }

  /** `l + ", " + j` splits into `l`, then the pieces of `j` with a space in
      front of the first. */
  lemma SplitAfterComma(l: string, j: string)
    requires ',' !in l
    ensures Split(l + ", " + j, ',') == [l] + ([" " + Split(j, ',')[0]] + Split(j, ',')[1..])
  {
    assert l + ", " + j == l + [','] + (" " + j);
    SplitSeparated(l, ',', " " + j);
    SplitPrepend(" ", j, ',');
  }

  /** A space in front of the first piece does not change the letters. */
  lemma CleanSpacedHead(q: seq<string>)
    requires |q| >= 1
    ensures SettingsForm.CleanPieces([" " + q[0]] + q[1..]) == SettingsForm.CleanPieces(q)
  {
    SpacedPiece(q[0]);
    SettingsForm.CleanSameStrip(" " + q[0], q[0], q[1..]);
    assert [q[0]] + q[1..] == q;
  }

  lemma LetterPiece(l: string)
    requires Config.IsLetter(l) && SettingsForm.IsClean(l)
    ensures ',' !in l
    ensures Strip(l) == l && Upper(l) == l
    ensures SettingsForm.CleanPieces([l]) == [l]
  {
    assert !IsSpace(l[0]) && l[0] != ',';
    StripOfStripped(l);
    assert !IsLower(l[0]);
    assert Upper(l)[0] == l[0];
    assert Upper(l) == l;
    assert [l][1..] == [];
  }

  lemma SpacedPiece(p: string)
    ensures Strip(" " + p) == Strip(p)
  {
    var none: string := "";
    assert " " + p + none == " " + p;
    StripSpaceAround(" ", p, none);
  }

  // ---------------------------------------------------------------------------
  // Category

  const DefaultCategory := "Xbox"

  /** `_get_category`: the trimmed input, or "Xbox" when it is blank. */
  function Category(text: string): (r: string)
    ensures r != ""
  {
    var s := Strip(text);
    if s == "" then DefaultCategory else s
  }

  /** The category is already trimmed: reading it back changes nothing. */
  lemma CategoryIdempotent(text: string)
    ensures Strip(Category(text)) == Category(text)
    ensures Category(Category(text)) == Category(text)
  {
    var s := Strip(text);
    if s == "" {
      StripOfStripped(DefaultCategory);
    } else {
      StripIdempotent(text);
    }
  }

  // ---------------------------------------------------------------------------
  // Starting a run

  datatype StartOutcome =
    | AlreadyScraping
    | NoValidLetters
    | Started(letters: seq<string>, category: string)

  const AlreadyScrapingWarning := "Scraping is already in progress"
  const NoValidLettersError := "Please specify at least one valid letter"

  /** `_start_scraping` up to the call into the scraper: a run in progress
      and an empty letter list both stop before any service call. */
  function StartScraping(isScraping: bool, lettersText: string, categoryText: string): (r: StartOutcome)
    ensures r.Started? ==> r.letters != []
    ensures r == NoValidLetters <==> !isScraping && TargetLetters(lettersText) == []
  {
    if isScraping then AlreadyScraping
    else
      var letters := TargetLetters(lettersText);
      var category := Category(categoryText);
      if letters == [] then NoValidLetters
      else Started(letters, category)
  }

  /** The notification shown when a run does not start. */
  function Notice(r: StartOutcome): (n: Option<string>)
    ensures n.None? <==> r.Started?
  {
    match r
    case AlreadyScraping => Some(AlreadyScrapingWarning)
    case NoValidLetters => Some(NoValidLettersError)
    case Started(_, _) => None
  }

  /** A run that is not already going starts on a blank letter input, over
      the whole alphabet. */
  lemma BlankLettersStart(lettersText: string, categoryText: string)
    requires Strip(lettersText) == ""
    ensures StartScraping(false, lettersText, categoryText) == Started(Alphabet(), Category(categoryText))
  {
  }

  /** A run starts exactly on letters the scraper accepts, with the screen's
      category. */
  lemma StartedRun(isScraping: bool, lettersText: string, categoryText: string)
    ensures var r := StartScraping(isScraping, lettersText, categoryText);
      r.Started? <==> !isScraping && TargetLetters(lettersText) != []
    ensures var r := StartScraping(isScraping, lettersText, categoryText);
      r.Started? ==>
        && r.letters == TargetLetters(lettersText) && r.category == Category(categoryText)
        && forall k :: 0 <= k < |r.letters| ==> Config.IsLetter(r.letters[k])
  {
    TargetLettersAreLetters(lettersText);
  }

  // ---------------------------------------------------------------------------
  // The error panel

  const Shown := 5

  function Bullet(e: string): string
  {
    ['\U{2022}', ' '] + e
  }

  /** `f"... and {n} more errors"` */
  function MoreLine(n: nat): string
  {
    "... and " + NatToString(n) + " more errors"
  }

  /** `errors[-5:]`: the last five errors, or all of them. */
  function Recent(errors: seq<string>): (r: seq<string>)
    ensures |r| == Min(|errors|, Shown)
    ensures r == errors[|errors| - |r|..]
  {
    if |errors| > Shown then errors[|errors| - Shown..] else errors
  }

  /** The text `_update_errors` puts in the error list. */
  function ErrorText(errors: seq<string>): (r: string)
    ensures errors == [] <==> r == ""
  {
    if errors == [] then ""
    else
      var text := Join(Map(Recent(errors), Bullet), "\n");
      if |errors| > Shown then text + "\n" + MoreLine(|errors| - Shown) else text
  }

  /** The lines of the error list: a bullet for each of the last five
      errors, oldest first, then a count of the ones not shown. */
  function ErrorLines(errors: seq<string>): (r: seq<string>)
    ensures |r| == Min(|errors|, Shown) + (if |errors| > Shown then 1 else 0)
    ensures forall k :: 0 <= k < Min(|errors|, Shown) ==>
      r[k] == Bullet(errors[|errors| - Min(|errors|, Shown) + k])
    ensures |errors| > Shown ==> r[|r| - 1] == MoreLine(|errors| - Shown)
  {
    Map(Recent(errors), Bullet) + (if |errors| > Shown then [MoreLine(|errors| - Shown)] else [])
  }

  /** The error text is its lines joined by newlines. */
  lemma ErrorTextLines(errors: seq<string>)
    requires errors != []
    ensures ErrorText(errors) == Join(ErrorLines(errors), "\n")
  {
    if |errors| > Shown {
      JoinSnoc(Map(Recent(errors), Bullet), MoreLine(|errors| - Shown), "\n");
    } else {
      assert ErrorLines(errors) == Map(Recent(errors), Bullet);
    }
  }

  /** Errors without line breaks can be read back from the text line by line. */
  lemma SplitErrorText(errors: seq<string>)
    requires errors != []
    requires forall k :: 0 <= k < |errors| ==> '\n' !in errors[k]
    ensures Split(ErrorText(errors), '\n') == ErrorLines(errors)
  {
    ErrorTextLines(errors);
    var lines := ErrorLines(errors);
    forall k | 0 <= k < |lines|
      ensures '\n' !in lines[k]
    {
      if k < Min(|errors|, Shown) {
        BulletLine(errors[|errors| - Min(|errors|, Shown) + k]);
      } else {
        MoreLineLine(|errors| - Shown);
      }
    }
    SplitJoin(lines, '\n');
  }

  lemma BulletLine(e: string)
    requires '\n' !in e
    ensures '\n' !in Bullet(e)
  {
  }

  lemma MoreLineLine(n: nat)
    ensures '\n' !in MoreLine(n)
  {
    var d := NatToString(n);
    assert forall i :: 0 <= i < |d| ==> d[i] != '\n';
  }
}
