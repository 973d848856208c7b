/**
 * The application shell: the shared application state and the navigation
 * stack of screen names.  Textual's own screen stack, the widgets and the
 * logging are not modelled; which names are registered screens is a
 * parameter of the application.
 */
module App {
  import opened Common
  import opened Models
  import DownloadModel

  /** The application state record, replaced as a whole on every update. */
  datatype AppState = AppState(
    gamesData: map<string, GameData>,
    scrapingActive: bool,
    downloadQueue: seq<DownloadModel.DownloadTask>,
    currentConfig: Option<AppConfig>)

  /** `AppState()` with every field at its default. */
  function NewAppState(): (s: AppState)
    ensures s.gamesData == map[] && !s.scrapingActive && s.downloadQueue == [] && s.currentConfig.None?
  {
    AppState(map[], false, [], None)
  }

  const MainMenu := "main_menu"

  // ---------------------------------------------------------------------------
  // Navigation, on the stack's value

  /** The stack after asking for `name`: it grows only for a registered screen. */
  function Pushed(stack: seq<string>, registered: set<string>, name: string): (r: seq<string>)
    ensures name in registered ==> r == stack + [name]
    ensures name !in registered ==> r == stack
  {
    if name in registered then stack + [name] else stack
  }

  /** The stack after going back: the top goes only when it is not the root. */
  function Popped(stack: seq<string>): (r: seq<string>)
    ensures |stack| > 1 ==> r == stack[..|stack| - 1]
    ensures |stack| <= 1 ==> r == stack
  {
    if |stack| > 1 then stack[..|stack| - 1] else stack
  }

  /** Going back never leaves a non-empty stack empty, and keeps its root. */
  lemma BackKeepsRoot(stack: seq<string>)
    requires stack != []
    ensures Popped(stack) != [] && Popped(stack)[0] == stack[0]
    ensures |Popped(stack)| == if |stack| > 1 then |stack| - 1 else 1
  {
  }

  /** Going back undoes a push onto a non-empty stack. */
  lemma PushThenBack(stack: seq<string>, registered: set<string>, name: string)
    requires stack != []
    ensures name !in registered ==> Popped(Pushed(stack, registered, name)) == Popped(stack)
    ensures name in registered ==> Popped(Pushed(stack, registered, name)) == stack
  {
    if name in registered {
      assert (stack + [name])[..|stack|] == stack;
    }
  }

  /** The stack only ever holds registered names. */
  predicate AllRegistered(stack: seq<string>, registered: set<string>)
  {
    forall k :: 0 <= k < |stack| ==> stack[k] in registered
  }

  lemma NavigationKeepsRegistered(stack: seq<string>, registered: set<string>, name: string)
    requires AllRegistered(stack, registered)
    ensures AllRegistered(Pushed(stack, registered, name), registered)
    ensures AllRegistered(Popped(stack), registered)
  {
  }

  // ---------------------------------------------------------------------------
  // The application

  class GameScraperApp {
    var navigationStack: seq<string>
    var appState: AppState
    /** The names `get_screen_by_name` knows. */
    const registered: set<string>

    constructor (screens: set<string>)
      ensures registered == screens
      ensures navigationStack == [] && appState == NewAppState()
    {
      registered := screens;
      navigationStack := [];
      appState := NewAppState();
    }

    /** `navigation_stack`: a copy, so the caller's changes to it cannot
        reach the application's stack (sequences are values here). */
    function NavigationStack(): (r: seq<string>)
      reads this
      ensures r == navigationStack
    {
      navigationStack
    }

    /** `push_screen_with_tracking` */
    method PushScreen(name: string)
      modifies this
      ensures navigationStack == Pushed(old(navigationStack), registered, name)
      ensures appState == old(appState)
    {
      if name in registered {
        navigationStack := navigationStack + [name];
      }
    }

    /** `action_go_back`: returns the name popped, if any. */
    method GoBack() returns (popped: Option<string>)
      modifies this
      ensures navigationStack == Popped(old(navigationStack))
      ensures |old(navigationStack)| > 1 <==> popped.Some?
      ensures popped.Some? ==> popped.value == old(navigationStack)[|old(navigationStack)| - 1]
      ensures appState == old(appState)
    {
      if |navigationStack| > 1 {
        popped := Some(navigationStack[|navigationStack| - 1]);
        navigationStack := navigationStack[..|navigationStack| - 1];
      } else {
        popped := None;
      }
    }

    /** `on_mount`: `loaded` is the configuration the service returned, or
        None when there is no service or loading raised.  A loaded
        configuration replaces the whole state with a fresh one holding it;
        then the main menu is pushed. */
    method OnMount(loaded: Option<AppConfig>)
      modifies this
      ensures loaded.Some? ==> appState == NewAppState().(currentConfig := loaded)
      ensures loaded.None? ==> appState == old(appState)
      ensures navigationStack == Pushed(old(navigationStack), registered, MainMenu)
    {
      if loaded.Some? {
        appState := AppState(map[], false, [], loaded);
      }
      PushScreen(MainMenu);
    }

    /** `update_games_data`: a fresh state with only the games replaced. */
    method UpdateGamesData(games: map<string, GameData>)
      modifies this
      ensures appState == old(appState).(gamesData := games)
      ensures navigationStack == old(navigationStack)
    {
      appState := AppState(games, appState.scrapingActive, appState.downloadQueue, appState.currentConfig);
    }

    /** `set_scraping_active` */
    method SetScrapingActive(active: bool)
      modifies this
      ensures appState == old(appState).(scrapingActive := active)
      ensures navigationStack == old(navigationStack)
    {
      appState := AppState(appState.gamesData, active, appState.downloadQueue, appState.currentConfig);
    }

    /** `update_download_queue` */
    method UpdateDownloadQueue(queue: seq<DownloadModel.DownloadTask>)
      modifies this
      ensures appState == old(appState).(downloadQueue := queue)
      ensures navigationStack == old(navigationStack)
    {
      appState := AppState(appState.gamesData, appState.scrapingActive, queue, appState.currentConfig);
    }
  }

  /** Mounting a new application leaves the main menu as the only screen
      when it is registered. */
  method MountFresh(screens: set<string>, loaded: Option<AppConfig>) returns (app: GameScraperApp)
    ensures MainMenu in screens ==> app.navigationStack == [MainMenu]
    ensures MainMenu !in screens ==> app.navigationStack == []
    ensures app.appState.currentConfig == loaded
    ensures app.appState.gamesData == map[] && !app.appState.scrapingActive
  {
    app := new GameScraperApp(screens);
    app.OnMount(loaded);
  }
}
