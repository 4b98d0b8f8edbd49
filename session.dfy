/**
 * The session controller of the app: which screen is active, the language,
 * the saved-game marker, the level to start at, the start-over dialog and the
 * history modal, and the two persisted records it clears and reads.
 *
 * `SessionState` is the controller's whole state as a value (its component
 * state plus the contents of the store), the functions below are its
 * transitions, and the class `App` performs them step by step on its fields
 * and on the store.
 */
module Session {
  import opened Types
  import opened Storage
  import SplashScreen

  datatype Screen = Splash | Playing | DevTools | Paused

  /** The host platform: the web build, or a native one. */
  datatype Host = Web | Native

  /** How the user leaves the native start-over alert. */
  datatype AlertChoice = Cancel | Confirm

  datatype SessionState = SessionState(
    screen: Screen,
    language: Language,
    hasSavedGame: bool,
    showConfirmDialog: bool,
    showHistoryModal: bool,
    gameProgress: Option<GameProgress>,
    startLevel: Option<int>,
    resetCongratulationsModal: bool,
    storedGame: Option<SavedGame>,
    storedProgress: Option<GameProgress>)

  // ---- Startup ----------------------------------------------------------------

  /** The component's state as first created, over the given store. */
  function Initial(storedGame: Option<SavedGame>, storedProgress: Option<GameProgress>): (s: SessionState)
    ensures s.screen == Splash && s.language == En && !s.hasSavedGame
    ensures !s.showConfirmDialog && !s.showHistoryModal && s.gameProgress == None
    ensures s.startLevel == None && !s.resetCongratulationsModal
    ensures s.storedGame == storedGame && s.storedProgress == storedProgress
  {
    SessionState(Splash, En, false, false, false, None, None, false, storedGame, storedProgress)
  }

  /** The first startup effect: a saved game sets the marker and the language; the screen is the splash either way. */
  function CheckSavedGame(s: SessionState): (r: SessionState)
    ensures r.screen == Splash
    ensures r.hasSavedGame == (s.hasSavedGame || s.storedGame.Some?)
    ensures r.language == if s.storedGame.Some? then s.storedGame.value.language else s.language
    ensures r.(screen := s.screen, hasSavedGame := s.hasSavedGame, language := s.language) == s
  {
    match s.storedGame
    case Some(saved) => s.(language := saved.language, hasSavedGame := true, screen := Splash)
    case None => s.(screen := Splash)
  }

  /** The second startup effect: on the web, the query `devtools=true` opens the developer tools. */
  function CheckDevtools(s: SessionState, host: Host, devtoolsQuery: Option<string>): (r: SessionState)
    ensures r.screen == if host == Web && devtoolsQuery == Some("true") then DevTools else s.screen
    ensures r.(screen := s.screen) == s
  {
    if host == Web && devtoolsQuery == Some("true") then s.(screen := DevTools) else s
  }

  /**
   * Startup runs both effects in order.  It never resumes a saved game: the
   * screen is the splash, or the developer tools when asked for on the web.
   * A saved record sets the marker and brings back its language.
   */
  function Startup(storedGame: Option<SavedGame>, storedProgress: Option<GameProgress>,
                   host: Host, devtoolsQuery: Option<string>): (s: SessionState)
    ensures s.screen == if host == Web && devtoolsQuery == Some("true") then DevTools else Splash
    ensures s.screen != Playing && s.screen != Paused
    ensures s.hasSavedGame <==> storedGame.Some?
    ensures s.language == if storedGame.Some? then storedGame.value.language else En
    ensures s.storedGame == storedGame && s.storedProgress == storedProgress
    ensures !s.showConfirmDialog && !s.showHistoryModal && s.gameProgress == None
    ensures s.startLevel == None && !s.resetCongratulationsModal
  {
    CheckDevtools(CheckSavedGame(Initial(storedGame, storedProgress)), host, devtoolsQuery)
  }

  // ---- Handlers ---------------------------------------------------------------

  /** A fresh start: both records are wiped and play begins in the chosen language, at no set level. */
  function StartGame(s: SessionState, lang: Language): (r: SessionState)
    ensures r.storedGame == None && r.storedProgress == None
    ensures r.screen == Playing && r.language == lang && !r.hasSavedGame && r.startLevel == None
    ensures r.(storedGame := s.storedGame, storedProgress := s.storedProgress, screen := s.screen,
               language := s.language, hasSavedGame := s.hasSavedGame, startLevel := s.startLevel) == s
  {
    s.(storedGame := None, storedProgress := None,
       language := lang, screen := Playing, hasSavedGame := false, startLevel := None)
  }

  /** Resuming only switches to play; nothing guards it and nothing else changes. */
  function ResumeGame(s: SessionState): (r: SessionState)
    ensures r.screen == Playing
    ensures r.(screen := s.screen) == s
  {
    s.(screen := Playing)
  }

  /** Abandoning the session: both records wiped, marker and level cleared, back to the splash. */
  function NewGame(s: SessionState): (r: SessionState)
    ensures r.storedGame == None && r.storedProgress == None
    ensures !r.hasSavedGame && r.startLevel == None && r.screen == Splash
    ensures r.(storedGame := s.storedGame, storedProgress := s.storedProgress,
               hasSavedGame := s.hasSavedGame, startLevel := s.startLevel, screen := s.screen) == s
  {
    s.(storedGame := None, storedProgress := None, hasSavedGame := false, startLevel := None, screen := Splash)
  }

  /** Pausing marks a saved game and shows the pause screen; the store is not written. */
  function PauseGame(s: SessionState): (r: SessionState)
    ensures r.screen == Paused && r.hasSavedGame
    ensures r.(screen := s.screen, hasSavedGame := s.hasSavedGame) == s
  {
    s.(screen := Paused, hasSavedGame := true)
  }

  /**
   * Start over: on the web it only opens the confirm dialog; on a native host
   * the alert's outcome decides, confirming being exactly a new game and
   * cancelling changing nothing.
   */
  function StartOver(s: SessionState, host: Host, choice: AlertChoice): (r: SessionState)
    ensures host == Web ==> r.showConfirmDialog && r.(showConfirmDialog := s.showConfirmDialog) == s
    ensures host == Native && choice == Confirm ==> r == NewGame(s)
    ensures host == Native && choice == Cancel ==> r == s
  {
    if host == Web then s.(showConfirmDialog := true)
    else if choice == Confirm then NewGame(s)
    else s
  }

  /** Confirming closes the dialog and runs the new-game step. */
  function ConfirmStartOver(s: SessionState): (r: SessionState)
    ensures !r.showConfirmDialog
    ensures r.storedGame == None && r.storedProgress == None
    ensures !r.hasSavedGame && r.startLevel == None && r.screen == Splash
  {
    NewGame(s.(showConfirmDialog := false))
  }

  /** Cancelling closes the dialog and changes nothing else. */
  function CancelStartOver(s: SessionState): (r: SessionState)
    ensures !r.showConfirmDialog
    ensures r.(showConfirmDialog := s.showConfirmDialog) == s
  {
    s.(showConfirmDialog := false)
  }

  /** Restarting the level wipes the current-game record only; progress is kept. */
  function RestartLevel(s: SessionState): (r: SessionState)
    ensures r.storedGame == None && r.storedProgress == s.storedProgress
    ensures !r.hasSavedGame && r.screen == Playing && r.startLevel == s.startLevel
    ensures r.(storedGame := s.storedGame, hasSavedGame := s.hasSavedGame, screen := s.screen) == s
  {
    s.(storedGame := None, hasSavedGame := false, screen := Playing)
  }

  /** Showing the history copies the stored progress into view and opens the modal. */
  function ShowHistory(s: SessionState): (r: SessionState)
    ensures r.gameProgress == s.storedProgress && r.showHistoryModal
    ensures r.(gameProgress := s.gameProgress, showHistoryModal := s.showHistoryModal) == s
  {
    s.(gameProgress := s.storedProgress, showHistoryModal := true)
  }

  /** Closing the history modal. */
  function CloseHistory(s: SessionState): (r: SessionState)
    ensures !r.showHistoryModal
    ensures r.(showHistoryModal := s.showHistoryModal) == s
  {
    s.(showHistoryModal := false)
  }

  /**
   * Replaying a level wipes the current-game record (progress is kept), sets
   * the level to start at, asks the game to reset its congratulations modal,
   * and starts play.
   */
  function PlayLevelAgain(s: SessionState, level: int): (r: SessionState)
    ensures r.storedGame == None && r.storedProgress == s.storedProgress
    ensures r.startLevel == Some(level) && r.resetCongratulationsModal
    ensures !r.hasSavedGame && r.screen == Playing
    ensures r.(storedGame := s.storedGame, hasSavedGame := s.hasSavedGame, startLevel := s.startLevel,
               resetCongratulationsModal := s.resetCongratulationsModal, screen := s.screen) == s
  {
    s.(storedGame := None, hasSavedGame := false, startLevel := Some(level),
       resetCongratulationsModal := true, screen := Playing)
  }

  /** The game reports the start level used: whatever it passes becomes the start level, and the reset request is dropped. */
  function StartLevelUsed(s: SessionState, level: Option<int>): (r: SessionState)
    ensures r.startLevel == level && !r.resetCongratulationsModal
    ensures r.(startLevel := s.startLevel, resetCongratulationsModal := s.resetCongratulationsModal) == s
  {
    s.(startLevel := level, resetCongratulationsModal := false)
  }

  /** The "Dev Tools" button. */
  function OpenDevTools(s: SessionState): (r: SessionState)
    ensures r.screen == DevTools && r.(screen := s.screen) == s
  {
    s.(screen := DevTools)
  }

  /** The "Back to Splash" button. */
  function BackToSplash(s: SessionState): (r: SessionState)
    ensures r.screen == Splash && r.(screen := s.screen) == s
  {
    s.(screen := Splash)
  }

  /** The splash screen is given the marker and always a resume handler, so it offers resume exactly when the marker is set. */
  function ResumeOfferedOnSplash(s: SessionState): (shown: bool)
    ensures shown <==> s.hasSavedGame
  {
    SplashScreen.ResumeOffered(Some(s.hasSavedGame), true)
  }

  // ---- Every handler, as one step ---------------------------------------------

  datatype Event =
    | StartGameEvent(lang: Language)
    | ResumeGameEvent
    | NewGameEvent
    | PauseGameEvent
    | StartOverEvent(choice: AlertChoice)
    | ConfirmStartOverEvent
    | CancelStartOverEvent
    | RestartLevelEvent
    | ShowHistoryEvent
    | CloseHistoryEvent
    | PlayLevelAgainEvent(level: int)
    | StartLevelUsedEvent(used: Option<int>)
    | OpenDevToolsEvent
    | BackToSplashEvent

  function Step(s: SessionState, host: Host, e: Event): SessionState
  {
    match e
    case StartGameEvent(lang) => StartGame(s, lang)
    case ResumeGameEvent => ResumeGame(s)
    case NewGameEvent => NewGame(s)
    case PauseGameEvent => PauseGame(s)
    case StartOverEvent(choice) => StartOver(s, host, choice)
    case ConfirmStartOverEvent => ConfirmStartOver(s)
    case CancelStartOverEvent => CancelStartOver(s)
    case RestartLevelEvent => RestartLevel(s)
    case ShowHistoryEvent => ShowHistory(s)
    case CloseHistoryEvent => CloseHistory(s)
    case PlayLevelAgainEvent(level) => PlayLevelAgain(s, level)
    case StartLevelUsedEvent(used) => StartLevelUsed(s, used)
    case OpenDevToolsEvent => OpenDevTools(s)
    case BackToSplashEvent => BackToSplash(s)
  }

  /**
   * Whenever the controller clears the saved-game marker it has also wiped the
   * current-game record: a cleared marker never sits beside a record.
   */
  predicate MarkerConsistent(s: SessionState)
  {
    !s.hasSavedGame ==> s.storedGame == None
  }

  /** Startup establishes the marker rule. */
  lemma StartupConsistent(storedGame: Option<SavedGame>, storedProgress: Option<GameProgress>,
                          host: Host, devtoolsQuery: Option<string>)
    ensures MarkerConsistent(Startup(storedGame, storedProgress, host, devtoolsQuery))
  {
  }

  /** Every handler keeps the marker rule. */
  lemma StepKeepsMarkerConsistent(s: SessionState, host: Host, e: Event)
    requires MarkerConsistent(s)
    ensures MarkerConsistent(Step(s, host, e))
  {
  }

  /** Only starting, resuming, restarting and replaying a level enter play. */
  lemma EnteringPlay(s: SessionState, host: Host, e: Event)
    requires s.screen != Playing && Step(s, host, e).screen == Playing
    ensures e.StartGameEvent? || e.ResumeGameEvent? || e.RestartLevelEvent? || e.PlayLevelAgainEvent?
  {
  }

  /** The code is weaker than the pause screen suggests: pausing sets the marker even when no record is stored. */
  lemma PauseMarksWithoutRecord(s: SessionState)
    requires s.storedGame == None
    ensures PauseGame(s).hasSavedGame && PauseGame(s).storedGame == None
  {
  }

  // ---- Properties relating several steps -------------------------------------

  /** Pause then resume: back in play, the marker still set, the store untouched. */
  lemma PauseThenResume(s: SessionState)
    ensures var r := ResumeGame(PauseGame(s));
            r.screen == Playing && r.hasSavedGame &&
            r.storedGame == s.storedGame && r.storedProgress == s.storedProgress
  {
  }

  /** A new game forgets the session: two states that agree on language and dialogs end up equal. */
  lemma NewGameForgetsSession(s1: SessionState, s2: SessionState)
    requires s1.language == s2.language && s1.showConfirmDialog == s2.showConfirmDialog
    requires s1.showHistoryModal == s2.showHistoryModal && s1.gameProgress == s2.gameProgress
    requires s1.resetCongratulationsModal == s2.resetCongratulationsModal
    ensures NewGame(s1) == NewGame(s2)
  {
  }

  /** A new game twice is a new game once. */
  lemma NewGameIdempotent(s: SessionState)
    ensures NewGame(NewGame(s)) == NewGame(s)
  {
  }

  /**
   * The two start-over strategies agree: opening the web dialog and then
   * confirming or cancelling ends where the native alert with the same
   * outcome ends, dialog closed.
   */
  lemma StartOverStrategiesAgree(s: SessionState, choice: AlertChoice, ignored: AlertChoice)
    requires !s.showConfirmDialog
    ensures var w := StartOver(s, Web, ignored);
            (if choice == Confirm then ConfirmStartOver(w) else CancelStartOver(w))
            == StartOver(s, Native, choice)
  {
  }

  /** A confirmed start-over is the new-game step once, with the dialog closed. */
  lemma ConfirmIsNewGame(s: SessionState)
    ensures ConfirmStartOver(s) == NewGame(s).(showConfirmDialog := false)
    ensures NewGame(ConfirmStartOver(s)) == ConfirmStartOver(s)
  {
  }

  /** Replaying a level and having the game take it: back to no pending reset, progress kept. */
  lemma PlayLevelAgainThenUsed(s: SessionState, level: int, used: Option<int>)
    ensures var r := StartLevelUsed(PlayLevelAgain(s, level), used);
            r.screen == Playing && r.startLevel == used && !r.resetCongratulationsModal &&
            !r.hasSavedGame && r.storedGame == None && r.storedProgress == s.storedProgress
  {
  }

  /** Start then pause then resume: play goes on, marked as saved. */
  lemma StartPauseResume(s: SessionState, lang: Language)
    ensures var r := ResumeGame(PauseGame(StartGame(s, lang)));
            r.screen == Playing && r.hasSavedGame && r.language == lang && r.startLevel == None
  {
  }

  // ---- The component ----------------------------------------------------------

  class App {
    var gameState: Screen
    var language: Language
    var hasSavedGame: bool
    var showConfirmDialog: bool
    var showHistoryModal: bool
    var gameProgress: Option<GameProgress>
    var startLevel: Option<int>
    var resetCongratulationsModal: bool
    const store: Store
    const host: Host

    /** The controller's state together with the store's records. */
    function Snapshot(): SessionState
      reads this, store
    {
      SessionState(gameState, language, hasSavedGame, showConfirmDialog, showHistoryModal,
                   gameProgress, startLevel, resetCongratulationsModal, store.currentGame, store.progress)
    }

    /**
     * The marker rule over the controller and its store.  The handlers keep it
     * where it held but do not demand it: during play the game engine writes
     * the record while the marker is still off.
     */
    ghost predicate Valid()
      reads this, store
    {
      MarkerConsistent(Snapshot())
    }

    /** Startup over the given store and host, with the page's `devtools` query value if any. */
    constructor (store: Store, host: Host, devtoolsQuery: Option<string>)
      ensures this.store == store && this.host == host
      ensures Snapshot() == Startup(store.currentGame, store.progress, host, devtoolsQuery)
      ensures Valid()
    {
      gameState := Splash;
      language := En;
      hasSavedGame := false;
      showConfirmDialog := false;
      showHistoryModal := false;
      gameProgress := None;
      startLevel := None;
      resetCongratulationsModal := false;
      this.store := store;
      this.host := host;
      new;
      LoadSavedGameEffect();
      DevtoolsQueryEffect(devtoolsQuery);
      StartupConsistent(store.currentGame, store.progress, host, devtoolsQuery);
    }

    method LoadSavedGameEffect()
      modifies this
      ensures Snapshot() == CheckSavedGame(old(Snapshot()))
    {
      var savedGame := store.LoadCurrentGameState();
      if savedGame.Some? {
        language := savedGame.value.language;
        hasSavedGame := true;
        gameState := Splash;
      } else {
        gameState := Splash;
      }
    }

    method DevtoolsQueryEffect(devtoolsQuery: Option<string>)
      modifies this
      ensures Snapshot() == CheckDevtools(old(Snapshot()), host, devtoolsQuery)
    {
      if host == Web {
        if devtoolsQuery == Some("true") {
          gameState := DevTools;
        }
      }
    }

    method HandleStartGame(selectedLanguage: Language)
      modifies this, store
      ensures Snapshot() == StartGame(old(Snapshot()), selectedLanguage)
      ensures old(Valid()) ==> Valid()
    {
      if Valid() {
        StepKeepsMarkerConsistent(Snapshot(), host, StartGameEvent(selectedLanguage));
      }
      store.ClearCurrentGameState();
      store.ClearGameProgress();
      language := selectedLanguage;
      gameState := Playing;
      hasSavedGame := false;
      startLevel := None;
    }

    method HandleResumeGame()
      modifies this
      ensures Snapshot() == ResumeGame(old(Snapshot()))
      ensures old(Valid()) ==> Valid()
    {
      if Valid() {
        StepKeepsMarkerConsistent(Snapshot(), host, ResumeGameEvent);
      }
      gameState := Playing;
    }

    method HandleNewGame()
      modifies this, store
      ensures Snapshot() == NewGame(old(Snapshot()))
      ensures old(Valid()) ==> Valid()
    {
      if Valid() {
        StepKeepsMarkerConsistent(Snapshot(), host, NewGameEvent);
      }
      store.ClearCurrentGameState();
      store.ClearGameProgress();
      hasSavedGame := false;
      startLevel := None;
      gameState := Splash;
    }

    method HandlePauseGame()
      modifies this
      ensures Snapshot() == PauseGame(old(Snapshot()))
      ensures old(Valid()) ==> Valid()
    {
      if Valid() {
        StepKeepsMarkerConsistent(Snapshot(), host, PauseGameEvent);
      }
      gameState := Paused;
      hasSavedGame := true;
    }

    /** On a native host, `choice` is how the user leaves the alert; on the web it is not used. */
    method HandleStartOver(choice: AlertChoice)
      modifies this, store
      ensures Snapshot() == StartOver(old(Snapshot()), host, choice)
      ensures old(Valid()) ==> Valid()
    {
      if Valid() {
        StepKeepsMarkerConsistent(Snapshot(), host, StartOverEvent(choice));
      }
      if host == Web {
        showConfirmDialog := true;
      } else if choice == Confirm {
        HandleNewGame();
      }
    }

    method HandleConfirmStartOver()
      modifies this, store
      ensures Snapshot() == ConfirmStartOver(old(Snapshot()))
      ensures old(Valid()) ==> Valid()
    {
      if Valid() {
        StepKeepsMarkerConsistent(Snapshot(), host, ConfirmStartOverEvent);
      }
      showConfirmDialog := false;
      HandleNewGame();
    }

    method HandleCancelStartOver()
      modifies this
      ensures Snapshot() == CancelStartOver(old(Snapshot()))
      ensures old(Valid()) ==> Valid()
    {
      if Valid() {
        StepKeepsMarkerConsistent(Snapshot(), host, CancelStartOverEvent);
      }
      showConfirmDialog := false;
    }

    method HandleRestartLevel()
      modifies this, store
      ensures Snapshot() == RestartLevel(old(Snapshot()))
      ensures old(Valid()) ==> Valid()
    {
      if Valid() {
        StepKeepsMarkerConsistent(Snapshot(), host, RestartLevelEvent);
      }
      store.ClearCurrentGameState();
      hasSavedGame := false;
      gameState := Playing;
    }

    method HandleShowHistory()
      modifies this
      ensures Snapshot() == ShowHistory(old(Snapshot()))
      ensures old(Valid()) ==> Valid()
    {
      if Valid() {
        StepKeepsMarkerConsistent(Snapshot(), host, ShowHistoryEvent);
      }
      var progress := store.LoadGameProgress();
      gameProgress := progress;
      showHistoryModal := true;
    }

    method HandleCloseHistory()
      modifies this
      ensures Snapshot() == CloseHistory(old(Snapshot()))
      ensures old(Valid()) ==> Valid()
    {
      if Valid() {
        StepKeepsMarkerConsistent(Snapshot(), host, CloseHistoryEvent);
      }
      showHistoryModal := false;
    }

    method HandlePlayLevelAgain(level: int)
      modifies this, store
      ensures Snapshot() == PlayLevelAgain(old(Snapshot()), level)
      ensures old(Valid()) ==> Valid()
    {
      if Valid() {
        StepKeepsMarkerConsistent(Snapshot(), host, PlayLevelAgainEvent(level));
      }
      store.ClearCurrentGameState();
      hasSavedGame := false;
      startLevel := Some(level);
      resetCongratulationsModal := true;
      gameState := Playing;
    }

    method HandleStartLevelUsed(level: Option<int>)
      modifies this
      ensures Snapshot() == StartLevelUsed(old(Snapshot()), level)
      ensures old(Valid()) ==> Valid()
    {
      if Valid() {
        StepKeepsMarkerConsistent(Snapshot(), host, StartLevelUsedEvent(level));
      }
      startLevel := level;
      resetCongratulationsModal := false;
    }

    method HandleOpenDevTools()
      modifies this
      ensures Snapshot() == OpenDevTools(old(Snapshot()))
      ensures old(Valid()) ==> Valid()
    {
      if Valid() {
        StepKeepsMarkerConsistent(Snapshot(), host, OpenDevToolsEvent);
      }
      gameState := DevTools;
    }

    method HandleBackToSplash()
      modifies this
      ensures Snapshot() == BackToSplash(old(Snapshot()))
      ensures old(Valid()) ==> Valid()
    {
      if Valid() {
        StepKeepsMarkerConsistent(Snapshot(), host, BackToSplashEvent);
      }
      gameState := Splash;
    }
  }
}
