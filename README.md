# Session lifecycle and intro animation of a word-finding game

This project models two parts of a React Native word game, and proves
properties of each:

- **The session controller** (`App.tsx`). It decides which screen is active:
  splash, playing, paused or developer tools. It also holds the language, the
  saved-game marker, the level to start at, the start-over confirm dialog and
  the score-history modal. Its handlers clear and read two persisted records:
  the "current game state" and the "game progress".
- **The splash screen** (`src/screens/SplashScreen.tsx`). It runs a fixed
  intro animation: a hold, a company-logo fade-out, a game-logo fade-in,
  another hold, then a parallel group. In that group the logo moves up and
  shrinks while the content panel fades in. The screen also holds a draft
  language and decides when to show the resume button.

Files:

- `types.dfy` (`Types`): `Option` and `Language` (`En | De`).
- `storage.dfy` (`Storage`): the persisted store as a class with two optional
  slots, and the load and clear operations the controller uses.
- `intro.dfy` (`Intro`): the animation as a datatype `Anim` (`Delay`, `Timing`,
  `Sequence`, `Parallel`), its duration, a scheduler that gives each timing
  integer start and end times, the values left once it has run, the logo
  geometry, and the intro plan with its computed timeline.
- `splash.dfy` (`SplashScreen`): the screen as a class. Its fields are the
  draft language, the animated values, the `animationCompleted` flag, whether
  the intro has started, and a clock: the milliseconds since the intro
  started. Its methods are render, the mount effect, the passing of time (each
  timing that ends lands its target), the completion callback, the language
  switch and the start button. The ghost predicate `OnTimeline` says that the
  values are exactly what the intro's ended timings left behind, so that no
  other writer has touched them.
- `session.dfy` (`Session`): the controller's state as a value
  (`SessionState`, which includes the store's two records), one pure
  transition function per handler, lemmas relating them, and the class `App`.
  Each `App` method updates the fields and the store in the same order as
  the source. Its `ensures` ties the new `Snapshot()` to the transition
  function applied to the old one.

The controller's invariant `MarkerConsistent` says that a cleared saved-game
marker never sits beside a stored current-game record. Startup establishes it,
and every handler keeps it when it held before. No handler demands it: while
a game is played, the game engine writes the record and the marker stays off.

Where the code is weaker than its comments and UI suggest, the model follows
the code:

- Resume has no guard: it switches to play even without a saved game.
- "Start level used" sets the start level to whatever the game passes, not
  to "none".
- Pause sets the marker without writing a record (`PauseMarksWithoutRecord`).
- The final logo height has no lower clamp (`NoLowerClamp`).
- No transition checks which screen it starts from.
- Replaying a level leaves the history modal as it was.

## Model

| member | source | states |
|---|---|---|
| `Storage.Store.LoadCurrentGameState` | App.tsx:9 | a load returns exactly what the current-game slot holds; an absent record is `None` |
| `Storage.Store.LoadGameProgress` | App.tsx:9 | a load returns exactly what the progress slot holds |
| `Storage.Store.ClearCurrentGameState` | App.tsx:9 | clearing the current-game record empties that slot and leaves progress alone |
| `Storage.Store.ClearGameProgress` | App.tsx:9 | clearing progress empties that slot and leaves the current-game record alone |
| `Session.Initial` | App.tsx:15-20 | first state: splash, English, no marker, no dialog or modal, no progress shown, no start level, no reset request |
| `Session.CheckSavedGame` | App.tsx:23-39 | a stored record sets the marker and brings back its language; the screen is the splash either way; nothing else changes |
| `Session.CheckDevtools` | App.tsx:42-49 | on the web, the query value `"true"` switches the screen to developer tools; otherwise nothing changes |
| `Session.Startup` | App.tsx:15-49 | startup never resumes: the screen is developer tools exactly when on the web with `devtools=true`, else the splash; marker set exactly when a record is stored; language from the record or English |
| `Session.StartGame` | App.tsx:51-60 | both records wiped; play in the chosen language with no marker and no start level; reset request, dialogs and history untouched |
| `Session.ResumeGame` | App.tsx:62-64 | unguarded: the screen becomes playing and nothing else changes |
| `Session.NewGame` | App.tsx:66-77 | both records wiped, marker and start level cleared, back to the splash, language and everything else kept |
| `Session.PauseGame` | App.tsx:79-82 | the screen becomes paused and the marker is set; the store is not touched |
| `Session.StartOver` | App.tsx:84-104 | on the web only the confirm dialog opens; on a native host, confirming the alert is exactly a new game and cancelling changes nothing |
| `Session.ConfirmStartOver` | App.tsx:106-109 | the dialog closes and both records, the marker and the start level are cleared, back to the splash |
| `Session.CancelStartOver` | App.tsx:111-113 | the dialog closes and nothing else changes |
| `Session.RestartLevel` | App.tsx:115-120 | only the current-game record is wiped; progress and start level are kept; no marker; playing |
| `Session.ShowHistory` | App.tsx:122-126 | the stored progress is copied into view and the history modal opens; nothing else changes |
| `Session.CloseHistory` | App.tsx:202 | the history modal closes and nothing else changes |
| `Session.PlayLevelAgain` | App.tsx:131-138 | only the current-game record is wiped; progress kept; start level set; reset request raised; no marker; playing |
| `Session.StartLevelUsed` | App.tsx:140-143 | the start level becomes whatever the game passes and the reset request is dropped; nothing else changes |
| `Session.OpenDevTools` | App.tsx:194 | the screen becomes developer tools and nothing else changes |
| `Session.BackToSplash` | App.tsx:176 | "Back to Splash" always returns to the splash and changes nothing else |
| `Session.ResumeOfferedOnSplash` | App.tsx:181 | the splash screen offers resume exactly when the marker is set |
| `Session.StartupConsistent` | App.tsx:23-39 | startup leaves no stored record beside a cleared marker |
| `Session.StepKeepsMarkerConsistent` | App.tsx:51-143 | every handler keeps the rule that a cleared marker never sits beside a stored record |
| `Session.EnteringPlay` | App.tsx:51-143 | only start, resume, restart level and play level again lead into play |
| `Session.PauseMarksWithoutRecord` | App.tsx:79-82 | pausing sets the marker even when no record is stored |
| `Session.PauseThenResume` | App.tsx:62-82 | pause then resume ends in play with the marker still set and the store unchanged |
| `Session.NewGameForgetsSession` | App.tsx:66-77 | the result of a new game depends on the prior state only through the language, the dialog and history fields and the reset request |
| `Session.NewGameIdempotent` | App.tsx:66-77 | a second new game changes nothing |
| `Session.StartOverStrategiesAgree` | App.tsx:84-113 | web dialog then confirm or cancel ends in the same state as the native alert with the same outcome |
| `Session.ConfirmIsNewGame` | App.tsx:106-109 | a confirmed start-over is the new-game step once, with the dialog closed |
| `Session.PlayLevelAgainThenUsed` | App.tsx:131-143 | replaying a level and having the game report its start level leaves play with no pending reset and progress kept |
| `Session.StartPauseResume` | App.tsx:51-82 | start, pause, resume: playing in the chosen language, marker set, no start level |
| `Session.App.constructor` | App.tsx:15-49 | the component's state after both startup effects is `Startup` of the store's records, host and query, and the marker rule holds |
| `Session.App.LoadSavedGameEffect` | App.tsx:23-39 | the first effect's step on the fields is `CheckSavedGame` |
| `Session.App.DevtoolsQueryEffect` | App.tsx:42-49 | the second effect's step on the fields is `CheckDevtools` |
| `Session.App.HandleStartGame` | App.tsx:51-60 | clears both records through the store, then sets the fields: new state is `StartGame` of the old; the marker rule is kept where it held before |
| `Session.App.HandleResumeGame` | App.tsx:62-64 | new state is `ResumeGame` of the old; the marker rule is kept where it held before |
| `Session.App.HandleNewGame` | App.tsx:66-77 | new state is `NewGame` of the old; the marker rule is kept where it held before |
| `Session.App.HandlePauseGame` | App.tsx:79-82 | new state is `PauseGame` of the old; the marker rule is kept where it held before |
| `Session.App.HandleStartOver` | App.tsx:84-104 | new state is `StartOver` of the old for the app's host; the marker rule is kept where it held before |
| `Session.App.HandleConfirmStartOver` | App.tsx:106-109 | new state is `ConfirmStartOver` of the old; the marker rule is kept where it held before |
| `Session.App.HandleCancelStartOver` | App.tsx:111-113 | new state is `CancelStartOver` of the old; the marker rule is kept where it held before |
| `Session.App.HandleRestartLevel` | App.tsx:115-120 | new state is `RestartLevel` of the old; the marker rule is kept where it held before |
| `Session.App.HandleShowHistory` | App.tsx:122-126 | loads progress from the store; new state is `ShowHistory` of the old; the marker rule is kept where it held before |
| `Session.App.HandleCloseHistory` | App.tsx:202 | new state is `CloseHistory` of the old; the marker rule is kept where it held before |
| `Session.App.HandlePlayLevelAgain` | App.tsx:131-138 | new state is `PlayLevelAgain` of the old; the marker rule is kept where it held before |
| `Session.App.HandleStartLevelUsed` | App.tsx:140-143 | new state is `StartLevelUsed` of the old; the marker rule is kept where it held before |
| `Session.App.HandleOpenDevTools` | App.tsx:194 | new state is `OpenDevTools` of the old; the marker rule is kept where it held before |
| `Session.App.HandleBackToSplash` | App.tsx:176 | new state is `BackToSplash` of the old; the marker rule is kept where it held before |
| `Intro.SeqDuration` | src/screens/SplashScreen.tsx:44-54 | a sequence lasts at least as long as each of its steps |
| `Intro.ParDuration` | src/screens/SplashScreen.tsx:49-54 | a parallel group lasts exactly as long as its longest member, and 0 when empty |
| `Intro.ScheduleWithin` | src/screens/SplashScreen.tsx:44-54 | no timing of an animation starts before the animation starts or ends after it completes |
| `Intro.SeqScheduleWithin` | src/screens/SplashScreen.tsx:44-54 | every timing of a sequence lies between its start and its start plus its duration |
| `Intro.ParScheduleWithin` | src/screens/SplashScreen.tsx:49-54 | every timing of a parallel group lies between its start and its start plus its longest member |
| `Intro.SeqScheduleSplit` | src/screens/SplashScreen.tsx:44-54 | the steps after the first `k` start exactly when the first `k` steps end |
| `Intro.SequenceBarrier` | src/screens/SplashScreen.tsx:44-54 | a sequence is strictly ordered: cut anywhere, every timing before the cut ends before any timing after it starts |
| `Intro.ParallelStartsTogether` | src/screens/SplashScreen.tsx:49-54 | every timing of a parallel group starts with the group and runs for its own duration |
| `Intro.Apply` | src/screens/SplashScreen.tsx:44-57 | once the timings have run, each animated value holds the target of its last timing, and every other value is unchanged |
| `Intro.FinalLogoHeight` | src/screens/SplashScreen.tsx:28-29 | the final logo height is at most 250 and at most the viewport height minus 500, and equals one of them |
| `Intro.NoLowerClamp` | src/screens/SplashScreen.tsx:29 | with no lower clamp, a viewport of 500 or less gives a final height of 0 or less |
| `Intro.IntroGroupSchedule` | src/screens/SplashScreen.tsx:49-54 | the final group starts translate, height, margin and content fade together and ends after 800 ms |
| `Intro.IntroSchedule` | src/screens/SplashScreen.tsx:44-54 | the intro's timeline: hold to 1200, company fade 1200-1800, logo fade 1800-2400, hold to 2800, group 2800-3400 and content fade 2800-3600; the whole plan lasts 3600 ms |
| `Intro.IntroSettles` | src/screens/SplashScreen.tsx:44-54 | once the intro has run, each of the six animated values holds its target |
| `Intro.ApplyConcat` | src/screens/SplashScreen.tsx:44-57 | running two lists of timings one after the other leaves what running them as one list leaves |
| `Intro.EndingBy` | src/screens/SplashScreen.tsx:44-54 | the timings that have ended by a time are exactly those of the time line that end no later than it |
| `Intro.EndingIn` | src/screens/SplashScreen.tsx:44-54 | the timings that end in an interval are exactly those of the time line that end after its start and no later than its end |
| `Intro.SplitByTime` | src/screens/SplashScreen.tsx:44-54 | on a time line sorted by end, what has ended by a later time is what had ended by an earlier one followed by what ended in between |
| `Intro.EndingByAll` | src/screens/SplashScreen.tsx:44-54 | once every timing has ended, the whole time line has landed |
| `Intro.IntroTimelineSorted` | src/screens/SplashScreen.tsx:44-54 | the intro's timings end in the order they are listed |
| `Intro.IntroAllLanded` | src/screens/SplashScreen.tsx:44-57 | at or after the intro's 3600 ms every timing has landed |
| `Intro.IntroNothingAtStart` | src/screens/SplashScreen.tsx:44-45 | nothing of the intro has landed at time 0: the sequence opens with a 1200 ms hold |
| `Intro.IntroTranslateSlot` | src/screens/SplashScreen.tsx:49-50 | the intro's only timing of the logo offset runs from 2800 ms to 3400 ms and lands it at 0 |
| `Intro.IntroTranslateNotYet` | src/screens/SplashScreen.tsx:49-50 | before 3400 ms no landed timing has moved the logo offset |
| `Intro.IntroTranslateDone` | src/screens/SplashScreen.tsx:49-54 | from 3400 ms on, no timing that lands moves the logo offset |
| `SplashScreen.InitialValues` | src/screens/SplashScreen.tsx:19-25 | the screen creates all six animated values |
| `SplashScreen.IntroReachesTargets` | src/screens/SplashScreen.tsx:27-34 | from any values, the finished intro leaves translate at 0, height at the final height, margin at 20, and the content and game logo shown |
| `SplashScreen.DraftLanguage` | src/screens/SplashScreen.tsx:104-106 | the switch's language is German exactly when the switch is on, otherwise English |
| `SplashScreen.ResumeOffered` | src/screens/SplashScreen.tsx:15 | the resume button is shown exactly when the saved-game flag is present and true and a resume handler is given |
| `SplashScreen.ApplyKeepsProps` | src/screens/SplashScreen.tsx:19-25 | whatever timings land, the screen keeps exactly its six animated values |
| `SplashScreen.SplashScreen.constructor` | src/screens/SplashScreen.tsx:16-39 | after creation and the first render: English as the draft language, the intro neither started nor completed, the initial values with the logo offset at 170, and the final logo height from the viewport |
| `SplashScreen.SplashScreen.Render` | src/screens/SplashScreen.tsx:36-39 | as written: until the intro completes, each render sets the logo offset to 170; afterwards a render changes nothing; the values stay on the time line only when the render comes before 2800 ms or after completion |
| `SplashScreen.SplashScreen.RenderBeforeStart` | src/screens/SplashScreen.tsx:36-39 | corrected reset, once as the comment says: the logo is centred only before the intro starts, and every render keeps the values on the time line |
| `SplashScreen.SplashScreen.MountEffect` | src/screens/SplashScreen.tsx:41-44 | the mount effect adopts the device language and starts the intro at time 0 from the current values, once; completion is not touched; the values are on the time line |
| `SplashScreen.SplashScreen.Advance` | src/screens/SplashScreen.tsx:44-54 | as time passes, exactly the timings that end meanwhile land their targets, in order; the values stay on the time line |
| `SplashScreen.SplashScreen.CompleteIntro` | src/screens/SplashScreen.tsx:55-57 | the callback comes only after a started intro has run its 3600 ms; it sets the flag and changes no value; when the values were on the time line, every one is at its target |
| `SplashScreen.StuckLogoTrace` | src/screens/SplashScreen.tsx:36-57 | with the reset as written, a language switch at 3500 ms leaves the logo at 170, not 0, when the intro completes |
| `SplashScreen.DockedLogoTrace` | src/screens/SplashScreen.tsx:36-57 | with the corrected reset, the same run ends with the logo docked at 0 |
| `SplashScreen.SplashScreen.ToggleLanguage` | src/screens/SplashScreen.tsx:106 | the switch sets the draft language and changes nothing else |
| `SplashScreen.SplashScreen.PressStart` | src/screens/SplashScreen.tsx:113 | the start button hands over the current draft language |

## Left out

- Rendering, layout and styles of both files, the `Modal` and `Alert`
  presentation, and the icons: UI only. The native alert is a parameter of
  `HandleStartOver`, either cancel or confirm.
- `Session.App.HandleStartOver`: on a native host the alert is asynchronous,
  so the alert's outcome is applied within the same step.
- React effect scheduling and state batching: each handler and each effect is
  one atomic step, and the two startup effects run in declaration order.
- The storage module: its serialisation and failures are not modelled. A
  load returns what the slot holds, and an unreadable record is `None`.
  Writes by the game engine (its saves while playing) are not part of this
  model, so `MarkerConsistent` is a property of the controller's own
  handlers.
- The game screen, developer tools screen and score history modal internals.
  `GameProgress` and the saved record's payload are opaque.
- The `__DEV__` build flag and the hiding of the "Dev Tools" button on the
  developer tools screen: `HandleOpenDevTools` can be called from any screen.
- `window.location` parsing, `window.innerHeight`, device-language detection,
  translations and logging. The `devtools` query value, the viewport height
  and the device language are parameters.
- Animated interpolation, easing, frame timing, the native driver and
  fractional opacities: only integer durations and targets are kept, and a
  timing changes its value only when it ends, to its target. `Intro.Settle`
  applies targets in schedule order; `SplashScreen.SplashScreen.Advance` lands
  them by end time. Renders are a second writer of the logo offset; the clock
  places them among the timings.
- `SplashScreen.SplashScreen.CompleteIntro`: the completion callback ignores
  its `finished` argument, and the model has no interrupted run. In the
  animation library, setting a value while a timing runs on it stops that
  timing, which stops its parallel group and ends the sequence early. The
  model does not capture this, so `Render` states nothing about the time line
  for a render between 2800 ms and completion.
- `Intro.FinalLogoHeight`: models a host where the viewport height is a
  number, as on the web. On a native host `window.innerHeight` is undefined,
  so line 29 of the splash screen computes NaN and the logo height target is
  NaN.
- The animation's cancellation when the screen unmounts: the source's effect
  returns no cleanup, so a completion callback can still fire after unmount.
- The `showMain` and `showContent` state of the splash screen: never set to
  true, so nothing depends on them.
- `Language`: its declaration is not part of this model. The splash screen
  switch uses only `'en'` and `'de'`, so the model has exactly these two.
- The `finalLogoHeight` that later renders recompute is not modelled. Only the
  value the intro sequence captured when it was built is kept.

## Findings

| source | as written | input that shows it | evidently intended | confidence | as-written member | corrected member |
|---|---|---|---|---|---|---|
| src/screens/SplashScreen.tsx:36-39 | the reset of the logo offset runs on every render until the completion flag is set, and that includes the 200 ms after the logo's move has landed (3400 ms) and before the sequence completes (3600 ms) | a render in that window, such as the language switch at 3500 ms: the offset goes back to 170 and no timing moves it again | reset the offset only once, before the intro starts, so that the logo docks at 0 | not executed | `SplashScreen.StuckLogoTrace` | `SplashScreen.SplashScreen.RenderBeforeStart` |
