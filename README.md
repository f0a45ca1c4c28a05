# Cactus tray timer — a Dafny model

Cactus is a desktop work/break (Pomodoro-style) timer that lives in the system
tray. This project models its core in Dafny and proves properties of the model:

- **The countdown state machine** (`electron/modules/timer.js`), in `timer.dfy`.
  While the timer runs, the truth is the absolute end time `endTs` in ms.
  `remainingSeconds` is only a cache, refreshed by a one-second tick.
  Start, stop, pause, resume, extend and the tick are each specified twice:
  - a step function on the state value (`StartStep`, `StopStep`, `PauseStep`, `ResumeStep`, `ExtendStep`, `TickStep`);
  - a method of the `TimerManager` class that updates the `state` field of the `StateManager` it holds, one field of the timer at a time, as the source does through its `state` getter.
  Each method's `ensures` ties the new state to the step function. Because the timer writes into the state manager, every document `SaveData` writes carries the live timer.
  The `onTick`/`onEnd` callbacks, the end sound and the 250 ms save flush become an appended event log.
  The wall clock is the parameter `now` (ms).
- **The tray icon arithmetic** (`electron/modules/tray.js`), in `tray.dfy`:
  - theme colour selection and the "total" fallback;
  - the elapsed fraction clamped to [0, 1];
  - the fixed canvas size;
  - the heart outline as a data structure of Bezier segments;
  - the fill band anchored at the heart's bottom;
  - the minutes title.
  Lengths are exact rationals (`real`). The drawing is described as data (canvas, clip outline, band, colour, opacity) and is not rasterized.
- **Settings and persisted state** (`electron/modules/state.js`), in `state.dfy`:
  - the defaults;
  - the merge of a loaded data file over them (nested `durations` and `timer` merged field by field);
  - the shallow overlay of `updateSettings`;
  - the `YYYY-MM-DD` date string;
  - the once-per-day backup guard.
  The file system is reduced to outcomes: a write succeeds or fails, a copy succeeds, finds the file (`EEXIST`) or fails otherwise, and a load finds the file, misses it or fails.
- `decimal.dfy` models JavaScript's `String(n)` and `padStart(2, '0')` on integers, with a parser used to state what a numeral means.
- `wrappers.dfy` holds the `Option` type used for `null`, `undefined` and absent keys.

The invariant the timer keeps (`Timer.Valid`) has four parts:
- the cache is never negative;
- the initial length is never negative;
- a stopped timer has `endTs == 0`;
- a running timer has no end record.

`Timer.DefaultValid` proves that the state the state manager starts with has it, and each step function (`Timer.StartStep` … `Timer.TickStep`) ensures that it keeps it. Each `TimerManager` method also states it about the state manager's state: `StartTimer` as `Valid(store.state)` whatever came before, the others as `Valid(old(store.state)) ==> Valid(store.state)`.

Facts about the code worth knowing, each proved in the model:
- `running` does not imply `endTs != 0`. Only a stopped timer is guaranteed `endTs == 0`; a running timer's `endTs` is `now + seconds*1000` (or shifted by an extension), and nothing keeps that value from being 0 (`Timer.RunningWithZeroEnd`: a zero-length run started at time 0).
- A run lasts `max(0, floor(minutes*60))` seconds (`Timer.DurationSeconds`).
- A run ends on the first tick with less than one whole second left (`Timer.TickRunning`), so up to 999 ms before `endTs`.
- `stopTimer` does not snapshot the remaining time, unlike `pauseTimer`. A resume after a stop therefore starts from the value the last tick cached. That value is stale by however long it is since that tick: about a second when ticks arrive on time, any amount when they are delayed, for instance during system sleep (`Timer.StopGivesBackStaleCache` shows 5 s).

## Model

| member | source | states |
|---|---|---|
| Timer.Remaining | electron/modules/timer.js:21-25 | stopped: the cached seconds; running: never negative, 0 exactly when less than a second is left before `endTs`, otherwise the whole seconds left (`r*1000 <= endTs-now < r*1000+1000`) |
| Timer.RemainingNonNegative | electron/modules/timer.js:21-25 | on a state satisfying the invariant the remaining time is never negative |
| Timer.MinutesFloor | electron/modules/timer.js:27-29 | the whole minutes in a number of seconds: 0 below a minute, otherwise `m*60 <= seconds < m*60+60` |
| Timer.DurationSeconds | electron/modules/timer.js:97-102 | `max(0, floor(minutes*60))`: the largest whole number of seconds not above `minutes*60`, 0 for a negative length |
| Timer.PublicState | electron/modules/ipc-handlers.js:5-14 | the snapshot sent to the UI carries the freshly computed remaining time and is otherwise the state unchanged |
| Timer.StartStep | electron/modules/timer.js:96-107 | the state after a start satisfies the invariant whatever came before, and `onTick` is the one event (start always notifies) |
| Timer.StopStep | electron/modules/timer.js:109-113 | keeps the invariant, leaves the timer stopped and fires `onTick` |
| Timer.PauseStep | electron/modules/timer.js:115-123 | keeps the invariant, leaves the timer stopped, fires `onTick` only when it was running |
| Timer.ResumeStep | electron/modules/timer.js:125-135 | keeps the invariant; the timer runs afterwards exactly when it ran before or had time cached; `onTick` only when it resumes |
| Timer.ExtendStep | electron/modules/timer.js:137-159 | keeps the invariant and the mode, and always fires `onTick` |
| Timer.TickStep | electron/modules/timer.js:66-92 | keeps the invariant and the mode; on a stopped timer it is the identity with no event |
| Timer.DefaultValid | electron/modules/state.js:12-20 | the default state the state manager starts with satisfies the timer's invariant |
| Timer.RunningWithZeroEnd | electron/modules/timer.js:96-107 | a zero-length work run started at time 0 is running with `endTs == 0`, so `running` does not imply a nonzero end time |
| Timer.StartRunsDuration | electron/modules/timer.js:96-107 | start sets running, the mode as given, cache = initial length = the mode's duration, `endTs = now + secs*1000`, clears the end record, and the remaining time right afterwards equals that duration |
| Timer.StartWholeMinutes | electron/modules/timer.js:96-107 | a whole-minute work length `m` starts with exactly `m*60` seconds remaining |
| Timer.StopKeepsCache | electron/modules/timer.js:109-113 | stop clears `running` and `endTs` and keeps the cache, the initial length, the mode and the end record; afterwards the remaining time is the stale cache |
| Timer.StopGivesBackStaleCache | electron/modules/timer.js:109-135 | a running timer with 5 s left and a cache of 10 shows 10 s after stop, and again after resume |
| Timer.PauseSnapshots | electron/modules/timer.js:115-123 | pause is a no-op when stopped (no event); otherwise it stores the current remaining time, stops, zeroes `endTs`, keeps the initial length, the mode and the end record |
| Timer.ResumeAnchors | electron/modules/timer.js:125-135 | resume is a no-op when running or with nothing left; otherwise it runs with `endTs = now + cache*1000`, keeps the cache and the mode, shows the cache, clears the end record and fills in the initial length only when it was 0 |
| Timer.PauseResumeRoundTrip | electron/modules/timer.js:115-135 | pause then resume at the same instant shows the same remaining time; the timer runs again exactly when time was left; a nonzero initial length is kept |
| Timer.ExtendWhileRunning | electron/modules/timer.js:137-142 | on a running timer extend shifts `endTs` by `floor(delta)*1000`, keeps it running even at 0, refreshes the cache, keeps the mode, the initial length and the end record, and while the end lies ahead shows `max(0, remaining + floor(delta))` |
| Timer.ExtendWhileStopped | electron/modules/timer.js:143-156 | on a stopped timer the cache becomes `max(0, cache + floor(delta))`; it resumes (fresh `endTs`, end record cleared, a zero initial length filled in with the new cache) exactly when that is positive and the countdown had ended; otherwise `endTs` is 0 and the end record and initial length are kept; the mode is always kept |
| Timer.ExtendRevivesEnded | electron/modules/timer.js:143-156 | extending an ended timer with 0 left by 30 s runs it with 30 s left and no end record |
| Timer.TickIdle | electron/modules/timer.js:67-68 | a tick on a stopped timer changes nothing and fires nothing |
| Timer.TickRunning | electron/modules/timer.js:67-93 | a tick on a running timer caches the fresh remaining time; it ends the run exactly when less than a second is left, zeroing `endTs` and recording mode and instant, and the event log is exactly `onEnd`, the end sound and the 250 ms flush when it ends (and nothing of them otherwise), followed by `onTick` exactly when the cache changed |
| Timer.WorkSessionEnds | electron/modules/timer.js:67-107 | a 25-minute work run started at 0 shows 1500 s and ends on the tick at 1 500 000 ms with end record `(false, 1500000)` |
| Timer.PausedBreakStaysPaused | electron/modules/timer.js:96-156 | a 5-minute break paused at 60 s shows 240 s; extending by -300 s clamps to 0 and does not resume |
| Timer.TimerManager.constructor | electron/modules/timer.js:3-15 | the timer holds the state manager it is given and has fired nothing yet |
| Timer.TimerManager.TimeRemainingSeconds | electron/modules/timer.js:21-25 | returns the remaining time of the state manager's current state, never negative while running |
| Timer.TimerManager.StartTimer | electron/modules/timer.js:96-107 | the state manager's state becomes that of `StartStep` with the durations from its settings, `onTick` is logged, and the invariant holds afterwards |
| Timer.TimerManager.StopTimer | electron/modules/timer.js:109-113 | the state manager's state becomes that of `StopStep`, `onTick` is logged, the invariant is kept |
| Timer.TimerManager.PauseTimer | electron/modules/timer.js:115-123 | the state manager's state and the log follow `PauseStep`, the invariant is kept |
| Timer.TimerManager.ResumeTimer | electron/modules/timer.js:125-135 | the state manager's state and the log follow `ResumeStep`, the invariant is kept |
| Timer.TimerManager.ExtendTimer | electron/modules/timer.js:137-159 | the state manager's state follows `ExtendStep`, `onTick` is logged, the invariant is kept |
| Timer.TimerManager.Tick | electron/modules/timer.js:67-93 | the state manager's state and the log follow `TickStep`, the invariant is kept |
| Tray.HeartColor | electron/modules/tray.js:169-171 | a known theme name (an empty name counts as `neutral`) paints its own primary; any other name paints `#8C8C8C` |
| Tray.ThemeFallback | electron/modules/tray.js:169-171 | an unset or unknown theme paints `#8C8C8C` (neutral primary); a known theme its own primary; the colour is always some palette's primary |
| Tray.Total | electron/modules/tray.js:174-176 | the run length is `initialSeconds` when nonzero, else the break or work minutes times 60 according to the mode |
| Tray.TotalIsRunLength | electron/modules/tray.js:174-176 | right after a start of positive length, and after a resume that fills in a missing initial length, the total is the run's length in seconds |
| Tray.Fraction | electron/modules/tray.js:177-178 | always in [0, 1]; 0 when the total is not positive or the remaining time reaches the total; 1 at no time left; otherwise `1 - rem/total` |
| Tray.FractionMonotone | electron/modules/tray.js:177-178 | less time left never shows less progress |
| Tray.CanvasFor | electron/modules/tray.js:150-158 | the canvas height is the point height times the scale, the point width is the pixel width divided by the scale rounded up, the width is at least the minimum and leaves the heart its 8-pixel margin |
| Tray.CeilDiv | electron/modules/tray.js:157 | `(w+s-1)/s` is `ceil(w/s)` for a positive scale |
| Tray.TrayCanvas | electron/modules/tray.js:150-158 | at scale 2 the canvas is 64 x 52 px, shown as 32 x 26 pt, with a 36 px heart |
| Tray.HeartOutline | electron/modules/tray.js:105-142 | four cubic segments forming a closed path that starts and ends at the bottom tip `(x, y+h/2)` |
| Tray.HeartLandmarks | electron/modules/tray.js:105-142 | the path starts and ends at the bottom tip `(x, y+h/2)`, the centre cusp is at `(x, y-h/2+0.15h)`, the widest control points are at `(x-w/2, y)` and `(x+w/2, y)` (the curves bend towards them but do not pass through them) |
| Tray.HeartSymmetric | electron/modules/tray.js:105-142 | the control polygon walked backwards is its mirror image about `x`: every right-side point mirrors a left-side one |
| Tray.HeartInsideBox | electron/modules/tray.js:105-142 | every control point lies inside the `w` x `h` box centred at `(x, y)` |
| Tray.FillBand | electron/modules/tray.js:187-202 | a band exists exactly at positive progress, spans the heart's width and has its bottom edge on the heart's bottom |
| Tray.FillBandAnchored | electron/modules/tray.js:187-202 | nothing is filled at zero progress; otherwise the band is the heart's width and `frac` of its height, its bottom at the heart's bottom, inside the box; full at 1, the lower half at 0.5 |
| Tray.RenderTrayImage | electron/modules/tray.js:150-207 | own contract weak: the result is always a rendered canvas; what it draws is stated by `Tray.RenderShowsProgress` |
| Tray.RenderShowsProgress | electron/modules/tray.js:150-207 | the 64 x 52 icon is left empty exactly at zero progress; otherwise the band is clipped to the heart at (32, 26), rises from y = 44 by `36*frac`, in the theme colour at 0.8 opacity |
| Tray.FreshRunShowsEmptyHeart | electron/modules/tray.js:174-187 | right after a run of positive length starts, the heart is empty |
| Tray.EndedRunShowsFullHeart | electron/modules/tray.js:174-202 | after a run of positive length ends on a tick, the band covers the whole heart box |
| Tray.Refresh | electron/modules/tray.js:90-100 | the title is all digits and the tooltip embeds it; a successful render puts the image drawn from the given timer state and settings, a failed one keeps the old image |
| Tray.TitleShowsMinutes | electron/modules/tray.js:90-100 | the title reads back as the whole minutes left; the tooltip embeds it; a successful render shows `RenderTrayImage` of the current state and settings, a failed one keeps the previous image |
| Tray.TrayManager.constructor | electron/modules/tray.js:51-55 | the tray manager holds the timer it is given and has no tray icon before `createTray` |
| Tray.TrayManager.CreateTray | electron/modules/tray.js:66-88 | the icon is created from the base image and then refreshed from the timer |
| Tray.TrayManager.UpdateTrayTitleAndIcon | electron/modules/tray.js:90-100 | without a tray nothing happens; otherwise the icon becomes its refresh from the timer's state and settings: new image unless rendering failed, minutes title and tooltip |
| State.MergeDurations | electron/modules/state.js:85 | own contract weak: an absent `durations` object gives the base; the field-by-field merge is stated by `State.LoadedSettingsPerKey` |
| State.LoadedSettings | electron/modules/state.js:82-86 | a file without settings gives exactly the defaults |
| State.LoadedSettingsPerKey | electron/modules/state.js:82-86 | every settings key the file gives wins and every missing key keeps its default, `durations` field by field |
| State.OnlyWorkMinutesKeepsBreakDefault | electron/modules/state.js:85 | a file giving only `workMinutes` keeps the default 3-minute break |
| State.MergeTimer | electron/modules/state.js:89 | own contract weak: an absent `timer` object gives the base; the key-by-key merge is stated by `State.LoadedStatePerKey` |
| State.LoadedState | electron/modules/state.js:87-91 | a file without state gives exactly the default state |
| State.LoadedStatePerKey | electron/modules/state.js:87-91 | every timer key the file gives wins and the others keep the default timer's values; `lastEnded` from the file when present, else null |
| State.SaveLoadRoundTrip | electron/modules/state.js:75-106 | loading what `saveData` wrote gives back exactly the saved settings and state |
| State.Overlay | electron/modules/state.js:127 | an empty patch leaves the settings unchanged |
| State.OverlayShallow | electron/modules/state.js:127 | every given key (`theme`, `acceptableHourRange`, `durations` as a whole, `soundVolume`) replaces the old value and every absent key keeps it; overlaying twice equals overlaying once |
| State.DateString | electron/modules/state.js:45-50 | the year as `String` writes it, followed by the six-character tail of the 1-based month and the day |
| State.TwoDigits | electron/modules/state.js:48-49 | a month or day number padded to two characters is its tens digit then its units digit, and reads back as the number |
| State.DateSuffix | electron/modules/state.js:47-49 | the `-MM-DD` tail: six characters, dashes at positions 0 and 3, the month's two digits between them and the day's after |
| State.DateSuffixInjective | electron/modules/state.js:47-49 | equal tails spell equal months and days |
| State.DateStringInjective | electron/modules/state.js:45-50 | different days give different date strings |
| State.NextBackupDate | electron/modules/state.js:52-73 | the new `lastBackupDate` is the old one or today; it changes exactly when it was not today and the copy succeeded or found the file |
| State.NextAttempts | electron/modules/state.js:52-60 | a copy is attempted, and logged, exactly when the backup date is not already today |
| State.BackupOncePerDay | electron/modules/state.js:56-68 | after a copy that succeeded or hit `EEXIST`, the date is today and a second call that day changes nothing |
| State.StateManager.constructor | electron/modules/state.js:18-24 | starts with the default settings and state, no backup date, nothing written |
| State.StateManager.GetTodayDateString | electron/modules/state.js:45-50 | returns the date string of the given day |
| State.StateManager.MaybeBackupDaily | electron/modules/state.js:52-73 | the backup date follows `NextBackupDate` and the attempt log follows `NextAttempts` |
| State.StateManager.SaveData | electron/modules/state.js:100-110 | a successful write records `{settings, state}` (the state including the live timer) and goes on to the backup guard, whose date and attempt log are stated; a failed one changes nothing |
| State.StateManager.LoadData | electron/modules/state.js:75-98 | a read file replaces settings and state by their merges over the defaults; a missing file keeps them and saves them, with the backup guard of a save; a read file or a failure leaves the document log, the backup date and the attempt log unchanged |
| State.StateManager.UpdateSettings | electron/modules/state.js:125-138 | the settings become the overlay of the patch and are saved with the current state; the backup date and attempt log follow the save |
| Decimal.NatToString | electron/modules/state.js:47-49 | `String(n)`: at least one digit, no leading zero, one digit below 10 and two below 100 |
| Decimal.ParseNatToString | electron/modules/state.js:47-49 | a numeral reads back as the number it was written from |
| Decimal.IntToString | electron/modules/state.js:47 | `String(i)`: a minus sign exactly for a negative number, followed by the digits of its magnitude with no leading zero; zero is `"0"` |
| Decimal.IntToStringInjective | electron/modules/state.js:47 | different integers are written differently |
| Decimal.PadStart2 | electron/modules/state.js:48-49 | `padStart(2, '0')`: a string of length 2 or more is unchanged, a shorter one gets zeros in front up to length 2 |
| Decimal.PadStart2Number | electron/modules/state.js:48-49 | a number below 100, padded, is its tens digit then its units digit and reads back as itself |
| Decimal.DigitPairInjective | electron/modules/state.js:48-49 | two numbers below 100 with the same two-digit spelling are equal |

## Left out

- Real clocks and scheduling (`Date.now`, `setInterval`, `setTimeout`, the 2-minute autosave): the time is the parameter `now`, and the tick is a method call. The tick reads the clock twice in the source, once for the remaining time and once for the end record; the model uses one instant for both. Likewise the tray reads the clock once for the minutes title and again for the fill fraction; the model draws both from one `now`.
- The 250 ms save after a natural end is logged as the event `FlushAfter(250)`. The save itself is not run.
- The minute-tracking loop (`startMinuteTracking`, `isInMinuteTrackingWindow`): its callback is a no-op, so it has no observable effect.
- `TimerManager.stop` (clearing the intervals): there are no intervals in the model.
- The `onTick`/`onEnd` callbacks are taken as installed, which `setupIpcHandlers` always does. Their null checks are not modelled.
- Canvas rasterization, clipping, `globalAlpha` compositing, PNG encoding, `setTemplateImage` and the resize to points. The model only keeps the drawing they are asked to do. A failed render is the `renderOk = false` parameter.
- The base tray image (file probing and the transparent pixel) is the constant `BaseIcon`. The click-to-toggle wiring is not modelled.
- Theme names that are properties of `Object.prototype` (such as `toString`) are found on the prototype by the source's lookup. The model treats them as unknown names and paints neutral.
- File I/O, JSON parsing and directory creation in `state.js` become outcome parameters. A document that parses to `null` makes `json.settings` throw; it is folded into `LoadFailed`. The data file path (`dataFilePath`, `getDataFilePath`) is not modelled.
- Loaded values of the wrong type, unknown keys, and spreads of strings or arrays are not modelled. The file is a typed record whose keys are present or absent.
- The `newDir !== prevDir` branch of `updateSettings` is not modelled: it is dead, because the user directory does not depend on settings.
- State.Overlay: a `durations` object passed to `updateSettings` is taken as complete. In the source a partial object would replace the old one and leave the missing length undefined.
- The shallow copy `{ ...DEFAULT_STATE }` lets the initial timer alias the default timer until a file is loaded. The model treats the initial timer as the default values.
- The timer's fields are reassigned as one `AppState` value held in `StateManager.state`, rather than mutated inside a shared nested object; the only sharing the source relies on (the timer, the tray and the saves all seeing the state manager's current state) is kept through the object references.
- Tray.RenderTrayImage: its own contract only says the result is drawn; the drawing is stated by `Tray.RenderShowsProgress`.
- State.MergeDurations, State.MergeTimer: their own contracts only cover an absent object; the merge key by key is stated by `State.LoadedSettingsPerKey` and `State.LoadedStatePerKey`.
- Floating point: minute lengths and the fraction are exact rationals, not IEEE doubles. `remainingSeconds || 0` on `NaN` or `undefined` is not modelled, because the fields are integers.
- `electron/modules/sound.js` (audio playback, path probing and the `app.beep` fallback) is not part of this model. The end sound is the event `EndSound`.
- `electron/main.js` (app lifecycle) and the IPC registration in `electron/modules/ipc-handlers.js` are not part of this model. Only the fresh-remaining snapshot of `getPublicState` is modelled (`Timer.PublicState`).
