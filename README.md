# Screen preview in a window: a Dafny model of its core

The application shows a live picture of one monitor of a multi-monitor desktop
inside a window. This project models and proves three parts of it:

- **Display topology resolution** (`DisplayConfig`, `display_config.dfy`).
  A sizing query gives the number of active display paths and mode records.
  The caller allocates arrays of exactly those sizes, and a data query fills them.
  Each path is then matched to its source mode record. The match needs the Source
  type tag, the path's target adapter LUID (both parts) and the path's source id,
  and the first matching record wins. The path gets a friendly name from a
  per-target device-info query: an internal panel is always named `"(Internal)"`,
  any other target gets the host's name. The result is one descriptor per path,
  and the id of each descriptor is its path index. Any failed host call, and any
  path without a source mode, aborts the whole round, so no partial list is ever
  returned. `display_config_properties.dfy` (`DisplayConfigProperties`) holds the
  lemmas about a whole round.
- **The preview view model** (`ViewModels`, `main_window_view_model.dfy`): the
  refresh rate, which only accepts values inside its bounds; the
  settings-panel / update-timer pair switched by Open, OK and Cancel; and the
  target-screen list, rebuilt from an enumeration with its first entry selected.
- **The image control with a timer** (`Controls`, `image_with_timer.dfy`): a
  Stopped/Running trigger. Enabling it starts the timer with the interval it has
  at that moment; a negative interval throws and leaves the timer as it was.
  Disabling it stops the timer, and each tick runs the bound command if there
  is one.

`dotnet.dfy` (`DotNet`) holds the .NET pieces the model needs: 32-bit integer
types, C#'s unchecked casts, the exceptions the code throws, and
`Result`/`Outcome` for calls that may throw.

The host's display-configuration calls are the three function fields of a
`DisplayConfig.Host` value. They are the sizing query, the data query and the
target-name query, and each reply carries a status. Each host call receives every
argument of the code's call that can vary, among them the `QDC_ONLY_ACTIVE_PATHS`
flag. The fixed request type `GetTargetName`, the struct size and the null
topology id are not passed.
The data query's reply holds the elements the host wrote. The caller's arrays
have the sizing query's lengths, and past what the host wrote they keep their
zero-initialised elements. This matches how a C# array passed to the host
behaves.

The model keeps these details of `src/DisplayConfig.cs`:

- The descriptor (`DisplayConfigInfo`, lines 8-26) carries an id, a name, a
  position and a resolution. The adapter, target and source ids are held only by
  the intermediate `DisplayConfigData` record (lines 52-74).
- The friendly name is the characters of the host's 64-character buffer before its
  first NUL (lines 486-487 and 156). The internal panel's label replaces it (line 152).
- The loop over paths runs over the allocated array length (line 97). It does not
  use the element count that the data query writes back (line 90).

## Model

| member | source | states |
|---|---|---|
| `DotNet.UncheckedToInt32` | src/ViewModels/MainWindowViewModel.cs:170-171 | `(int)` of a `uint` keeps the value below 2^31 and is congruent to it modulo 2^32; it is negative exactly for values from 2^31 up |
| `DotNet.UncheckedCastRoundTrip` | src/ViewModels/MainWindowViewModel.cs:170-171 | the unchecked `(int)` cast loses no information: casting back to `uint` gives the original value, and the other way round too |
| `DisplayConfig.FilledArray` | src/DisplayConfig.cs:86-90 | the path and mode arrays have exactly the lengths the sizing query reported; element i is what the host wrote there, or the all-zero struct past the written part |
| `DisplayConfig.FirstSourceModeIndex` | src/DisplayConfig.cs:118-126 | the returned index is the first one whose record is a Source record matching both LUID parts and the source id; no earlier record matches; `|modes|` means no record matches |
| `DisplayConfig.SourceModeLookup` | src/DisplayConfig.cs:116-129 | the lookup succeeds iff some record matches, and then returns the first matching record; otherwise it fails with `InvalidOperationException("Couldn't find the source mode info.")` |
| `DisplayConfig.FindSourceModeInfo` | src/DisplayConfig.cs:116-129 | the linear search with early return gives exactly `SourceModeLookup`: the first match, or the not-found exception |
| `DisplayConfig.NameUpToNul` | src/DisplayConfig.cs:486-487 | the marshalled name is a prefix of the host buffer, at most 64 characters long and free of NUL; it stops only at a NUL, at the 64-character bound or at the end of the buffer |
| `DisplayConfig.GetDisplayFriendlyName` | src/DisplayConfig.cs:131-158 | the lookup succeeds iff the device-info query reports success; otherwise it throws `Win32Exception(status, "Failed DisplayConfigGetDeviceInfo()")` with the query's status; a successful lookup yields a name of at most 64 characters without NUL |
| `DisplayConfig.GetActiveDisplayConfigData` | src/DisplayConfig.cs:76-114 | the two host queries (active paths only, arrays sized by the sizing reply) followed by the loop give exactly `ActiveDisplayConfigData`: a failed query's Win32 exception, the not-found exception, or one record per path with id = index |
| `DisplayConfig.GetDisplayConfigInfo` | src/DisplayConfig.cs:30-50 | the enumeration gives exactly `DisplayConfigInfoList`: the resolution failure, or the descriptors named in order, aborting at the first failed name query |
| `DisplayConfig.CollectFailedPrefix` | src/DisplayConfig.cs:36-47 | the loops abort at the first failure: once the first n items fail, the whole loop fails with the same exception, whatever the later items are |
| `DisplayConfig.CollectSucceedsIff` | src/DisplayConfig.cs:36-47 | a loop over the items (the naming loop, lines 36-47, and the path loop, lines 97-111) succeeds iff every item's lookup succeeds |
| `DisplayConfig.CollectValues` | src/DisplayConfig.cs:97-111 | a successful loop gives one element per item, in item order; element i is built from index i, item i and item i's looked-up value |
| `DisplayConfig.CollectAll` | src/DisplayConfig.cs:97-111 | conversely, a list holding at every index the element built from that item and its successful lookup is the loop's result |
| `DisplayConfig.CollectFailsOnFirstFailure` | src/DisplayConfig.cs:36-47 | a failed loop reports the exception of the first item whose lookup failed (the thrown name-query or not-found exception); every earlier lookup succeeded |
| `DisplayConfigProperties.ResolvedRecords` | src/DisplayConfig.cs:96-113 | a successful data phase means both queries succeeded and every path has a source mode; record i is built from path i and its first source mode, with id i |
| `DisplayConfigProperties.EnumerationDescribesEveryPath` | src/DisplayConfig.cs:96-113 | a successful round has exactly as many descriptors as the sizing query reported paths; descriptor i has id i, left/top = the source mode's position x/y, width/height = its width/height, and the name of path i's target |
| `DisplayConfigProperties.EnumerationIdsContiguous` | src/DisplayConfig.cs:97-103 | the ids of a successful round are 0, 1, …, n-1 in emission order, hence unique |
| `DisplayConfigProperties.EnumerationSucceedsIff` | src/DisplayConfig.cs:76-129 | a round returns a list iff both queries succeed, every path has a source mode and every name query succeeds; otherwise it returns no list at all |
| `DisplayConfigProperties.MissingSourceModeFailsRound` | src/DisplayConfig.cs:116-129 | one path without a matching source record makes the whole round fail with the not-found exception, whatever the other paths and names are |
| `DisplayConfigProperties.QueryFailureFailsRound` | src/DisplayConfig.cs:79-94 | a failed sizing query, or a failed data query, fails the round with a Win32 exception carrying that query's status |
| `DisplayConfigProperties.StaleSizesFailRound` | src/DisplayConfig.cs:89-94 | if the data query reports `ERROR_INSUFFICIENT_BUFFER` (the topology grew after sizing), the round fails with that code and does not retry |
| `DisplayConfigProperties.NameFailureFailsRound` | src/DisplayConfig.cs:143-147 | with every path resolved, a failed name query fails the round with the Win32 exception of the first path whose query failed |
| `DisplayConfigProperties.FirstSourceModeWins` | src/DisplayConfig.cs:118-125 | when several records match, the search returns the earliest one |
| `DisplayConfigProperties.InternalTargetNamedInternal` | src/DisplayConfig.cs:149-153 | a target reported as `Internal` is named `"(Internal)"`, whatever the host's name buffer holds |
| `DisplayConfigProperties.ExternalTargetNamedByHost` | src/DisplayConfig.cs:154-157 | any other target gets the host's name unchanged: the buffer's characters up to the first NUL, at most 64 |
| `DisplayConfigProperties.OnlyActivePathsQueried` | src/DisplayConfig.cs:79-90 | the result depends only on the host's answers to the active-paths queries and on the name queries |
| `DisplayConfigProperties.TwoActiveMonitors` | src/DisplayConfig.cs:30-50 | on any host that reports an internal panel at (0,0) 1920×1080 and a monitor at (1920,0) 1080×1920, with their mode records and name replies, the round gives two descriptors, ids 0 and 1, in that order, named `"(Internal)"` and by the host |
| `ViewModels.TargetScreensOf` | src/ViewModels/MainWindowViewModel.cs:162-173 | the target list has one screen per descriptor, in the same order; name, left and top are copied, width and height are the unchecked `(int)` of the resolutions |
| `ViewModels.RateAssignmentAcceptsOnlyInRange` | src/ViewModels/MainWindowViewModel.cs:109-115 | a value in [min, max] is stored; a value outside leaves the previous rate, and is not clamped to the nearer bound |
| `ViewModels.RateAssignmentsStayInBounds` | src/ViewModels/MainWindowViewModel.cs:105-116 | with min and max unchanged, any sequence of rate assignments keeps an in-range rate in range |
| `ViewModels.RateAssignmentsKeepLastAccepted` | src/ViewModels/MainWindowViewModel.cs:105-116 | after a sequence of assignments the rate is the last in-range value assigned, or the initial rate if none was in range |
| `ViewModels.MainWindowViewModel.constructor` | src/ViewModels/MainWindowViewModel.cs:18-21 | before the first listing: timer disabled, panel visible, empty target list, nothing selected, rate fields at their C# defaults |
| `ViewModels.MainWindowViewModel.SetScreenPreviewRefreshRateMin` | src/ViewModels/MainWindowViewModel.cs:91-96 | stores the lower bound; nothing else changes |
| `ViewModels.MainWindowViewModel.SetScreenPreviewRefreshRateMax` | src/ViewModels/MainWindowViewModel.cs:98-103 | stores the upper bound; nothing else changes |
| `ViewModels.MainWindowViewModel.SetScreenPreviewRefreshRate` | src/ViewModels/MainWindowViewModel.cs:105-116 | the rate becomes the value iff min ≤ value ≤ max and is unchanged otherwise; an in-bounds rate stays in bounds; nothing else changes |
| `ViewModels.MainWindowViewModel.OpenSettingPanel` | src/ViewModels/MainWindowViewModel.cs:134-138 | timer disabled, panel visible; nothing else changes |
| `ViewModels.MainWindowViewModel.ApplySettings` | src/ViewModels/MainWindowViewModel.cs:142-146 | timer enabled, panel hidden (`SettingsPanelClosed`); nothing else changes |
| `ViewModels.MainWindowViewModel.CancelSettingPanel` | src/ViewModels/MainWindowViewModel.cs:150-154 | exactly the same postcondition as OK: timer enabled, panel hidden |
| `ViewModels.MainWindowViewModel.UpdateTargetScreenList` | src/ViewModels/MainWindowViewModel.cs:158-176 | a failed enumeration throws and changes nothing; otherwise the list is replaced by `TargetScreensOf` the descriptors; the first one is selected, or, for an empty list, the `[0]` access throws and the selection is kept |
| `ViewModels.NewMainWindowViewModel` | src/ViewModels/MainWindowViewModel.cs:10-33 | construction fails exactly when the listing throws; otherwise min = 1, max = 30, rate = 30, timer disabled, panel visible, the target list set and its first entry selected |
| `Controls.ImageWithTimer.constructor` | src/Controls/ImageWithTimer.cs:13-17 | property defaults TimerInterval = 0, IsTimerEnabled = false, TimerCommand = null (lines 24-29, 37-42, 67-72); the timer is stopped |
| `Controls.ImageWithTimer.CommandTriggerTimerCallback` | src/Controls/ImageWithTimer.cs:19-22 | a tick executes the bound command exactly once, and does nothing when no command is bound |
| `Controls.ImageWithTimer.TimerTick` | src/Controls/ImageWithTimer.cs:15-16 | the tick handler runs only while the timer is running |
| `Controls.ImageWithTimer.StartTimer` | src/Controls/ImageWithTimer.cs:80-84 | the timer runs with the interval TimerInterval has at the moment of the call, and starting again restarts it with the current interval; a negative TimerInterval makes the `Interval` assignment throw `ArgumentOutOfRangeException` before the start, and the timer keeps its interval and state |
| `Controls.ImageWithTimer.StopTimer` | src/Controls/ImageWithTimer.cs:86-89 | the timer is stopped; nothing else changes |
| `Controls.ImageWithTimer.SetTimerInterval` | src/Controls/ImageWithTimer.cs:31-35 | the property changes but the running timer's interval does not, until the next start |
| `Controls.ImageWithTimer.SetTimerCommand` | src/Controls/ImageWithTimer.cs:74-78 | stores the bound command |
| `Controls.ImageWithTimer.SetIsTimerEnabled` | src/Controls/ImageWithTimer.cs:44-48 | the property always takes the new value; a change to true starts the timer with the current interval, or throws `ArgumentOutOfRangeException` for a negative one and leaves the timer stopped while the property is true; a change to false stops it; setting the same value does nothing; "timer running iff enabled" is preserved whenever no exception is thrown |
| `Controls.ImageWithTimer.IsTimerEnabledPropertyPropertyChanged` | src/Controls/ImageWithTimer.cs:50-65 | a new value of true starts the timer, or throws `ArgumentOutOfRangeException` and changes nothing when TimerInterval is negative; false stops it; a null value, or an object that is not a timer image, changes nothing |
| `Controls.EnableTickDisable` | src/Controls/ImageWithTimer.cs:80-89 | enabling with 33 ms and then setting 100 ms keeps the running timer at 33 ms; two ticks run the command twice; after disabling, a further tick runs nothing |
| `Controls.EnableWithNegativeInterval` | src/Controls/ImageWithTimer.cs:80-84 | enabling with a -5 ms interval throws `ArgumentOutOfRangeException`; the property is then true while the timer stays stopped, and a tick runs nothing |

## Left out

- Native interop: the P/Invoke declarations and the explicit struct layouts are left out. Host calls are abstract functions that return a status with their data. The mode-info union appears only as the source-mode view the code reads. Path and target fields the code never reads (rotation, scaling, refresh rate, status flags and so on) are left out too.
- The element counts QueryDisplayConfig writes back through its `ref` parameters are not modelled, because the code never reads them. Zero-filled entries past what the host wrote are modelled.
- `DisplayConfigInfo.DisplayId` is a C# `int`. It is modelled as a `nat`, because a path array longer than 2^31 elements cannot be allocated anyway.
- `src/ScreenCapture.cs` (the pixel copy and its conversion to a WPF bitmap) and the view model's `UpdateScreenImage` are not part of this model. The first is a thin wrapper over GDI+ and WPF imaging, whose behaviour is not visible. The second is an asynchronous off-thread dispatch whose only guarantee is last-write-wins. The try/finally that releases the native bitmap handle is therefore not modelled either.
- Window title and size properties are left out: they are `double`/`string` values with no logic.
- Property-change notification (`BindableBase.SetProperty`), `RelayCommand` wiring, dependency-property registration and `MainWindow` bootstrap code are left out. `TargetScreenViewModel` is a plain record (`ViewModels.TargetScreen`), and the selected screen is held by value.
- The dispatcher timer's real-time behaviour is left out. A tick is an explicit `TimerTick` step, and tick counts over wall-clock windows are not stated. A zero interval is accepted by the timer and stored as given; a negative one is rejected by the timer, as `Controls.ImageWithTimer.StartTimer` states.
- What executing the bound command does belongs to the command's owner. The control only records, in `executedCommands`, that it executed it.
- `Controls.ImageWithTimer.SetIsTimerEnabled` models the framework calling the change callback only when the value actually changes. The framework's coercion and value precedence are not modelled.
- DisplayConfig.NameUpToNul: names are sequences of Unicode scalar values (Dafny's `char`), and the 64-element bound counts those, not UTF-16 code units. A 64-WCHAR buffer holding supplementary-plane characters would give fewer than 64 of them, and the model also accepts names of up to 64 such characters. A lone surrogate the host might write into the buffer cannot be represented. The bound in `DisplayConfig.GetDisplayFriendlyName` counts the same way.
