# Wio Terminal assistant — a Dafny model of the UI shell

The firmware runs a small LVGL user interface on a Wio Terminal: a page engine
(`PageManager`) that owns up to ten pages, keeps a navigation stack and drives
every page through its lifecycle; an application shell (`AppManager`) with a
seven-entry navigation bar and three hardware keys; the main loop's input
filter; and seven pages (calendar, music player, alarms, memos, countdown
timer, weather, voice assistant), plus two string helpers.

This project models that core and proves what each part promises:

| file | module | models |
|---|---|---|
| `clock.dfy` | `Clock` | unsigned 32-bit `millis()` arithmetic, Arduino `constrain`, cyclic selection |
| `text.dfy` | `Text` | `toLowerCase`, `indexOf(..) >= 0`, `String(n)` and `%02d` renderings |
| `page_base.dfy` | `PageBase` | `PageBase.h`: lifecycle states, directions, hooks, the page record |
| `page_manager.dfy` | `PageManager` | `PageManager.cpp`: pool, stack, `SwitchTo`, state executors, input router |
| `app_manager.dfy` | `AppManager` | `AppManager.cpp`: registration, navigation bar, key and update dispatch |
| `main_loop.dfy` | `MainLoop` | `main.cpp`: edge detection and debounce of joystick and keys, update throttle |
| `timer_page.dfy` | `TimerPage` | `TimerPage.cpp` |
| `alarm_page.dfy` | `AlarmPage` | `AlarmPage.cpp` |
| `memo_page.dfy` | `MemoPage` | `MemoPage.cpp` |
| `music_page.dfy` | `MusicPage` | `MusicPage.cpp` |
| `calendar_page.dfy` | `CalendarPage` | `CalendarPage.cpp` |
| `ai_assistant_page.dfy` | `AIAssistantPage` | `AIAssistantPage.cpp` |
| `weather_page.dfy` | `WeatherPage` | `WeatherPage.cpp`, `WeatherPage.h` |
| `string_utils.dfy` | `StringUtils` | `string_utils.h`: `custom_strdup`, `custom_strndup` |

Conventions:
- Objects whose fields the firmware updates in place are classes. Examples are the
  engine, the shell, the input poller and each page.
- Fixed buffers are arrays: the page pool and stack, the last-state arrays of
  the poller, the alarm table, the music name table, the calendar's 42 cells
  and the memo preview buffer.
- A string is the firmware's C string, one byte per character. Text outside
  ASCII (memo bullets, the degree sign, the Chinese weather and city names) is
  spelled as its UTF-8 bytes, so lengths count bytes as `strlen` does.
- `millis()`, RTC readings, button levels, the microphone reading, the SD card
  listing, the weather service's reply and allocation success are parameters.
- The engine records every hook call and every routed input event in a trace,
  `trace: seq<Event>`, so that hook order is part of each contract.
- The engine's invariant (`PageManager.PageManager.Valid`) holds between any
  two calls. It says:
  - the trace replays legally through every page's lifecycle (`PageBase.Next`);
  - the active page is in Activity;
  - every other page rests in Idle or DidDisappear;
  - a page has a root exactly when it is not Idle.
- Page handlers that need widgets require `uiCreated`. The engine routes input
  only to a page in Activity, and such a page has run its load hooks.

### Behaviour of the engine worth knowing

- **A full stack keeps its ten entries.** `Push` on a full stack does not
  record the page being left, and the switch still happens
  (`PageManager.cpp:114`).
- **The busy flag is only ever set to false** (`PageManager.cpp:22, 282,
  289`). The model has no operation that sets it, so `SwitchTo` on a
  registered page always succeeds.
- **`Register` refuses a null name but accepts an empty one**
  (`PageManager.cpp:44`).

## Model

| member | source | states |
|---|---|---|
| PageBase.Ordinal | src/core/PageBase.h:10-20 | the states are numbered in the order Idle, Load, WillAppear, DidAppear, Activity, WillDisappear, DidDisappear, Unload |
| PageBase.Page.constructor | src/core/PageBase.h:49-56 | a new page is Idle, unnamed, with id 0, no manager, no root, and an idle animation record of type 0 and 500 ms |
| PageManager.PageManager.constructor | src/core/PageManager.cpp:5-27 | empty pool and stack, no current or previous page, not busy, global animation "over left" for 500 ms |
| PageManager.SwitchLegal | src/core/PageManager.cpp:241-277 | every hook of a switch runs in a state that allows it; the incoming page ends in Activity, the outgoing one in DidDisappear, every other page is untouched |
| PageManager.UnloadLegal | src/core/PageManager.cpp:370-387 | unloading the active page runs Unload then DidUnload legally and leaves it Idle |
| PageManager.IndexOf | src/core/PageManager.cpp:212-219 | the first slot holding a name, -1 exactly when the name is absent |
| PageManager.ShiftDown | src/core/PageManager.cpp:89-91 | the entries after the removed slot move down one slot in order, the others stay |
| PageManager.PageManager.PoolIndex | src/core/PageManager.cpp:72-73 | the linear search finds the slot of the first page registered under the name, or -1 |
| PageManager.PageManager.FindPageInPool | src/core/PageManager.cpp:212-219 | null exactly when the name is not registered, else the page registered under it |
| PageManager.PageManager.Register | src/core/PageManager.cpp:43-69 | succeeds exactly for a page and a name with room in the pool and the name unused; the page is appended with id = old size and the engine as manager; on failure nothing changes |
| PageManager.PageManager.Append | src/core/PageManager.cpp:60-65 | a successful registration appends the page and its name, gives it id = old size and the engine as manager, and keeps the engine invariant |
| PageManager.PageManager.LoadExecute | src/core/PageManager.cpp:292-311 | state Load, a root exists afterwards, hooks OnViewLoad then OnViewDidLoad |
| PageManager.PageManager.WillAppearExecute | src/core/PageManager.cpp:313-328 | state WillAppear, hook OnViewWillAppear, a root is shown |
| PageManager.PageManager.DidAppearExecute | src/core/PageManager.cpp:330-341 | hook OnViewDidAppear, then state Activity |
| PageManager.PageManager.WillDisappearExecute | src/core/PageManager.cpp:343-352 | state WillDisappear, hook OnViewWillDisappear |
| PageManager.PageManager.DidDisappearExecute | src/core/PageManager.cpp:354-368 | state DidDisappear, hook OnViewDidDisappear, a root is hidden |
| PageManager.PageManager.UnloadExecute | src/core/PageManager.cpp:370-387 | unload hooks, root deleted, state Idle |
| PageManager.PageManager.SwitchTo | src/core/PageManager.cpp:241-277 | refused exactly for a null page or while busy, and then nothing changes; otherwise the page becomes current, the old current becomes previous, and the trace grows by WillDisappear(old), Load/DidLoad(page) only if it was Idle, WillAppear, DidAppear(page), DidDisappear(old); pool and stack untouched; the invariant holds |
| PageManager.PageManager.Transition | src/core/PageManager.cpp:258-274 | the hook sequence of a switch and the states it leaves both pages in |
| PageManager.PageManager.Push | src/core/PageManager.cpp:104-120 | unknown name: false, nothing changes; otherwise the old current page is pushed only if there is one and the stack holds fewer than 10 entries, then the switch runs |
| PageManager.PageManager.SaveCurrent | src/core/PageManager.cpp:114-117 | the current page goes on top of the stack, or is dropped when the stack is full |
| PageManager.PageManager.Pop | src/core/PageManager.cpp:122-135 | empty stack: false, nothing changes; otherwise exactly the top entry is removed and becomes current |
| PageManager.PageManager.Replace | src/core/PageManager.cpp:137-157 | unknown name: false, nothing changes; otherwise a switch to the page, the stack never changes |
| PageManager.PageManager.BackHome | src/core/PageManager.cpp:159-180 | empty stack: true, nothing changes; otherwise the stack is emptied and its bottom entry becomes current |
| PageManager.PageManager.SetStackClear | src/core/PageManager.cpp:225-239 | the stack is emptied, or reduced to its bottom entry when asked to keep it |
| PageManager.PageManager.Unregister | src/core/PageManager.cpp:71-102 | true exactly for a registered name; the pool loses exactly that entry, keeping order; a current page is unloaded and current becomes null; stack and previous page untouched |
| PageManager.PageManager.UnloadCurrent | src/core/PageManager.cpp:77-80 | the active page is unloaded to Idle without a root, and no page is current |
| PageManager.PageManager.RemoveAt | src/core/PageManager.cpp:88-93 | the pool without the given slot, in order |
| PageManager.PageManager.SetGlobalLoadAnimType | src/core/PageManager.cpp:182-188 | the global animation becomes the given type and time, nothing else changes |
| PageManager.PageManager.AnimFinished | src/core/PageManager.cpp:279-290 | the busy flag is cleared, nothing else changes |
| PageManager.PageManager.HandleInput | src/core/PageManager.cpp:190-194 | a key reaches the current page exactly when it is in Activity, and in a valid engine whenever a page is current |
| PageManager.PageManager.HandleEncoder | src/core/PageManager.cpp:196-200 | the same for encoder steps |
| PageManager.PageManager.HandleButton | src/core/PageManager.cpp:202-206 | the same for button events |
| PageManager.PageManager.CurrentPageName | src/core/PageManager.cpp:208-210 | the current page's name, "None" with no current page |
| PageManager.PageManager.StackTopPage | src/core/PageManager.cpp:221-223 | null exactly for an empty stack, else the top entry |
| AppManager.PageNamesDistinct | src/core/AppManager.cpp:7-9 | seven distinct page names, fitting in the pool |
| AppManager.KeyA | src/core/AppManager.cpp:300-331 | a release or no current page does nothing; on each of the six pages the key has one effect |
| AppManager.KeyB | src/core/AppManager.cpp:333-367 | the same for key B; on Alarm it flips edit mode, on Timer it calls onButtonB, on Weather nothing |
| AppManager.KeyC | src/core/AppManager.cpp:369-400 | the same for key C; on Weather nothing |
| AppManager.KeysDistinct | src/core/AppManager.cpp:300-400 | on every page the keys that act do different things |
| AppManager.UpdateCalls | src/core/AppManager.cpp:402-432 | the calendar ticks first whenever it exists, followed by at most one page-specific update |
| AppManager.NavStep | src/core/AppManager.cpp:271-283 | LEFT and RIGHT move the index by one, never past either end; other directions keep it |
| AppManager.NavStepInverse | src/core/AppManager.cpp:271-283 | RIGHT undoes LEFT away from the first entry, LEFT undoes RIGHT away from the last |
| AppManager.Shell.constructor | src/core/AppManager.cpp:12-36 | index 0, no calendar page, an empty engine |
| AppManager.Shell.RegisterPages | src/core/AppManager.cpp:73-129 | the pages are registered in table order until the first refusal; on an empty engine all seven are registered |
| AppManager.Shell.CreateAndRegister | src/core/AppManager.cpp:73-129 | one registration, succeeding exactly when the pool has room and the name is new |
| AppManager.Shell.Init | src/core/AppManager.cpp:48-71 | from a fresh engine: all seven pages registered, Calendar current in Activity, the stack empty |
| AppManager.Shell.SwitchToPage | src/core/AppManager.cpp:249-260 | an index outside the table or equal to the current one changes nothing; otherwise the index moves and the page replaces the current one, the stack never changes |
| AppManager.Shell.HandleInput | src/core/AppManager.cpp:271-290 | LEFT and RIGHT move the highlight one step (NavStep) and replace the active page with the registered page of that entry, which ends in Activity after the switch's hook sequence; at either end of the bar nothing changes and the key reaches no page; other directions reach the current page unchanged |
| AppManager.Shell.HandleEncoder | src/core/AppManager.cpp:292-294 | encoder steps reach the current page unchanged |
| AppManager.Shell.HandleButton | src/core/AppManager.cpp:296-298 | button events reach the current page unchanged |
| MainLoop.FirstEdge | src/main.cpp:62-86 | the first contact, in index order, that went from released to pressed; none when no contact did |
| MainLoop.HeldDoesNotRepeat | src/main.cpp:89-91 | once the last state has caught up, a held contact fires nothing |
| MainLoop.FirstEdgeIsChain | src/main.cpp:62-86 | any result with the properties of the if-else chain is FirstEdge |
| MainLoop.JoystickForward | src/main.cpp:62-86 | UP and DOWN are consumed; LEFT, RIGHT and PRESS forward left, right and "no direction" |
| MainLoop.CopyInto | src/main.cpp:89-91 | the array holds the reading afterwards |
| MainLoop.InputPoller.constructor | src/main.cpp:28-31 | all contacts released, times 0 |
| MainLoop.InputPoller.PollJoystick | src/main.cpp:46-92 | within 200 ms nothing changes; otherwise the first rising contact fires, its time is recorded, and the last state becomes the reading whether or not anything fired |
| MainLoop.InputPoller.PollKeys | src/main.cpp:94-128 | the same filter over keys A, B, C |
| MainLoop.InputPoller.UpdateDue | src/main.cpp:136-141 | the shell update runs exactly when more than 1000 ms passed, and then the time is recorded |
| TimerPage.ArcValue | src/pages/TimerPage.cpp:174-178 | the arc lies in 0..300, is full exactly with all time left and empty exactly below one three-hundredth |
| TimerPage.ArcMonotone | src/pages/TimerPage.cpp:174-178 | less time left never shows a fuller arc |
| TimerPage.Readout | src/pages/TimerPage.cpp:169-171 | the "%02d:%02d" text reads back as the whole minutes and the seconds left over (below 60) of the remaining time |
| TimerPage.Timer.constructor | src/pages/TimerPage.cpp:13-16 | stopped, 5 minutes, 300 seconds left |
| TimerPage.Timer.Refresh | src/pages/TimerPage.cpp:137-166 | a running timer at least 1000 ms after its last tick loses one second and records now; it stops exactly when it reaches zero |
| TimerPage.Timer.StartStop | src/pages/TimerPage.cpp:199-213 | running afterwards exactly when it was stopped with time left |
| TimerPage.Timer.Reset | src/pages/TimerPage.cpp:215-220 | stopped, remaining time back to the full duration |
| TimerPage.Timer.UpdateTimer | src/pages/TimerPage.cpp:224-228 | a stopped timer is left alone; a running one ticks |
| TimerPage.Timer.AdjustTime | src/pages/TimerPage.cpp:255-272 | no change while running; otherwise the duration is clamped to 1..120 minutes and the time refills |
| TimerPage.Timer.OnButtonA | src/pages/TimerPage.cpp:230-235 | a press starts or pauses |
| TimerPage.Timer.OnButtonB | src/pages/TimerPage.cpp:237-244 | a press while stopped adds a minute, up to 120 |
| TimerPage.Timer.OnButtonC | src/pages/TimerPage.cpp:246-253 | a press while stopped removes a minute, down to 1 |
| TimerPage.AddThenRemoveMinute | src/pages/TimerPage.cpp:237-253 | B then C below the cap returns to the same duration |
| AlarmPage.ShiftHour | src/pages/AlarmPage.cpp:94-114 | only the hour changes, and it stays in 0..23 |
| AlarmPage.ShiftHourInverse | src/pages/AlarmPage.cpp:94-114 | an hour up then down, or down then up, restores the alarm |
| AlarmPage.SimulatedHour | src/pages/AlarmPage.cpp:267 | the simulated hour is in 0..23 |
| AlarmPage.SimulatedMinute | src/pages/AlarmPage.cpp:268 | the simulated minute is in 0..59 |
| AlarmPage.MatchingExactly | src/pages/AlarmPage.cpp:270-276 | exactly the enabled alarms at the simulated hour and minute are triggered, each once, in table order |
| AlarmPage.AlarmBoard.constructor | src/pages/AlarmPage.cpp:16-30 | the five-entry table, the first alarm selected, not editing |
| AlarmPage.AlarmBoard.OnKey | src/pages/AlarmPage.cpp:70-120 | TOP and BOTTOM move the selection cyclically; LEFT and RIGHT shift only the selected alarm's hour, and only in edit mode |
| AlarmPage.AlarmBoard.OnButton | src/pages/AlarmPage.cpp:122-127 | a press flips the selected alarm's enabled flag, a release changes nothing |
| AlarmPage.AlarmBoard.ToggleAlarm | src/pages/AlarmPage.cpp:235-241 | flips one alarm's enabled flag; an index outside the table changes nothing |
| AlarmPage.AlarmBoard.EditAlarm | src/pages/AlarmPage.cpp:243-253 | in edit mode moves one alarm's hour up, wrapping after 23; otherwise nothing |
| AlarmPage.AlarmBoard.FlipEditMode | src/core/AppManager.cpp:343-348 | key B flips edit mode exactly once |
| AlarmPage.AlarmBoard.CheckAlarms | src/pages/AlarmPage.cpp:255-277 | less than 60 s after the last check nothing; otherwise the check time becomes now and the matching alarms are triggered |
| MemoPage.FirstLine | src/pages/MemoPage.cpp:250 | the longest prefix without a line break |
| MemoPage.Preview | src/pages/MemoPage.cpp:247-259 | the first line if shorter than 25, else its first 25 characters and "..."; always under 30 |
| MemoPage.PreviewWithinFirstLine | src/pages/MemoPage.cpp:247-259 | a preview has no line break and no terminator, and without "..." it is a prefix of the note |
| MemoPage.BuildPreview | src/pages/MemoPage.cpp:247-259 | the buffer holds Preview(content) followed by a terminator inside 30 bytes |
| MemoPage.GridPreviews | src/pages/MemoPage.cpp:245-260 | one preview per note, in order |
| MemoPage.MemoBoard.constructor | src/pages/MemoPage.cpp:16-29 | the first note, grid view |
| MemoPage.MemoBoard.OnKey | src/pages/MemoPage.cpp:69-123 | nothing in the detail view; in the grid LEFT and TOP select the previous note, RIGHT and BOTTOM the next, cyclically |
| MemoPage.MemoBoard.OnButton | src/pages/MemoPage.cpp:125-136 | a press toggles the view, the selection is kept |
| MusicPage.Truncate | src/pages/MusicPage.cpp:340-341 | a stored name is a prefix of the file name, at most 63 bytes, the whole name when it fits |
| MusicPage.WavNames | src/pages/MusicPage.cpp:320-348 | no more accepted names than entries |
| MusicPage.WavNamesPrefix | src/pages/MusicPage.cpp:320-348 | scanning part of the listing yields a prefix of the names of the whole |
| MusicPage.WavNamesMembers | src/pages/MusicPage.cpp:321-339 | a name is stored exactly when its entry is a file with a name longer than 4 ending in ".wav" in any case |
| MusicPage.LastDot | src/pages/MusicPage.cpp:214 | the position of the last '.', none exactly when there is none |
| MusicPage.DisplayName | src/pages/MusicPage.cpp:204-220 | with an SD card a final ".wav" or ".mp3" is dropped; otherwise the stored name is shown |
| MusicPage.ProgressPercent | src/pages/MusicPage.cpp:271 | the bar is in 0..100 and full exactly at the end |
| MusicPage.TimeField | src/pages/MusicPage.cpp:284-295 | the "%d:%02d" field reads back as the whole minutes and the seconds left over (below 60) |
| MusicPage.MusicPlayer.constructor | src/pages/MusicPage.cpp:11-33 | stopped, first track, time 0, no tracks, no card |
| MusicPage.MusicPlayer.ScanListing | src/pages/MusicPage.cpp:320-348 | the accepted names are stored in listing order, at most ten |
| MusicPage.MusicPlayer.LoadMusicFiles | src/pages/MusicPage.cpp:297-380 | with a card and matches, the first ten matches; otherwise the five demo titles and the card marked unavailable; between 1 and 10 tracks |
| MusicPage.MusicPlayer.FillDemoTracks | src/pages/MusicPage.cpp:366-375 | the five demo titles |
| MusicPage.MusicPlayer.OnViewDidLoad | src/pages/MusicPage.cpp:47-51 | tracks loaded, widgets built |
| MusicPage.MusicPlayer.UpdateTrackInfo | src/pages/MusicPage.cpp:204-265 | the current track's display name is shown and the duration becomes 180 s |
| MusicPage.MusicPlayer.OnViewWillAppear | src/pages/MusicPage.cpp:53-57 | the current title is shown |
| MusicPage.MusicPlayer.OnKey | src/pages/MusicPage.cpp:75-125 | LEFT and RIGHT step the track cyclically from time 0; TOP and BOTTOM seek 10 s within 0..180 |
| MusicPage.MusicPlayer.PlayCurrentTrack | src/pages/MusicPage.cpp:382-429 | starting sets the duration to 180 + 30 per track position and the time to 0 |
| MusicPage.MusicPlayer.OnButton | src/pages/MusicPage.cpp:127-141 | a press toggles playback; starting restarts at 0; the duration ends at 180 s |
| MusicPage.MusicPlayer.UpdatePlaybackProgress | src/pages/MusicPage.cpp:431-450 | a playing track one second later advances one second; reaching the duration stops it there |
| CalendarPage.NextMonth | src/pages/CalendarPage.cpp:127-136 | the month stays in 1..12 and the month count grows by one |
| CalendarPage.PrevMonth | src/pages/CalendarPage.cpp:137-145 | the month stays in 1..12 and the month count shrinks by one |
| CalendarPage.MonthCountInjective | src/pages/CalendarPage.cpp:127-145 | a year and month are fixed by their month count |
| CalendarPage.NextPrevInverse | src/pages/CalendarPage.cpp:127-145 | RIGHT then LEFT and LEFT then RIGHT return to the same month |
| CalendarPage.GregorianRule | src/pages/CalendarPage.cpp:293 | the test is the Gregorian rule |
| CalendarPage.LeapCycle | src/pages/CalendarPage.cpp:293 | the leap years repeat every 400 years |
| CalendarPage.DaysInMonth | src/pages/CalendarPage.cpp:290-298 | 28 to 31 days, 29 exactly for February of a leap year |
| CalendarPage.DaysInYear | src/pages/CalendarPage.cpp:290-298 | the twelve lengths add to 366 in a leap year and 365 otherwise |
| CalendarPage.Placed | src/pages/CalendarPage.cpp:307-310 | a grid of 42 cells |
| CalendarPage.PlacedCells | src/pages/CalendarPage.cpp:307-310 | cell p shows day p - start + 1 when that day was written, else nothing |
| CalendarPage.EveryDayShown | src/pages/CalendarPage.cpp:307-310 | no day twice; a day appears exactly when its cell exists; with the first day on a weekday every day fits, in the column of its weekday |
| CalendarPage.Highlight | src/pages/CalendarPage.cpp:314-319 | a cell is highlighted exactly when it shows today in today's month |
| CalendarPage.HighlightUnique | src/pages/CalendarPage.cpp:314-319 | at most one highlighted cell, none outside today's month |
| CalendarPage.HighlightAsWritten | src/pages/CalendarPage.cpp:300-319 | the clearing loop keeps old backgrounds, so the highlight is the old one plus the new one |
| CalendarPage.StaleHighlight | src/pages/CalendarPage.cpp:300-319 | from December 2024 on the 21st, RIGHT leaves the 18 January cell highlighted |
| CalendarPage.HighlightFromClear | src/pages/CalendarPage.cpp:300-319 | with every background cleared first, the as-written highlight is the corrected one |
| CalendarPage.FillGridAsWritten | src/pages/CalendarPage.cpp:300-321 | the redraw as written: the cells hold the placed days, the text colour marks exactly today's cell, and the backgrounds are the old ones plus today's |
| CalendarPage.FillGrid | src/pages/CalendarPage.cpp:300-321 | the corrected redraw: the backgrounds are cleared as well, so text colour and background both mark exactly today's cell |
| CalendarPage.Calendar.constructor | src/pages/CalendarPage.cpp:10-68 | without an RTC the fixed date; with one that reads a year before 2020 the build time; else the reading |
| CalendarPage.Calendar.OnViewDidLoad | src/pages/CalendarPage.cpp:95-98 | 42 empty cells in the plain style: no text colour, no background |
| CalendarPage.Calendar.UpdateCalendar | src/pages/CalendarPage.cpp:268-324 | for a first weekday in 0..6: without widgets nothing; otherwise the grid shows the current month, every day in its weekday's cell, with today's text coloured, and every background set before stays, today's added (`Shows`) |
| CalendarPage.Calendar.OnKey | src/pages/CalendarPage.cpp:123-164 | LEFT and RIGHT step the month, TOP and BOTTOM the year, each redrawn as written with earlier backgrounds kept; NONE changes nothing |
| CalendarPage.Calendar.UpdateCurrentTime | src/pages/CalendarPage.cpp:70-85 | every date field takes the reading |
| CalendarPage.Calendar.OnButton | src/pages/CalendarPage.cpp:166-173 | a press returns to the RTC date and redraws as written, earlier backgrounds kept |
| CalendarPage.Calendar.Update | src/pages/CalendarPage.cpp:175-209 | at most once per second; the time is taken only when hour or minute moved, the date only when it also differs, and then the grid is redrawn as written, earlier backgrounds kept |
| AIAssistantPage.FirstKeyword | src/pages/AIAssistantPage.cpp:340-343 | the index of the first keyword that occurs, none when none does |
| AIAssistantPage.ShadowedKeyword | src/pages/AIAssistantPage.cpp:340-343 | a keyword extending an earlier one is never the first match |
| AIAssistantPage.TimerImpliesTime | src/pages/AIAssistantPage.cpp:341-342 | every text containing "timer" contains "time" |
| AIAssistantPage.ClassifyIntentAsWritten | src/pages/AIAssistantPage.cpp:336-346 | the first of weather, time, timer, alarm in the lowered input, else "chat" |
| AIAssistantPage.TimerNeverClassified | src/pages/AIAssistantPage.cpp:336-346 | the code as written never answers "timer" |
| AIAssistantPage.ClassifyIntent | src/pages/AIAssistantPage.cpp:336-346 | the corrected order weather, timer, time, alarm; "timer" for every timer request |
| AIAssistantPage.ReplyOfAsWritten | src/pages/AIAssistantPage.cpp:312-333 | weather, time, timer, greeting, else echo; the timer reply is never chosen |
| AIAssistantPage.ReplyOf | src/pages/AIAssistantPage.cpp:312-333 | the corrected order, timer before time |
| AIAssistantPage.ReplyMatchesIntent | src/pages/AIAssistantPage.cpp:312-346 | the reply is about weather, a timer or the time exactly when the intent is |
| AIAssistantPage.IsValidCommand | src/pages/AIAssistantPage.cpp:787-800 | true exactly when the lowered command contains one of the command words |
| AIAssistantPage.ClassifiedIsValid | src/pages/AIAssistantPage.cpp:336-346 | every input classified as a command is a valid command |
| AIAssistantPage.SimulateASR | src/pages/AIAssistantPage.cpp:298-309 | above 80, above 60, above 40 and otherwise give the four phrases |
| AIAssistantPage.WeatherPhraseIntent | src/pages/AIAssistantPage.cpp:298-309 | the loudest phrase asks about the weather |
| AIAssistantPage.TimePhraseIntent | src/pages/AIAssistantPage.cpp:298-309 | the second phrase asks for the time |
| AIAssistantPage.TimerPhraseContents | src/pages/AIAssistantPage.cpp:298-309 | the third phrase contains both "timer" and "time" |
| AIAssistantPage.ChatPhraseIntent | src/pages/AIAssistantPage.cpp:298-309 | the quietest phrase names no command |
| AIAssistantPage.AsrIntents | src/pages/AIAssistantPage.cpp:298-309 | the intent of each phrase by level |
| AIAssistantPage.TimerRequestMisread | src/pages/AIAssistantPage.cpp:336-346 | for levels 41..60 the code as written answers with the time, the corrected code with the timer |
| AIAssistantPage.HeardTimerRequestAsWritten | src/pages/AIAssistantPage.cpp:277-282 | as written, the heard timer request (levels 41..60) gets the time as its reply, "time" as its action, and the label shows the time |
| AIAssistantPage.HeardTimerRequest | src/pages/AIAssistantPage.cpp:336-346 | with timer tested before time, a heard timer request yields the timer reply and the timer action |
| AIAssistantPage.SoundLevel | src/pages/AIAssistantPage.cpp:131-135 | the level is in 0..100, 100 exactly from the top reading on, always below the threshold of 150 |
| AIAssistantPage.SoundLevelMonotone | src/pages/AIAssistantPage.cpp:131-135 | a louder reading never gives a lower level |
| AIAssistantPage.SpeakDuration | src/pages/AIAssistantPage.cpp:740-741 | 50 ms per character within 1 to 5 s |
| AIAssistantPage.StateText | src/pages/AIAssistantPage.cpp:566-575 | every state has a label |
| AIAssistantPage.StateTextInjective | src/pages/AIAssistantPage.cpp:566-575 | different states show different labels |
| AIAssistantPage.Assistant.constructor | src/pages/AIAssistantPage.cpp:3-43 | IDLE, voice mode, not recording, threshold 150, volume 80 |
| AIAssistantPage.Assistant.SetState | src/pages/AIAssistantPage.cpp:393-398 | the state changes, with its start and the last activity at now |
| AIAssistantPage.Assistant.Display | src/pages/AIAssistantPage.cpp:368-391 | the label shows the text once it exists |
| AIAssistantPage.Assistant.OnViewWillAppear | src/pages/AIAssistantPage.cpp:53-70 | configuration loaded once; the UI built once showing the welcome text in IDLE |
| AIAssistantPage.Assistant.OnViewDidAppear | src/pages/AIAssistantPage.cpp:72-75 | activity restarts at now |
| AIAssistantPage.Assistant.StartListening | src/pages/AIAssistantPage.cpp:257-265 | only from IDLE: LISTENING and recording |
| AIAssistantPage.Assistant.StopListening | src/pages/AIAssistantPage.cpp:267-295 | only from LISTENING: recording stops, and the response built from the heard phrase by processWithAI and classifyIntent as written (`Heard`) is kept and handled; back to IDLE |
| AIAssistantPage.Assistant.HandleAIResponse | src/pages/AIAssistantPage.cpp:368-391 | an invalid response shows an apology; a valid one is kept and acted on; always IDLE afterwards |
| AIAssistantPage.Assistant.ExecuteCommand | src/pages/AIAssistantPage.cpp:597-616 | each known command shows its text, an unknown one is reported; IDLE afterwards |
| AIAssistantPage.Assistant.ExecuteSmartCommand | src/pages/AIAssistantPage.cpp:349-366 | weather or time answers, an acknowledgement otherwise; IDLE afterwards |
| AIAssistantPage.Assistant.Speak | src/pages/AIAssistantPage.cpp:643-662 | SPEAKING with the text shown, then IDLE |
| AIAssistantPage.Assistant.HandleWeatherCommand | src/pages/AIAssistantPage.cpp:618-624 | the fixed forecast is shown, IDLE afterwards |
| AIAssistantPage.Assistant.HandleTimeCommand | src/pages/AIAssistantPage.cpp:626-641 | the simulated time of day is shown, IDLE afterwards |
| AIAssistantPage.Assistant.SpeakResponse | src/pages/AIAssistantPage.cpp:726-745 | with voice off nothing; otherwise the text is spoken for SpeakDuration of its length, then IDLE |
| AIAssistantPage.Assistant.OnButton | src/pages/AIAssistantPage.cpp:214-225 | releases are ignored; a press starts listening from IDLE and stops it from LISTENING with the as-written response `Heard` |
| AIAssistantPage.Assistant.OnKey | src/pages/AIAssistantPage.cpp:227-255 | TOP acts like a press, stopping with the as-written response `Heard`; LEFT asks for the weather and RIGHT for the time, only from IDLE |
| AIAssistantPage.Assistant.OnViewWillDisappear | src/pages/AIAssistantPage.cpp:77-82 | leaving while listening stops listening |
| AIAssistantPage.Assistant.VoiceDetected | src/pages/AIAssistantPage.cpp:825-827 | never true |
| AIAssistantPage.Assistant.ProcessVoiceInput | src/pages/AIAssistantPage.cpp:159-182 | a loud level marks speech; after speech, two seconds of quiet stop listening; with no speech ever heard nothing changes |
| AIAssistantPage.Assistant.UpdateMicrophone | src/pages/AIAssistantPage.cpp:121-146 | every 50 ms the reading becomes the level; speech is never detected, so the state machine is untouched |
| AIAssistantPage.Assistant.Update | src/pages/AIAssistantPage.cpp:88-118 | a LISTENING machine older than 10 s returns to IDLE but keeps recording; an IDLE one idle for more than 30 s restarts its activity clock |
| WeatherPage.GetWeatherIcon | src/pages/WeatherPage.cpp:263-282 | each icon exactly when its keyword group is the first found in the lowered description; UNKNOWN exactly when none is found |
| WeatherPage.IconIgnoresCase | src/pages/WeatherPage.cpp:263-282 | the icon does not depend on letter case |
| WeatherPage.IconSymbol | src/pages/WeatherPage.cpp:284-294 | a symbol for every icon, the default exactly for UNKNOWN |
| WeatherPage.IconSymbolInjective | src/pages/WeatherPage.cpp:284-294 | different icons show different symbols |
| WeatherPage.TranslateWeather | src/pages/WeatherPage.cpp:531-550 | a listed description becomes its English name, anything else is unchanged |
| WeatherPage.TranslateCity | src/pages/WeatherPage.cpp:553-575 | a listed city becomes its English name, anything else is unchanged |
| WeatherPage.WeatherKeysChinese | src/pages/WeatherPage.cpp:531-550 | every description the table translates is Chinese |
| WeatherPage.WeatherNamesAscii | src/pages/WeatherPage.cpp:531-550 | every translation in the table is non-empty ASCII |
| WeatherPage.CityKeysChinese | src/pages/WeatherPage.cpp:553-575 | every city name the table translates is Chinese |
| WeatherPage.CityNamesAscii | src/pages/WeatherPage.cpp:553-575 | every translated city name is non-empty ASCII |
| WeatherPage.AsciiNotKey | src/pages/WeatherPage.cpp:531-575 | no ASCII text is a key of either table |
| WeatherPage.TranslateWeatherIdempotent | src/pages/WeatherPage.cpp:531-550 | translating twice is translating once |
| WeatherPage.TranslateCityIdempotent | src/pages/WeatherPage.cpp:553-575 | translating twice is translating once |
| WeatherPage.SunnyIcon | src/pages/WeatherPage.cpp:266 | "Sunny" shows the sun |
| WeatherPage.CloudyIcon | src/pages/WeatherPage.cpp:267 | "Cloudy" shows the cloud |
| WeatherPage.PartlyCloudyIcon | src/pages/WeatherPage.cpp:267 | the fallback's "Partly Cloudy" shows the cloud |
| WeatherPage.RainIcon | src/pages/WeatherPage.cpp:268 | a description with "rain" and no 's' or 'c' shows rain |
| WeatherPage.LightRainIcon | src/pages/WeatherPage.cpp:268 | "Light Rain" shows rain |
| WeatherPage.ModerateRainIcon | src/pages/WeatherPage.cpp:268 | "Moderate Rain" shows rain |
| WeatherPage.SnowIcon | src/pages/WeatherPage.cpp:269 | "Snow" shows snow |
| WeatherPage.ThunderstormIcon | src/pages/WeatherPage.cpp:270 | "Thunderstorm" shows the storm, not the sun |
| WeatherPage.SandstormIcon | src/pages/WeatherPage.cpp:270 | "Sandstorm" shows the thunderstorm icon |
| WeatherPage.FogIcon | src/pages/WeatherPage.cpp:271 | "Fog" shows fog |
| WeatherPage.NoKeywordIcon | src/pages/WeatherPage.cpp:263-282 | a description with no keyword shows UNKNOWN |
| WeatherPage.OvercastIcon | src/pages/WeatherPage.cpp:263-282 | the translated "Overcast" shows UNKNOWN |
| WeatherPage.HazeIcon | src/pages/WeatherPage.cpp:263-282 | the translated "Haze" shows UNKNOWN |
| WeatherPage.TyphoonIcon | src/pages/WeatherPage.cpp:263-282 | the translated "Typhoon" shows UNKNOWN |
| WeatherPage.RequestURL | src/pages/WeatherPage.cpp:338-341 | the base, '?', then the fields key, location, language and unit=c joined by '&' |
| WeatherPage.JoinFields | src/pages/WeatherPage.cpp:338-341 | fields joined by separators |
| WeatherPage.SplitJoin | src/pages/WeatherPage.cpp:338-341 | splitting at '&' undoes joining when no field holds '&' |
| WeatherPage.RequestURLFields | src/pages/WeatherPage.cpp:338-341 | the query splits back into the four fields when no value holds '&' |
| WeatherPage.FromReading | src/pages/WeatherPage.cpp:456-483 | a valid record with the translated city and description, the reading's numbers, humidity 60 when missing, and the formatted time |
| WeatherPage.Fallback | src/pages/WeatherPage.cpp:205-212 | a valid Beijing record: Partly Cloudy, 22 degrees, 65 percent |
| WeatherPage.Refreshed | src/pages/WeatherPage.cpp:182-220 | the service's reading exactly when a key is configured and the service answered, the fallback otherwise; always valid |
| WeatherPage.DisplayOf | src/pages/WeatherPage.cpp:222-240 | the labels show the record's icon symbol, temperature, description, city and humidity |
| WeatherPage.FallbackDisplay | src/pages/WeatherPage.cpp:242-249 | the fallback shows the same icon as the placeholder, but not the placeholder |
| WeatherPage.AppearSchedule | src/pages/WeatherPage.cpp:60 | a valid record is refreshed once more than 2 s have passed since appearing, until the unsigned difference wraps |
| WeatherPage.Weather.constructor | src/pages/WeatherPage.cpp:17-34 | no valid record, nothing refreshed, not updating, the configured key kept |
| WeatherPage.Weather.URL | src/pages/WeatherPage.cpp:338-341 | the request URL starts with the service's base |
| WeatherPage.Weather.OnViewWillAppear | src/pages/WeatherPage.cpp:48-61 | the labels are created once, with placeholders; the next refresh is scheduled 2 s ahead |
| WeatherPage.Weather.ParseWeather | src/pages/WeatherPage.cpp:441-502 | success exactly for a reply, and then the record is the reading's |
| WeatherPage.Weather.UpdateWeatherData | src/pages/WeatherPage.cpp:182-220 | nothing while updating; otherwise the record is Refreshed, it is shown, and the update time is now |
| WeatherPage.Weather.Update | src/pages/WeatherPage.cpp:75-83 | a refresh exactly when not updating and the record is invalid or older than 30 minutes |
| WeatherPage.Weather.OnButton | src/pages/WeatherPage.cpp:147-153 | a press refreshes unless an update is running; otherwise nothing changes |
| WeatherPage.Weather.OnKey | src/pages/WeatherPage.cpp:155-180 | TOP and NONE refresh unless an update is running; the other directions change nothing |
| Clock.Elapsed | src/main.cpp:48 | the unsigned difference `now - since` of two `millis()` readings: the time that, added to `since`, gives `now` modulo 2^32, and the plain difference when nothing wrapped |
| Clock.Before | src/pages/WeatherPage.cpp:60 | the unsigned `t - d`: the time that, d later, is `t` modulo 2^32 |
| Clock.After | src/pages/WeatherPage.cpp:60 | the unsigned `t + d`, equal to the plain sum when it does not wrap |
| Clock.ElapsedFromBefore | src/pages/WeatherPage.cpp:60 | measuring from a time moved back by d adds d to the elapsed time, as long as nothing wraps |
| Clock.Constrain | src/pages/AIAssistantPage.cpp:132 | Arduino `constrain`: the value inside the bounds, else the nearer bound |
| Clock.Succ | src/pages/AlarmPage.cpp:86-92 | the next selection in a ring of n, the last wrapping to the first |
| Clock.Pred | src/pages/AlarmPage.cpp:77-83 | the previous selection in a ring of n, the first wrapping to the last |
| Clock.SuccPredInverse | src/pages/AlarmPage.cpp:77-92 | stepping forward then back, or back then forward, returns to the same selection |
| Text.LowerChar | src/pages/WeatherPage.cpp:265 | `toLowerCase` changes exactly the letters A to Z, to their lowercase forms |
| Text.Lower | src/pages/WeatherPage.cpp:265 | `toLowerCase` keeps the length and lowers each character |
| Text.LowerIdempotent | src/pages/AIAssistantPage.cpp:338 | lowering twice is lowering once |
| Text.ContainsPrefix | src/pages/AIAssistantPage.cpp:340-343 | whatever contains a word contains each of its prefixes |
| Text.Dec | src/pages/AIAssistantPage.cpp:633-634 | `String(n)`: at least one decimal digit, one exactly below 10, no leading zero |
| Text.DecRoundTrip | src/pages/AIAssistantPage.cpp:633-634 | reading back what `String(n)` wrote gives n |
| Text.DecInjective | src/pages/AIAssistantPage.cpp:633-634 | different numbers are written differently |
| Text.ZeroPad2 | src/pages/TimerPage.cpp:171 | `%02d`: at least two digits, exactly two below 100, reading back as the number |
| Text.HourMinuteFields | src/pages/WeatherPage.cpp:296-303 | the two fields of formatTime read back as the hour of the day and the minute of the hour |
| Text.HourMinuteShape | src/pages/WeatherPage.cpp:296-303 | dividing the milliseconds down through seconds and minutes gives the same hour (mod 24) and minute (mod 60) as dividing by the length of an hour and of a minute |
| StringUtils.NulIndex | src/utils/string_utils.h:23 | the position of the first terminator |
| StringUtils.Content | src/utils/string_utils.h:23 | the characters before the terminator |
| StringUtils.ContentOfTerminated | src/utils/string_utils.h:23-27 | a text without NUL followed by one holds exactly that text |
| StringUtils.Strlen | src/utils/string_utils.h:23 | the loop counts up to the first terminator |
| StringUtils.MemCopy | src/utils/string_utils.h:26 | the first count characters are copied and the rest is untouched |
| StringUtils.CustomStrdup | src/utils/string_utils.h:21-29 | null for null or a failed allocation; otherwise a fresh copy of the string with its terminator |
| StringUtils.CappedLength | src/utils/string_utils.h:34-36 | strlen capped at n |
| StringUtils.CustomStrndup | src/utils/string_utils.h:32-42 | null for null or a failed allocation; otherwise a fresh string of min(strlen, n) characters that is a prefix of the input |

## Left out

- LVGL widgets, styles, fonts, colours, animations and the navigation-bar animation (`AppManager.cpp:131-247`): foreign library calls. A root widget is the boolean `hasRoot`, and label texts are kept where a contract talks about them.
- Serial logging, `tone`, `noTone`, `pinMode` and `delay`: no effect on the modelled state. Blocking waits return their duration (`SpeakResponse`) or are skipped.
- WiFiManager, the HTTPS request and the JSON parsing of the weather service: the parsed reply is the parameter `reply`.
- The weather page's simulator build branch: it is compiled only for the simulator.
- `loadWeatherConfig`: the API key is a constructor parameter.
- The RTC, `mktime` and `localtime`: readings and the first weekday of a month are parameters.
- SD card directory iteration: a listing is a parameter, and a missing `/Music` directory gives an empty listing.
- The AI page's network and text paths (`processCommand`, `sendToAI`, `processTextInput`, `setMode`, `getRecordedText`), `animateAvatar` and `animateWeatherIcon`: cosmetic or never reached from the input paths.
- `triggerAlarm`: sound only. `CheckAlarms` returns the indices it would ring.
- Memory ownership: `delete page` in `Unregister` and `lv_obj_del` are not modelled. A page removed from the pool may still be referenced from the stack, as in the source.
- PageManager.PageManager.Register: requires a freshly constructed page that was never registered. The pool owns and deletes its pages, so registering one object twice is outside the engine's contract.
- `style_manager`, `wifi_config.h`, display driver setup and `my_disp_flush`: not part of this model.
- Lifecycle and input hooks default to no-ops in `PageBase.h`. The trace records their calls; what each page does in them is modelled by that page's class.
- WeatherPage.Weather.UpdateWeatherData: requires the labels to exist, since `displayWeatherInfo` writes them without a null check.

## Findings

The page classes run the code as written (`Heard`, `FillGridAsWritten`); the
corrected members stand beside them with the intended property proved.

| source | as written | input that shows it | evidently intended | confidence | as-written member | corrected member |
|---|---|---|---|---|---|---|
| src/pages/AIAssistantPage.cpp:336-346 | "time" is tested before "timer" in classifyIntent and processWithAI, and every text containing "timer" contains "time", so the timer intent and the timer reply are unreachable | the phrase simulateASR produces for a level of 41..60, which asks to set a timer, is classified "time" and answered with the time | test "timer" before "time" | high, not executed | AIAssistantPage.TimerRequestMisread | AIAssistantPage.ClassifyIntent |
| src/pages/CalendarPage.cpp:300-319 | the clearing loop resets the text colour of every cell but not the background set for today's cell, so the old month's highlight background survives a month change | today 21 December 2024: pressing RIGHT to January 2025 leaves cell 20, now showing the 18th, with the highlight background | clear the background in the clearing loop | high, not executed | CalendarPage.StaleHighlight | CalendarPage.FillGrid |
