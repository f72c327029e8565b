# Multi-AI Chat Manager — a verified model of its core

Multi-AI Chat Manager is a Windows desktop tool. It finds the browser or
Electron windows of several AI chat applications, tiles them in a grid and
hides their taskbar icons. It sends one typed prompt to every selected
window by focusing it, putting the prompt on the clipboard and pasting it
with Ctrl+V and Enter. It also keeps a history of the prompts sent. Next to
it are a configuration helper that recognises AI application shortcuts and
a browser-extension content script that focuses the page's chat input when
the user pastes.

This project models that core in Dafny and proves properties of the model:

| file | module | models |
|---|---|---|
| `os.dfy` | `Os` | the Win32 desktop as an object `Desktop`: windows by handle, enumeration order, foreground window, clipboard, and a log of focus, clipboard, key, wait and close events |
| `window_geometry.dfy` | `Geometry` | display selection, the padded integer grid, the three placement strategies with their 50-pixel read-back test, and the taskbar style bit |
| `window_classify.dfy` | `Classify` | the keyword table built from the configured applications, first-match title classification, the process allow-list, and what one window enumeration records |
| `window_manager.dfy` | `WindowManager` | `WindowManager`: refresh, arrange, bring to front, minimize/restore/close all, taskbar icons, active-app list |
| `prompt_sender.dfy` | `PromptSender` | `ReliablePromptSender`: the per-window action sequence, the loop with its wait, success accounting, focus capture and restore |
| `input_history.dfy` | `InputHistory` | `InputHistoryManager`: the bounded history, its cursor, search, statistics and the `timestamp \| prompt` file format |
| `setup_config.dfy` | `SetupConfig` | application-type detection, building and sorting the `ai_apps` descriptors, and the per-file shortcut test |
| `app_main.dfy` | `App` | the required-section check and the send callback of the entry point |
| `content_script.dfy` | `ContentScript` | platform naming, the input search over the selector list, the paste-key decision, focusing and the URL observer |
| `text.dfy`, `sequences.dfy`, `wrappers.dfy` | `Text`, `Sequences`, `Wrappers` | Python string operations (`lower`, `strip`, `in`), a stable sort by key (Python's `sorted`/`list.sort`), `Option` |

Operating-system behaviour that cannot be computed comes into the model as
explicit inputs:

- Where each placement strategy leaves a window is an `Attempts` value. For each strategy it is one of: refused; the rectangle read back; or, when the move-then-resize strategy's move succeeds and its resize fails, the rectangle the move left.
- Which step of a delivery raises is a `Fault` per window.
- The process behind a window is `exe: Option<string>`, where None means the lookup failed.
- The clock is a `now` string.
- The history file is a field holding its text.
- The page's DOM is a `querySelectorAll` function from a selector to element records.

Each state-changing operation is a method. Its postcondition ties the new
desktop, registry or history to a function of the old state. The
properties the program relies on are proved about those functions as
lemmas.

## Model

| member | source | states |
|---|---|---|
| Geometry.DisplayOf | src/multi_ai_chat/gui/window_manager.py:39-53 | the display record of monitor i has number i+1, width right−left, height bottom−top, its work area's corner, and is primary iff flag bit 1 is set |
| Geometry.DetectDisplays | src/multi_ai_chat/gui/window_manager.py:33-69 | a preferred number p with 1 ≤ p ≤ n selects display p; otherwise the first display; with no displays or a failed enumeration the 1920×1080 default at (0, 0) |
| Geometry.CellSizeFits | src/multi_ai_chat/gui/window_manager.py:223-225 | with floor division, n cells and n+1 paddings of 10 pixels fit within the display extent |
| Geometry.CellInsideDisplay | src/multi_ai_chat/gui/window_manager.py:231-244 | every cell with index below cols×rows lies inside the display, at least one padding from each edge |
| Geometry.CellsDisjoint | src/multi_ai_chat/gui/window_manager.py:239-244 | two different grid indices get non-overlapping cells |
| Geometry.GridExample | src/multi_ai_chat/gui/window_manager.py:223-244 | on a 1930×1010 display in a 3×2 grid: cells are 630×490, cell 0 is at (10, 10), cell 4 at (650, 510), capacity 6 |
| Geometry.AcceptedStrategy | src/multi_ai_chat/gui/window_manager.py:312-377 | the number (1–3) of the first strategy whose read-back corner is within 50 pixels of the target on both axes, every earlier one rejected; 0 when all three are rejected |
| Geometry.Tried | src/multi_ai_chat/gui/window_manager.py:312-377 | the strategies run are exactly those in order up to and including the first accepted one, all three if none is |
| Geometry.FirstAcceptedDecides | src/multi_ai_chat/gui/window_manager.py:312-377 | once a strategy is accepted, the window's final rectangle is that strategy's read-back, within 50 pixels of the target |
| Geometry.TriedInOrder | src/multi_ai_chat/gui/window_manager.py:312-377 | the rectangle after placement is the result of applying the strategies one after another, stopping at the first accepted one |
| Geometry.HalfMoveKept | src/multi_ai_chat/gui/window_manager.py:333-358 | a move that succeeds followed by a resize that fails is not accepted, and the window keeps the move when the other strategies are refused |
| Geometry.HideStyle | src/multi_ai_chat/gui/window_manager.py:148-159 | hiding sets the tool-window bit and leaves every other style bit unchanged |
| Geometry.ShowStyle | src/multi_ai_chat/gui/window_manager.py:161-172 | showing clears the tool-window bit and leaves every other style bit unchanged |
| Geometry.HideIdempotent | src/multi_ai_chat/gui/window_manager.py:148-159 | hiding twice is the same as hiding once |
| Geometry.ShowUndoesHide | src/multi_ai_chat/gui/window_manager.py:148-172 | showing after hiding restores the original style iff it did not have the tool-window bit |
| Classify.AppPriority | src/multi_ai_chat/gui/window_manager.py:24-31 | the six named applications get 0–5; every other name gets 999 |
| Classify.LowerAll | src/multi_ai_chat/gui/window_manager.py:108 | an application's keywords are lower-cased one by one, in order |
| Classify.PutFacts | src/multi_ai_chat/gui/window_manager.py:105-108 | assigning a dict key keeps the keys distinct; an existing key keeps its position and a new one goes last |
| Classify.KeywordMapDistinct | src/multi_ai_chat/gui/window_manager.py:105-108 | the keyword table holds each enabled application name once |
| Classify.KeywordMapValues | src/multi_ai_chat/gui/window_manager.py:105-108 | each name's keywords are those of the last enabled application of that name |
| Classify.KeywordMapCovers | src/multi_ai_chat/gui/window_manager.py:105-108 | every enabled application has an entry in the table |
| Classify.FirstHit | src/multi_ai_chat/gui/window_manager.py:119-121 | the first table entry with a keyword contained in the title; no earlier entry has one |
| Classify.MatchTitle | src/multi_ai_chat/gui/window_manager.py:117-134 | the nested loops attribute the title to the first application with a matching keyword, and to some application iff any keyword matches |
| Classify.ClassifyFirstMatch | src/multi_ai_chat/gui/window_manager.py:119-134 | if entry i is the first with a matching keyword, the title is attributed to entry i's application |
| Classify.ClassifyCons | src/multi_ai_chat/gui/window_manager.py:119-121 | the search tests the first entry and moves on to the rest of the table only when that entry has no matching keyword |
| Classify.ClassifyExample | src/multi_ai_chat/gui/window_manager.py:117-121 | matching is case-insensitive: "ChatGPT - New Chat" matches the keyword "chatgpt" |
| Classify.IsValidAiWindow | src/multi_ai_chat/gui/window_manager.py:174-197 | a destroyed handle is invalid; a failed process lookup counts as valid; otherwise valid iff an allowed executable name is a substring of the lower-cased process name |
| Classify.DetectFacts | src/multi_ai_chat/gui/window_manager.py:110-141 | a handle is recorded iff it is enumerated and the callback accepts it (non-empty title, first matching application, valid window); no handle is recorded twice |
| Classify.DetectIdentity | src/multi_ai_chat/gui/window_manager.py:110-141 | what enumeration records depends only on which windows exist, their titles and their processes |
| Classify.RefreshTwice | src/multi_ai_chat/gui/window_manager.py:99-146 | hiding the found windows does not change what the next refresh records: a second refresh gives the same list and table |
| WindowManager.PlaceAll | src/multi_ai_chat/gui/window_manager.py:231-264 | arranging neither creates nor destroys windows |
| WindowManager.PlaceAllOthers | src/multi_ai_chat/gui/window_manager.py:231-264 | a window that was not given a cell is left exactly as it was |
| WindowManager.PlaceAllPlaced | src/multi_ai_chat/gui/window_manager.py:231-264 | the window given cell k is restored from minimized or maximized and ends where the strategies left it for cell k's corner |
| WindowManager.CountArranged | src/multi_ai_chat/gui/window_manager.py:231-255 | the arranged count never exceeds the number of windows given a cell |
| WindowManager.ArrangeBounds | src/multi_ai_chat/gui/window_manager.py:231-266 | the count is at most the number placed, which is at most cols×rows |
| WindowManager.PlaceStep | src/multi_ai_chat/gui/window_manager.py:231-264 | giving the next window the next cell changes that window only, and adds one to the count iff one of its strategies was accepted |
| WindowManager.PlaceInGrid | src/multi_ai_chat/gui/window_manager.py:231-264 | the placement loop stops after cols×rows windows; it places exactly the first min(n, cols×rows) windows, in cell order, counts the accepted ones, and leaves enumeration order, focus, clipboard and event log untouched |
| WindowManager.SevenInSixCells | src/multi_ai_chat/gui/window_manager.py:217-235 | seven distinct windows in a 3×2 grid: six are placed and the seventh in priority order is not |
| WindowManager.LiveMembers | src/multi_ai_chat/gui/window_manager.py:425-545 | the registered handles still windows, in registry order: a handle is listed iff it is registered and alive |
| WindowManager.IconicMembers | src/multi_ai_chat/gui/window_manager.py:425-459 | the live registered windows with the given minimized state, and no others |
| WindowManager.ActiveOf | src/multi_ai_chat/gui/window_manager.py:481-495 | one row per live registered window, each naming a live registered handle |
| WindowManager.FirstOfApp | src/multi_ai_chat/gui/window_manager.py:398-400 | the first registry position whose recorded application is the given name; no earlier one matches |
| WindowManager.CloseEvents | src/multi_ai_chat/gui/window_manager.py:533-537 | one close request per window closed |
| WindowManager.CloseStep | src/multi_ai_chat/gui/window_manager.py:531-539 | one more registry handle joins the live list iff it is still a window, and then adds exactly one close request |
| WindowManager.SetIconicStep | src/multi_ai_chat/gui/window_manager.py:425-459 | visiting one more registered window minimizes or restores it only if it is live and not yet in the target state |
| WindowManager.ShowAllStep | src/multi_ai_chat/gui/window_manager.py:461-475 | visiting one more registered window clears its tool-window bit if it is live |
| WindowManager.LiveSameKeys | src/multi_ai_chat/gui/window_manager.py:526-545 | restoring the taskbar icons first does not change which registered windows count as live when closing |
| WindowManager.HiddenKeepsIdentity | src/multi_ai_chat/gui/window_manager.py:122-133 | hiding a recorded window changes neither its title nor its validity, so later windows are classified as before |
| WindowManager.HideAllStep | src/multi_ai_chat/gui/window_manager.py:133 | recording one more window sets its tool-window bit and nothing else |
| WindowManager.InfoOfStep | src/multi_ai_chat/gui/window_manager.py:124-129 | recording one more window adds its title, application, handle and priority to the table |
| WindowManager.BuildKeywordMap | src/multi_ai_chat/gui/window_manager.py:105-108 | the loop builds the keyword table of the enabled applications, in configuration order |
| WindowManager.Manager.constructor | src/multi_ai_chat/gui/window_manager.py:17-31 | a new manager has an empty registry and table |
| WindowManager.Manager.HideFromTaskbar | src/multi_ai_chat/gui/window_manager.py:148-159 | a live window gets the tool-window bit; a destroyed one is left alone |
| WindowManager.Manager.ShowInTaskbar | src/multi_ai_chat/gui/window_manager.py:161-172 | a live window loses the tool-window bit; a destroyed one is left alone |
| WindowManager.Manager.Refresh | src/multi_ai_chat/gui/window_manager.py:99-146 | the registry and table are rebuilt from scratch from one enumeration; each recorded window is hidden from the taskbar and nothing else changes |
| WindowManager.Manager.Enumerate | src/multi_ai_chat/gui/window_manager.py:110-141 | the enumeration loop records exactly the windows the callback accepts, in enumeration order, with their table entries |
| WindowManager.Manager.ArrangeSingle | src/multi_ai_chat/gui/window_manager.py:272-394 | false for a destroyed window; otherwise the window is normalised and placed by the strategies, and true iff one is accepted |
| WindowManager.Manager.Normalize | src/multi_ai_chat/gui/window_manager.py:281-306 | a minimized or maximized window is restored and shown normally |
| WindowManager.Manager.TryStrategy | src/multi_ai_chat/gui/window_manager.py:312-377 | a refused strategy leaves the window where it was; any other moves it (a half-done move-then-resize included); it is accepted iff all its calls succeed and the read-back is within 50 pixels |
| WindowManager.Manager.ArrangeGrid | src/multi_ai_chat/gui/window_manager.py:207-270 | nothing happens with no windows; otherwise the first min(n, cols×rows) windows in stable priority order get cells in row-major order, the rest are untouched, and the count is the number accepted |
| WindowManager.Manager.BringToFront | src/multi_ai_chat/gui/window_manager.py:396-423 | acts on the first registry window of the named application: true iff it exists and is alive, in which case it is restored if minimized and made foreground and nothing else on the desktop changes; otherwise nothing changes |
| WindowManager.Manager.MinimizeAll | src/multi_ai_chat/gui/window_manager.py:425-441 | every live registered window ends minimized; the count is the number that were live and not minimized |
| WindowManager.Manager.RestoreAll | src/multi_ai_chat/gui/window_manager.py:443-459 | every live registered window ends restored; the count is the number that were live and minimized |
| WindowManager.Manager.RestoreTaskbarIcons | src/multi_ai_chat/gui/window_manager.py:461-475 | every live registered window gets its taskbar icon back; the count is the number live |
| WindowManager.Manager.CloseAll | src/multi_ai_chat/gui/window_manager.py:526-545 | icons are restored, each live registered window gets a close request in registry order, the count is the number live, and both tables end empty |
| WindowManager.Manager.PostCloseAll | src/multi_ai_chat/gui/window_manager.py:531-539 | one close request per live window, in order; the count is the number live |
| WindowManager.Manager.CloseIfLive | src/multi_ai_chat/gui/window_manager.py:533-537 | a close request is posted iff the handle is still a window; windows, order, focus and clipboard do not change |
| WindowManager.Manager.GetActiveApps | src/multi_ai_chat/gui/window_manager.py:477-499 | the rows of the live registered windows, stably sorted by priority, each for a live registered handle |
| PromptSender.WaitMs | src/multi_ai_chat/core/prompt_sender.py:47-48 | the wait is max(configured delay, 500 ms), with 100 ms as the default delay, so never below 500 ms |
| PromptSender.SendOneFacts | src/multi_ai_chat/core/prompt_sender.py:67-96 | a delivery succeeds iff the window is alive and no step raises; its actions are a prefix of (focus, clipboard := prompt, Ctrl+V, Enter), all four on success; a raising `SetClipboardText` leaves the clipboard empty; nothing happens to a destroyed window |
| PromptSender.NoSleepInActions | src/multi_ai_chat/core/prompt_sender.py:67-96 | the delivery actions contain no wait |
| PromptSender.SendAll | src/multi_ai_chat/core/prompt_sender.py:35-52 | the success count never exceeds the number of windows |
| PromptSender.SendAllKeys | src/multi_ai_chat/core/prompt_sender.py:35-52 | sending neither creates nor destroys windows |
| PromptSender.SendAllCounts | src/multi_ai_chat/core/prompt_sender.py:35-52 | the success count is the number of live windows whose delivery raises at no step |
| PromptSender.Deliverable | src/multi_ai_chat/core/prompt_sender.py:35-52 | at most one success per window |
| PromptSender.OneWaitPerWindow | src/multi_ai_chat/core/prompt_sender.py:35-52 | the loop only appends to the event log, and it waits exactly once per window, the last included |
| PromptSender.SendWaitStep | src/multi_ai_chat/core/prompt_sender.py:35-52 | one delivery and its wait keep every earlier event and add exactly one wait |
| PromptSender.FocusRestored | src/multi_ai_chat/core/prompt_sender.py:98-105 | when the captured foreground window is a real window, focus goes back to it unless `SetForegroundWindow` raises; if it raises, the caught error leaves the screen as the deliveries left it |
| PromptSender.Sender.constructor | src/multi_ai_chat/core/prompt_sender.py:14-17 | no foreground window is captured yet |
| PromptSender.Sender.SendToWindow | src/multi_ai_chat/core/prompt_sender.py:67-96 | restore if minimized, then focus, empty the clipboard, store the prompt, Ctrl+V and Enter, returning false at the first step that raises (open, empty, set or close of the clipboard included) |
| PromptSender.Sender.RestoreOriginalFocus | src/multi_ai_chat/core/prompt_sender.py:98-105 | focus returns to the captured window only if it is non-null, still a window, and the refocus does not raise; otherwise nothing changes |
| PromptSender.Sender.SendToAll | src/multi_ai_chat/core/prompt_sender.py:19-65 | a blank prompt or no windows gives (0, 0, 0) with no desktop action and no capture; otherwise the foreground is captured, every window is visited in order, focus is restored unless the refocus raises, and success + failed = total = number of windows |
| PromptSender.Sender.DeliverAll | src/multi_ai_chat/core/prompt_sender.py:35-52 | the loop delivers to each window in caller order, waits after each, and counts the successes |
| PromptSender.Sender.SendToSingle | src/multi_ai_chat/core/prompt_sender.py:107-134 | false with no action for a blank prompt; otherwise capture, deliver, restore focus (nothing if the refocus raises); true iff the window is alive and no step raises |
| InputHistory.PyTail | src/multi_ai_chat/core/input_history.py:106 | Python's `xs[-count:]`: the last count items for positive count, all of them for 0 |
| InputHistory.Newest | src/multi_ai_chat/core/input_history.py:213-215 | at most max_entries items, the newest ones, the whole list when it fits |
| InputHistory.LoadTrimZeroKeepsAll | src/multi_ai_chat/core/input_history.py:214-215 | with max_entries 0, the trimming as written keeps a loaded entry |
| InputHistory.LoadTrimAgrees | src/multi_ai_chat/core/input_history.py:214-215 | for every positive bound the trimming as written keeps exactly the newest max_entries |
| InputHistory.ParseLineFacts | src/multi_ai_chat/core/input_history.py:185-205 | a loaded entry has a non-empty prompt and records its length |
| InputHistory.ParseLinesFacts | src/multi_ai_chat/core/input_history.py:185-211 | every loaded entry has a non-empty prompt and its length |
| InputHistory.ParseLinesSnoc | src/multi_ai_chat/core/input_history.py:185-207 | reading one more line appends its entry if it holds one, and nothing otherwise |
| InputHistory.ReadEntries | src/multi_ai_chat/core/input_history.py:182-207 | the reading loop yields the entries of the file's lines, in line order |
| InputHistory.CommentSkipped | src/multi_ai_chat/core/input_history.py:186-188 | a line starting with `#` yields no entry |
| InputHistory.EntryLineRoundTrip | src/multi_ai_chat/core/input_history.py:192-198 | the line saved for a well-formed entry loads back as that entry |
| InputHistory.BodyRoundTrip | src/multi_ai_chat/core/input_history.py:185-211 | the saved entry lines load back as the same entries in the same order |
| InputHistory.BodyCons | src/multi_ai_chat/core/input_history.py:185-211 | the first saved entry line loads back as that entry, ahead of the entries of the remaining lines |
| InputHistory.HeaderSkipped | src/multi_ai_chat/core/input_history.py:231-233 | the three header lines and the blank line yield no entries |
| InputHistory.SaveLoadRoundTrip | src/multi_ai_chat/core/input_history.py:176-243 | loading a saved file gives back the saved entries in order, when each is well formed |
| InputHistory.PromptBreakSplits | src/multi_ai_chat/core/input_history.py:199-205 | a prompt with a line break is saved on two lines and loads back as two entries, the second stamped with the load time |
| InputHistory.PromptBreakLines | src/multi_ai_chat/core/input_history.py:236-238 | the saved text of an entry whose prompt holds a line break splits into the entry line, the rest of the prompt, and an empty tail |
| InputHistory.MultilinePromptSplits | src/multi_ai_chat/core/input_history.py:199-205 | "a\nb" saved at "t" loads back as ("a", "t") and ("b", load time) |
| InputHistory.BareLineParsed | src/multi_ai_chat/core/input_history.py:199-205 | a line without a separator becomes a prompt stamped with the load time |
| InputHistory.Matching | src/multi_ai_chat/core/input_history.py:116-118 | a search never returns more entries than the history has |
| InputHistory.MatchingMembers | src/multi_ai_chat/core/input_history.py:116-118 | an entry is found iff it is in the history and its lower-cased prompt contains the term |
| InputHistory.CharactersAtLeastEntries | src/multi_ai_chat/core/input_history.py:143 | with non-empty prompts, the character total is at least the entry count |
| InputHistory.Manager.constructor | src/multi_ai_chat/core/input_history.py:12-30 | the history starts empty with the cursor at -1; if saving is on and the file exists it then holds the newest max_entries entries of the file and the cursor is just past them |
| InputHistory.Manager.Load | src/multi_ai_chat/core/input_history.py:176-221 | with saving off or no file nothing changes; otherwise every line is parsed, the newest max_entries entries are kept and the cursor goes past the end |
| InputHistory.Manager.Save | src/multi_ai_chat/core/input_history.py:223-243 | with saving on the file is the header followed by one line per entry; otherwise it is unchanged |
| InputHistory.Manager.AddEntry | src/multi_ai_chat/core/input_history.py:42-74 | a blank prompt or a repeat of the newest entry changes nothing; otherwise the stripped prompt is appended, the oldest entry dropped past the bound, the cursor put past the end and the file saved; the bound is kept |
| InputHistory.Manager.Append | src/multi_ai_chat/core/input_history.py:61-68 | append, drop the oldest past the bound, cursor past the end, bound kept |
| InputHistory.Manager.GetPrevious | src/multi_ai_chat/core/input_history.py:76-86 | None on an empty history; otherwise the cursor steps back, stopping at 0 (−1 becomes 0), and that prompt is returned |
| InputHistory.Manager.GetNext | src/multi_ai_chat/core/input_history.py:88-98 | None on an empty history; below the last entry the cursor advances and that prompt is returned; otherwise it goes past the end and "" is returned |
| InputHistory.Manager.GetRecentEntries | src/multi_ai_chat/core/input_history.py:104-106 | the last count entries, and the whole history for count 0 |
| InputHistory.Manager.SearchHistory | src/multi_ai_chat/core/input_history.py:108-120 | a blank term finds nothing; otherwise the entries whose lower-cased prompt contains the lower-cased term, in history order |
| InputHistory.Manager.ClearHistory | src/multi_ai_chat/core/input_history.py:122-130 | the history ends empty, the cursor at −1, and the file rewritten |
| InputHistory.Manager.GetStats | src/multi_ai_chat/core/input_history.py:132-152 | entry count, character total (at least the count), oldest and newest timestamps, present iff the history is non-empty |
| SetupConfig.DetectByTable | scripts/setup_config.py:56-107 | the chain of tests is a first-match search of the seven categories in order; an unrecognised name keeps its name, gets its lower-cased name without spaces as keyword, and priority 999 |
| SetupConfig.DetectIgnoresCase | scripts/setup_config.py:56-58 | detection depends on the name only up to letter case and not on the path |
| SetupConfig.KnownPriorities | scripts/setup_config.py:60-107 | a priority is 0–6 for a known category and 999 iff no category's trigger occurs in the name |
| SetupConfig.ChatGptTestedFirst | scripts/setup_config.py:60-71 | a name containing both "claude" and "openai" is ChatGPT |
| SetupConfig.Built | scripts/setup_config.py:113-125 | one descriptor per shortcut, in shortcut order, each built from that shortcut's detected type |
| SetupConfig.BuildEntries | scripts/setup_config.py:113-125 | the loop builds one descriptor per shortcut, in shortcut order |
| SetupConfig.CreateAppConfig | scripts/setup_config.py:109-130 | one entry per shortcut, a permutation of the built entries, sorted by priority and stable for equal priorities, each enabled, selected and pointing at an input shortcut's path |
| SetupConfig.ShortcutOf | scripts/setup_config.py:40-50 | a file is recorded iff its lower-cased name ends in `.lnk` and contains a keyword; the record names the file minus its last 4 characters and the first keyword in list order |
| SetupConfig.MatchShortcut | scripts/setup_config.py:40-50 | the loop with its `break` records what the file test says |
| SetupConfig.FirstKeyword | scripts/setup_config.py:42-50 | the keyword loop stops at the first keyword contained in the name |
| App.Missing | src/multi_ai_chat/main.py:118 | a section is reported iff it is required and absent; no more reports than required sections |
| App.MissingAppend | src/multi_ai_chat/main.py:118 | the report keeps the order of the required list |
| App.MissingSectionsEmpty | src/multi_ai_chat/main.py:117-120 | nothing is reported iff all five required sections are present |
| App.Selected | src/multi_ai_chat/main.py:157-162 | no more windows are selected than are registered |
| App.SelectedAppend | src/multi_ai_chat/main.py:157-162 | the selection is a filter, so registry order is kept |
| App.SelectedMembers | src/multi_ai_chat/main.py:157-162 | a handle is selected iff it is registered and its application name (default "") was ticked |
| App.SelectWindows | src/multi_ai_chat/main.py:157-162 | the loop builds that selection |
| App.SendPromptCallback | src/multi_ai_chat/main.py:149-179 | an empty registry or an empty selection gives (0, 0, 0) with no dispatch; otherwise the dispatcher's result for the selected windows, unchanged |
| ContentScript.PlatformByTable | extensions/Chrome/content.js:7-20 | the tests are a first-match, case-sensitive search of the seven platforms in order, "Unknown" when none matches |
| ContentScript.OpenAiBeforeClaude | extensions/Chrome/content.js:9-11 | a host containing both "openai" and "claude" is ChatGPT |
| ContentScript.FirstUsable | extensions/Chrome/content.js:69-80 | the first element that is laid out, enabled, writable, not display none and not visibility hidden; none earlier is |
| ContentScript.FirstUsableAppend | extensions/Chrome/content.js:67-83 | the first usable element of two lists lies in the first if it has one |
| ContentScript.FindInFirst | extensions/Chrome/content.js:67-83 | the search returns the first usable element scanning selectors in order and each selector's matches in document order; null iff none is usable |
| ContentScript.FindInput | extensions/Chrome/content.js:22-84 | the element found over the 25 selectors, which is usable |
| ContentScript.Scan | extensions/Chrome/content.js:67-83 | the nested loops with early return compute that search |
| ContentScript.UpperCaseIgnored | extensions/Chrome/content.js:130-141 | Ctrl with upper-case "V" is ignored; Cmd+v acts iff no text field has the focus |
| ContentScript.Page.constructor | extensions/Chrome/content.js:147 | the observer starts from the page's URL |
| ContentScript.Page.FocusInput | extensions/Chrome/content.js:86-116 | true iff an input is found; it is focused, with the caret after the contents of an editable element or at value.length in a text area |
| ContentScript.Page.HandleKeyDown | extensions/Chrome/content.js:130-141 | focusing is attempted iff Ctrl or Cmd is held, the key is lower-case "v", and the focused element is not a text field (INPUT, TEXTAREA, contentEditable "true" or role "textbox"); when an input is found it becomes the active element with the caret placed as in focusing |
| ContentScript.Page.OnMutation | extensions/Chrome/content.js:148-161 | a changed URL is reported and remembered; the same URL is not reported |

## Left out

- Win32, psutil and COM calls are not modelled as APIs. They are operations on the abstract desktop in `Os`. Their failures come in as inputs: strategy read-backs, per-step send faults, and a failed process lookup.
- Settle delays are not modelled. These are the `time.sleep` calls of 0.1–0.3 s in the window manager (0.3 s after each restore while normalising) and of 0.2 s in a delivery, plus the final 0.5 s in arranging. The model keeps only the wait between sends, in whole milliseconds.
- Concurrency is not modelled. The GUI runs operations on background threads, and the model assumes one operation at a time.
- Every model is sequential.
- `launch_apps_parallel` and `_verify_arrangement` are not modelled. The first starts processes and sleeps, and the second only logs.
- `export_history`, `get_file_path`, `is_file_accessible` and `_ensure_data_directory` are not modelled, because they are filesystem operations.
- `get_all_entries` is not modelled. It returns a copy of the history field.
- Logging is not modelled.
- `InputHistory.Manager.GetStats`: the average length is not modelled, because it is a rounded float.
- The clock is not modelled. `datetime.now().isoformat()` is the parameter `now`.
- `InputHistory.Manager.Save`: the header's time is the parameter `now`. Each entry line keeps the entry's own timestamp, as in the source.
- `InputHistory.Manager.AddEntry`: the clock value is also used as the new entry's timestamp.
- Read and write errors on the history file are not modelled. The file is a field holding its text, and `None` means it does not exist.
- `InputHistory.Lines` splits only at `\n`. A lone `\r` line ending, which Python's universal newlines also splits at, is not modelled.
- `Text.Lower` lower-cases ASCII letters only. Python's `str.lower` also folds non-ASCII letters.
- `InputHistory.Manager.Load`: trims the loaded history with the corrected `InputHistory.Newest`. So with `max_entries` 0 it keeps no loaded entry, where the source's `history[-0:]` keeps every one. The trim as written is `InputHistory.LoadTrimAsWritten` (see Findings).
- `InputHistory.Manager.constructor`: loads through the same corrected trim as `InputHistory.Manager.Load`. With `max_entries` 0 it starts with no entries, where the source keeps every loaded one. The trim as written is `InputHistory.LoadTrimAsWritten` (see Findings).
- `InputHistory.Manager`: `max_entries` is a natural number. A negative configured value is not modelled.
- `WindowManager.Manager.ArrangeGrid` requires positive grid dimensions. With a zero dimension the source raises `ZeroDivisionError` outside its `try`. A negative configuration is not modelled.
- `App.SendPromptCallback`: the catch-all `except` that returns (0, 0, 0) is not modelled. Every modelled step either completes or reports its failure through its result, so nothing is left for it to catch.
- `WindowManager.CloseEvents` states only the number of close requests. `WindowManager.Manager.PostCloseAll` fixes their contents and order.
- `WindowManager.PlaceAll` states only that no window is created or destroyed. Where each window goes is `WindowManager.PlaceAllOthers` and `WindowManager.PlaceAllPlaced`.
- `WindowManager.Manager.BringToFront`: `ShowWindow(SW_SHOW)` and `BringWindowToTop` are not modelled, because they do not change the modelled state.
- `WindowManager.Manager.BringToFront` assumes `SetForegroundWindow` raises only for a destroyed window. The caught error then returns false.
- `PromptSender.Sender.SendToAll`: the per-window `try` around `GetWindowText` and the wait is not modelled. Neither can raise in the model, and a delivery's own errors are faults.
- `PromptSender.Sender.SendToWindow`: whether the clipboard is open is not modelled. When a clipboard call after `OpenClipboard` raises, the source never reaches `CloseClipboard`, and the model does not record that the clipboard stays open.
- `PromptSender`: `test_clipboard_functionality`, `test_com_automation` and `get_configuration_info` are not modelled. They are self-tests of foreign calls.
- `SetupConfig` models only the per-file test from `find_ai_shortcuts`. The directory walk, `os.path.join` (the full path is a parameter) and the `PermissionError` handling are left out.
- `interactive_setup`, YAML loading and saving, and `validate_config` are not modelled, because they are console and filesystem code.
- `App.MissingSections`: the configuration is reduced to its set of top-level keys. Loading it (`load_configuration`) is not modelled.
- In `main`, printing, waiting for Enter, dependency checks and thread start-up are not modelled.
- `ContentScript.Page.FocusInput`: when an empty contenteditable element is focused, the source appends a text node first. That DOM change is not modelled. The selection is recorded as "collapsed at the end of the element".
- `ContentScript.Page.FocusInput`: the caret position `|e.value|` counts Unicode characters. JavaScript's `value.length` counts UTF-16 code units, so a character outside the Basic Multilingual Plane (an emoji) counts 2 in the source and 1 in the model.
- `ContentScript.Page.OnMutation` only reports a navigation. The re-search of the input after `setTimeout(1000)` is not modelled, because its result is only logged.
- In the content script, `MutationObserver` registration, console logging and the debug listing after load are not modelled.
- The GUI (`gui/interface.py`) and the packaging script (`scripts/build_exe.py`) are not part of this model.

## Findings

| source | as written | input that shows it | evidently intended | confidence | as-written member | corrected member |
|---|---|---|---|---|---|---|
| src/multi_ai_chat/core/input_history.py:214-215 | trims a loaded history with `history[-max_entries:]` | `max_entries = 0` and a file with one entry: `[-0:]` is the whole list, so one entry is kept although at most zero are allowed (`add_entry` keeps the bound by popping) | keep the newest `max_entries` entries, none when it is 0 | not executed | InputHistory.LoadTrimAsWritten (shown by InputHistory.LoadTrimZeroKeepsAll) | InputHistory.Newest (agreement for positive bounds: InputHistory.LoadTrimAgrees) |

The manager class uses `InputHistory.Newest` both when loading and when
adding. So its invariant `|history| <= max_entries` holds for every bound,
0 included.
