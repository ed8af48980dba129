# Human Typer Pro: the typing engine and the popup, in Dafny

Human Typer Pro is a Chrome extension. It types a pasted text into a Google
Docs document one character at a time, with a human-looking delay in front
of each character. The user can pause, resume and stop it from the popup.
This project models the two parts of the extension that hold logic.

- **The typing engine of `content.js`** (`typing.dfy`, class `Typing.Engine`).
  - `typingState` is the field `state`.
  - `startTyping`, `pauseTyping`, `resumeTyping`, `stopTyping` and
    `getStatus` are `Start`, `Pause`, `Resume`, `Stop` and `Status`.
  - `typeCharacter` is split at its wait. The first half is
    `BeginDelivery`. The second half is `FinishDelivery`, called from
    `DelayElapsed`.
  - The asynchronous `typingLoop` is `RunLoop`. The field `loop` records
    where the loop is suspended: in the 100 ms pause poll (`Polling`) or in
    the delay in front of a character (`Delaying`). These are its only
    suspension points, because everything between them runs synchronously.
  - A request from the popup is a method call made while the loop is
    suspended. A timer firing is a call of `PollElapsed` or `DelayElapsed`.
  - The document is the sequence of editing commands it has received
    (`editor`). The notifications sent to the popup are `outbox`.
  - Ghost fields record which characters of the session reached the
    document. `Valid()` states that the session's part of the document
    types exactly those characters, in text order, each once.
- **The popup of `popup.js`** (`popup.dfy`).
  - The display computed from its `state` object is a set of pure
    functions: the button flags, the percentage, the time left and its
    `m:ss` label, and the words left.
  - The start button's checks are the function `CheckStart`.
  - The handlers that assign fields of `state` are methods of the class
    `Popup.PopupPage`.
- **Word counting** (`words.dfy`) is shared by both files. It models
  `split(/\s+/).filter(word => word.length > 0).length` over JavaScript's
  `\s` character class. It is proved equal to the number of maximal runs of
  non-whitespace characters.

"Now" (`Date.now()`) is a parameter. Whether the editor is found is the
input `editorFound`. The Gaussian sample of the inter-key interval is the
input `sample`; only its 60 ms floor is modelled.

## Model

| member | source | states |
|---|---|---|
| Words.Split | content.js:104 | splitting yields at least one piece, no piece contains a `\s` character, and the first piece is empty exactly when the text is empty or starts with whitespace |
| Words.SplitJoinsBack | content.js:104 | the model's split cuts at every whitespace character (where `split(/\s+/)` cuts at runs, which only differs by empty pieces): one more piece than separators, and the pieces joined back with the separators give the text again |
| Words.NonEmpty | content.js:104 | the filter keeps no more pieces than it is given, and every piece it keeps is non-empty |
| Words.NonEmptyKeepsWords | content.js:104 | the filter keeps every non-empty piece, as often as it occurs, and drops only the empty ones (as multisets) |
| Words.WordCountCons | content.js:133 | putting a character in front of a text adds a word exactly when the character is not whitespace and starts a new run |
| Words.WordCountSnoc | content.js:133 | appending a character adds a word exactly when it is not whitespace and follows whitespace or the start of the text |
| Words.WordCountIsRunCount | content.js:104 | the split-and-filter word count equals the number of maximal non-whitespace runs (`RunCount`) |
| Words.WordCountPrefix | popup.js:104-109 | a prefix of a text never has more words than the whole text |
| Words.WordCountPrefixes | content.js:133 | the word count of a prefix grows with the prefix, so `wordsTyped` never decreases along a session |
| Words.BlankIffNoWords | popup.js:159 | a text is empty or whitespace only (`trim() === ''`) exactly when it has no words |
| Typing.CommandFor | content.js:80-84 | a newline becomes `insertLineBreak` and every other character `insertText`; either way the command types that character |
| Typing.Commands | content.js:121-124 | the commands for a list of indices type the characters at those indices, one command per index, in order |
| Typing.Delay | content.js:66-67 | the delay is at least 60 ms and is either the sample or 60; a sample of 60 or more is kept unchanged |
| Typing.BeginDelivery | content.js:56-57 | `typeCharacter` gives up before waiting exactly when there is no editor, the session is not running, or it is paused; otherwise it waits at least 60 ms |
| Typing.ProgressRun | content.js:126-134 | the progress notifications of iterations `lo` to `hi - 1`: one per iteration, the k-th carrying index `lo + k + 1` and the word count of the text up to that index |
| Typing.ProgressRunOrdered | content.js:126-134 | along a run of progress notifications the index strictly increases and the words typed never decrease; the last one carries `hi`, and at the end of the text the whole text's word count |
| Typing.Engine.constructor | content.js:4-15 | the engine starts idle, with an empty text, index 0, no pending loop and nothing typed or sent |
| Typing.Engine.RunLoop | content.js:110-142 | the loop runs from the current index to its next suspension point. It polls at index k if paused. It records k and returns without TYPING_COMPLETE if stopped. It waits in front of `text[k]` if the editor is there. With no editor it skips every remaining character, reporting each, then stops running and sends TYPING_COMPLETE. Past the end it sends TYPING_COMPLETE and stops running |
| Typing.Engine.Advance | content.js:126-134 | the end of an iteration: the index moves to the next character, everything else in the session record stays, and one TYPING_PROGRESS with the new index and the words of the text up to it is sent |
| Typing.Engine.LoopLeavesValid | content.js:110-142 | wherever the loop stops, a running session has a pending loop, a pending loop sits at the current index inside the text, and a pending delay is at least 60 ms |
| Typing.Engine.Start | content.js:91-106 | ignored, with nothing changed, while a session runs. Otherwise: running, not paused, the given text, start time "now", `pauseTime` 0, `totalDuration` = minutes × 60000, `wordsTotal` = the number of non-whitespace runs; then the loop runs from `startIndex` to its first suspension point. No character of the new session is in the document yet |
| Typing.Engine.FinishDelivery | content.js:72-86 | after the wait, the character is delivered (one command appended to the document) exactly when the session is still running and not paused; otherwise nothing changes and it reports false |
| Typing.Engine.DelayElapsed | content.js:70-134 | when the delay in front of `text[i]` ends, the character is typed only if the session is still running and not paused. Either way the index becomes `i + 1`, a progress report for `i + 1` is sent and the loop goes on; the index strictly increases and stays within the text |
| Typing.Engine.PollElapsed | content.js:112-114 | a poll tick while still paused changes nothing; otherwise the loop goes on from the same index |
| Typing.Engine.Pause | content.js:151-161 | only while running: sets `isPaused` and `pauseTime` to now and sends TYPING_PAUSED with the unchanged index; otherwise nothing changes |
| Typing.Engine.Resume | content.js:164-175 | only while running and paused: clears `isPaused`, moves `startTime` forward by the pause, so that the time elapsed at the resume equals the time elapsed at the pause, and sends TYPING_RESUMED; otherwise nothing changes |
| Typing.Engine.Stop | content.js:178-185 | from any state: not running, not paused, everything else unchanged, one TYPING_STOPPED sent |
| Typing.Engine.Status | content.js:188-198 | the status report carries every field of the session record except the text |
| Typing.PauseDuringDelay | content.js:70-134 | a pause during the delay in front of `text[i]` that is still in effect when the delay ends drops that character, yet the index moves to `i + 1` with a progress report; the loop then polls at `i + 1`, or, at the last character, completes with the session still marked paused |
| Typing.StopDuringDelay | content.js:110-142 | a stop during the delay in front of `text[i]` types nothing more; one progress report for `i + 1` follows TYPING_STOPPED, and at the last character TYPING_COMPLETE follows as well |
| Typing.PauseThenResume | content.js:151-175 | pause then resume keeps the index and running state and shifts `startTime` by the pause; with no time between them only `pauseTime` changes |
| Typing.PauseTwiceThenResume | content.js:151-175 | a second pause re-stamps `pauseTime`, so the resume only shifts `startTime` by the time since the second pause |
| Typing.StopTwice | content.js:178-185 | stopping twice leaves the state one stop leaves, with two TYPING_STOPPED notifications |
| Typing.StartPauseStop | content.js:110-134 | start, pause, stop, then the first delay ends: nothing is typed, and the popup receives TYPING_PAUSED(0), TYPING_STOPPED and then a progress report for index 1 |
| Typing.TypeWithoutInterruption | content.js:110-142 | with the editor always there and no requests, the document keeps its earlier commands and then receives exactly `CommandFor` of each character of the text, in order (a line break for each newline), and the popup one progress report per character and then TYPING_COMPLETE |
| Typing.StartUninterrupted | content.js:91-124 | a start with the editor present leaves nothing of the new session typed or sent, and the loop waiting in front of the first character (or, for an empty text, completed) |
| Typing.UninterruptedTyped | content.js:121-126 | after `i` characters of an uninterrupted session the document is exactly its earlier commands followed by `CommandFor` of the first `i` characters, in order |
| Typing.TypeNextCharacter | content.js:121-134 | one delay of an uninterrupted session types the next character and reports it, keeping the uninterrupted-session invariant |
| Popup.ButtonsFor | popup.js:69-72 | start is disabled exactly while running; pause is enabled exactly while running and not paused; resume exactly while running and paused, so the two are never both enabled; stop exactly while running or paused |
| Popup.UpdateUI | popup.js:68-80 | the progress box is shown exactly while running or once the index is past 0, and then holds the progress display |
| Popup.Percent | popup.js:83-84 | the percentage lies in [0, 100], is 0 for empty content, is 100 once the index reaches the end, and below that is index × 100 / length |
| Popup.RoundPercent | popup.js:87 | the rounded label is an integer in [0, 100] within half a unit of the percentage |
| Popup.TimeLeft | popup.js:90-97 | the time left is never negative and is 0 unless running and unpaused with a start time, or paused with a pause time; while running it is the duration minus the elapsed time; while paused it stays at its value when the pause began (corrected, see Findings) |
| Popup.TimeLeftAsWritten | popup.js:90-97 | the time left as the code computes it is 0 in the same cases, and equal to the corrected one whenever the popup is not paused |
| Popup.TimeLeftCountsDown | popup.js:91-93 | while running, the time left never increases and falls no faster than the clock |
| Popup.PausedTimeLeftFrozen | popup.js:94-96 | corrected: while paused, the time left is the same at every moment and equals the running value at the moment the pause began |
| Popup.PausedTimeLeftGrowsAsWritten | popup.js:94-96 | as written: while paused, the time left shown grows one for one with the clock and exceeds the frozen value by the length of the pause |
| Popup.PausedTimeLeftExample | popup.js:96 | 10 s into a one-minute session and 10 s into a pause, the code shows 60000 ms left where 50000 ms remain |
| Popup.ResumeCountsPauseAsElapsed | popup.js:262-267 | a resume clears `isPaused` without moving the popup's `startTime`, so right after it the time left drops by the length of the pause |
| Popup.Digits | popup.js:101 | `${n}` is a non-empty string of decimal digits with no leading zero |
| Popup.ValueOfDigits | popup.js:101 | reading back the decimal digits of n gives n |
| Popup.TwoDigits | popup.js:101 | `padStart(2, '0')` of a number below 100 is two digits that read back as that number |
| Popup.MinutesAndSeconds | popup.js:99-100 | the seconds part is below 60, and whole minutes × 60 + seconds is the whole seconds of the time left |
| Popup.ClockText | popup.js:99-101 | the label is digits, a colon, then two digits that read back as seconds below 60; minutes × 60 + seconds equals the whole seconds left; the minutes have no leading zero |
| Popup.WordsLeft | popup.js:104-109 | the words left are the content's words minus the words of its typed prefix (the `Math.max(0, …)` never acts); all words at index 0 and none once the index reaches the end |
| Popup.ProgressDisplayFor | popup.js:82-110 | the display holds the percentage `Percent`, its rounded label `RoundPercent` and the words left `WordsLeft`; the percentage label is in [0, 100], the words left never exceed the content's words, and the time label is the clock text of the time left as the code computes it, which is the corrected time left whenever the popup is not paused |
| Popup.PausedDisplayExample | popup.js:94-101 | in the paused session of the Finding, the popup shows `1:00` where `0:50` is left |
| Popup.Contains | popup.js:166 | `includes` holds exactly when the pattern occurs at some position of the string |
| Popup.Minutes | popup.js:171 | `parseInt(…) \|\| 5`: a non-zero parsed number is kept, and 0 or NaN becomes 5, so the result is never 0 |
| Popup.CheckStart | popup.js:158-172 | start is refused for lack of content exactly when the content has no words; it proceeds exactly when the content has words and the tab has a URL containing `docs.google.com/document`; it then uses that tab, the defaulted minutes and minutes × 60000 ms |
| Popup.PopupPage.constructor | popup.js:18-30 | the popup starts from the initial state object: no content, 5 minutes, not running, index 0 |
| Popup.PopupPage.OnContentInput | popup.js:147-151 | typing into the content box sets the content and its word count and nothing else |
| Popup.PopupPage.OnMinutesInput | popup.js:153-156 | the minutes box sets `totalMinutes` to the defaulted parse, never 0 |
| Popup.PopupPage.OnStartClick | popup.js:158-189 | a refused start changes nothing and sends nothing. Otherwise the popup is running, unpaused, at index 0, with start time now, the duration, the content's word count and the tab; it sends START_TYPING with the content and the minutes |
| Popup.PopupPage.OnStartFailed | popup.js:193-199 | a failed start request clears `isRunning` and nothing else |
| Popup.PopupPage.OnPauseReply | popup.js:207-215 | a "paused" reply sets `isPaused` and `pauseTime`; any other reply changes nothing |
| Popup.PopupPage.OnResumeReply | popup.js:222-229 | a "resumed" reply clears `isPaused` and nothing else; any other reply changes nothing |
| Popup.PopupPage.OnStopReply | popup.js:236-243 | the stop callback clears running and paused and resets the index to 0, so the progress box is hidden |
| Popup.PopupPage.OnMessage | popup.js:247-280 | TYPING_PROGRESS sets only the index. TYPING_PAUSED sets `isPaused` and `pauseTime`. TYPING_RESUMED clears `isPaused`. TYPING_COMPLETE and TYPING_STOPPED clear running and paused but keep the index |

### Behaviour of the code worth knowing

The model follows the code in each of these points.

- The loop advances the index and sends a progress report after every
  iteration, whether the character was delivered or not
  (content.js:121-134).
- A pause that is still in effect when the delay in front of `text[i]`
  ends drops that character for good. Delivery is refused after the wait
  (content.js:72), the index still moves to `i + 1` (content.js:126), and a
  resume continues from there (`PauseDuringDelay`). A pause followed by a
  resume before the delay ends does not drop it: the character is typed
  (`FinishDelivery`).
- Start, pause and stop before the first character is typed still end the
  first delay. The index becomes 1 and one progress report follows
  TYPING_STOPPED (`StartPauseStop`).
- A stop during the delay in front of the last character is followed by a
  progress report and then TYPING_COMPLETE (content.js:126-142,
  `StopDuringDelay`).
- A session whose last character's delay ends while paused completes with
  `isPaused` still true (content.js:138, `PauseDuringDelay`).
- Stop acts from any state and sends TYPING_STOPPED on every call
  (content.js:178-185, `StopTwice`). Pause also acts while already paused,
  and then re-stamps `pauseTime` (content.js:152-154,
  `PauseTwiceThenResume`).
- The engine's resume moves `startTime` by the pause
  (`Typing.Engine.Resume`). The popup's resume handlers do not move the
  popup's own `startTime` (popup.js:222-228, 262-267), so the time left
  it shows drops by the length of the pause at the resume
  (`Popup.ResumeCountsPauseAsElapsed`).

## Left out

- Words.Split cuts at every whitespace character rather than at runs of whitespace as `split(/\s+/)` does (content.js:104). This only adds empty pieces, which the filter drops, so the words and their count are the same.
- background.js: storage initialisation, message pass-through and periodic re-saving. It is browser I/O with no logic.
- The Gaussian sampling of `generateGaussianRandom` (content.js:46-52) uses `Math.random` and floating-point `log`, `cos` and `sqrt`. It is the input `sample`; only the 60 ms clamp is modelled.
- The floating-point `baseIKI`, `ikiSD` and the `|| 200` / `|| 50` option defaults (content.js:62-63, 100, 122-123) only feed the sample, so they are left out with it.
- The `progress` fraction of TYPING_PROGRESS (content.js:131) is a float. No handler reads it.
- The length of the 100 ms pause poll is not modelled. Each call of `PollElapsed` is one tick.
- DOM access: `findGoogleDocsEditor`, focusing the editor and `execCommand` (content.js:18-42, 74-84). The editor's presence is the input `editorFound`, and delivery appends a command to `editor`. After the wait, the code reuses the editor handle it found before the wait; the model does not check again whether the editor is still there.
- The content.js message listener and its replies (content.js:200-239). Its requests are modelled as direct calls of `Start`, `Pause`, `Resume`, `Stop` and `Status`, and the popup's reply handlers take the reply status as a parameter.
- Typing.Engine.Start: a loop left suspended by a stopped session is dropped when a new session starts. In the code that old loop stays pending and would later run against the new session's state. Modelling two loops at once is concurrency and is left out.
- Typing.Engine.Start: `startIndex` is a natural number. A negative or fractional start index from the message is not modelled; the popup never sends one.
- `chrome.tabs`, `chrome.runtime.sendMessage`, `chrome.storage`, `alert`, `saveState`, `init`, `checkActiveTab`, the progress monitor (`setInterval`) and the window focus listener (popup.js:32-66, 112-144, 282-286). These are I/O and timers. Outgoing messages are the `outbox` log and the START_TYPING request returned by `OnStartClick`.
- `parseInt` (popup.js:154, 171) is an `Option<int>` input, with `None` standing for NaN.
- Popup.Percent: computed on exact reals, not IEEE doubles. Popup.RoundPercent: `Math.round` is rounding half up on exact reals.
- Popup.Digits: writes every natural number in plain decimal. JavaScript switches to exponent notation for numbers of 10^21 and more.
- Text positions and lengths count Dafny characters (Unicode scalar values). JavaScript counts UTF-16 code units, so the two differ for characters outside the Basic Multilingual Plane.
- The popup's tab-status text and the progress bar's CSS width (popup.js:86, 121-144) are display only.

## Findings

| source | as written | input that shows it | evidently intended | confidence | as-written member | corrected member |
|---|---|---|---|---|---|---|
| popup.js:94-96 | while paused, time left = max(0, totalDuration − (pauseTime − startTime) + (now − pauseTime)), so it grows during the pause | a one-minute session (totalDuration 60000) started at 1000, paused at 11000, displayed at 21000: the code shows 60000 ms (1:00) | the time left stays at 50000 ms (0:50), the value at the moment the pause began | medium, not executed | Popup.PausedTimeLeftExample | Popup.PausedTimeLeftFrozen |
