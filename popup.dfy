/**
 * The popup of popup.js: the display computed from its `state` object
 * (`updateUI`, `updateProgressDisplay`), the checks of the start button, and
 * the handlers that assign fields of `state` (button replies and the
 * `chrome.runtime.onMessage` listener). `now` stands for `Date.now()`.
 */
module Popup {
  import opened Wrappers
  import opened Words
  import opened Messages
  import opened Clock

  const DefaultMinutes: int := 5
  /** The start button only starts on a page whose URL contains this. */
  const DocsMarker: string := "docs.google.com/document"

  /** popup.js's `state` object. */
  datatype PopupState = PopupState(
    content: string,
    totalMinutes: int,
    isRunning: bool,
    isPaused: bool,
    currentIndex: nat,
    startTime: int,
    pauseTime: int,
    totalDuration: int,
    wordsTotal: nat,
    tabId: Option<int>,
    targetUrl: string)

  const InitialPopup := PopupState([], DefaultMinutes, false, false, 0, 0, 0, 0, 0, None, [])

  function Min(a: int, b: int): int { if a < b then a else b }

  /** `Math.max(0, x)` */
  function Max0(x: int): nat { if x > 0 then x else 0 }

  // ---------------------------------------------------------------- buttons

  datatype Buttons = Buttons(startDisabled: bool, pauseDisabled: bool, resumeDisabled: bool, stopDisabled: bool)

  /** The `disabled` flags `updateUI` sets. */
  function ButtonsFor(s: PopupState): (b: Buttons)
    ensures b.startDisabled <==> s.isRunning
    // pause and resume are never both enabled; while running exactly one is
    ensures b.pauseDisabled || b.resumeDisabled
    ensures s.isRunning ==> b.pauseDisabled != b.resumeDisabled
    ensures !b.pauseDisabled <==> s.isRunning && !s.isPaused
    ensures !b.resumeDisabled <==> s.isRunning && s.isPaused
    // whenever pause or resume is offered, so is stop, and start is not
    ensures !b.pauseDisabled || !b.resumeDisabled ==> !b.stopDisabled && b.startDisabled
    ensures !b.stopDisabled <==> s.isRunning || s.isPaused
  {
    Buttons(s.isRunning, !s.isRunning || s.isPaused, !s.isRunning || !s.isPaused, !s.isRunning && !s.isPaused)
  }

  // ---------------------------------------------------------------- percent

  /** The completion percentage (`Math.min(currentIndex / length * 100, 100)`), on exact reals. */
  function Percent(s: PopupState): (p: real)
    ensures 0.0 <= p <= 100.0
    ensures s.content == [] ==> p == 0.0
    ensures |s.content| > 0 && s.currentIndex <= |s.content| ==>
      p * (|s.content| as real) == (s.currentIndex as real) * 100.0
    ensures |s.content| > 0 && s.currentIndex >= |s.content| ==> p == 100.0
  {
    if |s.content| > 0 then
      var n, i := |s.content| as real, s.currentIndex as real;
      var q := (i / n) * 100.0;
      assert i <= n ==> q <= 100.0 && q * n == i * 100.0;
      assert i >= n ==> q >= 100.0;
      if q < 100.0 then q else 100.0
    else 0.0
  }

  /** `Math.round` of a percentage: the nearest integer, halves rounded up. */
  function RoundPercent(p: real): (r: int)
    requires 0.0 <= p <= 100.0
    ensures 0 <= r <= 100
    ensures r as real - 0.5 <= p < r as real + 0.5
  {
    (p + 0.5).Floor
  }

  // ---------------------------------------------------------------- time left

  /**
   * `timeLeft` of `updateProgressDisplay` with its paused branch corrected:
   * while paused, the time left stays at what it was when the pause began.
   */
  function TimeLeft(s: PopupState, now: int): (t: nat)
    ensures !(s.isRunning && !s.isPaused && s.startTime > 0) && !(s.isPaused && s.pauseTime > 0) ==> t == 0
    ensures s.isRunning && !s.isPaused && s.startTime > 0 ==> t == Max0(s.totalDuration - (now - s.startTime))
    ensures s.isPaused && s.pauseTime > 0 ==> t == Max0(s.totalDuration - (s.pauseTime - s.startTime))
  {
    if s.isRunning && !s.isPaused && s.startTime > 0 then
      Max0(s.totalDuration - (now - s.startTime))
    else if s.isPaused && s.pauseTime > 0 then
      Max0(s.totalDuration - (s.pauseTime - s.startTime))
    else 0
  }

  /** `timeLeft` exactly as popup.js:90-97 computes it; its paused branch adds the pause. */
  function TimeLeftAsWritten(s: PopupState, now: int): (t: nat)
    ensures !(s.isRunning && !s.isPaused && s.startTime > 0) && !(s.isPaused && s.pauseTime > 0) ==> t == 0
    ensures !(s.isPaused && s.pauseTime > 0) ==> t == TimeLeft(s, now)
  {
    if s.isRunning && !s.isPaused && s.startTime > 0 then
      Max0(s.totalDuration - (now - s.startTime))
    else if s.isPaused && s.pauseTime > 0 then
      var pauseDuration := now - s.pauseTime;
      Max0(s.totalDuration - (s.pauseTime - s.startTime) + pauseDuration)
    else 0
  }

  /** While running, the time left counts down no faster than the clock. */
  lemma TimeLeftCountsDown(s: PopupState, t1: int, t2: int)
    requires s.isRunning && !s.isPaused && s.startTime > 0 && t1 <= t2
    ensures TimeLeft(s, t2) <= TimeLeft(s, t1) <= TimeLeft(s, t2) + (t2 - t1)
  {
  }

  /**
   * Corrected: a pause freezes the time left at the value it had, running,
   * at the moment the pause began.
   */
  lemma PausedTimeLeftFrozen(s: PopupState, now1: int, now2: int)
    requires s.isRunning && s.isPaused && s.pauseTime > 0 && s.startTime > 0
    ensures TimeLeft(s, now1) == TimeLeft(s, now2) == TimeLeft(s.(isPaused := false), s.pauseTime)
  {
  }

  /** As written: while paused, the time left shown grows with the length of the pause. */
  lemma PausedTimeLeftGrowsAsWritten(s: PopupState, now1: int, now2: int)
    requires s.isPaused && s.pauseTime > 0 && s.pauseTime <= now1 <= now2
    requires s.totalDuration >= s.pauseTime - s.startTime
    ensures TimeLeftAsWritten(s, now2) - TimeLeftAsWritten(s, now1) == now2 - now1
    ensures TimeLeftAsWritten(s, now2) - TimeLeft(s, now2) == now2 - s.pauseTime
  {
  }

  /**
   * A resume clears `isPaused` without moving `startTime` (popup.js:222-228,
   * 262-267), so right after it the running branch counts the pause as
   * elapsed: the time left drops by the length of the pause.
   */
  lemma ResumeCountsPauseAsElapsed(s: PopupState, now: int)
    requires s.isRunning && s.isPaused && s.pauseTime > 0 && s.startTime > 0 && s.pauseTime <= now
    requires s.totalDuration >= now - s.startTime
    ensures TimeLeft(s.(isPaused := false), now) == TimeLeft(s, now) - (now - s.pauseTime)
  {
  }

  /** A concrete case: 10 s into a 1 min session, paused for 10 s, the popup shows 1:00 instead of 0:50. */
  lemma PausedTimeLeftExample()
    ensures var s := PopupState("abc", 1, true, true, 1, 1000, 11000, 60000, 1, None, []);
      TimeLeftAsWritten(s, 21000) == 60000 && TimeLeft(s, 21000) == 50000
  {
  }

  // ---------------------------------------------------------------- m:ss

  predicate IsDigits(s: string) {
    forall k :: 0 <= k < |s| ==> '0' <= s[k] <= '9'
  }

  function DigitChar(d: nat): char
    requires d < 10
  {
    ('0' as int + d) as char
  }

  /** A natural number in decimal, as `${n}` writes it. */
  function Digits(n: nat): (r: string)
    ensures |r| >= 1 && IsDigits(r)
    ensures r[0] == '0' ==> n == 0
  {
    if n < 10 then [DigitChar(n)] else Digits(n / 10) + [DigitChar(n % 10)]
  }

  /** The number a string of decimal digits denotes. */
  function Value(s: string): nat
    requires IsDigits(s)
  {
    if s == [] then 0 else Value(s[..|s| - 1]) * 10 + (s[|s| - 1] as int - '0' as int)
  }

  /** Reading back what `Digits` writes gives the number. */
  lemma {:induction false} ValueOfDigits(n: nat)
    ensures Value(Digits(n)) == n
  {
    if n >= 10 {
      var r := Digits(n);
      assert r[..|r| - 1] == Digits(n / 10);
      ValueOfDigits(n / 10);
    }
  }

  /** `secs.toString().padStart(2, '0')` */
  function TwoDigits(n: nat): (r: string)
    requires n < 100
    ensures |r| == 2 && IsDigits(r) && Value(r) == n
  {
    ValueOfDigits(n);
    if n < 10 then
      var r := ['0'] + Digits(n);
      assert r[..1] == ['0'];
      r
    else
      ValueOfDigits(n / 10);
      Digits(n)
  }

  /** Whole minutes and the seconds beyond them make up the whole seconds. */
  lemma MinutesAndSeconds(ms: nat)
    ensures (ms % MsPerMinute) / 1000 < 60
    ensures (ms / MsPerMinute) * 60 + (ms % MsPerMinute) / 1000 == ms / 1000
  {
    var m, r := ms / 60000, ms % 60000;
    var q, x := r / 1000, r % 1000;
    assert r == q * 1000 + x && 0 <= x < 1000;
    assert ms == (m * 60 + q) * 1000 + x;
  }

  /**
   * The `m:ss` label of a time left: it reads back as whole minutes and
   * seconds under 60 that together are the whole seconds left, and the
   * minutes have no leading zero.
   */
  function ClockText(ms: nat): (r: string)
    ensures |r| >= 4 && r[|r| - 3] == ':'
    ensures IsDigits(r[..|r| - 3]) && IsDigits(r[|r| - 2..])
    ensures Value(r[|r| - 2..]) < 60
    ensures Value(r[..|r| - 3]) * 60 + Value(r[|r| - 2..]) == ms / 1000
    ensures r[0] == '0' ==> |r| == 4
  {
    var mins := ms / MsPerMinute;
    var secs := (ms % MsPerMinute) / 1000;
    MinutesAndSeconds(ms);
    ValueOfDigits(mins);
    var m, ss := Digits(mins), TwoDigits(secs);
    LabelParts(m, ss);
    m + ":" + ss
  }

  /** Where the minutes, the colon and the seconds sit in `m:ss`. */
  lemma LabelParts(m: string, ss: string)
    requires |ss| == 2
    ensures var r := m + ":" + ss;
      && |r| == |m| + 3 && r[|r| - 3] == ':' && r[..|r| - 3] == m && r[|r| - 2..] == ss
  {
    var r := m + ":" + ss;
    assert r[..|r| - 3] == m;
    assert r[|r| - 2..] == ss;
  }

  // ---------------------------------------------------------------- words left

  /**
   * Words left: the words of the content minus the words of its first
   * `currentIndex` characters; the `Math.max(0, …)` never has to act.
   */
  function WordsLeft(s: PopupState): (n: nat)
    ensures n == WordCount(s.content) - WordCount(s.content[..Min(s.currentIndex, |s.content|)])
    ensures n <= WordCount(s.content)
    ensures s.currentIndex >= |s.content| ==> n == 0
    ensures s.currentIndex == 0 ==> n == WordCount(s.content)
  {
    var cut := Min(s.currentIndex, |s.content|);
    var wordsTyped := if s.content != [] then WordCount(s.content[..cut]) else 0;
    var wordsTotal := if s.content != [] then WordCount(s.content) else 0;
    WordCountPrefix(s.content, cut);
    assert s.content[..|s.content|] == s.content;
    assert s.content[..0] == [];
    Max0(wordsTotal - wordsTyped)
  }

  // ---------------------------------------------------------------- view

  datatype ProgressDisplay = ProgressDisplay(percent: real, percentLabel: int, timeLeftLabel: string, wordsLeft: nat)

  datatype View = View(buttons: Buttons, progress: Option<ProgressDisplay>)

  /** `updateProgressDisplay`: the percentage, its label, the `m:ss` time left and the words left. */
  function ProgressDisplayFor(s: PopupState, now: int): (d: ProgressDisplay)
    ensures d.percent == Percent(s) && d.percentLabel == RoundPercent(d.percent) && d.wordsLeft == WordsLeft(s)
    ensures 0 <= d.percentLabel <= 100
    ensures d.wordsLeft <= WordCount(s.content)
    ensures d.timeLeftLabel == ClockText(TimeLeftAsWritten(s, now))
    ensures !(s.isPaused && s.pauseTime > 0) ==> d.timeLeftLabel == ClockText(TimeLeft(s, now))
  {
    var p := Percent(s);
    ProgressDisplay(p, RoundPercent(p), ClockText(TimeLeftAsWritten(s, now)), WordsLeft(s))
  }

  /**
   * The display of the paused session of `PausedTimeLeftExample`: the code
   * shows `1:00` where `0:50` is left.
   */
  lemma PausedDisplayExample()
    ensures var s := PopupState("abc", 1, true, true, 1, 1000, 11000, 60000, 1, None, []);
      ProgressDisplayFor(s, 21000).timeLeftLabel == "1:00" && ClockText(TimeLeft(s, 21000)) == "0:50"
  {
    var s := PopupState("abc", 1, true, true, 1, 1000, 11000, 60000, 1, None, []);
    assert TimeLeftAsWritten(s, 21000) == 60000 && TimeLeft(s, 21000) == 50000;
    OneMinuteText();
    FiftySecondsText();
  }

  lemma OneMinuteText()
    ensures ClockText(60000) == "1:00"
  {
    assert Digits(1) == "1";
    assert Digits(0) == "0";
    assert TwoDigits(0) == "00";
  }

  lemma FiftySecondsText()
    ensures ClockText(50000) == "0:50"
  {
    assert Digits(0) == "0";
    assert Digits(5) == "5";
    assert Digits(50) == "50";
    assert TwoDigits(50) == "50";
  }

  /** `updateUI`: the buttons, and the progress box only while running or once something was typed. */
  function UpdateUI(s: PopupState, now: int): (v: View)
    ensures v.buttons == ButtonsFor(s)
    ensures v.progress.Some? <==> s.isRunning || s.currentIndex > 0
    ensures v.progress.Some? ==> v.progress.value == ProgressDisplayFor(s, now)
  {
    View(ButtonsFor(s), if s.isRunning || s.currentIndex > 0 then Some(ProgressDisplayFor(s, now)) else None)
  }

  // ---------------------------------------------------------------- start checks

  predicate OccursAt(s: string, pat: string, i: nat) {
    i + |pat| <= |s| && s[i..i + |pat|] == pat
  }

  /** `s.includes(pat)` */
  function Contains(s: string, pat: string): (b: bool)
    ensures b <==> exists i: nat :: OccursAt(s, pat, i)
    decreases |s|
  {
    if |s| < |pat| then false
    else if s[..|pat|] == pat then
      assert OccursAt(s, pat, 0);
      true
    else
      ContainsShift(s, pat);
      Contains(s[1..], pat)
  }

  /** Past a mismatch at position 0, `pat` occurs in `s` exactly when it occurs in `s[1..]`. */
  lemma ContainsShift(s: string, pat: string)
    requires |s| >= |pat| && s[..|pat|] != pat
    ensures (exists i: nat :: OccursAt(s, pat, i)) <==> (exists i: nat :: OccursAt(s[1..], pat, i))
  {
    if i: nat :| OccursAt(s[1..], pat, i) {
      assert s[1..][i..i + |pat|] == s[i + 1..i + 1 + |pat|];
      assert OccursAt(s, pat, i + 1);
    }
    if i: nat :| OccursAt(s, pat, i) {
      assert i != 0;
      assert s[1..][i - 1..i - 1 + |pat|] == s[i..i + |pat|];
      assert OccursAt(s[1..], pat, i - 1);
    }
  }

  /** `parseInt(minutesInput.value) || 5`, where `None` stands for NaN. */
  function Minutes(parsed: Option<int>): (m: int)
    ensures m != 0
    ensures parsed.Some? && parsed.value != 0 ==> m == parsed.value
    ensures parsed.None? || parsed.value == 0 ==> m == DefaultMinutes
  {
    if parsed.Some? && parsed.value != 0 then parsed.value else DefaultMinutes
  }

  /** The active tab as `chrome.tabs.query` gives it; its URL can be missing. */
  datatype Tab = Tab(id: int, url: Option<string>)

  datatype StartRefusal = NoContent | NotADocument

  datatype StartPlan = StartPlan(tabId: int, url: string, minutes: int, totalDuration: int)

  /** The checks of the start button, in order, and the duration it then uses. */
  function CheckStart(content: string, tab: Option<Tab>, parsed: Option<int>): (r: Result<StartPlan, StartRefusal>)
    ensures r == Failure(NoContent) <==> WordCount(content) == 0
    ensures r.Success? <==>
      WordCount(content) > 0 && tab.Some? && tab.value.url.Some? && Contains(tab.value.url.value, DocsMarker)
    ensures r.Success? ==>
      && r.value.minutes == Minutes(parsed)
      && r.value.totalDuration == r.value.minutes * MsPerMinute
      && Some(r.value.url) == tab.value.url && r.value.tabId == tab.value.id
  {
    BlankIffNoWords(content);
    if IsBlank(content) then Failure(NoContent)
    else if tab.None? || tab.value.url.None? || !Contains(tab.value.url.value, DocsMarker) then Failure(NotADocument)
    else
      var minutes := Minutes(parsed);
      Success(StartPlan(tab.value.id, tab.value.url.value, minutes, minutes * MsPerMinute))
  }

  /** The START_TYPING request the start button sends. */
  datatype StartRequest = StartRequest(text: string, totalMinutes: int)

  // ---------------------------------------------------------------- handlers

  class PopupPage {
    var state: PopupState

    constructor ()
      ensures state == InitialPopup
    {
      state := InitialPopup;
    }

    /** The content box changed. */
    method OnContentInput(value: string)
      modifies this
      ensures state == old(state).(content := value, wordsTotal := WordCount(value))
    {
      state := state.(content := value, wordsTotal := WordCount(value));
    }

    /** The minutes box changed. */
    method OnMinutesInput(parsed: Option<int>)
      modifies this
      ensures state == old(state).(totalMinutes := Minutes(parsed))
      ensures state.totalMinutes != 0
    {
      state := state.(totalMinutes := Minutes(parsed));
    }

    /** The start button: refused with nothing changed, or a fresh running session and its request. */
    method OnStartClick(tab: Option<Tab>, parsed: Option<int>, now: int) returns (request: Option<StartRequest>)
      modifies this
      ensures var r := CheckStart(old(state.content), tab, parsed);
        if r.Failure? then state == old(state) && request.None?
        else
          && state == old(state).(isRunning := true, isPaused := false, currentIndex := 0, startTime := now,
                                  totalDuration := r.value.totalDuration, wordsTotal := WordCount(old(state.content)),
                                  tabId := Some(r.value.tabId), targetUrl := r.value.url)
          && request == Some(StartRequest(old(state.content), r.value.minutes))
      ensures request.Some? ==> WordCount(state.content) > 0 && state.isRunning && !state.isPaused
    {
      var r := CheckStart(state.content, tab, parsed);
      if r.Failure? {
        return None;
      }
      var plan := r.value;
      state := state.(isRunning := true, isPaused := false, currentIndex := 0, startTime := now,
                      totalDuration := plan.totalDuration, wordsTotal := WordCount(state.content),
                      tabId := Some(plan.tabId), targetUrl := plan.url);
      request := Some(StartRequest(state.content, plan.minutes));
    }

    /** The start request could not be delivered. */
    method OnStartFailed()
      modifies this
      ensures state == old(state).(isRunning := false)
    {
      state := state.(isRunning := false);
    }

    /** The reply to the pause button's request; `None` when there was none. */
    method OnPauseReply(status: Option<string>, now: int)
      modifies this
      ensures status == Some("paused") ==> state == old(state).(isPaused := true, pauseTime := now)
      ensures status != Some("paused") ==> state == old(state)
    {
      if status == Some("paused") {
        state := state.(isPaused := true, pauseTime := now);
      }
    }

    /** The reply to the resume button's request. */
    method OnResumeReply(status: Option<string>)
      modifies this
      ensures status == Some("resumed") ==> state == old(state).(isPaused := false)
      ensures status != Some("resumed") ==> state == old(state)
    {
      if status == Some("resumed") {
        state := state.(isPaused := false);
      }
    }

    /** The stop button's callback, whatever the reply: back to idle at index 0. */
    method OnStopReply()
      modifies this
      ensures state == old(state).(isRunning := false, isPaused := false, currentIndex := 0)
      ensures !UpdateUI(state, 0).progress.Some?
    {
      state := state.(isRunning := false, isPaused := false, currentIndex := 0);
    }

    /** The `chrome.runtime.onMessage` listener: notifications from the typing engine. */
    method OnMessage(msg: Message, now: int)
      modifies this
      ensures msg.Progress? ==> state == old(state).(currentIndex := msg.currentIndex)
      ensures msg.Paused? ==> state == old(state).(isPaused := true, pauseTime := now)
      ensures msg.Resumed? ==> state == old(state).(isPaused := false)
      ensures msg.Complete? || msg.Stopped? ==>
        state == old(state).(isRunning := false, isPaused := false)
      ensures state.currentIndex == (if msg.Progress? then msg.currentIndex else old(state.currentIndex))
    {
      match msg
      case Progress(index, _) =>
        state := state.(currentIndex := index);
      case Paused(_) =>
        state := state.(isPaused := true, pauseTime := now);
      case Resumed(_) =>
        state := state.(isPaused := false);
      case Complete =>
        state := state.(isRunning := false, isPaused := false);
      case Stopped =>
        state := state.(isRunning := false, isPaused := false);
    }
  }
}
