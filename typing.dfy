/**
 * The typing-session engine of content.js: the `typingState` record, the
 * guarded transitions that update it, `typeCharacter`, and the per-character
 * typing loop.
 *
 * The asynchronous loop is modelled by where it is suspended (`LoopPoint`):
 * it yields only while polling during a pause and while waiting the delay in
 * front of a character. Pause, resume and stop requests are method calls made
 * while the loop is suspended; the timer that wakes the loop is a call of
 * `PollElapsed` or `DelayElapsed`. Whether the Google Docs editor is found is
 * the input `editorFound`, and the Gaussian sample of the inter-key interval
 * is the input `sample`.
 */
module Typing {
  import opened Wrappers
  import opened Words
  import opened Messages
  import opened Clock

  /** The floor of the delay in front of each character, in milliseconds. */
  const MinDelay: int := 60

  /** content.js's `typingState`, without the floating-point `baseIKI`. */
  datatype TypingState = TypingState(
    isRunning: bool,
    isPaused: bool,
    text: string,
    currentIndex: nat,
    startTime: int,
    totalDuration: int,
    pauseTime: int,
    wordsTotal: nat)

  const Initial := TypingState(false, false, [], 0, 0, 0, 0, 0)

  /** What `getStatus` reports. */
  datatype StatusReport = StatusReport(
    isRunning: bool,
    isPaused: bool,
    currentIndex: nat,
    startTime: int,
    pauseTime: int,
    totalDuration: int,
    wordsTotal: nat)

  /** The editing commands `typeCharacter` issues with `execCommand`. */
  datatype EditCommand = InsertText(ch: char) | InsertLineBreak

  /** The character a command puts into the document. */
  function Render(cmd: EditCommand): char {
    match cmd
    case InsertText(c) => c
    case InsertLineBreak => '\n'
  }

  /** The command that types `c`: a line break for a newline, text otherwise. */
  function CommandFor(c: char): (cmd: EditCommand)
    ensures cmd.InsertLineBreak? <==> c == '\n'
    ensures Render(cmd) == c
  {
    if c == '\n' then InsertLineBreak else InsertText(c)
  }

  /** The commands that type the characters of `text` at the indices `idx`, in order. */
  function Commands(text: string, idx: seq<nat>): (cmds: seq<EditCommand>)
    requires forall k :: 0 <= k < |idx| ==> idx[k] < |text|
    ensures |cmds| == |idx|
    ensures forall k :: 0 <= k < |idx| ==> Render(cmds[k]) == text[idx[k]]
  {
    if idx == [] then []
    else Commands(text, idx[..|idx| - 1]) + [CommandFor(text[idx[|idx| - 1]])]
  }

  /** The delay in front of a character: the sampled interval, clamped to at least 60 ms. */
  function Delay(sample: int): (d: int)
    ensures d >= MinDelay
    ensures d == sample || d == MinDelay
    ensures sample >= MinDelay ==> d == sample
  {
    if sample > MinDelay then sample else MinDelay
  }

  /**
   * The first half of `typeCharacter`, up to its wait: `None` when it returns
   * false at once, otherwise the delay it waits before delivering.
   */
  function BeginDelivery(editorFound: bool, s: TypingState, sample: int): (delay: Option<int>)
    ensures delay.None? <==> !editorFound || !s.isRunning || s.isPaused
    ensures delay.Some? ==> delay.value >= MinDelay
  {
    if !editorFound || !s.isRunning || s.isPaused then None else Some(Delay(sample))
  }

  /** The record `startTyping` installs for a new session. */
  function NewSession(text: string, totalMinutes: int, startIndex: nat, now: int): TypingState {
    TypingState(true, false, text, startIndex, now, totalMinutes * MsPerMinute, 0, WordCount(text))
  }

  /** The TYPING_PROGRESS notifications of the loop iterations `lo` up to `hi - 1`. */
  function ProgressRun(text: string, lo: nat, hi: nat): (ms: seq<Message>)
    requires lo <= hi <= |text|
    decreases hi
    ensures |ms| == hi - lo
    ensures forall k :: 0 <= k < |ms| ==> ms[k] == Progress(lo + k + 1, WordCount(text[..lo + k + 1]))
  {
    if lo == hi then [] else ProgressRun(text, lo, hi - 1) + [Progress(hi, WordCount(text[..hi]))]
  }

  /**
   * Along a run of progress notifications the index strictly grows and the
   * words typed never decrease; the last one reports `hi`.
   */
  lemma ProgressRunOrdered(text: string, lo: nat, hi: nat)
    requires lo <= hi <= |text|
    ensures var ms := ProgressRun(text, lo, hi);
      && (forall j, k :: 0 <= j < k < |ms| ==>
            ms[j].currentIndex < ms[k].currentIndex && ms[j].wordsTyped <= ms[k].wordsTyped)
      && (lo < hi ==> ms[|ms| - 1].currentIndex == hi)
      && (lo < hi == |text| ==> ms[|ms| - 1].wordsTyped == WordCount(text))
  {
    var ms := ProgressRun(text, lo, hi);
    forall j, k | 0 <= j < k < |ms|
      ensures ms[j].currentIndex < ms[k].currentIndex && ms[j].wordsTyped <= ms[k].wordsTyped
    {
      assert ms[j] == Progress(lo + j + 1, WordCount(text[..lo + j + 1]));
      assert ms[k] == Progress(lo + k + 1, WordCount(text[..lo + k + 1]));
      WordCountPrefixes(text, lo + j + 1, lo + k + 1);
    }
    assert text[..|text|] == text;
  }

  /** Where the asynchronous typing loop is suspended, if it is. */
  datatype LoopPoint =
    | NoLoop                       // no loop is pending
    | Polling(i: nat)              // in `while (typingState.isPaused)` at iteration i
    | Delaying(i: nat, delay: int) // in `typeCharacter(text[i])`, waiting out the delay

  class Engine {
    var state: TypingState
    var loop: LoopPoint
    /** The commands the document received. */
    var editor: seq<EditCommand>
    /** The notifications sent to the popup. */
    var outbox: seq<Message>
    /** The indices of this session's text that were delivered, in order. */
    ghost var delivered: seq<nat>
    /** How many commands the document had received when this session started. */
    ghost var docBase: nat

    /** The session's part of the document types the delivered characters, in text order, each once. */
    ghost predicate SessionOk()
      reads this
    {
      DeliveredBelow(state.currentIndex)
    }

    /** Every delivered index is below `bound`, and the session's part of the document types them. */
    ghost predicate DeliveredBelow(bound: nat)
      reads this
    {
      && Typed(state.text)
      && (forall k :: 0 <= k < |delivered| ==> delivered[k] < bound)
    }

    /** The session's part of the document types the characters of `text` at the delivered indices, in increasing order. */
    ghost predicate Typed(text: string)
      reads this`editor, this`delivered, this`docBase
    {
      && docBase <= |editor|
      && (forall k :: 0 <= k < |delivered| ==> delivered[k] < |text|)
      && (forall j, k :: 0 <= j < k < |delivered| ==> delivered[j] < delivered[k])
      && editor[docBase..] == Commands(text, delivered)
    }

    ghost predicate Valid()
      reads this
    {
      && SessionOk()
      && (state.isRunning ==> !loop.NoLoop?)
      && (!loop.NoLoop? ==> loop.i == state.currentIndex < |state.text|)
      && (loop.Delaying? ==> loop.delay >= MinDelay)
    }

    /**
     * This object is what the typing loop leaves after entering iteration
     * `s.currentIndex` in state `s`, with `sent` already sent, and running until
     * it is next suspended or returns.
     */
    ghost predicate RanLoop(s: TypingState, sent: seq<Message>, editorFound: bool, sample: int)
      reads this
    {
      var k, n := s.currentIndex, |s.text|;
      if n <= k then
        // the loop is over: the session is complete
        state == s.(isRunning := false) && loop == NoLoop && outbox == sent + [Complete]
      else if s.isPaused then
        state == s && loop == Polling(k) && outbox == sent
      else if !s.isRunning then
        // stopped: the loop records its position and returns without TYPING_COMPLETE
        state == s && loop == NoLoop && outbox == sent
      else if editorFound then
        state == s && loop == Delaying(k, Delay(sample)) && outbox == sent
      else
        // no editor: every remaining character is skipped, each still reported
        && state == s.(currentIndex := n, isRunning := false)
        && loop == NoLoop
        && outbox == sent + ProgressRun(s.text, k, n) + [Complete]
    }

    /** Wherever the loop stops, it leaves the engine valid. */
    lemma LoopLeavesValid(s: TypingState, sent: seq<Message>, editorFound: bool, sample: int)
      requires SessionOk() && RanLoop(s, sent, editorFound, sample)
      ensures Valid()
    {
    }

    constructor ()
      ensures Valid()
      ensures state == Initial && loop == NoLoop && editor == [] && outbox == []
    {
      state := Initial;
      loop := NoLoop;
      editor := [];
      outbox := [];
      delivered := [];
      docBase := 0;
    }

    /** The `for` loop of `typingLoop`, from iteration `currentIndex` to its next suspension point. */
    method RunLoop(editorFound: bool, sample: int)
      requires SessionOk()
      modifies this`state, this`loop, this`outbox
      ensures SessionOk()
      ensures RanLoop(old(state), old(outbox), editorFound, sample)
    {
      var i := state.currentIndex;
      ghost var k := i;
      while i < |state.text|
        invariant k <= i
        invariant state == old(state).(currentIndex := i)
        invariant loop == old(loop)
        invariant i == k || (i <= |state.text| && state.isRunning && !state.isPaused && !editorFound)
        invariant i == k ==> outbox == old(outbox)
        invariant i != k ==> outbox == old(outbox) + ProgressRun(state.text, k, i)
        invariant SessionOk()
        decreases |state.text| - i
      {
        if state.isPaused {
          loop := Polling(i);
          return;
        }
        if !state.isRunning {
          state := state.(currentIndex := i);
          loop := NoLoop;
          return;
        }
        var d := BeginDelivery(editorFound, state, sample);
        if d.Some? {
          loop := Delaying(i, d.value);
          return;
        }
        // typeCharacter returned false: the character is skipped
        Advance();
        assert ProgressRun(state.text, k, i + 1) == ProgressRun(state.text, k, i) + [Progress(i + 1, WordCount(state.text[..i + 1]))];
        i := i + 1;
      }
      state := state.(isRunning := false);
      loop := NoLoop;
      outbox := outbox + [Complete];
    }

    /**
     * The end of an iteration, whether `typeCharacter` typed its character or
     * not: the index moves past it and TYPING_PROGRESS reports the new index.
     */
    method Advance()
      requires state.currentIndex < |state.text| && Typed(state.text)
      requires forall k :: 0 <= k < |delivered| ==> delivered[k] <= state.currentIndex
      modifies this`state, this`outbox
      ensures state == old(state).(currentIndex := old(state.currentIndex) + 1)
      ensures outbox == old(outbox) + [Progress(state.currentIndex, WordCount(state.text[..state.currentIndex]))]
      ensures SessionOk()
    {
      var i := state.currentIndex;
      state := state.(currentIndex := i + 1);
      outbox := outbox + [Progress(i + 1, WordCount(state.text[..i + 1]))];
    }

    /** `startTyping`: ignored while a session runs; otherwise a new session whose loop runs to its first wait. */
    method Start(text: string, totalMinutes: int, startIndex: nat, now: int, editorFound: bool, sample: int)
      requires Valid()
      modifies this
      ensures Valid()
      ensures editor == old(editor)
      ensures old(state.isRunning) ==> state == old(state) && loop == old(loop) && outbox == old(outbox)
      ensures !old(state.isRunning) ==>
        RanLoop(NewSession(text, totalMinutes, startIndex, now), old(outbox), editorFound, sample)
      ensures !old(state.isRunning) ==>
        && state.text == text && state.startTime == now && state.pauseTime == 0
        && state.totalDuration == totalMinutes * MsPerMinute
        && state.wordsTotal == RunCount(text)
        && !state.isPaused && startIndex <= state.currentIndex
      ensures !old(state.isRunning) && startIndex <= |text| ==> state.currentIndex <= |text|
      ensures !old(state.isRunning) ==> delivered == [] && docBase == |editor|
    {
      if state.isRunning {
        return;
      }
      state := NewSession(text, totalMinutes, startIndex, now);
      loop := NoLoop;
      delivered := [];
      docBase := |editor|;
      WordCountIsRunCount(text);
      ghost var entered := state;
      RunLoop(editorFound, sample);
      LoopLeavesValid(entered, old(outbox), editorFound, sample);
    }

    /**
     * The second half of `typeCharacter(c)`, after its wait: it delivers only
     * if still running and not paused. `c` is `text[i]`.
     */
    method FinishDelivery(c: char, ghost i: nat) returns (ok: bool)
      requires SessionOk() && i == state.currentIndex < |state.text| && c == state.text[i]
      modifies this`editor, this`delivered
      ensures ok == (state.isRunning && !state.isPaused)
      ensures ok ==> editor == old(editor) + [CommandFor(c)] && delivered == old(delivered) + [i]
      ensures !ok ==> editor == old(editor) && delivered == old(delivered)
      ensures DeliveredBelow(i + 1)
    {
      if !state.isRunning || state.isPaused {
        return false;
      }
      editor := editor + [CommandFor(c)];
      delivered := delivered + [i];
      assert editor[docBase..] == old(editor)[docBase..] + [CommandFor(c)];
      assert delivered[..|delivered| - 1] == old(delivered);
      return true;
    }

    /**
     * The delay in front of `text[i]` has elapsed: deliver it if still allowed,
     * then, delivered or not, record `i + 1` and report progress, and go on.
     */
    method DelayElapsed(editorFound: bool, sample: int)
      requires Valid() && loop.Delaying?
      modifies this
      ensures Valid()
      ensures old(state.isRunning && !state.isPaused) ==>
        editor == old(editor) + [CommandFor(old(state.text[loop.i]))]
      ensures !old(state.isRunning && !state.isPaused) ==> editor == old(editor)
      ensures var i := old(loop.i);
        RanLoop(old(state).(currentIndex := i + 1),
                old(outbox) + [Progress(i + 1, WordCount(old(state.text)[..i + 1]))],
                editorFound, sample)
      ensures old(state.currentIndex) < state.currentIndex <= |state.text|
      ensures docBase == old(docBase)
      ensures old(state.isRunning && !state.isPaused) ==> delivered == old(delivered) + [old(loop.i)]
      ensures !old(state.isRunning && !state.isPaused) ==> delivered == old(delivered)
    {
      var i := loop.i;
      ghost var allowed := state.isRunning && !state.isPaused;
      var ok := FinishDelivery(state.text[i], i);
      assert ok == allowed;
      Advance();
      ghost var entered, sent := state, outbox;
      assert entered == old(state).(currentIndex := i + 1);
      assert sent == old(outbox) + [Progress(i + 1, WordCount(old(state.text)[..i + 1]))];
      ghost var typed, done := editor, delivered;
      RunLoop(editorFound, sample);
      LoopLeavesValid(entered, sent, editorFound, sample);
      assert editor == typed && delivered == done;
    }

    /** A 100 ms tick of the pause poll: keep polling while paused, else go on with the iteration. */
    method PollElapsed(editorFound: bool, sample: int)
      requires Valid() && loop.Polling?
      modifies this`state, this`loop, this`outbox
      ensures Valid()
      ensures old(state.isPaused) ==> state == old(state) && loop == old(loop) && outbox == old(outbox)
      ensures !old(state.isPaused) ==> RanLoop(old(state), old(outbox), editorFound, sample)
      ensures old(state.currentIndex) <= state.currentIndex <= |state.text|
    {
      if !state.isPaused {
        ghost var entered, sent := state, outbox;
        RunLoop(editorFound, sample);
        LoopLeavesValid(entered, sent, editorFound, sample);
      }
    }

    /** `pauseTyping`: only while running; pausing again re-stamps `pauseTime`. */
    method Pause(now: int)
      requires Valid()
      modifies this`state, this`outbox
      ensures Valid()
      ensures old(state.isRunning) ==>
        && state == old(state).(isPaused := true, pauseTime := now)
        && outbox == old(outbox) + [Paused(old(state.currentIndex))]
      ensures !old(state.isRunning) ==> state == old(state) && outbox == old(outbox)
    {
      if state.isRunning {
        state := state.(isPaused := true, pauseTime := now);
        outbox := outbox + [Paused(state.currentIndex)];
      }
    }

    /** `resumeTyping`: only while running and paused; the pause is added to `startTime`. */
    method Resume(now: int)
      requires Valid()
      modifies this`state, this`outbox
      ensures Valid()
      ensures old(state.isRunning && state.isPaused) ==>
        && state == old(state).(isPaused := false, startTime := old(state.startTime) + (now - old(state.pauseTime)))
        && outbox == old(outbox) + [Resumed(old(state.currentIndex))]
        // the time elapsed in the session excludes the pause
        && now - state.startTime == old(state.pauseTime) - old(state.startTime)
      ensures !old(state.isRunning && state.isPaused) ==> state == old(state) && outbox == old(outbox)
    {
      if state.isRunning && state.isPaused {
        var pauseDuration := now - state.pauseTime;
        state := state.(startTime := state.startTime + pauseDuration, isPaused := false);
        outbox := outbox + [Resumed(state.currentIndex)];
      }
    }

    /** `stopTyping`: from any state; the loop notices at its next check. */
    method Stop()
      requires Valid()
      modifies this`state, this`outbox
      ensures Valid()
      ensures state == old(state).(isRunning := false, isPaused := false)
      ensures outbox == old(outbox) + [Stopped]
    {
      state := state.(isRunning := false, isPaused := false);
      outbox := outbox + [Stopped];
    }

    /** `getStatus`: the session record without its text. */
    function Status(): (r: StatusReport)
      reads this
      ensures r.isRunning == state.isRunning && r.isPaused == state.isPaused
      ensures r.currentIndex == state.currentIndex && r.wordsTotal == state.wordsTotal
      ensures r.startTime == state.startTime && r.pauseTime == state.pauseTime
      ensures r.totalDuration == state.totalDuration
    {
      StatusReport(state.isRunning, state.isPaused, state.currentIndex, state.startTime,
                   state.pauseTime, state.totalDuration, state.wordsTotal)
    }
  }

  // Scenarios: sequences of requests and timer events, and what they leave.

  /**
   * A pause that arrives while `typeCharacter` waits in front of `text[i]`:
   * the character is never delivered, yet the loop moves past it and reports
   * progress; it then polls at `i + 1`, or, if `text[i]` was the last
   * character, completes while the session is still marked paused.
   */
  method PauseDuringDelay(e: Engine, now: int, editorFound: bool, sample: int)
    requires e.Valid() && e.loop.Delaying? && e.state.isRunning && !e.state.isPaused
    modifies e
    ensures e.Valid()
    ensures e.editor == old(e.editor)
    ensures var i, text := old(e.loop.i), old(e.state.text);
      var sent := old(e.outbox) + [Paused(i), Progress(i + 1, WordCount(text[..i + 1]))];
      && e.state.currentIndex == i + 1 && e.state.isPaused
      && (i + 1 < |text| ==> e.loop == Polling(i + 1) && e.state.isRunning && e.outbox == sent)
      && (i + 1 == |text| ==> e.loop == NoLoop && !e.state.isRunning && e.outbox == sent + [Complete])
  {
    ghost var i, text, sent0 := e.loop.i, e.state.text, e.outbox;
    e.Pause(now);
    ghost var s1 := e.state;
    assert s1.isRunning && s1.isPaused && s1.currentIndex == i && s1.text == text;
    e.DelayElapsed(editorFound, sample);
    assert e.RanLoop(s1.(currentIndex := i + 1), sent0 + [Paused(i)] + [Progress(i + 1, WordCount(text[..i + 1]))], editorFound, sample);
  }

  /**
   * A stop that arrives while `typeCharacter` waits in front of `text[i]`:
   * nothing more is typed, one more progress report follows the stop, and a
   * stop during the last character's wait is followed by TYPING_COMPLETE.
   */
  method StopDuringDelay(e: Engine, editorFound: bool, sample: int)
    requires e.Valid() && e.loop.Delaying?
    modifies e
    ensures e.Valid()
    ensures e.editor == old(e.editor) && e.loop == NoLoop && !e.state.isRunning && !e.state.isPaused
    ensures var i, text := old(e.loop.i), old(e.state.text);
      var sent := old(e.outbox) + [Stopped, Progress(i + 1, WordCount(text[..i + 1]))];
      && e.state.currentIndex == i + 1
      && (i + 1 < |text| ==> e.outbox == sent)
      && (i + 1 == |text| ==> e.outbox == sent + [Complete])
  {
    e.Stop();
    e.DelayElapsed(editorFound, sample);
  }

  /**
   * Pausing at `pausedAt` and resuming at `resumedAt` moves `startTime` by the
   * pause, so the time elapsed at the resume is the time elapsed at the pause;
   * with no time between them only `pauseTime` changes.
   */
  method PauseThenResume(e: Engine, pausedAt: int, resumedAt: int)
    requires e.Valid() && e.state.isRunning && !e.state.isPaused
    modifies e
    ensures e.Valid()
    ensures e.state.isRunning && !e.state.isPaused && e.state.currentIndex == old(e.state.currentIndex)
    ensures e.state.startTime == old(e.state.startTime) + (resumedAt - pausedAt)
    ensures resumedAt - e.state.startTime == pausedAt - old(e.state.startTime)
    ensures pausedAt == resumedAt ==> e.state == old(e.state).(pauseTime := pausedAt)
    ensures e.outbox == old(e.outbox) + [Paused(old(e.state.currentIndex)), Resumed(old(e.state.currentIndex))]
  {
    e.Pause(pausedAt);
    e.Resume(resumedAt);
  }

  /**
   * Pausing twice re-stamps `pauseTime`, so a later resume only moves
   * `startTime` by the time since the second pause.
   */
  method PauseTwiceThenResume(e: Engine, t1: int, t2: int, t3: int)
    requires e.Valid() && e.state.isRunning && !e.state.isPaused
    modifies e
    ensures e.Valid()
    ensures e.state.startTime == old(e.state.startTime) + (t3 - t2)
    ensures e.state.pauseTime == t2
    ensures e.outbox == old(e.outbox) + [Paused(old(e.state.currentIndex)), Paused(old(e.state.currentIndex)),
                                         Resumed(old(e.state.currentIndex))]
  {
    e.Pause(t1);
    e.Pause(t2);
    e.Resume(t3);
  }

  /** Stopping twice leaves the state a single stop leaves, with one TYPING_STOPPED per call. */
  method StopTwice(e: Engine)
    requires e.Valid()
    modifies e
    ensures e.Valid()
    ensures e.state == old(e.state).(isRunning := false, isPaused := false)
    ensures e.outbox == old(e.outbox) + [Stopped, Stopped]
  {
    e.Stop();
    ghost var once := e.state;
    e.Stop();
    assert e.state == once;
  }

  /**
   * Start, then pause and stop before the first character's delay has
   * elapsed: the first character is not typed, but the loop still reports
   * progress 1 and ends at index 1.
   */
  method StartPauseStop(text: string, now: int, sample: int)
    returns (sent: seq<Message>, index: nat, typed: seq<EditCommand>)
    requires |text| >= 2
    ensures sent == [Paused(0), Stopped, Progress(1, WordCount(text[..1]))]
    ensures index == 1 && typed == []
  {
    var e := new Engine();
    e.Start(text, 1, 0, now, true, sample);
    e.Pause(now + 1);
    e.Stop();
    e.DelayElapsed(true, sample);
    sent, index, typed := e.outbox, e.state.currentIndex, e.editor;
  }

  /**
   * With the editor always there and no requests in between, every character
   * is typed in order: the document receives the whole text, the popup one
   * progress report per character and then TYPING_COMPLETE.
   */
  method TypeWithoutInterruption(e: Engine, text: string, minutes: int, now: int, sample: int)
    requires e.Valid() && !e.state.isRunning
    modifies e
    ensures e.Valid() && !e.state.isRunning && e.loop == NoLoop
    ensures e.state.currentIndex == |text|
    ensures |e.editor| == |old(e.editor)| + |text|
    ensures forall k :: 0 <= k < |text| ==> Render(e.editor[|old(e.editor)| + k]) == text[k]
    ensures e.outbox == old(e.outbox) + ProgressRun(text, 0, |text|) + [Complete]
    ensures e.editor == old(e.editor) + Commands(text, Upto(|text|))
  {
    ghost var typed, sent := e.editor, e.outbox;
    StartUninterrupted(e, text, minutes, now, sample);
    var i := 0;
    while e.loop.Delaying?
      invariant Uninterrupted(e, text, typed, sent, i)
      decreases |text| - i
    {
      TypeNextCharacter(e, text, typed, sent, i, sample);
      i := i + 1;
    }
    UninterruptedTyped(e, text, typed, sent, i);
  }

  /** Starting with the editor there: nothing typed or sent yet, and the loop waits in front of the first character. */
  method StartUninterrupted(e: Engine, text: string, minutes: int, now: int, sample: int)
    requires e.Valid() && !e.state.isRunning
    modifies e
    ensures Uninterrupted(e, text, old(e.editor), old(e.outbox), 0)
  {
    e.Start(text, minutes, 0, now, true, sample);
    assert e.editor[..e.docBase] == old(e.editor);
  }

  /**
   * The state of an uninterrupted session after the first `i` characters:
   * they are in the document after `typed`, their progress reports in the
   * outbox after `sent`, and the loop waits in front of character `i` or
   * has completed.
   */
  ghost predicate Uninterrupted(e: Engine, text: string, typed: seq<EditCommand>, sent: seq<Message>, i: nat)
    reads e
  {
    && e.Valid() && e.state.text == text && e.state.currentIndex == i <= |text|
    && e.docBase == |typed| && e.editor[..e.docBase] == typed && e.delivered == Upto(i)
    && (e.loop.Delaying? ==> e.state.isRunning && !e.state.isPaused && e.outbox == sent + ProgressRun(text, 0, i))
    && (!e.loop.Delaying? ==>
          e.loop == NoLoop && i == |text| && !e.state.isRunning && e.outbox == sent + ProgressRun(text, 0, i) + [Complete])
  }

  /** After `i` characters of an uninterrupted session the document is what it was, then their commands. */
  lemma UninterruptedTyped(e: Engine, text: string, typed: seq<EditCommand>, sent: seq<Message>, i: nat)
    requires Uninterrupted(e, text, typed, sent, i)
    ensures e.editor == typed + Commands(text, Upto(i))
  {
    assert e.editor[e.docBase..] == Commands(text, Upto(i));
    assert e.editor == e.editor[..e.docBase] + e.editor[e.docBase..];
  }

  /**
   * One elapsed delay of an uninterrupted session: the character is typed and
   * reported, and the loop waits in front of the next one or completes.
   */
  method TypeNextCharacter(e: Engine, ghost text: string, ghost typed: seq<EditCommand>, ghost sent: seq<Message>,
                           i: nat, sample: int)
    requires Uninterrupted(e, text, typed, sent, i) && e.loop.Delaying?
    modifies e
    ensures Uninterrupted(e, text, typed, sent, i + 1)
  {
    e.DelayElapsed(true, sample);
    assert Upto(i + 1) == Upto(i) + [i];
    assert ProgressRun(text, 0, i + 1) == ProgressRun(text, 0, i) + [Progress(i + 1, WordCount(text[..i + 1]))];
  }

  /** The indices `0 .. n - 1` in order. */
  function Upto(n: nat): (r: seq<nat>)
    ensures |r| == n && forall k :: 0 <= k < n ==> r[k] == k
  {
    if n == 0 then [] else Upto(n - 1) + [n - 1]
  }
}
