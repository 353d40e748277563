/**
 * The polling driver: every tick reads the playback time, runs the display
 * step, then stops its interval once the time has reached the final cue.
 * Between two ticks the zero-delay callbacks scheduled by the first have run.
 */
module SyncDriver {
  import opened LineSelector
  import opened RenderWindow

  /**
   * What one tick does to its interval. Fault: the track is empty, so reading
   * the final cue's time throws; the tick ends there and the interval is kept.
   */
  datatype PollOutcome = KeepPolling | StopPolling | Fault

  function AfterTick(lyrics: seq<LyricLine>, currentTime: real): (r: PollOutcome)
    ensures r == Fault <==> |lyrics| == 0
  {
    if |lyrics| == 0 then Fault
    else if currentTime >= lyrics[|lyrics| - 1].time then StopPolling
    else KeepPolling
  }

  /** One poll tick, with the zero-delay callbacks it scheduled run before the next one. */
  function Poll(s: RenderState, lyrics: seq<LyricLine>, cb: Callbacks, t: real): (r: RenderState)
    ensures r.pending == []
    ensures s.pending == [] ==> (r == s <==> SelectLine(lyrics, t) == s.current || SelectLine(lyrics, t) == -1)
    ensures r.current == (if SelectLine(lyrics, t) == -1 then s.current else SelectLine(lyrics, t))
  {
    Settle(Display(s, lyrics, cb, t), cb)
  }

  /** Polling at the times ts, one after another. */
  function Run(s: RenderState, lyrics: seq<LyricLine>, cb: Callbacks, ts: seq<real>): (r: RenderState)
    ensures ts != [] ==> r.pending == []
    ensures s.nextId <= r.nextId <= s.nextId + |ts|
    decreases |ts|
  {
    if ts == [] then s else Run(Poll(s, lyrics, cb, ts[0]), lyrics, cb, ts[1..])
  }

  predicate NonDecreasing(ts: seq<real>) {
    forall i, j :: 0 <= i <= j < |ts| ==> ts[i] <= ts[j]
  }

  /**
   * On a non-empty track a tick stops its interval exactly when the time has
   * reached the final cue, which is exactly when the final cue is selected;
   * on the empty track every tick faults and the interval is never cleared.
   */
  lemma {:induction false} PollStopsExactlyAtFinalCue(lyrics: seq<LyricLine>, t: real)
    ensures |lyrics| == 0 <==> AfterTick(lyrics, t) == Fault
    ensures |lyrics| > 0 ==> (AfterTick(lyrics, t) == StopPolling <==> SelectLine(lyrics, t) == |lyrics| - 1)
  {
    if |lyrics| > 0 {
      SelectLineFinal(lyrics, t);
    }
  }

  /**
   * The tick that stops polling has first rendered the final cue: it is the
   * current line and the newest element of the window.
   */
  lemma {:induction false} StopRendersFinalCue(s: RenderState, lyrics: seq<LyricLine>, cb: Callbacks, t: real)
    requires Inv(s, lyrics, cb)
    requires AfterTick(lyrics, t) == StopPolling
    ensures var s' := Display(s, lyrics, cb, t);
            s'.current == |lyrics| - 1 && s'.window[|s'.window| - 1].index == |lyrics| - 1
  {
    PollStopsExactlyAtFinalCue(lyrics, t);
    DisplayKeepsInv(s, lyrics, cb, t);
  }

  lemma {:induction false} PollKeepsInv(s: RenderState, lyrics: seq<LyricLine>, cb: Callbacks, t: real)
    requires Inv(s, lyrics, cb)
    ensures var s' := Poll(s, lyrics, cb, t);
            Inv(s', lyrics, cb) && s'.pending == [] && s'.current == Display(s, lyrics, cb, t).current
  {
    DisplayKeepsInv(s, lyrics, cb, t);
    SettleKeepsInv(Display(s, lyrics, cb, t), lyrics, cb);
  }

  lemma {:induction false} RunKeepsInv(s: RenderState, lyrics: seq<LyricLine>, cb: Callbacks, ts: seq<real>)
    requires Inv(s, lyrics, cb)
    ensures Inv(Run(s, lyrics, cb, ts), lyrics, cb)
    decreases |ts|
  {
    if ts != [] {
      PollKeepsInv(s, lyrics, cb, ts[0]);
      RunKeepsInv(Poll(s, lyrics, cb, ts[0]), lyrics, cb, ts[1..]);
    }
  }

  /**
   * Ticks that select the current line again, or no line, fire nothing and
   * change nothing, however many there are: after the first line, -1 never
   * triggers a render.
   */
  lemma {:induction false} RunWithoutChangeIsIdle(s: RenderState, lyrics: seq<LyricLine>, cb: Callbacks, ts: seq<real>)
    requires s.pending == []
    requires forall k :: 0 <= k < |ts| ==> SelectLine(lyrics, ts[k]) == s.current || SelectLine(lyrics, ts[k]) == -1
    ensures Run(s, lyrics, cb, ts) == s
    decreases |ts|
  {
    if ts != [] {
      assert Poll(s, lyrics, cb, ts[0]) == s;
      assert forall k :: 0 <= k < |ts[1..]| ==> ts[1..][k] == ts[k + 1];
      RunWithoutChangeIsIdle(s, lyrics, cb, ts[1..]);
    }
  }

  /** On the empty track nothing is ever rendered or fired, and every tick faults. */
  lemma {:induction false} EmptyTrackStaysIdle(cb: Callbacks, ts: seq<real>)
    ensures Run(Initial(), [], cb, ts) == Initial()
    ensures forall t: real :: AfterTick([], t) == Fault
  {
    forall k | 0 <= k < |ts|
      ensures SelectLine([], ts[k]) == -1
    {
    }
    RunWithoutChangeIsIdle(Initial(), [], cb, ts);
  }

  /**
   * Polling at non-decreasing times never moves the current line backwards,
   * and afterwards the current line is the one selected at the last time
   * (unchanged if no cue has started by then).
   */
  lemma {:induction false} RunFollowsLatestTime(s: RenderState, lyrics: seq<LyricLine>, cb: Callbacks, ts: seq<real>)
    requires NonDecreasing(ts) && |ts| > 0
    requires s.current <= SelectLine(lyrics, ts[0])
    ensures var r := Run(s, lyrics, cb, ts).current;
            var last := SelectLine(lyrics, ts[|ts| - 1]);
            s.current <= r && r == (if last == -1 then s.current else last)
    decreases |ts|
  {
    var s1 := Poll(s, lyrics, cb, ts[0]);
    SelectLineMonotone(lyrics, ts[0], ts[|ts| - 1]);
    if |ts| > 1 {
      var rest := ts[1..];
      assert rest[0] == ts[1] && rest[|rest| - 1] == ts[|ts| - 1];
      assert NonDecreasing(rest) by {
        forall i, j | 0 <= i <= j < |rest|
          ensures rest[i] <= rest[j]
        {
          assert rest[i] == ts[i + 1] && rest[j] == ts[j + 1];
        }
      }
      SelectLineMonotone(lyrics, ts[0], ts[1]);
      RunFollowsLatestTime(s1, lyrics, cb, rest);
    }
  }

  /**
   * The track (0 "a") (2 "b") (5 "c") polled at 0, 1, 2, 3, 5, 6 selects
   * 0, 0, 1, 1, 2, 2; with both callbacks supplied it fires onExpand once,
   * first, then onLineChange at the times 0, 2 and 5, and ends with the three
   * lines in the window, the last one highlighted.
   */
  lemma ThreeCueScenario()
    ensures var track := [LyricLine(0.0, "a"), LyricLine(2.0, "b"), LyricLine(5.0, "c")];
            var ts := [0.0, 1.0, 2.0, 3.0, 5.0, 6.0];
            var cb := Callbacks(true, true);
            var s := Run(Initial(), track, cb, ts);
            && (seq(|ts|, k requires 0 <= k < |ts| => SelectLine(track, ts[k]))) == [0, 0, 1, 1, 2, 2]
            && s.signals == [Expand, LineChange(0, track[0], 0), LineChange(1, track[1], 1), LineChange(2, track[2], 2)]
            && s.current == 2 && s.expanded
            && s.window == [RenderedLine(0, 0, "a", true, false), RenderedLine(1, 1, "b", true, false), RenderedLine(2, 2, "c", false, true)]
  {
    var track := [LyricLine(0.0, "a"), LyricLine(2.0, "b"), LyricLine(5.0, "c")];
    var cb := Callbacks(true, true);
    var s0 := Initial();
    var s1 := Poll(s0, track, cb, 0.0);
    assert SelectLine(track, 0.0) == 0;
    assert s1.window == [RenderedLine(0, 0, "a", false, true)];
    assert s1.signals == [Expand, LineChange(0, track[0], 0)];
    var s2 := Poll(s1, track, cb, 1.0);
    assert SelectLine(track, 1.0) == 0;
    assert s2 == s1;
    var s3 := Poll(s2, track, cb, 2.0);
    assert SelectLine(track, 2.0) == 1;
    assert s3.window == [RenderedLine(0, 0, "a", true, false), RenderedLine(1, 1, "b", false, true)];
    var s4 := Poll(s3, track, cb, 3.0);
    assert SelectLine(track, 3.0) == 1;
    assert s4 == s3;
    var s5 := Poll(s4, track, cb, 5.0);
    assert SelectLine(track, 5.0) == 2;
    var s6 := Poll(s5, track, cb, 6.0);
    assert SelectLine(track, 6.0) == 2;
    assert s6 == s5;
    var ts := [0.0, 1.0, 2.0, 3.0, 5.0, 6.0];
    assert Run(s0, track, cb, ts) == s6 by {
      assert ts[1..] == [1.0, 2.0, 3.0, 5.0, 6.0];
      assert ts[1..][1..] == [2.0, 3.0, 5.0, 6.0];
      assert ts[1..][1..][1..] == [3.0, 5.0, 6.0];
      assert ts[1..][1..][1..][1..] == [5.0, 6.0];
      assert ts[1..][1..][1..][1..][1..] == [6.0];
    }
  }
}
