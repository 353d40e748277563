/**
 * The line selector of the karaoke widget: which lyric cue is active at a
 * given playback time. A cue is a timestamp (seconds) and a text; the text is
 * opaque here. The selector answers the index of the LAST cue whose time is at
 * or before the playback time, or -1 when no cue qualifies.
 */
module LineSelector {

  /** One timestamped lyric line (a cue). */
  datatype LyricLine = LyricLine(time: real, text: string)

  /** The track is ordered by time, as the widget expects of its configuration. */
  predicate Sorted(lyrics: seq<LyricLine>) {
    forall i, j :: 0 <= i <= j < |lyrics| ==> lyrics[i].time <= lyrics[j].time
  }

  /**
   * Reference definition: r is the last index whose cue has started at time t
   * (-1 when none has). Makes no assumption on the order of the track.
   */
  ghost predicate IsLastStarted(lyrics: seq<LyricLine>, t: real, r: int) {
    -1 <= r < |lyrics|
    && (r >= 0 ==> lyrics[r].time <= t)
    && (forall j :: r < j < |lyrics| ==> lyrics[j].time > t)
  }

  /**
   * The selected line, defined from the end of the track: the last cue if it
   * has started, otherwise the selection in the track without its last cue.
   */
  function SelectLine(lyrics: seq<LyricLine>, t: real): (r: int)
    ensures -1 <= r < |lyrics|
  {
    if |lyrics| == 0 then -1
    else if lyrics[|lyrics| - 1].time <= t then |lyrics| - 1
    else SelectLine(lyrics[..|lyrics| - 1], t)
  }

  /** SelectLine meets the reference definition, on any track, sorted or not. */
  lemma {:induction false} SelectLineIsLastStarted(lyrics: seq<LyricLine>, t: real)
    ensures IsLastStarted(lyrics, t, SelectLine(lyrics, t))
  {
    if |lyrics| > 0 && lyrics[|lyrics| - 1].time > t {
      var prefix := lyrics[..|lyrics| - 1];
      SelectLineIsLastStarted(prefix, t);
      var r := SelectLine(prefix, t);
      forall j | r < j < |lyrics|
        ensures lyrics[j].time > t
      {
        if j < |lyrics| - 1 {
          assert lyrics[j] == prefix[j];
        }
      }
    }
  }

  /** The reference definition has exactly one solution: SelectLine. */
  lemma {:induction false} LastStartedIsUnique(lyrics: seq<LyricLine>, t: real, r: int)
    requires IsLastStarted(lyrics, t, r)
    ensures r == SelectLine(lyrics, t)
  {
    SelectLineIsLastStarted(lyrics, t);
  }

  /**
   * -1 exactly when no cue has started: in particular on the empty track and
   * when every cue lies after t.
   */
  lemma {:induction false} SelectLineNone(lyrics: seq<LyricLine>, t: real)
    ensures SelectLine(lyrics, t) == -1 <==> forall j :: 0 <= j < |lyrics| ==> lyrics[j].time > t
  {
    SelectLineIsLastStarted(lyrics, t);
  }

  /** Any cue that has started at t lies at or before the selected index. */
  lemma {:induction false} SelectLineCoversStarted(lyrics: seq<LyricLine>, t: real, j: int)
    requires 0 <= j < |lyrics| && lyrics[j].time <= t
    ensures j <= SelectLine(lyrics, t)
  {
    SelectLineIsLastStarted(lyrics, t);
  }

  /** Later playback never selects an earlier line, whatever the track's order. */
  lemma {:induction false} SelectLineMonotone(lyrics: seq<LyricLine>, t1: real, t2: real)
    requires t1 <= t2
    ensures SelectLine(lyrics, t1) <= SelectLine(lyrics, t2)
  {
    var r1 := SelectLine(lyrics, t1);
    SelectLineIsLastStarted(lyrics, t1);
    if r1 >= 0 {
      SelectLineCoversStarted(lyrics, t2, r1);
    }
  }

  /** On a sorted, non-empty track, -1 exactly before the first cue. */
  lemma {:induction false} SortedSelectLineBeforeFirst(lyrics: seq<LyricLine>, t: real)
    requires Sorted(lyrics) && |lyrics| > 0
    ensures SelectLine(lyrics, t) == -1 <==> t < lyrics[0].time
  {
    SelectLineNone(lyrics, t);
    if t < lyrics[0].time {
      assert forall j :: 0 <= j < |lyrics| ==> lyrics[0].time <= lyrics[j].time;
    }
  }

  /**
   * At a cue's own timestamp the selection is that cue or a later one sharing
   * the timestamp, and no later cue shares it: ties go to the highest index.
   */
  lemma {:induction false} SortedSelectLineTieBreak(lyrics: seq<LyricLine>, i: int)
    requires Sorted(lyrics) && 0 <= i < |lyrics|
    ensures var r := SelectLine(lyrics, lyrics[i].time);
            i <= r && lyrics[r].time == lyrics[i].time
            && forall j :: r < j < |lyrics| ==> lyrics[j].time != lyrics[i].time
  {
    var r := SelectLine(lyrics, lyrics[i].time);
    SelectLineIsLastStarted(lyrics, lyrics[i].time);
    SelectLineCoversStarted(lyrics, lyrics[i].time, i);
    assert lyrics[i].time <= lyrics[r].time;
  }

  /** The final cue is selected exactly once its time has been reached. */
  lemma {:induction false} SelectLineFinal(lyrics: seq<LyricLine>, t: real)
    requires |lyrics| > 0
    ensures SelectLine(lyrics, t) == |lyrics| - 1 <==> lyrics[|lyrics| - 1].time <= t
  {
    if lyrics[|lyrics| - 1].time > t {
      assert SelectLine(lyrics, t) == SelectLine(lyrics[..|lyrics| - 1], t);
    }
  }

  /**
   * The widget's scan: walk the whole track forward and keep the last index
   * whose cue has started.
   */
  method CurrentLineIndex(lyrics: seq<LyricLine>, currentTime: real) returns (currentIndex: int)
    ensures currentIndex == SelectLine(lyrics, currentTime)
    ensures IsLastStarted(lyrics, currentTime, currentIndex)
  {
    currentIndex := -1;
    var i := 0;
    while i < |lyrics|
      invariant 0 <= i <= |lyrics|
      invariant currentIndex == SelectLine(lyrics[..i], currentTime)
    {
      assert lyrics[..i + 1][..i] == lyrics[..i];
      if lyrics[i].time <= currentTime {
        currentIndex := i;
      }
      i := i + 1;
    }
    assert lyrics[..|lyrics|] == lyrics;
    SelectLineIsLastStarted(lyrics, currentTime);
  }
}
