/**
 * The widget object: its fields change in place on every display step,
 * deferred callback and poll tick. Each method is proved to produce exactly
 * the state the functions of RenderWindow and SyncDriver describe, so the
 * lemmas proved there hold of the object.
 */
module KaraokePlugin {
  import opened LineSelector
  import opened RenderWindow
  import opened SyncDriver

  class YouTubeKaraokePlugin {
    const lyrics: seq<LyricLine>
    const callbacks: Callbacks

    var currentLineIndex: int
    var expanded: bool            // the karaoke box carries the class "expand"
    var lines: seq<RenderedLine>  // children of the lyrics container, oldest first
    var deferred: seq<Deferred>   // zero-delay callbacks scheduled and not yet run
    var fired: seq<Signal>        // user callbacks called so far
    var nextElement: nat          // identity of the next element created
    var intervals: set<nat>       // polling intervals still active
    var nextInterval: nat

    function State(): RenderState
      reads this
    {
      RenderState(currentLineIndex, expanded, lines, deferred, fired, nextElement)
    }

    ghost predicate Valid()
      reads this
    {
      Inv(State(), lyrics, callbacks) && forall i :: i in intervals ==> i < nextInterval
    }

    constructor (lyrics: seq<LyricLine>, callbacks: Callbacks)
      ensures Valid()
      ensures this.lyrics == lyrics && this.callbacks == callbacks
      ensures State() == Initial() && intervals == {}
    {
      this.lyrics := lyrics;
      this.callbacks := callbacks;
      currentLineIndex := -1;
      expanded := false;
      lines := [];
      deferred := [];
      fired := [];
      nextElement := 0;
      intervals := {};
      nextInterval := 0;
      new;
      InitialInv(lyrics, callbacks);
    }

    /** The display step at playback time currentTime. */
    method DisplayLyrics(currentTime: real)
      requires Valid()
      modifies this
      ensures Valid()
      ensures State() == Display(old(State()), lyrics, callbacks, currentTime)
      ensures intervals == old(intervals) && nextInterval == old(nextInterval)
    {
      ghost var s := State();
      DisplayKeepsInv(s, lyrics, callbacks, currentTime);
      var lineIndex := CurrentLineIndex(lyrics, currentTime);
      if lineIndex != currentLineIndex && lineIndex != -1 {
        RenderLineChange(lineIndex);
      }
    }

    /**
     * The body of the display step on a real line change: append the new
     * element, expand on the first line, demote the other children, schedule
     * the highlight, record the index, evict the oldest child on overflow.
     */
    method RenderLineChange(lineIndex: nat)
      requires lineIndex < |lyrics|
      requires forall k :: 0 <= k < |lines| ==> lines[k].id < nextElement
      modifies this
      ensures State() == Advance(old(State()), lyrics, callbacks, lineIndex)
      ensures intervals == old(intervals) && nextInterval == old(nextInterval)
    {
      var line := lyrics[lineIndex];
      var lineElement := RenderedLine(nextElement, lineIndex, line.text, false, false);
      nextElement := nextElement + 1;
      lines := lines + [lineElement];

      if currentLineIndex == -1 {
        expanded := true;
        if callbacks.onExpand {
          fired := fired + [Expand];
        }
      }

      DemoteOthers(lineElement);

      deferred := deferred + [Promote(lineElement.id, lineIndex, line)];
      currentLineIndex := lineIndex;

      if |lines| > WindowCapacity {
        lines := lines[1..];
      }
    }

    /**
     * The loop over the container's children: every child except the element
     * just appended gains "waiting" and loses "highlight".
     */
    method DemoteOthers(lineElement: RenderedLine)
      requires |lines| > 0 && lines[|lines| - 1] == lineElement
      requires forall k :: 0 <= k < |lines| - 1 ==> lines[k].id < lineElement.id
      modifies this`lines
      ensures lines == DemoteAll(old(lines)[..|old(lines)| - 1]) + [lineElement]
    {
      ghost var appended := lines;
      var i := 0;
      while i < |lines|
        invariant 0 <= i <= |lines| == |appended|
        invariant forall k :: 0 <= k < i ==>
                    lines[k] == if appended[k].id != lineElement.id then Demote(appended[k]) else appended[k]
        invariant forall k :: i <= k < |lines| ==> lines[k] == appended[k]
      {
        if lines[i].id != lineElement.id {
          lines := lines[i := Demote(lines[i])];
        }
        i := i + 1;
      }
    }

    /**
     * The zero-delay callback scheduled by the oldest line change runs:
     * its element gains "highlight" (a no-op on the container once the
     * element has been evicted) and onLineChange is called.
     */
    method FlushDeferred()
      requires Valid() && deferred != []
      modifies this
      ensures Valid()
      ensures State() == Flush(old(State()), callbacks)
      ensures intervals == old(intervals) && nextInterval == old(nextInterval)
    {
      FlushKeepsInv(State(), lyrics, callbacks);
      var task := deferred[0];
      deferred := deferred[1..];
      lines := Highlighted(lines, task.id);
      if callbacks.onLineChange {
        fired := fired + [LineChange(task.index, task.line, task.id)];
      }
    }

    /** Playback started: a new polling interval begins; earlier ones keep running. */
    method StartLyricsSync() returns (interval: nat)
      requires Valid()
      modifies this
      ensures Valid() && State() == old(State())
      ensures interval !in old(intervals) && intervals == old(intervals) + {interval}
    {
      interval := nextInterval;
      intervals := intervals + {interval};
      nextInterval := nextInterval + 1;
    }

    /**
     * One tick of an active interval: display the line for currentTime, then
     * clear this interval if the time has reached the final cue. On the empty
     * track reading the final cue throws after the display step, and the
     * interval is kept.
     */
    method Tick(interval: nat, currentTime: real) returns (outcome: PollOutcome)
      requires Valid() && interval in intervals
      modifies this
      ensures Valid()
      ensures State() == Display(old(State()), lyrics, callbacks, currentTime)
      ensures outcome == AfterTick(lyrics, currentTime)
      ensures intervals == if outcome == StopPolling then old(intervals) - {interval} else old(intervals)
      ensures outcome == StopPolling ==> currentLineIndex == |lyrics| - 1
    {
      ghost var s := State();
      DisplayLyrics(currentTime);
      if |lyrics| == 0 {
        outcome := Fault;
      } else if currentTime >= lyrics[|lyrics| - 1].time {
        intervals := intervals - {interval};
        outcome := StopPolling;
        StopRendersFinalCue(s, lyrics, callbacks, currentTime);
      } else {
        outcome := KeepPolling;
      }
    }
  }
}
