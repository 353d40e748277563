/**
 * The render window of the karaoke widget: the lyric lines currently present
 * in the lyrics container, the one-shot "expand" of the karaoke box, the
 * deferred highlight of a freshly appended line, and the user callbacks fired
 * so far. Each function here gives the state after one step of the widget;
 * the class in module KaraokePlugin performs the same steps in place.
 */
module RenderWindow {
  import opened LineSelector

  /** The container keeps at most this many lines; the oldest goes first. */
  const WindowCapacity := 3

  /**
   * A line element in the container. `id` stands for the element's object
   * identity (serial number of its creation); `index` is the cue it shows.
   * The two flags are its classes "waiting" and "highlight".
   */
  datatype RenderedLine = RenderedLine(id: nat, index: nat, text: string, waiting: bool, highlight: bool)

  /** A callback scheduled with a zero delay: highlight element `id` and report the change. */
  datatype Deferred = Promote(id: nat, index: nat, line: LyricLine)

  /** A user callback invocation: onExpand(), or onLineChange(index, line, element). */
  datatype Signal = Expand | LineChange(index: nat, line: LyricLine, element: nat)

  /** Which optional callbacks the configuration supplied. */
  datatype Callbacks = Callbacks(onExpand: bool, onLineChange: bool)

  /**
   * The widget's synchronisation state: the current line index (-1 before
   * the first line), whether the box carries "expand", the container's
   * children oldest first, the zero-delay callbacks not yet run (in the order
   * they run), the callbacks fired so far, and the next element identity.
   */
  datatype RenderState = RenderState(
    current: int,
    expanded: bool,
    window: seq<RenderedLine>,
    pending: seq<Deferred>,
    signals: seq<Signal>,
    nextId: nat)

  /** The state of a freshly constructed widget. */
  function Initial(): RenderState {
    RenderState(-1, false, [], [], [], 0)
  }

  function Ids(w: seq<RenderedLine>): seq<nat> {
    seq(|w|, i requires 0 <= i < |w| => w[i].id)
  }

  /** Adds "waiting" and removes "highlight". */
  function Demote(l: RenderedLine): RenderedLine {
    l.(waiting := true, highlight := false)
  }

  function DemoteAll(w: seq<RenderedLine>): seq<RenderedLine> {
    seq(|w|, i requires 0 <= i < |w| => Demote(w[i]))
  }

  /** Adds "highlight" to the element with identity `id`, if it is still in the window. */
  function Highlighted(w: seq<RenderedLine>, id: nat): seq<RenderedLine> {
    seq(|w|, i requires 0 <= i < |w| => if w[i].id == id then w[i].(highlight := true) else w[i])
  }

  /** Removes the first child once the container holds more than the capacity. */
  function Evict(w: seq<RenderedLine>): seq<RenderedLine> {
    if |w| > WindowCapacity then w[1..] else w
  }

  /**
   * What a real line change does: append a fresh element for the cue, expand
   * the box (and call onExpand) if no line was current before, demote every
   * other element, schedule the deferred highlight, record the index, evict.
   */
  function Advance(s: RenderState, lyrics: seq<LyricLine>, cb: Callbacks, index: nat): (r: RenderState)
    requires index < |lyrics|
    ensures r.current == index && r.nextId == s.nextId + 1 && (s.current == -1 || s.expanded ==> r.expanded)
    ensures 0 < |r.window| <= (if |s.window| < WindowCapacity then |s.window| + 1 else |s.window|)
    ensures r.window[|r.window| - 1] == RenderedLine(s.nextId, index, lyrics[index].text, false, false)
    ensures r.pending == s.pending + [Promote(s.nextId, index, lyrics[index])]
  {
    var line := lyrics[index];
    var element := RenderedLine(s.nextId, index, line.text, false, false);
    RenderState(
      current := index,
      expanded := s.expanded || s.current == -1,
      window := Evict(DemoteAll(s.window) + [element]),
      pending := s.pending + [Promote(element.id, index, line)],
      signals := s.signals + (if s.current == -1 && cb.onExpand then [Expand] else []),
      nextId := s.nextId + 1)
  }

  /** One call of the display step at playback time t. */
  function Display(s: RenderState, lyrics: seq<LyricLine>, cb: Callbacks, t: real): (r: RenderState)
    ensures r == s || (r.current == SelectLine(lyrics, t) != -1 && r.current != s.current && r.nextId == s.nextId + 1)
  {
    var index := SelectLine(lyrics, t);
    if index == s.current || index == -1 then s else Advance(s, lyrics, cb, index)
  }

  /** The oldest zero-delay callback runs: highlight its element, call onLineChange. */
  function Flush(s: RenderState, cb: Callbacks): (r: RenderState)
    requires s.pending != []
    ensures r.current == s.current && r.expanded == s.expanded && r.nextId == s.nextId
    ensures |r.window| == |s.window| && Ids(r.window) == Ids(s.window)
    ensures r.pending == s.pending[1..] && s.signals <= r.signals && |r.signals| <= |s.signals| + 1
  {
    var task := s.pending[0];
    s.(window := Highlighted(s.window, task.id),
       pending := s.pending[1..],
       signals := s.signals + (if cb.onLineChange then [LineChange(task.index, task.line, task.id)] else []))
  }

  /** Every scheduled zero-delay callback runs, oldest first. */
  function Settle(s: RenderState, cb: Callbacks): (r: RenderState)
    ensures r.pending == [] && r.current == s.current && r.expanded == s.expanded && r.nextId == s.nextId
    ensures Ids(r.window) == Ids(s.window)
    decreases |s.pending|
  {
    if s.pending == [] then s else Settle(Flush(s, cb), cb)
  }

  /**
   * The invariant of the widget's state: the index is -1 or a cue; nothing is
   * rendered, scheduled or signalled before the first line; the box is expanded
   * exactly once a line is current; the window holds at most the capacity,
   * in creation order, and ends with the current line; every element and every
   * scheduled callback refers to a real cue; onExpand, when supplied, is the
   * first callback and is never fired again.
   */
  ghost predicate Inv(s: RenderState, lyrics: seq<LyricLine>, cb: Callbacks) {
    && -1 <= s.current < |lyrics|
    && (s.current == -1 ==> s.window == [] && s.pending == [] && s.signals == [])
    && (s.expanded <==> s.current != -1)
    && (s.current != -1 ==> |s.window| > 0 && s.window[|s.window| - 1].index == s.current)
    && WindowInv(s.window, s.nextId, lyrics)
    && PendingInv(s.pending, s.nextId, lyrics)
    && SignalsInv(s.signals, s.current, cb)
  }

  /** At most the capacity, in creation order, each element an earlier one showing a real cue. */
  ghost predicate WindowInv(w: seq<RenderedLine>, nextId: nat, lyrics: seq<LyricLine>) {
    && |w| <= WindowCapacity
    && (forall i, j :: 0 <= i < j < |w| ==> w[i].id < w[j].id)
    && (forall i :: 0 <= i < |w| ==> w[i].id < nextId && w[i].index < |lyrics| && w[i].text == lyrics[w[i].index].text)
  }

  /** Every scheduled callback targets an element already created and carries its real cue. */
  ghost predicate PendingInv(pending: seq<Deferred>, nextId: nat, lyrics: seq<LyricLine>) {
    forall i :: 0 <= i < |pending| ==>
      pending[i].id < nextId && pending[i].index < |lyrics| && pending[i].line == lyrics[pending[i].index]
  }

  /** onExpand, when supplied, is the first callback once a line is current, and never repeats. */
  ghost predicate SignalsInv(signals: seq<Signal>, current: int, cb: Callbacks) {
    && (cb.onExpand && current != -1 ==> |signals| > 0)
    && (forall i :: 0 <= i < |signals| ==> (signals[i] == Expand <==> i == 0 && cb.onExpand))
  }

  lemma InitialInv(lyrics: seq<LyricLine>, cb: Callbacks)
    ensures Inv(Initial(), lyrics, cb)
  {
  }

  /** The window after a change, element by element: demoted survivors, then the new line. */
  lemma AdvanceWindow(s: RenderState, lyrics: seq<LyricLine>, cb: Callbacks, index: nat)
    requires index < |lyrics| && |s.window| <= WindowCapacity
    ensures var w' := Advance(s, lyrics, cb, index).window;
            var drop := if |s.window| == WindowCapacity then 1 else 0;
            && |w'| == |s.window| + 1 - drop
            && w'[|w'| - 1] == RenderedLine(s.nextId, index, lyrics[index].text, false, false)
            && (forall i :: 0 <= i < |w'| - 1 ==> w'[i] == Demote(s.window[i + drop]))
  {
  }

  lemma AdvanceKeepsWindowInv(s: RenderState, lyrics: seq<LyricLine>, cb: Callbacks, index: nat)
    requires index < |lyrics| && WindowInv(s.window, s.nextId, lyrics)
    ensures var s' := Advance(s, lyrics, cb, index);
            WindowInv(s'.window, s'.nextId, lyrics) && s'.window[|s'.window| - 1].index == index
  {
    var s' := Advance(s, lyrics, cb, index);
    AdvanceWindow(s, lyrics, cb, index);
    var w' := s'.window;
    var drop := if |s.window| == WindowCapacity then 1 else 0;
    forall i, j | 0 <= i < j < |w'|
      ensures w'[i].id < w'[j].id
    {
      if j < |w'| - 1 {
        assert w'[j].id == s.window[j + drop].id;
      }
    }
  }

  lemma DisplayKeepsInv(s: RenderState, lyrics: seq<LyricLine>, cb: Callbacks, t: real)
    requires Inv(s, lyrics, cb)
    ensures Inv(Display(s, lyrics, cb, t), lyrics, cb)
  {
    var index := SelectLine(lyrics, t);
    if index != s.current && index != -1 {
      var s' := Advance(s, lyrics, cb, index);
      AdvanceKeepsWindowInv(s, lyrics, cb, index);
      assert PendingInv(s'.pending, s'.nextId, lyrics);
      assert SignalsInv(s'.signals, s'.current, cb);
    }
  }

  lemma FlushKeepsInv(s: RenderState, lyrics: seq<LyricLine>, cb: Callbacks)
    requires Inv(s, lyrics, cb) && s.pending != []
    ensures Inv(Flush(s, cb), lyrics, cb)
  {
    var s' := Flush(s, cb);
    assert forall i :: 0 <= i < |s'.window| ==> s'.window[i].id == s.window[i].id && s'.window[i].index == s.window[i].index;
  }

  lemma {:induction false} SettleKeepsInv(s: RenderState, lyrics: seq<LyricLine>, cb: Callbacks)
    requires Inv(s, lyrics, cb)
    ensures var s' := Settle(s, cb);
            Inv(s', lyrics, cb) && s'.pending == []
            && s'.current == s.current && s'.expanded == s.expanded && s'.nextId == s.nextId
            && Ids(s'.window) == Ids(s.window)
    decreases |s.pending|
  {
    if s.pending != [] {
      FlushKeepsInv(s, lyrics, cb);
      SettleKeepsInv(Flush(s, cb), lyrics, cb);
    }
  }

  /**
   * A tick that selects the current line again, or no line at all, changes
   * nothing: window, flag, index, scheduled and fired callbacks stay as they were.
   * Any other selection is a change.
   */
  lemma DisplayUnchangedIff(s: RenderState, lyrics: seq<LyricLine>, cb: Callbacks, t: real)
    ensures var index := SelectLine(lyrics, t);
            Display(s, lyrics, cb, t) == s <==> index == s.current || index == -1
  {
  }

  /** Repeating a tick at the same time is a no-op. */
  lemma DisplayIdempotent(s: RenderState, lyrics: seq<LyricLine>, cb: Callbacks, t: real)
    ensures var s' := Display(s, lyrics, cb, t);
            Display(s', lyrics, cb, t) == s'
  {
  }

  /**
   * A line change: the index is recorded; the new element, not yet highlighted
   * and not waiting, is the newest child; every other child is waiting and not
   * highlighted; the window keeps its bound, and when it overflows exactly the
   * oldest child leaves while the others keep their order; the highlight and
   * onLineChange are only scheduled; the box is expanded, and onExpand fires
   * only when no line was current before.
   */
  lemma DisplayAdvance(s: RenderState, lyrics: seq<LyricLine>, cb: Callbacks, t: real)
    requires Inv(s, lyrics, cb)
    requires SelectLine(lyrics, t) != s.current && SelectLine(lyrics, t) != -1
    ensures var index := SelectLine(lyrics, t);
            var s' := Display(s, lyrics, cb, t);
            var n := |s'.window|;
            && s'.current == index
            && s'.expanded
            && 0 < n <= WindowCapacity
            && s'.window[n - 1] == RenderedLine(s.nextId, index, lyrics[index].text, false, false)
            && (forall i :: 0 <= i < n - 1 ==> s'.window[i].waiting && !s'.window[i].highlight)
            && Ids(s'.window) == (if |s.window| == WindowCapacity then Ids(s.window)[1..] else Ids(s.window)) + [s.nextId]
            && s'.pending == s.pending + [Promote(s.nextId, index, lyrics[index])]
            && s'.signals == s.signals + (if s.current == -1 && cb.onExpand then [Expand] else [])
  {
    var index := SelectLine(lyrics, t);
    var w := DemoteAll(s.window) + [RenderedLine(s.nextId, index, lyrics[index].text, false, false)];
    assert Ids(w) == Ids(s.window) + [s.nextId];
    if |w| > WindowCapacity {
      assert Ids(w[1..]) == Ids(w)[1..];
    }
  }

  /** The current line, once set, is never reset to -1: expand is one-shot. */
  lemma DisplayNeverResets(s: RenderState, lyrics: seq<LyricLine>, cb: Callbacks, t: real)
    requires Inv(s, lyrics, cb) && s.current != -1
    ensures var s' := Display(s, lyrics, cb, t);
            s'.current != -1 && s'.expanded && Expand !in s'.signals[|s.signals|..]
  {
  }

  /**
   * The deferred step: the element it was scheduled for, if still in the
   * container, gains "highlight" and nothing else changes in the window;
   * onLineChange(index, line, element) fires when supplied, after onExpand.
   */
  lemma FlushPromotes(s: RenderState, lyrics: seq<LyricLine>, cb: Callbacks)
    requires Inv(s, lyrics, cb) && s.pending != []
    ensures var task := s.pending[0];
            var s' := Flush(s, cb);
            && task.line == lyrics[task.index]
            && |s'.window| == |s.window|
            && (forall i :: 0 <= i < |s.window| ==>
                  if s.window[i].id == task.id then s'.window[i] == s.window[i].(highlight := true)
                  else s'.window[i] == s.window[i])
            && s'.pending == s.pending[1..]
            && s'.current == s.current && s'.expanded == s.expanded
            && (cb.onLineChange ==>
                  s'.signals == s.signals + [LineChange(task.index, task.line, task.id)]
                  && (cb.onExpand ==> s'.signals[0] == Expand && |s.signals| > 0))
            && (!cb.onLineChange ==> s'.signals == s.signals)
  {
  }

  /**
   * Running the deferred step right after a line change leaves exactly the
   * new line highlighted, at the end of the window.
   */
  lemma AdvanceThenFlushHighlightsNewLine(s: RenderState, lyrics: seq<LyricLine>, cb: Callbacks, t: real)
    requires Inv(s, lyrics, cb) && s.pending == []
    requires SelectLine(lyrics, t) != s.current && SelectLine(lyrics, t) != -1
    ensures var s' := Flush(Display(s, lyrics, cb, t), cb);
            var n := |s'.window|;
            && s'.window[n - 1].highlight && !s'.window[n - 1].waiting
            && s'.window[n - 1].index == SelectLine(lyrics, t)
            && (forall i :: 0 <= i < n - 1 ==> s'.window[i].waiting && !s'.window[i].highlight)
            && s'.pending == []
  {
    var s1 := Display(s, lyrics, cb, t);
    DisplayAdvance(s, lyrics, cb, t);
    DisplayKeepsInv(s, lyrics, cb, t);
    assert s1.pending[0].id == s.nextId;
    var n := |s1.window|;
    forall i | 0 <= i < n - 1
      ensures s1.window[i].id != s.nextId
    {
      assert s1.window[i].id < s1.window[n - 1].id;
    }
  }
}
