# Karaoke lyric synchronisation, modelled in Dafny

`YouTubeKaraokePlugin` is a browser widget that shows the lyrics of an
embedded video in time with playback. Every 100 ms it reads the player's
current time and picks the lyric cue (timestamp plus text) whose turn has
come. When that cue changes it does three things: it appends a line element
to the lyrics container, dims the older lines, and highlights the new line
one event-loop turn later. The container keeps the three most recent lines.
The first line change also "expands" the karaoke box.

This project models that synchronisation core and proves properties of it:

- `line_selector.dfy` (module `LineSelector`): the cue selector. It has a
  recursive specification `SelectLine`, a reference characterisation
  `IsLastStarted`, and the widget's forward scan `CurrentLineIndex`, which is
  a loop proved equal to `SelectLine`.
- `render_window.dfy` (module `RenderWindow`): the state of the widget as a
  value. It holds the current index, the "expand" flag, the container's
  children, the zero-delay callbacks not yet run, the user callbacks fired so
  far, and the next element identity. Three functions step it: `Display` for
  one display step, `Flush` for one deferred callback and `Settle` to run all
  of them. The invariant `Inv` covers the window bound, creation order, and
  one-shot expand before any line change. The lemmas state what each step does.
- `sync_driver.dfy` (module `SyncDriver`): the poll tick and its stop rule
  (`AfterTick`), and runs of ticks (`Run`). It holds the multi-tick properties
  (idle ticks, forward progress) and a worked scenario.
- `karaoke_plugin.dfy` (module `KaraokePlugin`): the class
  `YouTubeKaraokePlugin`. Its fields change in place. Each method is proved
  to leave exactly the state that the functions above describe.

Modelling choices:

- Times are `real`. The code only compares them.
- An element's object identity is modelled as a serial number (`id`). The
  code's `lines[i] !== lineElement` becomes a comparison of ids.
- `setTimeout(…, 0)` becomes a FIFO queue of `Promote` entries, which
  `FlushDeferred` runs one at a time. It is a queue because timers with equal
  delay run in order, and nothing in the code prevents a second line change
  before the first callback runs.
- `onExpand` and `onLineChange` are optional (`?.`). `Callbacks` records which
  ones the configuration supplied. `signals` records the calls made.
- Each `PLAYING` notification calls `startLyricsSync`, which starts one more
  interval. Earlier intervals are not cleared. So the class keeps a set of
  active intervals. Extra intervals add display steps at other times, so
  they can render a cue that a single interval would skip. A tick may also
  run before an earlier tick's deferred callback, leaving two highlights
  pending at once. `DisplayKeepsInv` and `FlushKeepsInv` hold for any
  interleaving of ticks and deferred callbacks. The `Run` lemmas assume that
  each tick's deferred callbacks run before the next tick.
- The player's `getCurrentTime()` is the `currentTime` parameter of `Tick`.

Where a reader might expect something other than what the code does, the
model follows the code:

- A caller might expect the track to be sorted by time. The code never
  sorts or checks it. `SelectLine` works on any track, and its
  characterisation, uniqueness and monotonicity lemmas need no sortedness.
  Only the "before the first cue" and tie-break lemmas assume `Sorted`.
- On an empty track, each tick reads `.time` of `undefined` after the display
  step and throws, so `clearInterval` is never reached and polling never
  stops. `Tick` returns `Fault` there and keeps the interval. Its display
  step is still a no-op (`EmptyTrackStaysIdle`).
- The box gains the `expand` class once. `onExpand` runs only if it was
  supplied.

## Model

| member | source | states |
|---|---|---|
| `LineSelector.SelectLine` | src/yt-karaoke-plugin.js:429-437 | the selected index is -1 or a valid index of the track |
| `LineSelector.SelectLineIsLastStarted` | src/yt-karaoke-plugin.js:429-437 | the selection is the last index whose cue time is at or before t (or -1): that cue has started and every later cue lies after t, on any track, sorted or not |
| `LineSelector.LastStartedIsUnique` | src/yt-karaoke-plugin.js:429-437 | any index meeting that characterisation is the selection, so the characterisation defines the scan's result |
| `LineSelector.SelectLineNone` | src/yt-karaoke-plugin.js:430-436 | -1 exactly when no cue has started: on the empty track and when every cue lies after t |
| `LineSelector.SelectLineCoversStarted` | src/yt-karaoke-plugin.js:431-435 | every started cue lies at or before the selection, so ties go to the highest index |
| `LineSelector.SelectLineMonotone` | src/yt-karaoke-plugin.js:429-437 | t1 <= t2 implies selection(t1) <= selection(t2), on any track |
| `LineSelector.SortedSelectLineBeforeFirst` | src/yt-karaoke-plugin.js:429-437 | on a sorted non-empty track the selection is -1 exactly when t is before the first cue |
| `LineSelector.SortedSelectLineTieBreak` | src/yt-karaoke-plugin.js:431-435 | on a sorted track, at a cue's own time the selection is that cue or a later one with the same time, and no later cue has that time |
| `LineSelector.SelectLineFinal` | src/yt-karaoke-plugin.js:429-437 | on a non-empty track the final cue is selected exactly when its time has been reached |
| `LineSelector.CurrentLineIndex` | src/yt-karaoke-plugin.js:429-437 | the forward scan that keeps the last started index returns the selection, hence the last started cue |
| `RenderWindow.InitialInv` | src/yt-karaoke-plugin.js:68 | the initial state (index -1, nothing rendered, scheduled or fired) satisfies the invariant |
| `RenderWindow.AdvanceWindow` | src/yt-karaoke-plugin.js:398-425 | after a change the window holds the demoted older children (without the oldest when it overflowed), then the new element |
| `RenderWindow.DisplayKeepsInv` | src/yt-karaoke-plugin.js:386-427 | the display step keeps the invariant: at most 3 children in creation order, the newest showing the current line, box expanded once a line is current, onExpand first and never repeated |
| `RenderWindow.FlushKeepsInv` | src/yt-karaoke-plugin.js:416-419 | running a deferred callback keeps the invariant |
| `RenderWindow.SettleKeepsInv` | src/yt-karaoke-plugin.js:416-419 | running all deferred callbacks keeps the invariant and empties the queue, leaving index, flag and the window's elements in place |
| `RenderWindow.DisplayUnchangedIff` | src/yt-karaoke-plugin.js:395 | the display step leaves the whole state unchanged exactly when the selection is the current index or -1 |
| `RenderWindow.DisplayIdempotent` | src/yt-karaoke-plugin.js:395 | repeating a display step at the same time changes nothing |
| `RenderWindow.DisplayAdvance` | src/yt-karaoke-plugin.js:395-426 | on a change: the index is recorded; the new element is last, neither waiting nor highlighted; every other child is waiting and not highlighted; at most 3 remain and overflow removes exactly the oldest, keeping the order of the rest; highlight and onLineChange are only scheduled; onExpand fires only if the previous index was -1 |
| `RenderWindow.DisplayNeverResets` | src/yt-karaoke-plugin.js:403-406 | once a line is current the index never returns to -1, the box stays expanded, and no further onExpand fires |
| `RenderWindow.FlushPromotes` | src/yt-karaoke-plugin.js:416-419 | the deferred callback highlights only its own element (if still present) and calls onLineChange(index, line, element), after onExpand |
| `RenderWindow.AdvanceThenFlushHighlightsNewLine` | src/yt-karaoke-plugin.js:408-419 | a change followed by its deferred callback leaves the new line as the only highlighted child, at the end of the window |
| `RenderWindow.Advance` | src/yt-karaoke-plugin.js:396-425 | a line change records the index, bumps the element identity, expands the box when no line was current, ends the window with the new unhighlighted, non-waiting element, grows the window by at most one up to the capacity, and schedules exactly one promotion for it |
| `RenderWindow.Display` | src/yt-karaoke-plugin.js:386-427 | the display step either leaves the state unchanged or makes the selected line, which differs from the previous one and is not -1, current and creates exactly one element |
| `RenderWindow.Flush` | src/yt-karaoke-plugin.js:416-419 | the deferred callback leaves the index, the flag, the element identities and their order alone, removes only itself from the queue, keeps every callback already fired and fires at most one more |
| `RenderWindow.Settle` | src/yt-karaoke-plugin.js:416-419 | running every deferred callback empties the queue and leaves the index, the flag and the window's element identities as they were |
| `SyncDriver.AfterTick` | src/yt-karaoke-plugin.js:377-382 | the stop check throws exactly on the empty track |
| `SyncDriver.Poll` | src/yt-karaoke-plugin.js:373-383 | a settled tick leaves nothing pending; from a settled state it changes nothing exactly when the selection is the current line or -1; afterwards the current line is the selection, or the previous current line when the selection is -1 |
| `SyncDriver.Run` | src/yt-karaoke-plugin.js:372-384 | after a non-empty run nothing is pending, and each tick creates at most one element |
| `SyncDriver.PollStopsExactlyAtFinalCue` | src/yt-karaoke-plugin.js:374-382 | a tick stops its interval exactly when the final cue is selected; on the empty track every tick throws instead |
| `SyncDriver.StopRendersFinalCue` | src/yt-karaoke-plugin.js:374-382 | the tick that stops polling has already rendered the final cue as the current, newest line |
| `SyncDriver.PollKeepsInv` | src/yt-karaoke-plugin.js:373-383 | a tick followed by its deferred callbacks keeps the invariant |
| `SyncDriver.RunKeepsInv` | src/yt-karaoke-plugin.js:372-384 | any run of ticks keeps the invariant, so the window never exceeds 3 and onExpand fires at most once, first |
| `SyncDriver.RunWithoutChangeIsIdle` | src/yt-karaoke-plugin.js:395 | ticks selecting the current line or -1 change nothing and fire no callback, however many there are |
| `SyncDriver.EmptyTrackStaysIdle` | src/yt-karaoke-plugin.js:377-382 | on the empty track nothing is ever rendered or fired and every tick faults |
| `SyncDriver.RunFollowsLatestTime` | src/yt-karaoke-plugin.js:372-384 | polling at non-decreasing times never moves the current line backwards and ends on the line selected at the last time |
| `SyncDriver.ThreeCueScenario` | src/yt-karaoke-plugin.js:372-437 | the track (0,a) (2,b) (5,c) polled at 0,1,2,3,5,6 selects 0,0,1,1,2,2, fires onExpand once and then onLineChange for 0, 1, 2, and ends with a and b waiting and c highlighted |
| `KaraokePlugin.YouTubeKaraokePlugin.constructor` | src/yt-karaoke-plugin.js:52-68 | a new widget has index -1, an empty window, no pending or fired callbacks, and no interval |
| `KaraokePlugin.YouTubeKaraokePlugin.DisplayLyrics` | src/yt-karaoke-plugin.js:386-427 | the in-place display step leaves exactly the state of `Display` and keeps the invariant |
| `KaraokePlugin.YouTubeKaraokePlugin.RenderLineChange` | src/yt-karaoke-plugin.js:396-426 | the in-place line-change branch leaves exactly the state of `Advance`: new element appended, expand on the first line, others demoted, highlight scheduled, index recorded, oldest evicted on overflow |
| `KaraokePlugin.YouTubeKaraokePlugin.DemoteOthers` | src/yt-karaoke-plugin.js:408-414 | the loop over the children makes every child except the new element waiting and not highlighted, and leaves the new element as it was |
| `KaraokePlugin.YouTubeKaraokePlugin.FlushDeferred` | src/yt-karaoke-plugin.js:416-419 | running the oldest deferred callback in place leaves exactly the state of `Flush` |
| `KaraokePlugin.YouTubeKaraokePlugin.StartLyricsSync` | src/yt-karaoke-plugin.js:364-373 | playback start adds one new active interval and leaves the others and the rendering alone |
| `KaraokePlugin.YouTubeKaraokePlugin.Tick` | src/yt-karaoke-plugin.js:373-383 | a tick displays first, then clears its interval exactly when the time has reached the final cue, with the final cue current; on the empty track it faults and keeps the interval |

## Left out

- `loadScript` and `waitForYouTubeAPI`: script injection, network loading and polling until the player API is ready. These are I/O.
- `injectStyles`: generated style sheet text with no effect on synchronisation.
- `createStructure`, `createPlayer`: DOM construction and the external player. The model assumes the container and the karaoke box exist. The missing-container error path is not modelled.
- `onPlayerStateChange`: only its `PLAYING` branch is modelled, as a call of `StartLyricsSync`. The `ENDED` branch calls `this._config.onVideoEnded?.()`. The constructor never copies `onVideoEnded` into `_config` (src/yt-karaoke-plugin.js:40-65), so that call reads `undefined` and does nothing, and an `onVideoEnded` supplied by the caller is ignored. The branch therefore has no effect to model.
- Configuration defaults for colours, font, shadows, symbol, video and container ids: cosmetic fallbacks. Only `lyrics` and the two callbacks are modelled.
- Timer semantics: an interval firing is a call of `Tick`, and a zero-delay callback running is a call of `FlushDeferred`. The 100 ms period and real concurrency are not modelled.
- Markup in lyric text: text is opaque. Setting `innerHTML` is not modelled beyond the element carrying the cue's text.
- The `line` class that every element carries, and the `expand` class of the karaoke box after its first addition: the flag `expanded` stands for the latter.
- A detached element that is highlighted after eviction: the model records the callback, but the element is no longer part of any state.
- SelectLine, AfterTick: cue times that are not numbers (NaN, a missing `time`, a non-numeric string) are not modelled; times are `real`. In the code every comparison with such a time is false (src/yt-karaoke-plugin.js:432, :379), so such a cue is never selected, which `IsLastStarted` does not allow for, and as the final cue it never stops any interval, as on the empty track.
- Display, Tick and Callbacks: they assume that the user callbacks `onExpand` and `onLineChange` return normally. If `onExpand` threw (src/yt-karaoke-plugin.js:405), `displayLyrics` would stop with the new element appended and the index still -1. The next tick would then append another element and call `onExpand` again, and the stop check of that tick would be skipped. The one-shot expand results (`SignalsInv`, `DisplayNeverResets`, `RunKeepsInv`) hold only under this assumption.
- Display, Tick and the class field `lyrics`: they assume that the caller does not change the lyrics array after construction. The code keeps the caller's array by reference (src/yt-karaoke-plugin.js:52) and re-reads it on every tick (:379, :431-432). The model holds the track as a constant.
