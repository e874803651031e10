# Clipboard watcher change loop, modelled in Dafny

This project models the clipboard watcher of clipcat's server
(`crates/server/src/watcher/mod.rs`). The watcher derives a watch set of
clipboard kinds from its options. An optional load_current pass publishes the
content present at start. It then waits on the backend's notification stream.
For each change of a watched kind it loads the content, drops what is too
small or identical to the last content cached for that kind, and publishes
the rest. A runtime on/off flag makes it discard notifications without
loading anything.

The model is sequential, in three modules:

- `Types` (`types.dfy`): clipboard kinds, backend load results and errors,
  the watcher's errors, published entries (content and kind), the options,
  and a scripted backend. The script has two parts. A `Snapshot` gives what
  `load` returns for each kind during the load_current pass, and whether a
  receiver is live when that kind's entry is sent. A sequence of `Event`s
  gives, for each item of the notification stream, the notified kind, what
  loading it would return and whether a receiver is live when its entry would
  be sent; or the end of the stream.
- `ChangeLoop` (`change_loop.dfy`): the loop as a pure state machine. The state
  is the dedup cache, the entries sent so far, the kinds loaded so far and the
  error the task returned, if any. It defines the load_current pass
  (`InitialLoad`), one iteration of the steady loop (`Step`) and a stretch of
  the loop (`Run`). It also holds the invariant the loop keeps (`Consistent`)
  and the lemmas below.
- `Watcher` (`watcher.dfy`): the class `ClipboardWatcher`. It holds the flag
  and the loop's state as fields. Its methods run the load_current pass, one
  notification and a stretch of notifications in place. Each method is proved
  equal to the matching `ChangeLoop` function and keeps `Valid()`.
  `Enable`, `Disable` and `Toggle` store into the flag. `IsWatching` reads the
  flag; `State` maps it to `Enabled`/`Disabled`. `PauseResumeScenario` is a
  client that walks a watcher through a session: initial content, repeated
  content, new content, a pause and a resume.

Whether the broadcast channel has a live receiver is decided per send, by the
script: per kind in the `Snapshot`, per notification in the stream. So callers
may subscribe or drop their receivers between any two sends. The channel's
own receiver is created with the channel (line 75) and dropped when
construction returns, so liveness depends only on when callers subscribe.

A terminated loop stays terminated: `Step` on a state with an exit error
returns it unchanged.

The code keeps one asymmetry and the model keeps it too. The load_current pass
skips `UnsupportedClipboardKind` (lines 99-104). The steady loop does not skip
it (lines 126-130) and terminates with `Backend`.

## Model

| member | source | states |
|---|---|---|
| `ChangeLoop.DefaultOptions` | crates/server/src/watcher/mod.rs:35-44 | the default options load current content, watch both kinds in the order Clipboard, Primary, and use a size filter of 1 |
| `ChangeLoop.WatchSet` | crates/server/src/watcher/mod.rs:57-73 | Clipboard is watched iff enable_clipboard; Primary iff enable_primary; the set is empty iff both are off; with both on the order is Clipboard then Primary; no kind appears twice |
| `Watcher.EnabledKinds` | crates/server/src/watcher/mod.rs:57-73 | building the list by pushing the enabled kinds gives exactly the watch set |
| `ChangeLoop.IgnorableOnLoadCurrent` | crates/server/src/watcher/mod.rs:99-105 | the load_current pass skips exactly the errors other than `Other`: EmptyClipboard, MatchMime, UnknownContentType and UnsupportedClipboardKind (compared with the steady loop by `IgnorableSets`) |
| `ChangeLoop.IgnorableOnChange` | crates/server/src/watcher/mod.rs:126-137 | the steady loop skips exactly the errors that are neither `Other` nor UnsupportedClipboardKind |
| `ChangeLoop.Publish` | crates/server/src/watcher/mod.rs:140-148 | the kind is cached with the content and no other kind's entry changes; nothing is loaded; the published entries are unchanged or extended by exactly (content, kind); the loop goes on iff it was running and a receiver is live. Its use in each loop is stated by `LoadOneOutcome` and `StepPublishesChange` |
| `ChangeLoop.LoadOne` | crates/server/src/watcher/mod.rs:87-106 | a stopped pass is left as it is; otherwise the kind is appended to the loads, the published entries are unchanged or extended by that kind's captured entry, and the pass never stops with SubscriberClosed. `LoadOneOutcome` states the exact outcome |
| `ChangeLoop.InitialLoad` | crates/server/src/watcher/mod.rs:85-107 | a stopped state is left as it is; published entries and loads only grow, by at most one each per visited kind. `InitialLoadRuns`, `InitialLoadCompletes`, `InitialLoadCaches`, `InitialLoadExit` and `InitialLoadStopsAtFirstFailure` state the outcome |
| `ChangeLoop.Start` | crates/server/src/watcher/mod.rs:84-108 | before the first notification at most one entry is published and at most one load made per watched kind. `StartConsistent` and `NoLoadCurrentPublishesNothing` state the rest |
| `ChangeLoop.Step` | crates/server/src/watcher/mod.rs:110-149 | a stopped loop is left as it is; the published entries only grow, by at most one; a running loop stops only on a closed stream or on a notification of a watched kind while the flag is on. The `Step…` lemmas state each branch |
| `ChangeLoop.Run` | crates/server/src/watcher/mod.rs:110-150 | a stopped loop is left as it is, and a loop running at the end was running at the start. The `Run…` lemmas state the rest |
| `ChangeLoop.PublishConsistent` | crates/server/src/watcher/mod.rs:140-143 | caching new content above the filter and then sending it keeps the loop invariant: the cache matches the last published entry of each kind, and no entry repeats its kind's previous content |
| `ChangeLoop.LoadOneConsistent` | crates/server/src/watcher/mod.rs:87-106 | one load of the initial pass, for a watched kind not yet cached, keeps the invariant and caches at most that kind |
| `ChangeLoop.InitialLoadConsistent` | crates/server/src/watcher/mod.rs:85-108 | the initial pass over distinct, watched, uncached kinds keeps the invariant and caches only the kinds it visits |
| `ChangeLoop.PassConsistent` | crates/server/src/watcher/mod.rs:85-108 | the full initial pass over the watch set, from a fresh state, keeps the invariant |
| `ChangeLoop.StartConsistent` | crates/server/src/watcher/mod.rs:84-108 | the state in which the task first waits for a notification satisfies the invariant, with or without load_current |
| `ChangeLoop.NoLoadCurrentPublishesNothing` | crates/server/src/watcher/mod.rs:84-85 | without load_current nothing is loaded, cached or published before the first notification |
| `ChangeLoop.LoadOneOutcome` | crates/server/src/watcher/mod.rs:87-106 | one load of the initial pass lets the pass go on iff it returns content (sent to a live receiver when above the filter) or an ignorable error. If it goes on, the kind was loaded, the entry (content, kind) was published and the content cached exactly when it is above the filter, and nothing else changed. If it stops, the exit is Backend with the load error or SendClipEntry, and nothing was published. A non-ignorable error leaves the cache as it was; a failed send leaves the content cached |
| `ChangeLoop.InitialLoadRuns` | crates/server/src/watcher/mod.rs:85-107 | the pass completes iff every kind's load returns content (sent to a live receiver when above the filter) or an ignorable error |
| `ChangeLoop.InitialLoadCompletes` | crates/server/src/watcher/mod.rs:85-107 | on completion every kind was loaded once, in watch-set order, and the published entries are exactly the kinds' contents above the filter, in that order |
| `ChangeLoop.InitialLoadCaches` | crates/server/src/watcher/mod.rs:88-90 | on completion every visited kind whose content is above the filter is cached with that content |
| `ChangeLoop.InitialLoadExit` | crates/server/src/watcher/mod.rs:85-107 | a Backend exit of the pass carries a non-ignorable load error of a visited kind; a SendClipEntry exit means some visited kind had content above the filter and no live receiver; the pass never ends with SubscriberClosed |
| `ChangeLoop.InitialLoadStopsAtFirstFailure` | crates/server/src/watcher/mod.rs:86-106 | the pass stops at the first kind whose load does not go through: the exit is Backend with that kind's error, or SendClipEntry for a failed send; the kinds up to and including it were loaded, those after it were not, and exactly the entries of the kinds before it were published |
| `ChangeLoop.InitialLoadHaltedPrefix` | crates/server/src/watcher/mod.rs:95-105 | once the pass has returned an error, no later kind is loaded and nothing more changes |
| `ChangeLoop.UnsupportedKindAsymmetry` | crates/server/src/watcher/mod.rs:99-137 | an unsupported-kind load error is skipped by the initial pass but ends the steady loop with Backend |
| `ChangeLoop.IgnorableSets` | crates/server/src/watcher/mod.rs:99-130 | the errors the initial pass skips are the steady loop's ignorable errors plus the unsupported-kind error |
| `ChangeLoop.StepStreamClosed` | crates/server/src/watcher/mod.rs:111 | a closed notification stream ends the loop with SubscriberClosed and changes nothing else |
| `ChangeLoop.StepDiscardsUnwatched` | crates/server/src/watcher/mod.rs:113 | with the flag off, or for a kind outside the watch set, a notification causes no load, publishes nothing and leaves the cache as it was |
| `ChangeLoop.StepFiltersSmallContent` | crates/server/src/watcher/mod.rs:116-124 | content not longer than filter_min_size is loaded and then neither cached nor published |
| `ChangeLoop.StepSuppressesDuplicate` | crates/server/src/watcher/mod.rs:117-121 | content identical to the cached content of its kind publishes nothing and leaves the cache unchanged |
| `ChangeLoop.StepPublishesChange` | crates/server/src/watcher/mod.rs:140-148 | new or changed content above the filter is cached for its kind, other kinds keep their entries, and exactly one entry (content, kind) is published; with no live receiver the loop ends with SendClipEntry after the cache was updated |
| `ChangeLoop.StepLoadError` | crates/server/src/watcher/mod.rs:126-137 | a load error leaves cache and published entries unchanged; the loop goes on iff the error is EmptyClipboard, MatchMime or UnknownContentType, and otherwise ends with Backend carrying that error |
| `ChangeLoop.StepFrame` | crates/server/src/watcher/mod.rs:110-150 | one iteration publishes at most one entry, for the notified kind with the loaded content; loads at most the notified kind; changes no other kind's cache entry and never removes one; after termination it changes nothing |
| `ChangeLoop.StepConsistent` | crates/server/src/watcher/mod.rs:110-150 | one iteration of the steady loop keeps the invariant |
| `ChangeLoop.RunConsistent` | crates/server/src/watcher/mod.rs:110-150 | any stretch of the steady loop keeps the invariant |
| `ChangeLoop.WatcherNeverPublishesSmallContent` | crates/server/src/watcher/mod.rs:84-150 | whatever the backend and the stream do, every cached value and every published entry is longer than filter_min_size, only watched kinds are ever loaded, and no entry repeats the last content published for its kind |
| `ChangeLoop.RunHaltedPrefix` | crates/server/src/watcher/mod.rs:110-150 | once the loop has returned an error, later notifications change nothing |
| `ChangeLoop.RunExtendsPublished` | crates/server/src/watcher/mod.rs:110-150 | published entries only grow by appending, by at most one entry per notification |
| `ChangeLoop.RunWhileDisabled` | crates/server/src/watcher/mod.rs:113 | while the flag is off, any number of notifications leave the loop's whole state unchanged |
| `ChangeLoop.RunOnUnwatchedKinds` | crates/server/src/watcher/mod.rs:113 | notifications for kinds outside the watch set leave the loop's whole state unchanged, whatever the flag |
| `ChangeLoop.ResumeAfterPause` | crates/server/src/watcher/mod.rs:110-113 | after a pause, the next notification with the flag on is handled exactly as it would have been before the pause |
| `ChangeLoop.RunRepeatsSuppressed` | crates/server/src/watcher/mod.rs:117-121 | once content is cached for a kind, any number of notifications that reload the same content publish nothing and leave the cache and the exit status unchanged |
| `Watcher.ClipboardWatcher.constructor` | crates/server/src/watcher/mod.rs:47-108 | a new watcher has the flag on and its loop state is what the load_current pass (or its absence) produces; the object invariant holds |
| `Watcher.ClipboardWatcher.StartLoop` | crates/server/src/watcher/mod.rs:84-108 | on the object's fields, running the load_current pass only when the options ask for it leaves exactly the state Start gives, and keeps the invariant |
| `Watcher.ClipboardWatcher.LoadCurrent` | crates/server/src/watcher/mod.rs:84-108 | the loop over the watched kinds, stopping at the first error, leaves the state the initial pass function gives and keeps the invariant |
| `Watcher.ClipboardWatcher.LoadKind` | crates/server/src/watcher/mod.rs:87-106 | one iteration of that loop on the object's fields leaves exactly the state LoadOne gives |
| `Watcher.ClipboardWatcher.Next` | crates/server/src/watcher/mod.rs:111-149 | one iteration on the object's fields leaves exactly the state that Step gives and keeps the invariant; the flag is not changed |
| `Watcher.ClipboardWatcher.Watch` | crates/server/src/watcher/mod.rs:110-150 | the loop over a stretch of the stream, returning once the loop has stopped, leaves exactly the state that Run gives |
| `Watcher.ClipboardWatcher.Enable` | crates/server/src/watcher/mod.rs:161-164 | the flag is on afterwards whatever it was before (idempotent), and nothing else changes |
| `Watcher.ClipboardWatcher.Disable` | crates/server/src/watcher/mod.rs:167-170 | the flag is off afterwards whatever it was before (idempotent), and nothing else changes |
| `Watcher.ClipboardWatcher.Toggle` | crates/server/src/watcher/mod.rs:173-179 | the flag is negated, and nothing else changes |
| `Watcher.ClipboardWatcher.State` | crates/server/src/watcher/mod.rs:185-191 | the state is Enabled iff the watcher is watching, and Disabled iff it is not |

## Left out

- The background task (`tokio::task::spawn`) and its join handle: the loop runs sequentially, driven by the caller. Concurrency between the control surface and the loop is reduced to interleaving `Enable`/`Disable`/`Toggle` between calls of `Next`. The flag stays fixed for the length of one `Watch` call.
- Atomic orderings on the flag (`Relaxed`, `Acquire`, `Release`): a plain boolean field suffices without concurrency.
- The broadcast channel: its capacity of 16, lagging receivers and `subscribe()`. Sending is appending to `published`; whether a send fails for want of a live receiver is given by the script, send by send.
- The backend (`ClipboardBackend`, its `load` and `subscribe`): replaced by the scripted `Snapshot` and `Event` values. The construction-time failure of `backend.subscribe()` (line 82) is not modelled; the model's constructor always succeeds.
- The backend's error type is not part of this model: errors other than the four named ones are `Other`, and the fields of `MatchMime` and `UnsupportedClipboardKind` other than the kind are dropped.
- `ClipEntry::from_clipboard_content` comes from another crate: an entry is only (content, kind), without timestamp or id. Content is a byte sequence; its length stands for the content's `len()`.
- Logging through `tracing` (lines 69, 94, 132, 146, 163, 169): side effects only.
- `Watcher.ClipboardWatcher.IsWatching`: a plain read of the flag with no contract of its own. `State` and `Toggle` state what it returns.
