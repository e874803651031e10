/** The watcher object: its on/off flag and control surface, and the change
    loop run step by step on the object's own state, each operation proved
    against the state machine in ChangeLoop. */
module Watcher {
  import opened Types
  import opened ChangeLoop

  /** The watch set, built by appending the enabled kinds one by one. */
  method EnabledKinds(o: Options) returns (kinds: seq<ClipboardKind>)
    ensures kinds == WatchSet(o)
  {
    kinds := [];
    if o.enableClipboard {
      kinds := kinds + [Clipboard];
    }
    if o.enablePrimary {
      kinds := kinds + [Primary];
    }
  }

  class ClipboardWatcher {
    const options: Options
    const enabledKinds: seq<ClipboardKind>

    /** The on/off flag shared by the control surface and the loop. */
    var watching: bool

    // The state owned by the background task.
    var currentData: map<ClipboardKind, Content>
    var published: seq<ClipEntry>
    var loads: seq<ClipboardKind>
    var exit: Option<Error>

    function Loop(): LoopState
      reads this
    {
      LoopState(currentData, published, loads, exit)
    }

    ghost predicate Valid()
      reads this
    {
      enabledKinds == WatchSet(options) && Consistent(Loop(), options)
    }

    /** Build the watcher with the flag on, then run the load_current pass if
        the options ask for it. */
    constructor (opts: Options, snapshot: Snapshot)
      ensures Valid()
      ensures options == opts && watching
      ensures Loop() == Start(opts, snapshot)
    {
      var kinds := EnabledKinds(opts);
      options := opts;
      enabledKinds := kinds;
      watching := true;
      currentData, published, loads, exit := map[], [], [], None;
      new;
      StartLoop(snapshot);
    }

    /** Run the load_current pass if the options ask for it. */
    method StartLoop(snapshot: Snapshot)
      requires enabledKinds == WatchSet(options) && Loop() == Fresh
      modifies this`currentData, this`published, this`loads, this`exit
      ensures Valid()
      ensures Loop() == Start(options, snapshot)
    {
      if options.loadCurrent {
        LoadCurrent(snapshot);
      } else {
        StartConsistent(options, snapshot);
      }
    }

    /** The load_current pass: load each watched kind once, cache and publish
        what passes the filter, skip the ignorable errors, stop on any other. */
    method LoadCurrent(snapshot: Snapshot)
      requires enabledKinds == WatchSet(options) && Loop() == Fresh
      modifies this`currentData, this`published, this`loads, this`exit
      ensures Valid()
      ensures Loop() == InitialLoad(Fresh, options, snapshot, enabledKinds)
    {
      // The source returns from inside the loop on the first error; here the
      // loop condition stops at that point.
      var i := 0;
      while i < |enabledKinds| && exit.None?
        invariant i <= |enabledKinds|
        invariant Loop() == InitialLoad(Fresh, options, snapshot, enabledKinds[..i])
      {
        LoadKind(snapshot, enabledKinds[i]);
        assert Loop() == InitialLoad(Fresh, options, snapshot, enabledKinds[..i + 1]) by {
          InitialLoadSnoc(Fresh, options, snapshot, enabledKinds, i);
        }
        i := i + 1;
      }
      assert Loop() == InitialLoad(Fresh, options, snapshot, enabledKinds) by {
        if i < |enabledKinds| {
          InitialLoadHaltedPrefix(Fresh, options, snapshot, enabledKinds, i);
        } else {
          assert enabledKinds[..i] == enabledKinds;
        }
      }
      assert Consistent(Loop(), options) by {
        PassConsistent(options, snapshot);
      }
    }

    /** One iteration of the load_current pass, for `kind`. */
    method LoadKind(snapshot: Snapshot, kind: ClipboardKind)
      requires exit.None?
      modifies this`currentData, this`published, this`loads, this`exit
      ensures Loop() == LoadOne(old(Loop()), options, snapshot, kind)
    {
      loads := loads + [kind];
      match snapshot.Load(kind)
      case Loaded(data) =>
        if |data| > options.filterMinSize {
          currentData := currentData[kind := data];
          if snapshot.ReceiversLive(kind) {
            published := published + [ClipEntry(data, kind)];
          } else {
            exit := Some(SendClipEntry);
          }
        }
      case LoadFailed(e) =>
        if !IgnorableOnLoadCurrent(e) {
          exit := Some(Backend(e));
        }
    }

    /** One iteration of the steady-state loop, on notification `ev`. */
    method Next(ev: Event)
      requires Valid()
      modifies this`currentData, this`published, this`loads, this`exit
      ensures Valid()
      ensures Loop() == Step(old(Loop()), options, watching, ev)
    {
      StepConsistent(Loop(), options, watching, ev);
      if exit.Some? {
        return;
      }
      match ev
      case StreamClosed =>
        exit := Some(SubscriberClosed);
      case Notify(kind, result, receiversLive) =>
        if watching && kind in enabledKinds {
          match result
          case LoadFailed(e) =>
            loads := loads + [kind];
            if !IgnorableOnChange(e) {
              exit := Some(Backend(e));
            }
          case Loaded(data) =>
            loads := loads + [kind];
            if |data| > options.filterMinSize && (kind !in currentData || currentData[kind] != data) {
              currentData := currentData[kind := data];
              if receiversLive {
                published := published + [ClipEntry(data, kind)];
              } else {
                exit := Some(SendClipEntry);
              }
            }
        }
    }

    /** The steady-state loop over the scripted stream `events`, returning
        early once the loop has stopped. */
    method Watch(events: seq<Event>)
      requires Valid()
      modifies this`currentData, this`published, this`loads, this`exit
      ensures Valid()
      ensures Loop() == Run(old(Loop()), options, watching, events)
    {
      var i := 0;
      while i < |events|
        invariant i <= |events|
        invariant Valid()
        invariant Loop() == Run(old(Loop()), options, watching, events[..i])
      {
        if exit.Some? {
          RunHaltedPrefix(old(Loop()), options, watching, events, i);
          return;
        }
        Next(events[i]);
        RunSnoc(old(Loop()), options, watching, events, i);
        i := i + 1;
      }
      assert events[..i] == events;
    }

    method Enable()
      requires Valid()
      modifies this`watching
      ensures Valid() && watching
    {
      watching := true;
    }

    method Disable()
      requires Valid()
      modifies this`watching
      ensures Valid() && !watching
    {
      watching := false;
    }

    method Toggle()
      requires Valid()
      modifies this`watching
      ensures Valid() && watching == !old(watching)
    {
      if IsWatching() {
        Disable();
      } else {
        Enable();
      }
    }

    function IsWatching(): bool
      reads this
    {
      watching
    }

    function State(): (st: WatcherState)
      reads this
      ensures st == Enabled <==> IsWatching()
      ensures st == Disabled <==> !IsWatching()
    {
      if IsWatching() then Enabled else Disabled
    }
  }

  /** A watcher on the system clipboard only, published to by one live
      receiver: the content present at start is published once, reloads of
      the same content are suppressed, new content is published, and a
      notification taken while paused leaves the cache untouched, so the same
      content is published once the watcher is resumed. */
  method PauseResumeScenario()
  {
    var hello: Content := [104, 101, 108, 108, 111];
    var world: Content := [119, 111, 114, 108, 100];
    var xyz: Content := [120, 121, 122];
    var opts := Options(loadCurrent := true, enableClipboard := true, enablePrimary := false, filterMinSize := 1);
    assert WatchSet(opts) == [Clipboard];
    var w := new ClipboardWatcher(opts, Snapshot(Loaded(hello), LoadFailed(EmptyClipboard), true, true));
    assert w.published == [ClipEntry(hello, Clipboard)] && w.currentData == map[Clipboard := hello];

    StepSuppressesDuplicate(w.Loop(), opts, Clipboard, hello, true);
    w.Next(Notify(Clipboard, Loaded(hello), true));
    StepSuppressesDuplicate(w.Loop(), opts, Clipboard, hello, true);
    w.Next(Notify(Clipboard, Loaded(hello), true));
    assert w.published == [ClipEntry(hello, Clipboard)];

    StepPublishesChange(w.Loop(), opts, Clipboard, world, true);
    w.Next(Notify(Clipboard, Loaded(world), true));
    assert w.published == [ClipEntry(hello, Clipboard), ClipEntry(world, Clipboard)];

    w.Disable();
    assert w.State() == Disabled;
    StepDiscardsUnwatched(w.Loop(), opts, false, Clipboard, Loaded(xyz), true);
    w.Next(Notify(Clipboard, Loaded(xyz), true));
    assert w.published == [ClipEntry(hello, Clipboard), ClipEntry(world, Clipboard)];
    assert w.currentData[Clipboard] == world;

    w.Enable();
    StepPublishesChange(w.Loop(), opts, Clipboard, xyz, true);
    w.Next(Notify(Clipboard, Loaded(xyz), true));
    assert w.published == [ClipEntry(hello, Clipboard), ClipEntry(world, Clipboard), ClipEntry(xyz, Clipboard)];
    assert w.exit == None;
  }
}
