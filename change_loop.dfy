/** The change loop of the clipboard watcher as a pure state machine: the
    watch set, the load_current pass, one iteration of the steady-state loop,
    and a run of that loop over a scripted notification stream, together with
    the properties the watcher promises about them. */
module ChangeLoop {
  import opened Types

  function DefaultOptions(): (o: Options)
    ensures o.loadCurrent && o.enableClipboard && o.enablePrimary
    ensures o.filterMinSize == 1
    ensures WatchSet(o) == [Clipboard, Primary]
  {
    Options(loadCurrent := true, enableClipboard := true, enablePrimary := true, filterMinSize := 1)
  }

  /** The kinds a watcher with options `o` monitors, in the order it loads them. */
  function WatchSet(o: Options): (kinds: seq<ClipboardKind>)
    ensures Clipboard in kinds <==> o.enableClipboard
    ensures Primary in kinds <==> o.enablePrimary
    ensures kinds == [] <==> !o.enableClipboard && !o.enablePrimary
    ensures |kinds| == 2 ==> kinds == [Clipboard, Primary]
    ensures forall i, j | 0 <= i < j < |kinds| :: kinds[i] != kinds[j]
  {
    (if o.enableClipboard then [Clipboard] else []) + (if o.enablePrimary then [Primary] else [])
  }

  /** Backend errors the load_current pass skips. */
  function IgnorableOnLoadCurrent(e: BackendError): (ignorable: bool)
    ensures ignorable <==> !e.Other?
  {
    e.EmptyClipboard? || e.MatchMime? || e.UnknownContentType? || e.UnsupportedClipboardKind?
  }

  /** Backend errors the steady-state loop skips: an unsupported kind is not
      among them. */
  function IgnorableOnChange(e: BackendError): (ignorable: bool)
    ensures ignorable <==> !e.Other? && !e.UnsupportedClipboardKind?
  {
    e.EmptyClipboard? || e.MatchMime? || e.UnknownContentType?
  }

  /** The state owned by the background task: the dedup cache, everything sent
      on the broadcast channel so far, the kinds loaded from the backend so far
      (in order), and the error the task returned, once it has.  */
  datatype LoopState = LoopState(
    cache: map<ClipboardKind, Content>,
    published: seq<ClipEntry>,
    loads: seq<ClipboardKind>,
    exit: Option<Error>)
  {
    predicate Running() { exit.None? }
  }

  const Fresh := LoopState(map[], [], [], None)

  /** Record `data` for `kind` in the cache, then send it; a send with no live
      receiver ends the loop with the cache already updated. */
  function Publish(s: LoopState, kind: ClipboardKind, data: Content, receiversLive: bool): (r: LoopState)
    ensures kind in r.cache && r.cache[kind] == data
    ensures forall k | k != kind :: (k in r.cache <==> k in s.cache) && (k in s.cache ==> r.cache[k] == s.cache[k])
    ensures r.loads == s.loads
    ensures r.published == s.published || r.published == s.published + [ClipEntry(data, kind)]
    ensures r.Running() <==> s.Running() && receiversLive
  {
    var cached := s.(cache := s.cache[kind := data]);
    if receiversLive then cached.(published := s.published + [ClipEntry(data, kind)])
    else cached.(exit := Some(SendClipEntry))
  }

  /** One iteration of the load_current pass, for `kind`. */
  function LoadOne(s: LoopState, o: Options, snapshot: Snapshot, kind: ClipboardKind): (r: LoopState)
    ensures !s.Running() ==> r == s
    ensures s.Running() ==> r.loads == s.loads + [kind]
    ensures r.published == s.published || r.published == s.published + Captured(o, snapshot, kind)
    ensures r.exit != Some(SubscriberClosed) || s.exit == Some(SubscriberClosed)
  {
    if !s.Running() then s
    else
      var loaded := s.(loads := s.loads + [kind]);
      match snapshot.Load(kind)
      case Loaded(data) =>
        if |data| > o.filterMinSize then Publish(loaded, kind, data, snapshot.ReceiversLive(kind)) else loaded
      case LoadFailed(e) =>
        if IgnorableOnLoadCurrent(e) then loaded else loaded.(exit := Some(Backend(e)))
  }

  /** The load_current pass over `kinds`, from state `s`. */
  function InitialLoad(s: LoopState, o: Options, snapshot: Snapshot, kinds: seq<ClipboardKind>): (r: LoopState)
    ensures !s.Running() ==> r == s
    ensures s.published <= r.published && |r.published| <= |s.published| + |kinds|
    ensures s.loads <= r.loads && |r.loads| <= |s.loads| + |kinds|
    decreases |kinds|
  {
    if kinds == [] then s
    else LoadOne(InitialLoad(s, o, snapshot, kinds[..|kinds| - 1]), o, snapshot, kinds[|kinds| - 1])
  }

  /** The state the background task is in when it first waits for a notification. */
  function Start(o: Options, snapshot: Snapshot): (r: LoopState)
    ensures |r.published| <= |WatchSet(o)| && |r.loads| <= |WatchSet(o)|
  {
    if o.loadCurrent then InitialLoad(Fresh, o, snapshot, WatchSet(o)) else Fresh
  }

  /** One iteration of the steady-state loop: take `ev` from the stream while
      the on/off flag reads `watching`. */
  function Step(s: LoopState, o: Options, watching: bool, ev: Event): (r: LoopState)
    ensures !s.Running() ==> r == s
    ensures s.published <= r.published && |r.published| <= |s.published| + 1
    ensures s.Running() && !r.Running() ==> ev.StreamClosed? || (watching && ev.kind in WatchSet(o))
  {
    if !s.Running() then s
    else
      match ev
      case StreamClosed => s.(exit := Some(SubscriberClosed))
      case Notify(kind, result, receiversLive) =>
        if !(watching && kind in WatchSet(o)) then s
        else
          var loaded := s.(loads := s.loads + [kind]);
          match result
          case LoadFailed(e) =>
            if IgnorableOnChange(e) then loaded else loaded.(exit := Some(Backend(e)))
          case Loaded(data) =>
            if |data| <= o.filterMinSize then loaded
            else if kind in s.cache && s.cache[kind] == data then loaded
            else Publish(loaded, kind, data, receiversLive)
  }

  /** The steady-state loop over the prefix `events` of the stream, with the
      flag constant throughout. */
  function Run(s: LoopState, o: Options, watching: bool, events: seq<Event>): (r: LoopState)
    ensures !s.Running() ==> r == s
    ensures r.Running() ==> s.Running()
    decreases |events|
  {
    if events == [] then s
    else Step(Run(s, o, watching, events[..|events| - 1]), o, watching, events[|events| - 1])
  }

  // ---------------------------------------------------------------------
  // The invariant the loop keeps

  /** For each kind, the content most recently published for it. */
  function Latest(published: seq<ClipEntry>): (m: map<ClipboardKind, Content>)
    decreases |published|
  {
    if published == [] then map[]
    else
      var last := published[|published| - 1];
      Latest(published[..|published| - 1])[last.kind := last.content]
  }

  /** No entry repeats the content last published for its kind. */
  ghost predicate NoRepeats(published: seq<ClipEntry>) {
    forall i | 0 <= i < |published| ::
      published[i].kind in Latest(published[..i]) ==> Latest(published[..i])[published[i].kind] != published[i].content
  }

  /** Every cached and every published content is longer than `minSize`. */
  ghost predicate AboveFilter(s: LoopState, minSize: nat) {
    && (forall k | k in s.cache :: |s.cache[k]| > minSize)
    && (forall i | 0 <= i < |s.published| :: |s.published[i].content| > minSize)
  }

  /** Every kind loaded so far is one of `kinds`. */
  ghost predicate LoadsWatched(s: LoopState, kinds: seq<ClipboardKind>) {
    forall i | 0 <= i < |s.loads| :: s.loads[i] in kinds
  }

  /** Nothing at or below the size filter is cached or published, only watched
      kinds are ever loaded, no entry repeats its kind's previous content, and
      while the loop runs the cache holds exactly the last published content
      of each kind. */
  ghost predicate Consistent(s: LoopState, o: Options) {
    && AboveFilter(s, o.filterMinSize)
    && LoadsWatched(s, WatchSet(o))
    && NoRepeats(s.published)
    && (s.Running() ==> s.cache == Latest(s.published))
  }

  lemma LatestAppend(p: seq<ClipEntry>, e: ClipEntry)
    ensures Latest(p + [e]) == Latest(p)[e.kind := e.content]
  {
    assert (p + [e])[..|p|] == p;
  }

  lemma NoRepeatsAppend(p: seq<ClipEntry>, e: ClipEntry)
    requires NoRepeats(p)
    requires e.kind in Latest(p) ==> Latest(p)[e.kind] != e.content
    ensures NoRepeats(p + [e])
  {
    var q := p + [e];
    forall i | 0 <= i < |q|
      ensures q[i].kind in Latest(q[..i]) ==> Latest(q[..i])[q[i].kind] != q[i].content
    {
      if i < |p| {
        assert q[..i] == p[..i];
      } else {
        assert q[..i] == p;
      }
    }
  }

  lemma PublishConsistent(s: LoopState, o: Options, kind: ClipboardKind, data: Content, receiversLive: bool)
    requires Consistent(s, o) && s.Running()
    requires |data| > o.filterMinSize
    requires kind in s.cache ==> s.cache[kind] != data
    ensures Consistent(Publish(s, kind, data, receiversLive), o)
  {
    if receiversLive {
      var e := ClipEntry(data, kind);
      LatestAppend(s.published, e);
      NoRepeatsAppend(s.published, e);
    }
  }

  lemma LoadOneConsistent(s: LoopState, o: Options, snapshot: Snapshot, kind: ClipboardKind)
    requires Consistent(s, o)
    requires kind in WatchSet(o) && kind !in s.cache
    ensures Consistent(LoadOne(s, o, snapshot, kind), o)
    ensures LoadOne(s, o, snapshot, kind).cache.Keys <= s.cache.Keys + {kind}
  {
    if s.Running() {
      var loaded := s.(loads := s.loads + [kind]);
      assert Consistent(loaded, o);
      if snapshot.Load(kind).Loaded? && |snapshot.Load(kind).data| > o.filterMinSize {
        PublishConsistent(loaded, o, kind, snapshot.Load(kind).data, snapshot.ReceiversLive(kind));
      }
    }
  }

  /** The load_current pass keeps the invariant, provided it visits watched
      kinds, each at most once and none already cached. */
  lemma {:induction false} InitialLoadConsistent(s: LoopState, o: Options, snapshot: Snapshot, kinds: seq<ClipboardKind>)
    requires Consistent(s, o)
    requires forall i | 0 <= i < |kinds| :: kinds[i] in WatchSet(o) && kinds[i] !in s.cache
    requires forall i, j | 0 <= i < j < |kinds| :: kinds[i] != kinds[j]
    ensures Consistent(InitialLoad(s, o, snapshot, kinds), o)
    ensures forall k | k in InitialLoad(s, o, snapshot, kinds).cache :: k in s.cache || k in kinds
    decreases |kinds|
  {
    if kinds != [] {
      var n := |kinds| - 1;
      var prefix := kinds[..n];
      InitialLoadConsistent(s, o, snapshot, prefix);
      var before := InitialLoad(s, o, snapshot, prefix);
      var last := kinds[n];
      assert last !in prefix by {
        assert forall j | 0 <= j < n :: prefix[j] == kinds[j] != kinds[n];
      }
      LoadOneConsistent(before, o, snapshot, last);
    }
  }

  /** The full load_current pass from a fresh state keeps the invariant. */
  lemma PassConsistent(o: Options, snapshot: Snapshot)
    ensures Consistent(InitialLoad(Fresh, o, snapshot, WatchSet(o)), o)
  {
    InitialLoadConsistent(Fresh, o, snapshot, WatchSet(o));
  }

  lemma StartConsistent(o: Options, snapshot: Snapshot)
    ensures Consistent(Start(o, snapshot), o)
  {
    if o.loadCurrent {
      PassConsistent(o, snapshot);
    }
  }

  lemma StepConsistent(s: LoopState, o: Options, watching: bool, ev: Event)
    requires Consistent(s, o)
    ensures Consistent(Step(s, o, watching, ev), o)
  {
    if s.Running() && ev.Notify? && watching && ev.kind in WatchSet(o) {
      var loaded := s.(loads := s.loads + [ev.kind]);
      assert Consistent(loaded, o);
      match ev.load
      case LoadFailed(_) =>
      case Loaded(data) =>
        if |data| > o.filterMinSize && !(ev.kind in s.cache && s.cache[ev.kind] == data) {
          PublishConsistent(loaded, o, ev.kind, data, ev.receiversLive);
        }
    }
  }

  lemma {:induction false} RunConsistent(s: LoopState, o: Options, watching: bool, events: seq<Event>)
    requires Consistent(s, o)
    ensures Consistent(Run(s, o, watching, events), o)
    decreases |events|
  {
    if events != [] {
      var n := |events| - 1;
      RunConsistent(s, o, watching, events[..n]);
      StepConsistent(Run(s, o, watching, events[..n]), o, watching, events[n]);
    }
  }

  /** Whatever the backend and the stream do, everything the watcher ever
      caches or publishes is longer than the size filter, every kind it ever
      loads is watched, and no published entry repeats the content last
      published for its kind. */
  lemma WatcherNeverPublishesSmallContent(o: Options, snapshot: Snapshot, watching: bool, events: seq<Event>)
    ensures var s := Run(Start(o, snapshot), o, watching, events);
      AboveFilter(s, o.filterMinSize) && LoadsWatched(s, WatchSet(o)) && NoRepeats(s.published)
  {
    StartConsistent(o, snapshot);
    RunConsistent(Start(o, snapshot), o, watching, events);
  }

  // ---------------------------------------------------------------------
  // The load_current pass

  lemma NoLoadCurrentPublishesNothing(o: Options, snapshot: Snapshot)
    requires !o.loadCurrent
    ensures Start(o, snapshot) == Fresh
  {
  }

  /** The entry the initial pass publishes for `kind`, if its content passes
      the filter. */
  function Captured(o: Options, snapshot: Snapshot, kind: ClipboardKind): seq<ClipEntry> {
    match snapshot.Load(kind)
    case Loaded(data) => if |data| > o.filterMinSize then [ClipEntry(data, kind)] else []
    case LoadFailed(_) => []
  }

  /** Reference definition of what a completed initial pass over `kinds`
      publishes: the captured entries, in the order of `kinds`. */
  function PassEntries(o: Options, snapshot: Snapshot, kinds: seq<ClipboardKind>): seq<ClipEntry>
    decreases |kinds|
  {
    if kinds == [] then [] else Captured(o, snapshot, kinds[0]) + PassEntries(o, snapshot, kinds[1..])
  }

  lemma {:induction false} PassEntriesSnoc(o: Options, snapshot: Snapshot, kinds: seq<ClipboardKind>, kind: ClipboardKind)
    ensures PassEntries(o, snapshot, kinds + [kind]) == PassEntries(o, snapshot, kinds) + Captured(o, snapshot, kind)
    decreases |kinds|
  {
    if kinds == [] {
      assert [kind][1..] == [];
    } else {
      assert (kinds + [kind])[1..] == kinds[1..] + [kind];
      PassEntriesSnoc(o, snapshot, kinds[1..], kind);
    }
  }

  /** Whether loading `kind` during the initial pass lets the pass go on. */
  predicate Survives(o: Options, snapshot: Snapshot, kind: ClipboardKind) {
    match snapshot.Load(kind)
    case Loaded(data) => |data| > o.filterMinSize ==> snapshot.ReceiversLive(kind)
    case LoadFailed(e) => IgnorableOnLoadCurrent(e)
  }

  /** The error with which the initial pass stops on a load that does not
      survive. */
  function FailureExit(r: LoadResult): Error {
    match r
    case LoadFailed(e) => Backend(e)
    case Loaded(_) => SendClipEntry
  }

  /** One load of the initial pass: it goes on exactly when the load
      survives, and then it has loaded `kind`, cached and published its
      content if that passes the filter, and nothing else. A non-ignorable
      error stops it with Backend and that error, publishing nothing; a failed
      send stops it with SendClipEntry, the cache already updated. */
  lemma LoadOneOutcome(s: LoopState, o: Options, snapshot: Snapshot, kind: ClipboardKind)
    requires s.Running()
    ensures var r := LoadOne(s, o, snapshot, kind);
      && (r.Running() <==> Survives(o, snapshot, kind))
      && r.loads == s.loads + [kind]
      && (r.Running() ==> r.published == s.published + Captured(o, snapshot, kind))
      && (r.Running() ==> r.cache == if Captured(o, snapshot, kind) != []
                                     then s.cache[kind := snapshot.Load(kind).data] else s.cache)
      && (!r.Running() ==> r.exit == Some(FailureExit(snapshot.Load(kind))) && r.published == s.published)
      && (snapshot.Load(kind).LoadFailed? && !IgnorableOnLoadCurrent(snapshot.Load(kind).error) ==>
            r.exit == Some(Backend(snapshot.Load(kind).error)) && r.cache == s.cache)
      && (Captured(o, snapshot, kind) != [] && !snapshot.ReceiversLive(kind) ==>
            r.exit == Some(SendClipEntry) && r.cache == s.cache[kind := snapshot.Load(kind).data])
  {
  }

  /** The pass finishes exactly when every kind's load survives. */
  lemma {:induction false} InitialLoadRuns(s: LoopState, o: Options, snapshot: Snapshot, kinds: seq<ClipboardKind>)
    requires s.Running()
    ensures InitialLoad(s, o, snapshot, kinds).Running() <==> forall i | 0 <= i < |kinds| :: Survives(o, snapshot, kinds[i])
    decreases |kinds|
  {
    if kinds != [] {
      var n := |kinds| - 1;
      var prefix, last := kinds[..n], kinds[n];
      InitialLoadRuns(s, o, snapshot, prefix);
      var before := InitialLoad(s, o, snapshot, prefix);
      if before.Running() {
        assert LoadOne(before, o, snapshot, last).Running() <==> Survives(o, snapshot, last) by {
          LoadOneOutcome(before, o, snapshot, last);
        }
        assert forall i | 0 <= i < n :: prefix[i] == kinds[i];
      } else {
        var j :| 0 <= j < n && !Survives(o, snapshot, prefix[j]);
        assert !Survives(o, snapshot, kinds[j]);
      }
    }
  }

  /** When the pass finishes, every kind was loaded once, in order, and
      exactly the captured entries were published, in that order. */
  lemma {:induction false} InitialLoadCompletes(s: LoopState, o: Options, snapshot: Snapshot, kinds: seq<ClipboardKind>)
    requires s.Running()
    ensures var r := InitialLoad(s, o, snapshot, kinds);
      r.Running() ==> r.loads == s.loads + kinds && r.published == s.published + PassEntries(o, snapshot, kinds)
    decreases |kinds|
  {
    if kinds != [] {
      var n := |kinds| - 1;
      var prefix, last := kinds[..n], kinds[n];
      InitialLoadCompletes(s, o, snapshot, prefix);
      assert prefix + [last] == kinds;
      var before := InitialLoad(s, o, snapshot, prefix);
      if before.Running() {
        var r := LoadOne(before, o, snapshot, last);
        assert r.Running() ==> r.loads == before.loads + [last] && r.published == before.published + Captured(o, snapshot, last) by {
          LoadOneOutcome(before, o, snapshot, last);
        }
        PassEntriesSnoc(o, snapshot, prefix, last);
      }
    }
  }

  /** When the pass finishes, every visited kind whose content passes the
      filter is cached with that content. */
  lemma {:induction false} InitialLoadCaches(s: LoopState, o: Options, snapshot: Snapshot, kinds: seq<ClipboardKind>)
    requires s.Running()
    ensures var r := InitialLoad(s, o, snapshot, kinds);
      r.Running() ==> forall i | 0 <= i < |kinds| && Captured(o, snapshot, kinds[i]) != [] ::
        kinds[i] in r.cache && r.cache[kinds[i]] == snapshot.Load(kinds[i]).data
    decreases |kinds|
  {
    if kinds != [] {
      var n := |kinds| - 1;
      var prefix := kinds[..n];
      InitialLoadCaches(s, o, snapshot, prefix);
      var before := InitialLoad(s, o, snapshot, prefix);
      if before.Running() {
        LoadOneOutcome(before, o, snapshot, kinds[n]);
        assert forall i | 0 <= i < n :: prefix[i] == kinds[i];
      }
    }
  }

  /** When the pass stops, the error is a non-ignorable load error of some
      visited kind, or a failed send of some visited kind's entry; never a
      closed stream. */
  lemma {:induction false} InitialLoadExit(s: LoopState, o: Options, snapshot: Snapshot, kinds: seq<ClipboardKind>)
    requires s.Running()
    ensures var r := InitialLoad(s, o, snapshot, kinds);
      && (forall e | r.exit == Some(Backend(e)) :: exists i | 0 <= i < |kinds| :: snapshot.Load(kinds[i]) == LoadFailed(e) && !IgnorableOnLoadCurrent(e))
      && (r.exit == Some(SendClipEntry) ==> exists i | 0 <= i < |kinds| :: Captured(o, snapshot, kinds[i]) != [] && !snapshot.ReceiversLive(kinds[i]))
      && r.exit != Some(SubscriberClosed)
    decreases |kinds|
  {
    if kinds != [] {
      var n := |kinds| - 1;
      var prefix := kinds[..n];
      InitialLoadExit(s, o, snapshot, prefix);
      assert forall i | 0 <= i < n :: prefix[i] == kinds[i];
    }
  }

  lemma InitialLoadSnoc(s: LoopState, o: Options, snapshot: Snapshot, kinds: seq<ClipboardKind>, i: nat)
    requires i < |kinds|
    ensures InitialLoad(s, o, snapshot, kinds[..i + 1]) == LoadOne(InitialLoad(s, o, snapshot, kinds[..i]), o, snapshot, kinds[i])
  {
    assert kinds[..i + 1][..i] == kinds[..i];
  }

  /** Once the pass has stopped, the kinds after that point are not loaded. */
  lemma {:induction false} InitialLoadHaltedPrefix(s: LoopState, o: Options, snapshot: Snapshot, kinds: seq<ClipboardKind>, i: nat)
    requires i <= |kinds|
    requires !InitialLoad(s, o, snapshot, kinds[..i]).Running()
    ensures InitialLoad(s, o, snapshot, kinds) == InitialLoad(s, o, snapshot, kinds[..i])
    decreases |kinds|
  {
    if i < |kinds| {
      var n := |kinds| - 1;
      assert kinds[..n][..i] == kinds[..i];
      InitialLoadHaltedPrefix(s, o, snapshot, kinds[..n], i);
    } else {
      assert kinds[..i] == kinds;
    }
  }

  /** The pass stops at the first kind whose load does not survive, with the
      error that load gives: everything before it was published, nothing
      after it was loaded. */
  lemma InitialLoadStopsAtFirstFailure(s: LoopState, o: Options, snapshot: Snapshot, kinds: seq<ClipboardKind>, i: nat)
    requires s.Running() && i < |kinds|
    requires forall j | 0 <= j < i :: Survives(o, snapshot, kinds[j])
    requires !Survives(o, snapshot, kinds[i])
    ensures var r := InitialLoad(s, o, snapshot, kinds);
      && r.exit == Some(FailureExit(snapshot.Load(kinds[i])))
      && r.loads == s.loads + kinds[..i + 1]
      && r.published == s.published + PassEntries(o, snapshot, kinds[..i])
  {
    var prefix := kinds[..i];
    var before := InitialLoad(s, o, snapshot, prefix);
    assert before.Running() && before.loads == s.loads + prefix && before.published == s.published + PassEntries(o, snapshot, prefix) by {
      assert forall j | 0 <= j < i :: prefix[j] == kinds[j];
      InitialLoadRuns(s, o, snapshot, prefix);
      InitialLoadCompletes(s, o, snapshot, prefix);
    }
    var after := LoadOne(before, o, snapshot, kinds[i]);
    assert after.exit == Some(FailureExit(snapshot.Load(kinds[i]))) && after.loads == before.loads + [kinds[i]] && after.published == before.published by {
      LoadOneOutcome(before, o, snapshot, kinds[i]);
    }
    assert kinds[..i + 1] == prefix + [kinds[i]];
    InitialLoadSnoc(s, o, snapshot, kinds, i);
    InitialLoadHaltedPrefix(s, o, snapshot, kinds, i + 1);
  }

  /** On a kind the load_current pass visits, an unsupported-kind error is
      skipped; the same error in the steady-state loop ends it. */
  lemma UnsupportedKindAsymmetry(s: LoopState, o: Options, snapshot: Snapshot, kind: ClipboardKind, receiversLive: bool)
    requires s.Running() && kind in WatchSet(o)
    requires snapshot.Load(kind) == LoadFailed(UnsupportedClipboardKind(kind))
    ensures LoadOne(s, o, snapshot, kind).Running()
    ensures Step(s, o, true, Notify(kind, snapshot.Load(kind), receiversLive)).exit == Some(Backend(UnsupportedClipboardKind(kind)))
  {
  }

  /** The two ignorable sets differ exactly by the unsupported-kind error. */
  lemma IgnorableSets(e: BackendError)
    ensures IgnorableOnLoadCurrent(e) <==> IgnorableOnChange(e) || e.UnsupportedClipboardKind?
    ensures IgnorableOnChange(e) ==> IgnorableOnLoadCurrent(e)
  {
  }

  // ---------------------------------------------------------------------
  // One iteration of the steady-state loop

  /** A closed stream ends the loop with nothing else changed. */
  lemma StepStreamClosed(s: LoopState, o: Options, watching: bool)
    requires s.Running()
    ensures Step(s, o, watching, StreamClosed) == s.(exit := Some(SubscriberClosed))
  {
  }

  /** With the flag off, or for a kind outside the watch set, a notification
      is taken from the stream and nothing else happens: no load, no entry,
      no cache change. */
  lemma StepDiscardsUnwatched(s: LoopState, o: Options, watching: bool, kind: ClipboardKind, result: LoadResult, receiversLive: bool)
    requires !watching || kind !in WatchSet(o)
    ensures Step(s, o, watching, Notify(kind, result, receiversLive)) == s
  {
  }

  /** A step publishes at most one entry, for the notified kind with the
      loaded content, and touches no other kind's cache entry; it loads at
      most the notified kind. */
  lemma StepFrame(s: LoopState, o: Options, watching: bool, ev: Event)
    ensures var r := Step(s, o, watching, ev);
      && (r.published == s.published || (ev.Notify? && ev.load.Loaded? && r.published == s.published + [ClipEntry(ev.load.data, ev.kind)]))
      && (r.loads == s.loads || (ev.Notify? && r.loads == s.loads + [ev.kind]))
      && (forall k | k in s.cache :: k in r.cache)
      && (forall k | !ev.Notify? || k != ev.kind :: (k in r.cache <==> k in s.cache) && (k in s.cache ==> r.cache[k] == s.cache[k]))
      && (s.exit.Some? ==> r == s)
  {
  }

  /** A watched, enabled notification whose content is not above the size
      filter is loaded and otherwise dropped. */
  lemma StepFiltersSmallContent(s: LoopState, o: Options, kind: ClipboardKind, data: Content, receiversLive: bool)
    requires s.Running() && kind in WatchSet(o)
    requires |data| <= o.filterMinSize
    ensures Step(s, o, true, Notify(kind, Loaded(data), receiversLive)) == s.(loads := s.loads + [kind])
  {
  }

  /** Content identical to the cached content of its kind is loaded and
      otherwise dropped. */
  lemma StepSuppressesDuplicate(s: LoopState, o: Options, kind: ClipboardKind, data: Content, receiversLive: bool)
    requires s.Running() && kind in WatchSet(o)
    requires kind in s.cache && s.cache[kind] == data
    ensures Step(s, o, true, Notify(kind, Loaded(data), receiversLive)) == s.(loads := s.loads + [kind])
  {
  }

  /** New content above the filter is cached for its kind and published as
      exactly one entry; with no live receiver the loop ends with
      SendClipEntry, the cache already updated and nothing published. */
  lemma StepPublishesChange(s: LoopState, o: Options, kind: ClipboardKind, data: Content, receiversLive: bool)
    requires s.Running() && kind in WatchSet(o)
    requires |data| > o.filterMinSize
    requires kind !in s.cache || s.cache[kind] != data
    ensures var r := Step(s, o, true, Notify(kind, Loaded(data), receiversLive));
      && r.cache == s.cache[kind := data]
      && r.loads == s.loads + [kind]
      && (receiversLive ==> r.published == s.published + [ClipEntry(data, kind)] && r.Running())
      && (!receiversLive ==> r.published == s.published && r.exit == Some(SendClipEntry))
  {
  }

  /** A load error in the steady-state loop changes neither cache nor
      published entries; it is skipped when ignorable there and otherwise ends
      the loop with that error. */
  lemma StepLoadError(s: LoopState, o: Options, kind: ClipboardKind, e: BackendError, receiversLive: bool)
    requires s.Running() && kind in WatchSet(o)
    ensures var r := Step(s, o, true, Notify(kind, LoadFailed(e), receiversLive));
      && r.cache == s.cache && r.published == s.published && r.loads == s.loads + [kind]
      && (r.Running() <==> IgnorableOnChange(e))
      && (!IgnorableOnChange(e) ==> r.exit == Some(Backend(e)))
  {
  }

  // ---------------------------------------------------------------------
  // Runs of the steady-state loop

  lemma RunSnoc(s: LoopState, o: Options, watching: bool, events: seq<Event>, i: nat)
    requires i < |events|
    ensures Run(s, o, watching, events[..i + 1]) == Step(Run(s, o, watching, events[..i]), o, watching, events[i])
  {
    assert events[..i + 1][..i] == events[..i];
  }

  /** Once the loop has stopped, later notifications change nothing. */
  lemma {:induction false} RunHaltedPrefix(s: LoopState, o: Options, watching: bool, events: seq<Event>, i: nat)
    requires i <= |events|
    requires !Run(s, o, watching, events[..i]).Running()
    ensures Run(s, o, watching, events) == Run(s, o, watching, events[..i])
    decreases |events|
  {
    if i < |events| {
      var n := |events| - 1;
      assert events[..n][..i] == events[..i];
      RunHaltedPrefix(s, o, watching, events[..n], i);
    } else {
      assert events[..i] == events;
    }
  }

  /** Published entries only ever grow, by appending. */
  lemma {:induction false} RunExtendsPublished(s: LoopState, o: Options, watching: bool, events: seq<Event>)
    ensures s.published <= Run(s, o, watching, events).published
    ensures |Run(s, o, watching, events).published| <= |s.published| + |events|
    decreases |events|
  {
    if events != [] {
      var n := |events| - 1;
      RunExtendsPublished(s, o, watching, events[..n]);
      StepFrame(Run(s, o, watching, events[..n]), o, watching, events[n]);
    }
  }

  /** While the flag is off, any number of notifications leave the loop's
      state exactly as it was. */
  lemma {:induction false} RunWhileDisabled(s: LoopState, o: Options, events: seq<Event>)
    requires forall i | 0 <= i < |events| :: events[i].Notify?
    ensures Run(s, o, false, events) == s
    decreases |events|
  {
    if events != [] {
      var n := |events| - 1;
      RunWhileDisabled(s, o, events[..n]);
    }
  }

  /** Notifications for kinds outside the watch set leave the loop's state
      exactly as it was, whatever the flag. */
  lemma {:induction false} RunOnUnwatchedKinds(s: LoopState, o: Options, watching: bool, events: seq<Event>)
    requires forall i | 0 <= i < |events| :: events[i].Notify? && events[i].kind !in WatchSet(o)
    ensures Run(s, o, watching, events) == s
    decreases |events|
  {
    if events != [] {
      var n := |events| - 1;
      RunOnUnwatchedKinds(s, o, watching, events[..n]);
    }
  }

  /** After a pause, the first notification with the flag back on is handled
      against the cache as it was before the pause. */
  lemma ResumeAfterPause(s: LoopState, o: Options, paused: seq<Event>, ev: Event)
    requires forall i | 0 <= i < |paused| :: paused[i].Notify?
    ensures Step(Run(s, o, false, paused), o, true, ev) == Step(s, o, true, ev)
  {
    RunWhileDisabled(s, o, paused);
  }

  /** Once `data` is cached for `kind`, notifications that load the same
      content again publish nothing and leave the cache as it is. */
  lemma {:induction false} RunRepeatsSuppressed(s: LoopState, o: Options, watching: bool, kind: ClipboardKind, data: Content, events: seq<Event>)
    requires kind in s.cache && s.cache[kind] == data
    requires forall i | 0 <= i < |events| :: events[i].Notify? && events[i].kind == kind && events[i].load == Loaded(data)
    ensures var r := Run(s, o, watching, events);
      r.published == s.published && r.cache == s.cache && r.exit == s.exit
    decreases |events|
  {
    if events != [] {
      var n := |events| - 1;
      RunRepeatsSuppressed(s, o, watching, kind, data, events[..n]);
    }
  }
}
