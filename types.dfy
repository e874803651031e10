/** Values shared by the clipboard watcher: clipboard kinds, backend load
    results and errors, published entries, the watcher's options, and the
    scripted backend that stands in for the real clipboard. */
module Types {

  newtype byte = b: int | 0 <= b < 0x100

  /** Clipboard content as the backend returns it; its length is what the
      size filter compares against. */
  type Content = seq<byte>

  datatype Option<T> = None | Some(value: T)

  /** The clipboard selections a watcher can monitor. */
  datatype ClipboardKind = Clipboard | Primary

  /** What a backend `load` can fail with. The first four are the conditions
      the watcher may treat as "nothing to report"; `Other` stands for every
      remaining backend failure. */
  datatype BackendError =
    | EmptyClipboard
    | MatchMime
    | UnknownContentType
    | UnsupportedClipboardKind(kind: ClipboardKind)
    | Other(reason: string)

  datatype LoadResult = Loaded(data: Content) | LoadFailed(error: BackendError)

  /** Why the change loop stopped. */
  datatype Error =
    | Backend(error: BackendError)
    | SubscriberClosed
    | SendClipEntry

  /** A published entry: the content and the kind it was read from. */
  datatype ClipEntry = ClipEntry(content: Content, kind: ClipboardKind)

  datatype WatcherState = Enabled | Disabled

  datatype Options = Options(
    loadCurrent: bool,
    enableClipboard: bool,
    enablePrimary: bool,
    filterMinSize: nat)

  /** What the backend's load would return for each kind while the initial
      pass runs, and whether the broadcast channel has a live receiver at the
      moment the pass sends that kind's entry. */
  datatype Snapshot = Snapshot(
    clipboard: LoadResult,
    primary: LoadResult,
    clipboardReceiversLive: bool,
    primaryReceiversLive: bool)
  {
    function Load(kind: ClipboardKind): LoadResult {
      match kind
      case Clipboard => clipboard
      case Primary => primary
    }

    function ReceiversLive(kind: ClipboardKind): bool {
      match kind
      case Clipboard => clipboardReceiversLive
      case Primary => primaryReceiversLive
    }
  }

  /** One item taken from the backend's notification stream: a change of
      `kind`, together with what loading that kind would return at that
      moment and whether the broadcast channel has a live receiver when an
      entry for it would be sent; or the end of the stream. */
  datatype Event =
    | Notify(kind: ClipboardKind, load: LoadResult, receiversLive: bool)
    | StreamClosed
}
