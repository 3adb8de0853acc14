/**
  * What the client shows, field by field, from the history alone: each field is what
  * the last call that concerns it says.
  */
module ClientShown {
  import opened Options
  import opened EffectRings
  import opened ClientCores

  /** What was shown before a call, as far as later calls depend on it. */
  datatype Context = Context(active: Option<Tab>, url: string, awaiting: bool, awaited: nat, keyboard: bool)

  /** What the last call that has something to say of a field says of it; a call that has nothing to say leaves what it was. */
  function Latest<T>(h: seq<Call>, says: (Context, Call, T) -> T, blank: T): T
    decreases |h|, 0
  {
    if h == [] then blank else says(ContextIn(h[..|h| - 1]), h[|h| - 1], Latest(h[..|h| - 1], says, blank))
  }

  function ContextIn(h: seq<Call>): Context
    decreases |h|, 1
  {
    Context(Latest(h, SaysActive, None), Latest(h, SaysUrl, ""), Latest(h, SaysAwaiting, false), Latest(h, SaysAwaited, 0),
            Latest(h, SaysKeyboard, false))
  }

  // ---- When transient fields go ---------------------------------------------------------------------

  predicate Pauses(c: Call) {
    c.Happened? && c.e.BrowserMode? && c.e.mode.state != "streaming"
  }

  predicate Resets(c: Call) {
    c.Connected? || (c.Happened? && c.e.Reset?)
  }

  predicate OpensNewTab(c: Call) {
    c.Happened? && c.e.Url? && StartsWith(c.e.url, NEW_TAB)
  }

  /** Another tab is active, or none. */
  predicate ChangesTab(k: Context, c: Call) {
    c.Happened? && c.e.Tabs? && IdOf(ActiveTab(c.e.items, |c.e.items|)) != IdOf(k.active)
  }

  function IdOf(tab: Option<Tab>): Option<int> {
    if tab.Some? then Some(tab.value.id) else None
  }

  predicate ClearsPage(k: Context, c: Call) {
    Resets(c) || Pauses(c) || ChangesTab(k, c)
  }

  /** Another page in the same tab. */
  predicate ChangesPage(k: Context, c: Call) {
    c.Happened? && c.e.Url? && k.url != "" && k.url != c.e.url
  }

  predicate ClearsContent(k: Context, c: Call) {
    ClearsPage(k, c) || ChangesPage(k, c)
  }

  // ---- The page -----------------------------------------------------------------------------------------

  function SaysTabs(k: Context, c: Call, was: seq<Tab>): seq<Tab> {
    if c.Connected? then [] else if c.Happened? && c.e.Tabs? then c.e.items else was
  }

  function SaysActive(k: Context, c: Call, was: Option<Tab>): Option<Tab> {
    if c.Connected? then None else if c.Happened? && c.e.Tabs? then ActiveTab(c.e.items, |c.e.items|) else was
  }

  function SaysUrl(k: Context, c: Call, was: string): string {
    if c.Connected? then ""
    else if c.Happened? && c.e.Url? then c.e.url
    else if c.Happened? && c.e.PageErrorEvent? then c.e.url
    else was
  }

  function SaysSecurity(k: Context, c: Call, was: string): string {
    if c.Connected? then ""
    else if c.Happened? && c.e.Url? then c.e.security
    else if c.Happened? && c.e.PageErrorEvent? then c.e.security
    else if c.Happened? && c.e.Security? then c.e.state
    else was
  }

  function SaysStarred(k: Context, c: Call, was: bool): bool {
    if c.Connected? then false
    else if c.Happened? && (c.e.Url? || c.e.PageErrorEvent? || c.e.LibraryEvent?) then c.e.starred
    else if c.Happened? && c.e.Starred? then c.e.on
    else was
  }

  function SaysAwaited(k: Context, c: Call, was: nat): nat {
    if ClearsPage(k, c) || OpensNewTab(c) then 0 else if c.Happened? && c.e.PageFrame? then c.e.sequence else was
  }

  predicate Arrives(k: Context, c: Call) {
    c.Happened? && c.e.FramePresented? && c.e.sequence >= k.awaited
  }

  function SaysAwaiting(k: Context, c: Call, was: bool): bool {
    if ClearsPage(k, c) || OpensNewTab(c) || Arrives(k, c) then false
    else if c.Happened? && c.e.PageFrame? then true
    else was
  }

  function SaysStartPage(k: Context, c: Call, was: bool): bool {
    if c.Connected? then true
    else if c.Happened? && c.e.Url? then OpensNewTab(c)
    else if (c.Happened? && c.e.PageErrorEvent?) || (Arrives(k, c) && k.awaiting) then false
    else was
  }

  function SaysLoading(k: Context, c: Call, was: bool): bool {
    if ClearsPage(k, c) || OpensNewTab(c) then false else if c.Happened? && c.e.Loading? then c.e.on else was
  }

  function SaysBack(k: Context, c: Call, was: bool): bool {
    if Resets(c) then false else if c.Happened? && c.e.HistoryState? then c.e.back else was
  }

  function SaysForward(k: Context, c: Call, was: bool): bool {
    if Resets(c) then false else if c.Happened? && c.e.HistoryState? then c.e.forward else was
  }

  function SaysFullscreen(k: Context, c: Call, was: bool): bool {
    if Resets(c) || Pauses(c) then false else if c.Happened? && c.e.Fullscreen? then c.e.on else was
  }

  function SaysKeyboard(k: Context, c: Call, was: bool): bool {
    if Resets(c) || Pauses(c) then false else if c.Happened? && c.e.KeyboardVisibility? then c.e.on else was
  }

  function SaysEditable(k: Context, c: Call, was: bool): bool {
    if ClearsPage(k, c) then false else if c.Happened? && c.e.Editable? then c.e.on else was
  }

  function SaysEditableKind(k: Context, c: Call, was: string): string {
    if ClearsPage(k, c) then "" else if c.Happened? && c.e.Editable? then if c.e.on then c.e.kind else "" else was
  }

  function SaysHasRect(k: Context, c: Call, was: bool): bool {
    if ClearsPage(k, c) then false else if c.Happened? && c.e.Editable? then c.e.on && c.e.hasRect else was
  }

  function SaysRect(k: Context, c: Call, was: seq<real>): seq<real> {
    if ClearsPage(k, c) then []
    else if c.Happened? && c.e.Editable? && c.e.on then if c.e.hasRect then c.e.rect else []
    else was
  }

  function PageIn(h: seq<Call>): Page {
    var k := ContextIn(h);
    Page(Latest(h, SaysTabs, []), if k.active.Some? then k.active.value.id else 0, k.active.Some?,
         if k.active.Some? then DisplayTitle(k.active.value) else "", k.url, Latest(h, SaysSecurity, ""), Latest(h, SaysStartPage, true),
         Latest(h, SaysLoading, false), Latest(h, SaysBack, false), Latest(h, SaysForward, false), Latest(h, SaysStarred, false),
         Latest(h, SaysFullscreen, false), Latest(h, SaysEditable, false), Latest(h, SaysHasRect, false), Latest(h, SaysRect, []),
         Latest(h, SaysEditableKind, ""), k.keyboard, k.awaiting, k.awaited)
  }

  // ---- The mode ---------------------------------------------------------------------------------------

  /** The client is paused exactly when the mode it was last told of is not streaming. */
  function SaysMode(k: Context, c: Call, was: Mode): Mode {
    if c.Connected? then BlankMode
    else if c.Happened? && c.e.BrowserMode? then
      var m := c.e.mode;
      Mode(m.state, m.host, m.message, m.revision, m.state != "streaming", m.standalone, m.canForce)
    else was
  }

  function ModeIn(h: seq<Call>): Mode {
    Latest(h, SaysMode, BlankMode)
  }

  // ---- Dialogs and the like --------------------------------------------------------------------------

  function SaysDialog(k: Context, c: Call, was: Dialog): Dialog {
    if ClearsContent(k, c) || (c.Happened? && c.e.DialogDone?) then Dialog("", "", "", false)
    else if c.Happened? && c.e.DialogEvent? then Dialog(c.e.kind, c.e.text, c.e.default_, true)
    else was
  }

  function SaysSelect(k: Context, c: Call, was: Select): Select {
    if ClearsContent(k, c) || (c.Happened? && c.e.CompleteSelect?) then Select("", "", false, false, 0)
    else if c.Happened? && c.e.SelectEvent? then Select(c.e.id, c.e.title, true, c.e.multiple, c.e.options)
    else was
  }

  function SaysChooser(k: Context, c: Call, was: Chooser): Chooser {
    if ClearsContent(k, c) || (c.Happened? && c.e.CompleteFileChooser?) then Chooser(false, false)
    else if c.Happened? && c.e.FileChooserEvent? then Chooser(true, c.e.multiple)
    else was
  }

  function SaysFind(k: Context, c: Call, was: Find): Find {
    if ClearsContent(k, c) then Find(false, false) else if c.Happened? && c.e.FoundEvent? then Find(true, c.e.on) else was
  }

  function SaysOffer(k: Context, c: Call, was: string): string {
    if ClearsContent(k, c) || (c.Happened? && c.e.CompleteClipboard?) then ""
    else if c.Happened? && c.e.ClipboardEvent? then c.e.id
    else was
  }

  function SaysSyncRequest(k: Context, c: Call, was: bool): bool {
    if ClearsContent(k, c) || (c.Happened? && c.e.CompleteClipboard?) then false
    else if c.Happened? && c.e.ClipboardEvent? then c.e.sync
    else was
  }

  function SaysPending(k: Context, c: Call, was: bool): bool {
    if ClearsContent(k, c) || (c.Happened? && (c.e.CompleteClipboard? || c.e.ClipboardSync?)) then false
    else if c.Happened? && c.e.ClipboardEvent? then true
    else was
  }

  function SaysClipboardText(k: Context, c: Call, was: string): string {
    if c.Connected? then ""
    else if c.Happened? && (c.e.ClipboardEvent? || c.e.ClipboardSync?) then c.e.text
    else was
  }

  function SaysSyncEnabled(k: Context, c: Call, was: bool): bool {
    if c.Connected? then false else if c.Happened? && c.e.ClipboardSync? then c.e.enabled else was
  }

  function SaysKnown(k: Context, c: Call, was: bool): bool {
    if c.Connected? then false else if c.Happened? && c.e.ClipboardSync? then c.e.known else was
  }

  function ClipboardIn(h: seq<Call>): Clipboard {
    Clipboard(Latest(h, SaysOffer, ""), Latest(h, SaysClipboardText, ""), Latest(h, SaysPending, false), Latest(h, SaysSyncRequest, false),
              Latest(h, SaysSyncEnabled, false), Latest(h, SaysKnown, false))
  }

  function SaysReader(k: Context, c: Call, was: Reader): Reader {
    if ClearsContent(k, c) then Reader("", "", false)
    else if c.Happened? && c.e.ReaderEvent? then Reader(c.e.title, c.e.url, c.e.ok)
    else was
  }

  function SaysMedia(k: Context, c: Call, was: Media): Media {
    if ClearsContent(k, c) then Media("", false, 0, false, false, 0.0, 0.0, 0.0)
    else if c.Happened? && c.e.MediaEvent? then c.e.media
    else was
  }

  function SaysHistoryCount(k: Context, c: Call, was: nat): nat {
    if c.Connected? then 0
    else if c.Happened? && c.e.LibraryEvent? then c.e.history
    else if c.Happened? && c.e.HistoryEvent? then c.e.count
    else was
  }

  function SaysBookmarks(k: Context, c: Call, was: nat): nat {
    if c.Connected? then 0 else if c.Happened? && c.e.LibraryEvent? then c.e.bookmarks else was
  }

  function SaysQuery(k: Context, c: Call, was: string): string {
    if c.Connected? then "" else if c.Happened? && c.e.HistoryEvent? then c.e.query else was
  }

  function SaysOffset(k: Context, c: Call, was: int): int {
    if c.Connected? then 0 else if c.Happened? && c.e.HistoryEvent? then c.e.offset else was
  }

  function SaysTotal(k: Context, c: Call, was: int): int {
    if c.Connected? then 0 else if c.Happened? && c.e.HistoryEvent? then c.e.total else was
  }

  function LibraryIn(h: seq<Call>): Library {
    Library(Latest(h, SaysQuery, ""), Latest(h, SaysHistoryCount, 0), Latest(h, SaysBookmarks, 0), Latest(h, SaysOffset, 0), Latest(h, SaysTotal, 0))
  }

  function SaysDownloadName(k: Context, c: Call, was: string): string {
    if c.Connected? then ""
    else if c.Happened? && (c.e.DownloadEvent? || c.e.DownloadProgress?) then c.e.name
    else was
  }

  function SaysDownloadCount(k: Context, c: Call, was: nat): nat {
    if c.Connected? then 0 else if c.Happened? && c.e.DownloadsEvent? then c.e.count else was
  }

  function SaysPercent(k: Context, c: Call, was: int): int {
    if c.Connected? then 0 else if c.Happened? && c.e.DownloadProgress? then c.e.percent else was
  }

  function DownloadsIn(h: seq<Call>): Downloads {
    Downloads(Latest(h, SaysDownloadName, ""), Latest(h, SaysDownloadCount, 0), Latest(h, SaysPercent, 0))
  }

  function SaysSuggestions(k: Context, c: Call, was: nat): nat {
    if ClearsContent(k, c) then 0 else if c.Happened? && c.e.SuggestEvent? then c.e.count else was
  }

  function SaysPageError(k: Context, c: Call, was: string): string {
    if ClearsContent(k, c) then "" else if c.Happened? && c.e.PageErrorEvent? then c.e.url else was
  }

  function SaysToast(k: Context, c: Call, was: string): string {
    if c.Connected? || (c.Happened? && c.e.CompleteToast?) then ""
    else if c.Happened? && c.e.ToastEvent? then c.e.text
    else was
  }

  function SaysVideo(k: Context, c: Call, was: nat): nat {
    if c.Connected? || Pauses(c) then 0 else if c.Happened? && c.e.VideoConfig? then c.e.generation else was
  }

  function ContentIn(h: seq<Call>): Semantic {
    Semantic(Latest(h, SaysDialog, Dialog("", "", "", false)), Latest(h, SaysSelect, Select("", "", false, false, 0)),
             Latest(h, SaysChooser, Chooser(false, false)), Latest(h, SaysFind, Find(false, false)), ClipboardIn(h),
             Latest(h, SaysReader, Reader("", "", false)), Latest(h, SaysMedia, Media("", false, 0, false, false, 0.0, 0.0, 0.0)),
             LibraryIn(h), DownloadsIn(h), Latest(h, SaysSuggestions, 0), Latest(h, SaysPageError, ""), Latest(h, SaysToast, ""),
             Latest(h, SaysVideo, 0))
  }

  // ---- The effects that wait ------------------------------------------------------------------------

  function SaysClearing(k: Context, c: Call, was: bool): bool {
    if Resets(c) || c == Took(ClearPagePresentation) then false
    else if Pauses(c) || ChangesPage(k, c) || (ChangesTab(k, c) && k.active.Some?) then true
    else was
  }

  function SaysAsking(k: Context, c: Call, was: bool): bool {
    if Resets(c) || c == Took(RequestLibrary) then false else if OpensNewTab(c) then true else was
  }

  /** The keyboard effect that waits, if any: the one asked for last. */
  function SaysKeyboardEffect(k: Context, c: Call, was: Option<Effect>): Option<Effect> {
    if Resets(c) || c == Took(ShowKeyboard) || c == Took(HideKeyboard) then None
    else if Pauses(c) || (ChangesTab(k, c) && k.keyboard) || (c.Happened? && c.e.Editable? && !c.e.on && k.keyboard) then Some(HideKeyboard)
    else if c.Happened? && c.e.Editable? && c.e.on && (c.e.showKeyboard || k.keyboard) then Some(ShowKeyboard)
    else was
  }

  // ---- One call ------------------------------------------------------------------------------------------

  lemma LatestOne<T>(h: seq<Call>, c: Call, says: (Context, Call, T) -> T, blank: T)
    ensures Latest(h + [c], says, blank) == says(ContextIn(h), c, Latest(h, says, blank))
  {
    assert (h + [c])[..|h|] == h;
  }

  predicate ShowsActive(active: Option<Tab>, p: Page) {
    && p.hasActive == active.Some?
    && p.activeId == (if active.Some? then active.value.id else 0)
    && p.activeTitle == (if active.Some? then DisplayTitle(active.value) else "")
  }

  /** The page shows what the context says. */
  predicate InContext(k: Context, p: Page) {
    ShowsActive(k.active, p) && p.url == k.url && p.awaiting == k.awaiting && p.awaited == k.awaited && p.keyboard == k.keyboard
  }

  // Every field of the page is what the call says of it, or stays.

  lemma PageOfTabs(k: Context, c: Call, e: Event, p: Page, q: Page)
    requires InContext(k, p) && c == Happened(e) && e.Tabs? && q == TabsPage(p, e.items, ActiveTab(e.items, |e.items|), ChangesTab(k, c))
    ensures q.tabs == SaysTabs(k, c, p.tabs) && ShowsActive(SaysActive(k, c, k.active), q) && q.url == SaysUrl(k, c, p.url)
    ensures q.security == SaysSecurity(k, c, p.security) && q.starred == SaysStarred(k, c, p.starred) && q.startPage == SaysStartPage(k, c, p.startPage)
    ensures q.awaited == SaysAwaited(k, c, p.awaited) && q.awaiting == SaysAwaiting(k, c, p.awaiting) && q.loading == SaysLoading(k, c, p.loading)
    ensures q.back == SaysBack(k, c, p.back) && q.forward == SaysForward(k, c, p.forward)
    ensures q.fullscreen == SaysFullscreen(k, c, p.fullscreen) && q.keyboard == SaysKeyboard(k, c, p.keyboard)
    ensures q.editable == SaysEditable(k, c, p.editable) && q.editableKind == SaysEditableKind(k, c, p.editableKind)
    ensures q.hasRect == SaysHasRect(k, c, p.hasRect) && q.rect == SaysRect(k, c, p.rect)
  {
  }

  lemma PageOfUrl(k: Context, c: Call, e: Event, p: Page, q: Page)
    requires InContext(k, p) && c == Happened(e) && e.Url? && q == UrlPage(p, e.url, e.security, e.starred, OpensNewTab(c))
    ensures q.tabs == SaysTabs(k, c, p.tabs) && ShowsActive(SaysActive(k, c, k.active), q) && q.url == SaysUrl(k, c, p.url)
    ensures q.security == SaysSecurity(k, c, p.security) && q.starred == SaysStarred(k, c, p.starred) && q.startPage == SaysStartPage(k, c, p.startPage)
    ensures q.awaited == SaysAwaited(k, c, p.awaited) && q.awaiting == SaysAwaiting(k, c, p.awaiting) && q.loading == SaysLoading(k, c, p.loading)
    ensures q.back == SaysBack(k, c, p.back) && q.forward == SaysForward(k, c, p.forward)
    ensures q.fullscreen == SaysFullscreen(k, c, p.fullscreen) && q.keyboard == SaysKeyboard(k, c, p.keyboard)
    ensures q.editable == SaysEditable(k, c, p.editable) && q.editableKind == SaysEditableKind(k, c, p.editableKind)
    ensures q.hasRect == SaysHasRect(k, c, p.hasRect) && q.rect == SaysRect(k, c, p.rect)
  {
  }

  lemma PageOfEditable(k: Context, c: Call, e: Event, p: Page, q: Page)
    requires InContext(k, p) && c == Happened(e) && e.Editable? && q == EditablePage(p, e.on, e.kind, e.hasRect, e.rect)
    ensures q.tabs == SaysTabs(k, c, p.tabs) && ShowsActive(SaysActive(k, c, k.active), q) && q.url == SaysUrl(k, c, p.url)
    ensures q.security == SaysSecurity(k, c, p.security) && q.starred == SaysStarred(k, c, p.starred) && q.startPage == SaysStartPage(k, c, p.startPage)
    ensures q.awaited == SaysAwaited(k, c, p.awaited) && q.awaiting == SaysAwaiting(k, c, p.awaiting) && q.loading == SaysLoading(k, c, p.loading)
    ensures q.back == SaysBack(k, c, p.back) && q.forward == SaysForward(k, c, p.forward)
    ensures q.fullscreen == SaysFullscreen(k, c, p.fullscreen) && q.keyboard == SaysKeyboard(k, c, p.keyboard)
    ensures q.editable == SaysEditable(k, c, p.editable) && q.editableKind == SaysEditableKind(k, c, p.editableKind)
    ensures q.hasRect == SaysHasRect(k, c, p.hasRect) && q.rect == SaysRect(k, c, p.rect)
  {
  }

  lemma PageOfFrame(k: Context, c: Call, e: Event, p: Page, q: Page)
    requires InContext(k, p) && c == Happened(e) && e.FramePresented? && Arrives(k, c) && k.awaiting && q == p.(awaiting := false, startPage := false)
    ensures q.tabs == SaysTabs(k, c, p.tabs) && ShowsActive(SaysActive(k, c, k.active), q) && q.url == SaysUrl(k, c, p.url)
    ensures q.security == SaysSecurity(k, c, p.security) && q.starred == SaysStarred(k, c, p.starred) && q.startPage == SaysStartPage(k, c, p.startPage)
    ensures q.awaited == SaysAwaited(k, c, p.awaited) && q.awaiting == SaysAwaiting(k, c, p.awaiting) && q.loading == SaysLoading(k, c, p.loading)
    ensures q.back == SaysBack(k, c, p.back) && q.forward == SaysForward(k, c, p.forward)
    ensures q.fullscreen == SaysFullscreen(k, c, p.fullscreen) && q.keyboard == SaysKeyboard(k, c, p.keyboard)
    ensures q.editable == SaysEditable(k, c, p.editable) && q.editableKind == SaysEditableKind(k, c, p.editableKind)
    ensures q.hasRect == SaysHasRect(k, c, p.hasRect) && q.rect == SaysRect(k, c, p.rect)
  {
  }

  lemma PageOfLateFrame(k: Context, c: Call, e: Event, p: Page, q: Page)
    requires InContext(k, p) && c == Happened(e) && e.FramePresented? && !(Arrives(k, c) && k.awaiting) && q == p
    ensures q.tabs == SaysTabs(k, c, p.tabs) && ShowsActive(SaysActive(k, c, k.active), q) && q.url == SaysUrl(k, c, p.url)
    ensures q.security == SaysSecurity(k, c, p.security) && q.starred == SaysStarred(k, c, p.starred) && q.startPage == SaysStartPage(k, c, p.startPage)
    ensures q.awaited == SaysAwaited(k, c, p.awaited) && q.awaiting == SaysAwaiting(k, c, p.awaiting) && q.loading == SaysLoading(k, c, p.loading)
    ensures q.back == SaysBack(k, c, p.back) && q.forward == SaysForward(k, c, p.forward)
    ensures q.fullscreen == SaysFullscreen(k, c, p.fullscreen) && q.keyboard == SaysKeyboard(k, c, p.keyboard)
    ensures q.editable == SaysEditable(k, c, p.editable) && q.editableKind == SaysEditableKind(k, c, p.editableKind)
    ensures q.hasRect == SaysHasRect(k, c, p.hasRect) && q.rect == SaysRect(k, c, p.rect)
  {
  }

  lemma PageOfPause(k: Context, c: Call, e: Event, p: Page, q: Page)
    requires InContext(k, p) && c == Happened(e) && e.BrowserMode? && Pausing(e.mode) && q == PausedPage(p)
    ensures q.tabs == SaysTabs(k, c, p.tabs) && ShowsActive(SaysActive(k, c, k.active), q) && q.url == SaysUrl(k, c, p.url)
    ensures q.security == SaysSecurity(k, c, p.security) && q.starred == SaysStarred(k, c, p.starred) && q.startPage == SaysStartPage(k, c, p.startPage)
    ensures q.awaited == SaysAwaited(k, c, p.awaited) && q.awaiting == SaysAwaiting(k, c, p.awaiting) && q.loading == SaysLoading(k, c, p.loading)
    ensures q.back == SaysBack(k, c, p.back) && q.forward == SaysForward(k, c, p.forward)
    ensures q.fullscreen == SaysFullscreen(k, c, p.fullscreen) && q.keyboard == SaysKeyboard(k, c, p.keyboard)
    ensures q.editable == SaysEditable(k, c, p.editable) && q.editableKind == SaysEditableKind(k, c, p.editableKind)
    ensures q.hasRect == SaysHasRect(k, c, p.hasRect) && q.rect == SaysRect(k, c, p.rect)
  {
  }

  lemma PageOfReset(k: Context, c: Call, e: Event, p: Page, q: Page)
    requires InContext(k, p) && c == Happened(e) && e.Reset? && q == ResetPage(p)
    ensures q.tabs == SaysTabs(k, c, p.tabs) && ShowsActive(SaysActive(k, c, k.active), q) && q.url == SaysUrl(k, c, p.url)
    ensures q.security == SaysSecurity(k, c, p.security) && q.starred == SaysStarred(k, c, p.starred) && q.startPage == SaysStartPage(k, c, p.startPage)
    ensures q.awaited == SaysAwaited(k, c, p.awaited) && q.awaiting == SaysAwaiting(k, c, p.awaiting) && q.loading == SaysLoading(k, c, p.loading)
    ensures q.back == SaysBack(k, c, p.back) && q.forward == SaysForward(k, c, p.forward)
    ensures q.fullscreen == SaysFullscreen(k, c, p.fullscreen) && q.keyboard == SaysKeyboard(k, c, p.keyboard)
    ensures q.editable == SaysEditable(k, c, p.editable) && q.editableKind == SaysEditableKind(k, c, p.editableKind)
    ensures q.hasRect == SaysHasRect(k, c, p.hasRect) && q.rect == SaysRect(k, c, p.rect)
  {
  }

  lemma PageOfFlags(k: Context, c: Call, e: Event, p: Page, q: Page)
    requires InContext(k, p) && c == Happened(e) && (e.HistoryState? || e.Loading? || e.Fullscreen? || e.Security?) && q == AfterPage(p, e)
    ensures q.tabs == SaysTabs(k, c, p.tabs) && ShowsActive(SaysActive(k, c, k.active), q) && q.url == SaysUrl(k, c, p.url)
    ensures q.security == SaysSecurity(k, c, p.security) && q.starred == SaysStarred(k, c, p.starred) && q.startPage == SaysStartPage(k, c, p.startPage)
    ensures q.awaited == SaysAwaited(k, c, p.awaited) && q.awaiting == SaysAwaiting(k, c, p.awaiting) && q.loading == SaysLoading(k, c, p.loading)
    ensures q.back == SaysBack(k, c, p.back) && q.forward == SaysForward(k, c, p.forward)
    ensures q.fullscreen == SaysFullscreen(k, c, p.fullscreen) && q.keyboard == SaysKeyboard(k, c, p.keyboard)
    ensures q.editable == SaysEditable(k, c, p.editable) && q.editableKind == SaysEditableKind(k, c, p.editableKind)
    ensures q.hasRect == SaysHasRect(k, c, p.hasRect) && q.rect == SaysRect(k, c, p.rect)
  {
  }

  lemma PageOfMoreFlags(k: Context, c: Call, e: Event, p: Page, q: Page)
    requires InContext(k, p) && c == Happened(e) && (e.Starred? || e.KeyboardVisibility? || e.PageFrame?) && q == AfterPage(p, e)
    ensures q.tabs == SaysTabs(k, c, p.tabs) && ShowsActive(SaysActive(k, c, k.active), q) && q.url == SaysUrl(k, c, p.url)
    ensures q.security == SaysSecurity(k, c, p.security) && q.starred == SaysStarred(k, c, p.starred) && q.startPage == SaysStartPage(k, c, p.startPage)
    ensures q.awaited == SaysAwaited(k, c, p.awaited) && q.awaiting == SaysAwaiting(k, c, p.awaiting) && q.loading == SaysLoading(k, c, p.loading)
    ensures q.back == SaysBack(k, c, p.back) && q.forward == SaysForward(k, c, p.forward)
    ensures q.fullscreen == SaysFullscreen(k, c, p.fullscreen) && q.keyboard == SaysKeyboard(k, c, p.keyboard)
    ensures q.editable == SaysEditable(k, c, p.editable) && q.editableKind == SaysEditableKind(k, c, p.editableKind)
    ensures q.hasRect == SaysHasRect(k, c, p.hasRect) && q.rect == SaysRect(k, c, p.rect)
  {
  }

  lemma PageOfBoth(k: Context, c: Call, e: Event, p: Page, q: Page)
    requires InContext(k, p) && c == Happened(e) && (e.PageErrorEvent? || e.LibraryEvent?) && q == AfterPage(p, e)
    ensures q.tabs == SaysTabs(k, c, p.tabs) && ShowsActive(SaysActive(k, c, k.active), q) && q.url == SaysUrl(k, c, p.url)
    ensures q.security == SaysSecurity(k, c, p.security) && q.starred == SaysStarred(k, c, p.starred) && q.startPage == SaysStartPage(k, c, p.startPage)
    ensures q.awaited == SaysAwaited(k, c, p.awaited) && q.awaiting == SaysAwaiting(k, c, p.awaiting) && q.loading == SaysLoading(k, c, p.loading)
    ensures q.back == SaysBack(k, c, p.back) && q.forward == SaysForward(k, c, p.forward)
    ensures q.fullscreen == SaysFullscreen(k, c, p.fullscreen) && q.keyboard == SaysKeyboard(k, c, p.keyboard)
    ensures q.editable == SaysEditable(k, c, p.editable) && q.editableKind == SaysEditableKind(k, c, p.editableKind)
    ensures q.hasRect == SaysHasRect(k, c, p.hasRect) && q.rect == SaysRect(k, c, p.rect)
  {
  }

  /** No event of the page. */
  predicate LeavesPage(e: Event) {
    && !e.Reset? && !e.Tabs? && !e.Url? && !e.HistoryState? && !e.Loading? && !e.Editable? && !e.Fullscreen? && !e.Security? && !e.Starred?
    && !e.PageFrame? && !e.FramePresented? && !e.KeyboardVisibility? && !e.PageErrorEvent? && !e.LibraryEvent?
    && (e.BrowserMode? ==> !Pausing(e.mode))
  }

  lemma PageStays(k: Context, c: Call, e: Event, p: Page, q: Page)
    requires InContext(k, p) && c == Happened(e) && LeavesPage(e) && q == p
    ensures q.tabs == SaysTabs(k, c, p.tabs) && ShowsActive(SaysActive(k, c, k.active), q) && q.url == SaysUrl(k, c, p.url)
    ensures q.security == SaysSecurity(k, c, p.security) && q.starred == SaysStarred(k, c, p.starred) && q.startPage == SaysStartPage(k, c, p.startPage)
    ensures q.awaited == SaysAwaited(k, c, p.awaited) && q.awaiting == SaysAwaiting(k, c, p.awaiting) && q.loading == SaysLoading(k, c, p.loading)
    ensures q.back == SaysBack(k, c, p.back) && q.forward == SaysForward(k, c, p.forward)
    ensures q.fullscreen == SaysFullscreen(k, c, p.fullscreen) && q.keyboard == SaysKeyboard(k, c, p.keyboard)
    ensures q.editable == SaysEditable(k, c, p.editable) && q.editableKind == SaysEditableKind(k, c, p.editableKind)
    ensures q.hasRect == SaysHasRect(k, c, p.hasRect) && q.rect == SaysRect(k, c, p.rect)
  {
  }

  lemma TabChangesInContext(k: Context, p: Page, items: seq<Tab>)
    requires InContext(k, p)
    ensures ChangesTab(k, Happened(Tabs(items))) <==> TabChanges(p, items)
  {
  }

  lemma PageUntouched(p: Page, e: Event)
    requires LeavesPage(e)
    ensures AfterPage(p, e) == p
  {
  }

  lemma PageOfOthers(k: Context, c: Call, e: Event, p: Page, q: Page)
    requires InContext(k, p) && c == Happened(e) && q == AfterPage(p, e)
    requires !e.Tabs? && !e.Url? && !e.Editable? && !e.FramePresented? && !e.Reset? && !e.BrowserMode?
    ensures q.tabs == SaysTabs(k, c, p.tabs) && ShowsActive(SaysActive(k, c, k.active), q) && q.url == SaysUrl(k, c, p.url)
    ensures q.security == SaysSecurity(k, c, p.security) && q.starred == SaysStarred(k, c, p.starred) && q.startPage == SaysStartPage(k, c, p.startPage)
    ensures q.awaited == SaysAwaited(k, c, p.awaited) && q.awaiting == SaysAwaiting(k, c, p.awaiting) && q.loading == SaysLoading(k, c, p.loading)
    ensures q.back == SaysBack(k, c, p.back) && q.forward == SaysForward(k, c, p.forward)
    ensures q.fullscreen == SaysFullscreen(k, c, p.fullscreen) && q.keyboard == SaysKeyboard(k, c, p.keyboard)
    ensures q.editable == SaysEditable(k, c, p.editable) && q.editableKind == SaysEditableKind(k, c, p.editableKind)
    ensures q.hasRect == SaysHasRect(k, c, p.hasRect) && q.rect == SaysRect(k, c, p.rect)
  {
    if e.HistoryState? || e.Loading? || e.Fullscreen? || e.Security? {
      PageOfFlags(k, c, e, p, q);
    } else if e.Starred? || e.KeyboardVisibility? || e.PageFrame? {
      PageOfMoreFlags(k, c, e, p, q);
    } else if e.PageErrorEvent? || e.LibraryEvent? {
      PageOfBoth(k, c, e, p, q);
    } else {
      PageUntouched(p, e);
      PageStays(k, c, e, p, q);
    }
  }

  lemma PageOfEvent(k: Context, c: Call, e: Event, p: Page, q: Page)
    requires InContext(k, p) && c == Happened(e) && q == AfterPage(p, e)
    ensures q.tabs == SaysTabs(k, c, p.tabs) && ShowsActive(SaysActive(k, c, k.active), q) && q.url == SaysUrl(k, c, p.url)
    ensures q.security == SaysSecurity(k, c, p.security) && q.starred == SaysStarred(k, c, p.starred) && q.startPage == SaysStartPage(k, c, p.startPage)
    ensures q.awaited == SaysAwaited(k, c, p.awaited) && q.awaiting == SaysAwaiting(k, c, p.awaiting) && q.loading == SaysLoading(k, c, p.loading)
    ensures q.back == SaysBack(k, c, p.back) && q.forward == SaysForward(k, c, p.forward)
    ensures q.fullscreen == SaysFullscreen(k, c, p.fullscreen) && q.keyboard == SaysKeyboard(k, c, p.keyboard)
    ensures q.editable == SaysEditable(k, c, p.editable) && q.editableKind == SaysEditableKind(k, c, p.editableKind)
    ensures q.hasRect == SaysHasRect(k, c, p.hasRect) && q.rect == SaysRect(k, c, p.rect)
  {
    if e.Tabs? {
      TabChangesInContext(k, p, e.items);
      PageOfTabs(k, c, e, p, q);
    } else if e.Url? {
      PageOfUrl(k, c, e, p, q);
    } else if e.Editable? {
      PageOfEditable(k, c, e, p, q);
    } else if e.FramePresented? {
      if Arrives(k, c) && k.awaiting {
        PageOfFrame(k, c, e, p, q);
      } else {
        PageOfLateFrame(k, c, e, p, q);
      }
    } else if e.Reset? {
      PageOfReset(k, c, e, p, q);
    } else if e.BrowserMode? {
      if Pausing(e.mode) {
        PageOfPause(k, c, e, p, q);
      } else {
        PageUntouched(p, e);
        PageStays(k, c, e, p, q);
      }
    } else {
      PageOfOthers(k, c, e, p, q);
    }
  }

  lemma PageStep(k: Context, s: State, c: Call, p: Page, q: Page)
    requires InContext(k, p) && p == s.view.page && q == Followed(s, c).view.page
    ensures q.tabs == SaysTabs(k, c, p.tabs) && ShowsActive(SaysActive(k, c, k.active), q) && q.url == SaysUrl(k, c, p.url)
    ensures q.security == SaysSecurity(k, c, p.security) && q.starred == SaysStarred(k, c, p.starred) && q.startPage == SaysStartPage(k, c, p.startPage)
    ensures q.awaited == SaysAwaited(k, c, p.awaited) && q.awaiting == SaysAwaiting(k, c, p.awaiting) && q.loading == SaysLoading(k, c, p.loading)
    ensures q.back == SaysBack(k, c, p.back) && q.forward == SaysForward(k, c, p.forward)
    ensures q.fullscreen == SaysFullscreen(k, c, p.fullscreen) && q.keyboard == SaysKeyboard(k, c, p.keyboard)
    ensures q.editable == SaysEditable(k, c, p.editable) && q.editableKind == SaysEditableKind(k, c, p.editableKind)
    ensures q.hasRect == SaysHasRect(k, c, p.hasRect) && q.rect == SaysRect(k, c, p.rect)
  {
    match c
    case Happened(e) => PageOfEvent(k, c, e, p, q);
    case Connected(_) =>
    case Took(_) =>
  }

  lemma TabsOne(h: seq<Call>, c: Call)
    ensures Latest(h + [c], SaysTabs, []) == SaysTabs(ContextIn(h), c, Latest(h, SaysTabs, []))
    ensures Latest(h + [c], SaysActive, None) == SaysActive(ContextIn(h), c, Latest(h, SaysActive, None))
    ensures Latest(h + [c], SaysUrl, "") == SaysUrl(ContextIn(h), c, Latest(h, SaysUrl, ""))
    ensures Latest(h + [c], SaysSecurity, "") == SaysSecurity(ContextIn(h), c, Latest(h, SaysSecurity, ""))
    ensures Latest(h + [c], SaysStarred, false) == SaysStarred(ContextIn(h), c, Latest(h, SaysStarred, false))
    ensures Latest(h + [c], SaysStartPage, true) == SaysStartPage(ContextIn(h), c, Latest(h, SaysStartPage, true))
  {
    LatestOne(h, c, SaysTabs, []);
    LatestOne(h, c, SaysActive, None);
    LatestOne(h, c, SaysUrl, "");
    LatestOne(h, c, SaysSecurity, "");
    LatestOne(h, c, SaysStarred, false);
    LatestOne(h, c, SaysStartPage, true);
  }

  lemma FrameOne(h: seq<Call>, c: Call)
    ensures Latest(h + [c], SaysAwaited, 0) == SaysAwaited(ContextIn(h), c, Latest(h, SaysAwaited, 0))
    ensures Latest(h + [c], SaysAwaiting, false) == SaysAwaiting(ContextIn(h), c, Latest(h, SaysAwaiting, false))
    ensures Latest(h + [c], SaysLoading, false) == SaysLoading(ContextIn(h), c, Latest(h, SaysLoading, false))
    ensures Latest(h + [c], SaysBack, false) == SaysBack(ContextIn(h), c, Latest(h, SaysBack, false))
    ensures Latest(h + [c], SaysForward, false) == SaysForward(ContextIn(h), c, Latest(h, SaysForward, false))
  {
    LatestOne(h, c, SaysAwaited, 0);
    LatestOne(h, c, SaysAwaiting, false);
    LatestOne(h, c, SaysLoading, false);
    LatestOne(h, c, SaysBack, false);
    LatestOne(h, c, SaysForward, false);
  }

  lemma FlagsOne(h: seq<Call>, c: Call)
    ensures Latest(h + [c], SaysFullscreen, false) == SaysFullscreen(ContextIn(h), c, Latest(h, SaysFullscreen, false))
    ensures Latest(h + [c], SaysKeyboard, false) == SaysKeyboard(ContextIn(h), c, Latest(h, SaysKeyboard, false))
    ensures Latest(h + [c], SaysEditable, false) == SaysEditable(ContextIn(h), c, Latest(h, SaysEditable, false))
    ensures Latest(h + [c], SaysEditableKind, "") == SaysEditableKind(ContextIn(h), c, Latest(h, SaysEditableKind, ""))
    ensures Latest(h + [c], SaysHasRect, false) == SaysHasRect(ContextIn(h), c, Latest(h, SaysHasRect, false))
    ensures Latest(h + [c], SaysRect, []) == SaysRect(ContextIn(h), c, Latest(h, SaysRect, []))
  {
    LatestOne(h, c, SaysFullscreen, false);
    LatestOne(h, c, SaysKeyboard, false);
    LatestOne(h, c, SaysEditable, false);
    LatestOne(h, c, SaysEditableKind, "");
    LatestOne(h, c, SaysHasRect, false);
    LatestOne(h, c, SaysRect, []);
  }

  lemma PageJoins(h: seq<Call>, c: Call, k: Context, p: Page, q: Page)
    requires k == ContextIn(h) && p == PageIn(h)
    requires q.tabs == SaysTabs(k, c, p.tabs) && ShowsActive(SaysActive(k, c, k.active), q) && q.url == SaysUrl(k, c, p.url)
    requires q.security == SaysSecurity(k, c, p.security) && q.starred == SaysStarred(k, c, p.starred) && q.startPage == SaysStartPage(k, c, p.startPage)
    requires q.awaited == SaysAwaited(k, c, p.awaited) && q.awaiting == SaysAwaiting(k, c, p.awaiting) && q.loading == SaysLoading(k, c, p.loading)
    requires q.back == SaysBack(k, c, p.back) && q.forward == SaysForward(k, c, p.forward)
    requires q.fullscreen == SaysFullscreen(k, c, p.fullscreen) && q.keyboard == SaysKeyboard(k, c, p.keyboard)
    requires q.editable == SaysEditable(k, c, p.editable) && q.editableKind == SaysEditableKind(k, c, p.editableKind)
    requires q.hasRect == SaysHasRect(k, c, p.hasRect) && q.rect == SaysRect(k, c, p.rect)
    ensures q == PageIn(h + [c])
  {
    TabsOne(h, c);
    FrameOne(h, c);
    FlagsOne(h, c);
  }

  lemma PageAgrees(h: seq<Call>, s: State, c: Call, p: Page, q: Page)
    requires p == s.view.page == PageIn(h) && q == Followed(s, c).view.page
    ensures q == PageIn(h + [c])
  {
    PageStep(ContextIn(h), s, c, p, q);
    PageJoins(h, c, ContextIn(h), p, q);
  }

  // So is every field of the rest.

  lemma ContentCleared(k: Context, c: Call, e: Event, a: Semantic, b: Semantic)
    requires c == Happened(e) && (e.Tabs? || e.Url? || e.Reset?) && ClearsContent(k, c) && b == ClearSemantic(a)
    ensures b.dialog == SaysDialog(k, c, a.dialog) && b.select == SaysSelect(k, c, a.select) && b.chooser == SaysChooser(k, c, a.chooser)
    ensures b.find == SaysFind(k, c, a.find) && b.reader == SaysReader(k, c, a.reader) && b.media == SaysMedia(k, c, a.media)
    ensures b.suggestions == SaysSuggestions(k, c, a.suggestions) && b.pageError == SaysPageError(k, c, a.pageError)
    ensures b.clipboard.id == SaysOffer(k, c, a.clipboard.id) && b.clipboard.text == SaysClipboardText(k, c, a.clipboard.text)
    ensures b.clipboard.pending == SaysPending(k, c, a.clipboard.pending)
    ensures b.clipboard.syncRequest == SaysSyncRequest(k, c, a.clipboard.syncRequest)
    ensures b.clipboard.syncEnabled == SaysSyncEnabled(k, c, a.clipboard.syncEnabled) && b.clipboard.known == SaysKnown(k, c, a.clipboard.known)
    ensures b.library.query == SaysQuery(k, c, a.library.query) && b.library.history == SaysHistoryCount(k, c, a.library.history)
    ensures b.library.bookmarks == SaysBookmarks(k, c, a.library.bookmarks) && b.library.offset == SaysOffset(k, c, a.library.offset)
    ensures b.library.total == SaysTotal(k, c, a.library.total) && b.downloads.name == SaysDownloadName(k, c, a.downloads.name)
    ensures b.downloads.count == SaysDownloadCount(k, c, a.downloads.count) && b.downloads.percent == SaysPercent(k, c, a.downloads.percent)
    ensures b.toast == SaysToast(k, c, a.toast) && b.videoGeneration == SaysVideo(k, c, a.videoGeneration)
  {
  }

  lemma ContentPaused(k: Context, c: Call, e: Event, a: Semantic, b: Semantic)
    requires c == Happened(e) && e.BrowserMode? && Pausing(e.mode) && b == ClearSemantic(a).(videoGeneration := 0)
    ensures b.dialog == SaysDialog(k, c, a.dialog) && b.select == SaysSelect(k, c, a.select) && b.chooser == SaysChooser(k, c, a.chooser)
    ensures b.find == SaysFind(k, c, a.find) && b.reader == SaysReader(k, c, a.reader) && b.media == SaysMedia(k, c, a.media)
    ensures b.suggestions == SaysSuggestions(k, c, a.suggestions) && b.pageError == SaysPageError(k, c, a.pageError)
    ensures b.clipboard.id == SaysOffer(k, c, a.clipboard.id) && b.clipboard.text == SaysClipboardText(k, c, a.clipboard.text)
    ensures b.clipboard.pending == SaysPending(k, c, a.clipboard.pending)
    ensures b.clipboard.syncRequest == SaysSyncRequest(k, c, a.clipboard.syncRequest)
    ensures b.clipboard.syncEnabled == SaysSyncEnabled(k, c, a.clipboard.syncEnabled) && b.clipboard.known == SaysKnown(k, c, a.clipboard.known)
    ensures b.library.query == SaysQuery(k, c, a.library.query) && b.library.history == SaysHistoryCount(k, c, a.library.history)
    ensures b.library.bookmarks == SaysBookmarks(k, c, a.library.bookmarks) && b.library.offset == SaysOffset(k, c, a.library.offset)
    ensures b.library.total == SaysTotal(k, c, a.library.total) && b.downloads.name == SaysDownloadName(k, c, a.downloads.name)
    ensures b.downloads.count == SaysDownloadCount(k, c, a.downloads.count) && b.downloads.percent == SaysPercent(k, c, a.downloads.percent)
    ensures b.toast == SaysToast(k, c, a.toast) && b.videoGeneration == SaysVideo(k, c, a.videoGeneration)
  {
  }

  lemma ContentOfBoth(k: Context, c: Call, e: Event, a: Semantic, b: Semantic)
    requires c == Happened(e) && (e.PageErrorEvent? || e.LibraryEvent?) && b == AfterContent(BlankPage, a, e)
    ensures b.dialog == SaysDialog(k, c, a.dialog) && b.select == SaysSelect(k, c, a.select) && b.chooser == SaysChooser(k, c, a.chooser)
    ensures b.find == SaysFind(k, c, a.find) && b.reader == SaysReader(k, c, a.reader) && b.media == SaysMedia(k, c, a.media)
    ensures b.suggestions == SaysSuggestions(k, c, a.suggestions) && b.pageError == SaysPageError(k, c, a.pageError)
    ensures b.clipboard.id == SaysOffer(k, c, a.clipboard.id) && b.clipboard.text == SaysClipboardText(k, c, a.clipboard.text)
    ensures b.clipboard.pending == SaysPending(k, c, a.clipboard.pending)
    ensures b.clipboard.syncRequest == SaysSyncRequest(k, c, a.clipboard.syncRequest)
    ensures b.clipboard.syncEnabled == SaysSyncEnabled(k, c, a.clipboard.syncEnabled) && b.clipboard.known == SaysKnown(k, c, a.clipboard.known)
    ensures b.library.query == SaysQuery(k, c, a.library.query) && b.library.history == SaysHistoryCount(k, c, a.library.history)
    ensures b.library.bookmarks == SaysBookmarks(k, c, a.library.bookmarks) && b.library.offset == SaysOffset(k, c, a.library.offset)
    ensures b.library.total == SaysTotal(k, c, a.library.total) && b.downloads.name == SaysDownloadName(k, c, a.downloads.name)
    ensures b.downloads.count == SaysDownloadCount(k, c, a.downloads.count) && b.downloads.percent == SaysPercent(k, c, a.downloads.percent)
    ensures b.toast == SaysToast(k, c, a.toast) && b.videoGeneration == SaysVideo(k, c, a.videoGeneration)
  {
  }

  lemma ContentOfDialogs(k: Context, c: Call, e: Event, a: Semantic, b: Semantic)
    requires c == Happened(e) && (e.DialogEvent? || e.DialogDone? || e.SelectEvent? || e.CompleteSelect?) && b == AfterSemantic(a, e)
    ensures b.dialog == SaysDialog(k, c, a.dialog) && b.select == SaysSelect(k, c, a.select) && b.chooser == SaysChooser(k, c, a.chooser)
    ensures b.find == SaysFind(k, c, a.find) && b.reader == SaysReader(k, c, a.reader) && b.media == SaysMedia(k, c, a.media)
    ensures b.suggestions == SaysSuggestions(k, c, a.suggestions) && b.pageError == SaysPageError(k, c, a.pageError)
    ensures b.clipboard.id == SaysOffer(k, c, a.clipboard.id) && b.clipboard.text == SaysClipboardText(k, c, a.clipboard.text)
    ensures b.clipboard.pending == SaysPending(k, c, a.clipboard.pending)
    ensures b.clipboard.syncRequest == SaysSyncRequest(k, c, a.clipboard.syncRequest)
    ensures b.clipboard.syncEnabled == SaysSyncEnabled(k, c, a.clipboard.syncEnabled) && b.clipboard.known == SaysKnown(k, c, a.clipboard.known)
    ensures b.library.query == SaysQuery(k, c, a.library.query) && b.library.history == SaysHistoryCount(k, c, a.library.history)
    ensures b.library.bookmarks == SaysBookmarks(k, c, a.library.bookmarks) && b.library.offset == SaysOffset(k, c, a.library.offset)
    ensures b.library.total == SaysTotal(k, c, a.library.total) && b.downloads.name == SaysDownloadName(k, c, a.downloads.name)
    ensures b.downloads.count == SaysDownloadCount(k, c, a.downloads.count) && b.downloads.percent == SaysPercent(k, c, a.downloads.percent)
    ensures b.toast == SaysToast(k, c, a.toast) && b.videoGeneration == SaysVideo(k, c, a.videoGeneration)
  {
  }

  lemma ContentOfChoosers(k: Context, c: Call, e: Event, a: Semantic, b: Semantic)
    requires c == Happened(e) && (e.FileChooserEvent? || e.CompleteFileChooser? || e.FoundEvent? || e.SuggestEvent?) && b == AfterSemantic(a, e)
    ensures b.dialog == SaysDialog(k, c, a.dialog) && b.select == SaysSelect(k, c, a.select) && b.chooser == SaysChooser(k, c, a.chooser)
    ensures b.find == SaysFind(k, c, a.find) && b.reader == SaysReader(k, c, a.reader) && b.media == SaysMedia(k, c, a.media)
    ensures b.suggestions == SaysSuggestions(k, c, a.suggestions) && b.pageError == SaysPageError(k, c, a.pageError)
    ensures b.clipboard.id == SaysOffer(k, c, a.clipboard.id) && b.clipboard.text == SaysClipboardText(k, c, a.clipboard.text)
    ensures b.clipboard.pending == SaysPending(k, c, a.clipboard.pending)
    ensures b.clipboard.syncRequest == SaysSyncRequest(k, c, a.clipboard.syncRequest)
    ensures b.clipboard.syncEnabled == SaysSyncEnabled(k, c, a.clipboard.syncEnabled) && b.clipboard.known == SaysKnown(k, c, a.clipboard.known)
    ensures b.library.query == SaysQuery(k, c, a.library.query) && b.library.history == SaysHistoryCount(k, c, a.library.history)
    ensures b.library.bookmarks == SaysBookmarks(k, c, a.library.bookmarks) && b.library.offset == SaysOffset(k, c, a.library.offset)
    ensures b.library.total == SaysTotal(k, c, a.library.total) && b.downloads.name == SaysDownloadName(k, c, a.downloads.name)
    ensures b.downloads.count == SaysDownloadCount(k, c, a.downloads.count) && b.downloads.percent == SaysPercent(k, c, a.downloads.percent)
    ensures b.toast == SaysToast(k, c, a.toast) && b.videoGeneration == SaysVideo(k, c, a.videoGeneration)
  {
  }

  lemma ContentOfLists(k: Context, c: Call, e: Event, a: Semantic, b: Semantic)
    requires c == Happened(e) && (e.HistoryEvent? || e.DownloadsEvent? || e.DownloadEvent? || e.DownloadProgress?) && b == AfterSemantic(a, e)
    ensures b.dialog == SaysDialog(k, c, a.dialog) && b.select == SaysSelect(k, c, a.select) && b.chooser == SaysChooser(k, c, a.chooser)
    ensures b.find == SaysFind(k, c, a.find) && b.reader == SaysReader(k, c, a.reader) && b.media == SaysMedia(k, c, a.media)
    ensures b.suggestions == SaysSuggestions(k, c, a.suggestions) && b.pageError == SaysPageError(k, c, a.pageError)
    ensures b.clipboard.id == SaysOffer(k, c, a.clipboard.id) && b.clipboard.text == SaysClipboardText(k, c, a.clipboard.text)
    ensures b.clipboard.pending == SaysPending(k, c, a.clipboard.pending)
    ensures b.clipboard.syncRequest == SaysSyncRequest(k, c, a.clipboard.syncRequest)
    ensures b.clipboard.syncEnabled == SaysSyncEnabled(k, c, a.clipboard.syncEnabled) && b.clipboard.known == SaysKnown(k, c, a.clipboard.known)
    ensures b.library.query == SaysQuery(k, c, a.library.query) && b.library.history == SaysHistoryCount(k, c, a.library.history)
    ensures b.library.bookmarks == SaysBookmarks(k, c, a.library.bookmarks) && b.library.offset == SaysOffset(k, c, a.library.offset)
    ensures b.library.total == SaysTotal(k, c, a.library.total) && b.downloads.name == SaysDownloadName(k, c, a.downloads.name)
    ensures b.downloads.count == SaysDownloadCount(k, c, a.downloads.count) && b.downloads.percent == SaysPercent(k, c, a.downloads.percent)
    ensures b.toast == SaysToast(k, c, a.toast) && b.videoGeneration == SaysVideo(k, c, a.videoGeneration)
  {
  }

  lemma ContentOfClipboard(k: Context, c: Call, e: Event, a: Semantic, b: Semantic)
    requires c == Happened(e) && (e.ClipboardEvent? || e.ClipboardSync? || e.CompleteClipboard?) && b == AfterSemantic(a, e)
    ensures b.dialog == SaysDialog(k, c, a.dialog) && b.select == SaysSelect(k, c, a.select) && b.chooser == SaysChooser(k, c, a.chooser)
    ensures b.find == SaysFind(k, c, a.find) && b.reader == SaysReader(k, c, a.reader) && b.media == SaysMedia(k, c, a.media)
    ensures b.suggestions == SaysSuggestions(k, c, a.suggestions) && b.pageError == SaysPageError(k, c, a.pageError)
    ensures b.clipboard.id == SaysOffer(k, c, a.clipboard.id) && b.clipboard.text == SaysClipboardText(k, c, a.clipboard.text)
    ensures b.clipboard.pending == SaysPending(k, c, a.clipboard.pending)
    ensures b.clipboard.syncRequest == SaysSyncRequest(k, c, a.clipboard.syncRequest)
    ensures b.clipboard.syncEnabled == SaysSyncEnabled(k, c, a.clipboard.syncEnabled) && b.clipboard.known == SaysKnown(k, c, a.clipboard.known)
    ensures b.library.query == SaysQuery(k, c, a.library.query) && b.library.history == SaysHistoryCount(k, c, a.library.history)
    ensures b.library.bookmarks == SaysBookmarks(k, c, a.library.bookmarks) && b.library.offset == SaysOffset(k, c, a.library.offset)
    ensures b.library.total == SaysTotal(k, c, a.library.total) && b.downloads.name == SaysDownloadName(k, c, a.downloads.name)
    ensures b.downloads.count == SaysDownloadCount(k, c, a.downloads.count) && b.downloads.percent == SaysPercent(k, c, a.downloads.percent)
    ensures b.toast == SaysToast(k, c, a.toast) && b.videoGeneration == SaysVideo(k, c, a.videoGeneration)
  {
  }

  lemma ContentOfReader(k: Context, c: Call, e: Event, a: Semantic, b: Semantic)
    requires c == Happened(e) && (e.ReaderEvent? || e.MediaEvent? || e.ToastEvent? || e.CompleteToast? || e.VideoConfig?) && b == AfterSemantic(a, e)
    ensures b.dialog == SaysDialog(k, c, a.dialog) && b.select == SaysSelect(k, c, a.select) && b.chooser == SaysChooser(k, c, a.chooser)
    ensures b.find == SaysFind(k, c, a.find) && b.reader == SaysReader(k, c, a.reader) && b.media == SaysMedia(k, c, a.media)
    ensures b.suggestions == SaysSuggestions(k, c, a.suggestions) && b.pageError == SaysPageError(k, c, a.pageError)
    ensures b.clipboard.id == SaysOffer(k, c, a.clipboard.id) && b.clipboard.text == SaysClipboardText(k, c, a.clipboard.text)
    ensures b.clipboard.pending == SaysPending(k, c, a.clipboard.pending)
    ensures b.clipboard.syncRequest == SaysSyncRequest(k, c, a.clipboard.syncRequest)
    ensures b.clipboard.syncEnabled == SaysSyncEnabled(k, c, a.clipboard.syncEnabled) && b.clipboard.known == SaysKnown(k, c, a.clipboard.known)
    ensures b.library.query == SaysQuery(k, c, a.library.query) && b.library.history == SaysHistoryCount(k, c, a.library.history)
    ensures b.library.bookmarks == SaysBookmarks(k, c, a.library.bookmarks) && b.library.offset == SaysOffset(k, c, a.library.offset)
    ensures b.library.total == SaysTotal(k, c, a.library.total) && b.downloads.name == SaysDownloadName(k, c, a.downloads.name)
    ensures b.downloads.count == SaysDownloadCount(k, c, a.downloads.count) && b.downloads.percent == SaysPercent(k, c, a.downloads.percent)
    ensures b.toast == SaysToast(k, c, a.toast) && b.videoGeneration == SaysVideo(k, c, a.videoGeneration)
  {
  }

  /** No event of the rest. */
  predicate LeavesContent(k: Context, e: Event) {
    !SemanticOnly(e) && !ClearsContent(k, Happened(e)) && !e.PageErrorEvent? && !e.LibraryEvent?
  }

  lemma ContentStays(k: Context, c: Call, e: Event, a: Semantic, b: Semantic)
    requires c == Happened(e) && LeavesContent(k, e) && b == a
    ensures b.dialog == SaysDialog(k, c, a.dialog) && b.select == SaysSelect(k, c, a.select) && b.chooser == SaysChooser(k, c, a.chooser)
    ensures b.find == SaysFind(k, c, a.find) && b.reader == SaysReader(k, c, a.reader) && b.media == SaysMedia(k, c, a.media)
    ensures b.suggestions == SaysSuggestions(k, c, a.suggestions) && b.pageError == SaysPageError(k, c, a.pageError)
    ensures b.clipboard.id == SaysOffer(k, c, a.clipboard.id) && b.clipboard.text == SaysClipboardText(k, c, a.clipboard.text)
    ensures b.clipboard.pending == SaysPending(k, c, a.clipboard.pending)
    ensures b.clipboard.syncRequest == SaysSyncRequest(k, c, a.clipboard.syncRequest)
    ensures b.clipboard.syncEnabled == SaysSyncEnabled(k, c, a.clipboard.syncEnabled) && b.clipboard.known == SaysKnown(k, c, a.clipboard.known)
    ensures b.library.query == SaysQuery(k, c, a.library.query) && b.library.history == SaysHistoryCount(k, c, a.library.history)
    ensures b.library.bookmarks == SaysBookmarks(k, c, a.library.bookmarks) && b.library.offset == SaysOffset(k, c, a.library.offset)
    ensures b.library.total == SaysTotal(k, c, a.library.total) && b.downloads.name == SaysDownloadName(k, c, a.downloads.name)
    ensures b.downloads.count == SaysDownloadCount(k, c, a.downloads.count) && b.downloads.percent == SaysPercent(k, c, a.downloads.percent)
    ensures b.toast == SaysToast(k, c, a.toast) && b.videoGeneration == SaysVideo(k, c, a.videoGeneration)
  {
  }

  lemma ContentOfSemantic(k: Context, c: Call, e: Event, a: Semantic, b: Semantic)
    requires c == Happened(e) && SemanticOnly(e) && b == AfterSemantic(a, e)
    ensures b.dialog == SaysDialog(k, c, a.dialog) && b.select == SaysSelect(k, c, a.select) && b.chooser == SaysChooser(k, c, a.chooser)
    ensures b.find == SaysFind(k, c, a.find) && b.reader == SaysReader(k, c, a.reader) && b.media == SaysMedia(k, c, a.media)
    ensures b.suggestions == SaysSuggestions(k, c, a.suggestions) && b.pageError == SaysPageError(k, c, a.pageError)
    ensures b.clipboard.id == SaysOffer(k, c, a.clipboard.id) && b.clipboard.text == SaysClipboardText(k, c, a.clipboard.text)
    ensures b.clipboard.pending == SaysPending(k, c, a.clipboard.pending)
    ensures b.clipboard.syncRequest == SaysSyncRequest(k, c, a.clipboard.syncRequest)
    ensures b.clipboard.syncEnabled == SaysSyncEnabled(k, c, a.clipboard.syncEnabled) && b.clipboard.known == SaysKnown(k, c, a.clipboard.known)
    ensures b.library.query == SaysQuery(k, c, a.library.query) && b.library.history == SaysHistoryCount(k, c, a.library.history)
    ensures b.library.bookmarks == SaysBookmarks(k, c, a.library.bookmarks) && b.library.offset == SaysOffset(k, c, a.library.offset)
    ensures b.library.total == SaysTotal(k, c, a.library.total) && b.downloads.name == SaysDownloadName(k, c, a.downloads.name)
    ensures b.downloads.count == SaysDownloadCount(k, c, a.downloads.count) && b.downloads.percent == SaysPercent(k, c, a.downloads.percent)
    ensures b.toast == SaysToast(k, c, a.toast) && b.videoGeneration == SaysVideo(k, c, a.videoGeneration)
  {
    if e.DialogEvent? || e.DialogDone? || e.SelectEvent? || e.CompleteSelect? {
      ContentOfDialogs(k, c, e, a, b);
    } else if e.FileChooserEvent? || e.CompleteFileChooser? || e.FoundEvent? || e.SuggestEvent? {
      ContentOfChoosers(k, c, e, a, b);
    } else if e.HistoryEvent? || e.DownloadsEvent? || e.DownloadEvent? || e.DownloadProgress? {
      ContentOfLists(k, c, e, a, b);
    } else if e.ClipboardEvent? || e.ClipboardSync? || e.CompleteClipboard? {
      ContentOfClipboard(k, c, e, a, b);
    } else {
      ContentOfReader(k, c, e, a, b);
    }
  }

  lemma ContentOfEvent(k: Context, c: Call, e: Event, p: Page, a: Semantic, b: Semantic)
    requires InContext(k, p) && c == Happened(e) && b == AfterContent(p, a, e)
    ensures b.dialog == SaysDialog(k, c, a.dialog) && b.select == SaysSelect(k, c, a.select) && b.chooser == SaysChooser(k, c, a.chooser)
    ensures b.find == SaysFind(k, c, a.find) && b.reader == SaysReader(k, c, a.reader) && b.media == SaysMedia(k, c, a.media)
    ensures b.suggestions == SaysSuggestions(k, c, a.suggestions) && b.pageError == SaysPageError(k, c, a.pageError)
    ensures b.clipboard.id == SaysOffer(k, c, a.clipboard.id) && b.clipboard.text == SaysClipboardText(k, c, a.clipboard.text)
    ensures b.clipboard.pending == SaysPending(k, c, a.clipboard.pending)
    ensures b.clipboard.syncRequest == SaysSyncRequest(k, c, a.clipboard.syncRequest)
    ensures b.clipboard.syncEnabled == SaysSyncEnabled(k, c, a.clipboard.syncEnabled) && b.clipboard.known == SaysKnown(k, c, a.clipboard.known)
    ensures b.library.query == SaysQuery(k, c, a.library.query) && b.library.history == SaysHistoryCount(k, c, a.library.history)
    ensures b.library.bookmarks == SaysBookmarks(k, c, a.library.bookmarks) && b.library.offset == SaysOffset(k, c, a.library.offset)
    ensures b.library.total == SaysTotal(k, c, a.library.total) && b.downloads.name == SaysDownloadName(k, c, a.downloads.name)
    ensures b.downloads.count == SaysDownloadCount(k, c, a.downloads.count) && b.downloads.percent == SaysPercent(k, c, a.downloads.percent)
    ensures b.toast == SaysToast(k, c, a.toast) && b.videoGeneration == SaysVideo(k, c, a.videoGeneration)
  {
    if SemanticOnly(e) {
      ContentOfSemantic(k, c, e, a, b);
    } else if e.PageErrorEvent? || e.LibraryEvent? {
      ContentOfBoth(k, c, e, a, b);
    } else if e.BrowserMode? && Pausing(e.mode) {
      ContentPaused(k, c, e, a, b);
    } else {
      if e.Tabs? {
        TabChangesInContext(k, p, e.items);
      }
      if ClearsContent(k, c) {
        ContentCleared(k, c, e, a, b);
      } else {
        ContentStays(k, c, e, a, b);
      }
    }
  }

  lemma ContentStep(k: Context, s: State, c: Call, a: Semantic, b: Semantic)
    requires InContext(k, s.view.page) && a == s.view.semantic && b == Followed(s, c).view.semantic
    ensures b.dialog == SaysDialog(k, c, a.dialog) && b.select == SaysSelect(k, c, a.select) && b.chooser == SaysChooser(k, c, a.chooser)
    ensures b.find == SaysFind(k, c, a.find) && b.reader == SaysReader(k, c, a.reader) && b.media == SaysMedia(k, c, a.media)
    ensures b.suggestions == SaysSuggestions(k, c, a.suggestions) && b.pageError == SaysPageError(k, c, a.pageError)
    ensures b.clipboard.id == SaysOffer(k, c, a.clipboard.id) && b.clipboard.text == SaysClipboardText(k, c, a.clipboard.text)
    ensures b.clipboard.pending == SaysPending(k, c, a.clipboard.pending)
    ensures b.clipboard.syncRequest == SaysSyncRequest(k, c, a.clipboard.syncRequest)
    ensures b.clipboard.syncEnabled == SaysSyncEnabled(k, c, a.clipboard.syncEnabled) && b.clipboard.known == SaysKnown(k, c, a.clipboard.known)
    ensures b.library.query == SaysQuery(k, c, a.library.query) && b.library.history == SaysHistoryCount(k, c, a.library.history)
    ensures b.library.bookmarks == SaysBookmarks(k, c, a.library.bookmarks) && b.library.offset == SaysOffset(k, c, a.library.offset)
    ensures b.library.total == SaysTotal(k, c, a.library.total) && b.downloads.name == SaysDownloadName(k, c, a.downloads.name)
    ensures b.downloads.count == SaysDownloadCount(k, c, a.downloads.count) && b.downloads.percent == SaysPercent(k, c, a.downloads.percent)
    ensures b.toast == SaysToast(k, c, a.toast) && b.videoGeneration == SaysVideo(k, c, a.videoGeneration)
  {
    match c
    case Happened(e) => ContentOfEvent(k, c, e, s.view.page, a, b);
    case Connected(_) =>
    case Took(_) =>
  }

  lemma DialogsOne(h: seq<Call>, c: Call)
    ensures Latest(h + [c], SaysDialog, Dialog("", "", "", false)) == SaysDialog(ContextIn(h), c, Latest(h, SaysDialog, Dialog("", "", "", false)))
    ensures Latest(h + [c], SaysSelect, Select("", "", false, false, 0)) == SaysSelect(ContextIn(h), c, Latest(h, SaysSelect, Select("", "", false, false, 0)))
    ensures Latest(h + [c], SaysChooser, Chooser(false, false)) == SaysChooser(ContextIn(h), c, Latest(h, SaysChooser, Chooser(false, false)))
    ensures Latest(h + [c], SaysFind, Find(false, false)) == SaysFind(ContextIn(h), c, Latest(h, SaysFind, Find(false, false)))
    ensures Latest(h + [c], SaysReader, Reader("", "", false)) == SaysReader(ContextIn(h), c, Latest(h, SaysReader, Reader("", "", false)))
  {
    LatestOne(h, c, SaysDialog, Dialog("", "", "", false));
    LatestOne(h, c, SaysSelect, Select("", "", false, false, 0));
    LatestOne(h, c, SaysChooser, Chooser(false, false));
    LatestOne(h, c, SaysFind, Find(false, false));
    LatestOne(h, c, SaysReader, Reader("", "", false));
  }

  lemma ContentOne(h: seq<Call>, c: Call)
    ensures Latest(h + [c], SaysMedia, Media("", false, 0, false, false, 0.0, 0.0, 0.0)) == SaysMedia(ContextIn(h), c, Latest(h, SaysMedia, Media("", false, 0, false, false, 0.0, 0.0, 0.0)))
    ensures Latest(h + [c], SaysSuggestions, 0) == SaysSuggestions(ContextIn(h), c, Latest(h, SaysSuggestions, 0))
    ensures Latest(h + [c], SaysPageError, "") == SaysPageError(ContextIn(h), c, Latest(h, SaysPageError, ""))
    ensures Latest(h + [c], SaysToast, "") == SaysToast(ContextIn(h), c, Latest(h, SaysToast, ""))
    ensures Latest(h + [c], SaysVideo, 0) == SaysVideo(ContextIn(h), c, Latest(h, SaysVideo, 0))
  {
    LatestOne(h, c, SaysMedia, Media("", false, 0, false, false, 0.0, 0.0, 0.0));
    LatestOne(h, c, SaysSuggestions, 0);
    LatestOne(h, c, SaysPageError, "");
    LatestOne(h, c, SaysToast, "");
    LatestOne(h, c, SaysVideo, 0);
  }

  lemma ClipboardOne(h: seq<Call>, c: Call)
    ensures Latest(h + [c], SaysOffer, "") == SaysOffer(ContextIn(h), c, Latest(h, SaysOffer, ""))
    ensures Latest(h + [c], SaysClipboardText, "") == SaysClipboardText(ContextIn(h), c, Latest(h, SaysClipboardText, ""))
    ensures Latest(h + [c], SaysPending, false) == SaysPending(ContextIn(h), c, Latest(h, SaysPending, false))
    ensures Latest(h + [c], SaysSyncRequest, false) == SaysSyncRequest(ContextIn(h), c, Latest(h, SaysSyncRequest, false))
    ensures Latest(h + [c], SaysSyncEnabled, false) == SaysSyncEnabled(ContextIn(h), c, Latest(h, SaysSyncEnabled, false))
    ensures Latest(h + [c], SaysKnown, false) == SaysKnown(ContextIn(h), c, Latest(h, SaysKnown, false))
  {
    LatestOne(h, c, SaysOffer, "");
    LatestOne(h, c, SaysClipboardText, "");
    LatestOne(h, c, SaysPending, false);
    LatestOne(h, c, SaysSyncRequest, false);
    LatestOne(h, c, SaysSyncEnabled, false);
    LatestOne(h, c, SaysKnown, false);
  }

  lemma ListsOne(h: seq<Call>, c: Call)
    ensures Latest(h + [c], SaysQuery, "") == SaysQuery(ContextIn(h), c, Latest(h, SaysQuery, ""))
    ensures Latest(h + [c], SaysHistoryCount, 0) == SaysHistoryCount(ContextIn(h), c, Latest(h, SaysHistoryCount, 0))
    ensures Latest(h + [c], SaysBookmarks, 0) == SaysBookmarks(ContextIn(h), c, Latest(h, SaysBookmarks, 0))
    ensures Latest(h + [c], SaysOffset, 0) == SaysOffset(ContextIn(h), c, Latest(h, SaysOffset, 0))
    ensures Latest(h + [c], SaysTotal, 0) == SaysTotal(ContextIn(h), c, Latest(h, SaysTotal, 0))
    ensures Latest(h + [c], SaysDownloadName, "") == SaysDownloadName(ContextIn(h), c, Latest(h, SaysDownloadName, ""))
    ensures Latest(h + [c], SaysDownloadCount, 0) == SaysDownloadCount(ContextIn(h), c, Latest(h, SaysDownloadCount, 0))
    ensures Latest(h + [c], SaysPercent, 0) == SaysPercent(ContextIn(h), c, Latest(h, SaysPercent, 0))
  {
    LatestOne(h, c, SaysQuery, "");
    LatestOne(h, c, SaysHistoryCount, 0);
    LatestOne(h, c, SaysBookmarks, 0);
    LatestOne(h, c, SaysOffset, 0);
    LatestOne(h, c, SaysTotal, 0);
    LatestOne(h, c, SaysDownloadName, "");
    LatestOne(h, c, SaysDownloadCount, 0);
    LatestOne(h, c, SaysPercent, 0);
  }

  lemma ContentJoins(h: seq<Call>, c: Call, k: Context, a: Semantic, b: Semantic)
    requires k == ContextIn(h) && a == ContentIn(h)
    requires b.dialog == SaysDialog(k, c, a.dialog) && b.select == SaysSelect(k, c, a.select) && b.chooser == SaysChooser(k, c, a.chooser)
    requires b.find == SaysFind(k, c, a.find) && b.reader == SaysReader(k, c, a.reader) && b.media == SaysMedia(k, c, a.media)
    requires b.suggestions == SaysSuggestions(k, c, a.suggestions) && b.pageError == SaysPageError(k, c, a.pageError)
    requires b.clipboard.id == SaysOffer(k, c, a.clipboard.id) && b.clipboard.text == SaysClipboardText(k, c, a.clipboard.text)
    requires b.clipboard.pending == SaysPending(k, c, a.clipboard.pending)
    requires b.clipboard.syncRequest == SaysSyncRequest(k, c, a.clipboard.syncRequest)
    requires b.clipboard.syncEnabled == SaysSyncEnabled(k, c, a.clipboard.syncEnabled) && b.clipboard.known == SaysKnown(k, c, a.clipboard.known)
    requires b.library.query == SaysQuery(k, c, a.library.query) && b.library.history == SaysHistoryCount(k, c, a.library.history)
    requires b.library.bookmarks == SaysBookmarks(k, c, a.library.bookmarks) && b.library.offset == SaysOffset(k, c, a.library.offset)
    requires b.library.total == SaysTotal(k, c, a.library.total) && b.downloads.name == SaysDownloadName(k, c, a.downloads.name)
    requires b.downloads.count == SaysDownloadCount(k, c, a.downloads.count) && b.downloads.percent == SaysPercent(k, c, a.downloads.percent)
    requires b.toast == SaysToast(k, c, a.toast) && b.videoGeneration == SaysVideo(k, c, a.videoGeneration)
    ensures b == ContentIn(h + [c])
  {
    DialogsOne(h, c);
    ContentOne(h, c);
    ClipboardOne(h, c);
    ListsOne(h, c);
  }

  lemma ContentAgrees(h: seq<Call>, s: State, c: Call, a: Semantic, b: Semantic)
    requires s.view.page == PageIn(h) && a == s.view.semantic == ContentIn(h) && b == Followed(s, c).view.semantic
    ensures b == ContentIn(h + [c])
  {
    ContentStep(ContextIn(h), s, c, a, b);
    ContentJoins(h, c, ContextIn(h), a, b);
  }

  lemma ModeAgrees(h: seq<Call>, s: State, c: Call)
    requires s.view.mode == ModeIn(h)
    ensures Followed(s, c).view.mode == ModeIn(h + [c])
  {
    LatestOne(h, c, SaysMode, BlankMode);
  }

  // ---- Every history ---------------------------------------------------------------------------------

  /**
    * After every sequence of calls each field of the three snapshots is what the last call
    * that concerns it said. In particular the client is paused exactly when the last mode it
    * was told of is not streaming, the video generation is zero from a pause to the next
    * video configuration, and a pause leaves no transient field of the page behind.
    */
  lemma {:induction false} ShownIsLatest(h: seq<Call>)
    ensures Played(h).view == View(PageIn(h), ContentIn(h), ModeIn(h))
    decreases |h|
  {
    if h != [] {
      var front, c := h[..|h| - 1], h[|h| - 1];
      var s := Played(front);
      ShownIsLatest(front);
      assert front + [c] == h;
      PageAgrees(front, s, c, s.view.page, Followed(s, c).view.page);
      ContentAgrees(front, s, c, s.view.semantic, Followed(s, c).view.semantic);
      ModeAgrees(front, s, c);
    }
  }

  predicate TellsMode(c: Call) {
    c.Connected? || (c.Happened? && c.e.BrowserMode?)
  }

  predicate TellsVideo(c: Call) {
    c.Happened? && c.e.VideoConfig?
  }

  lemma {:induction false} ModeLasts(h: seq<Call>, i: nat)
    requires i < |h| && TellsMode(h[i]) && forall j :: i < j < |h| ==> !TellsMode(h[j])
    ensures ModeIn(h) == SaysMode(ContextIn(h[..i]), h[i], ModeIn(h[..i]))
    ensures (forall j :: i < j < |h| ==> !TellsVideo(h[j])) && (Pauses(h[i]) || h[i].Connected?) ==> Latest(h, SaysVideo, 0) == 0
    decreases |h|
  {
    var front := h[..|h| - 1];
    if i < |front| {
      ModeLasts(front, i);
      assert front[..i] == h[..i];
    }
  }

  /**
    * The client is paused exactly when the mode it was last told of on this connection is not
    * streaming, however long ago that was and whatever came since; and then no video generation is
    * known until the next video configuration.
    */
  lemma PausedExactly(h: seq<Call>, i: nat)
    requires i < |h| && h[i].Happened? && h[i].e.BrowserMode? && forall j :: i < j < |h| ==> !TellsMode(h[j])
    ensures Played(h).view.mode.paused <==> h[i].e.mode.state != "streaming"
    ensures Played(h).view.mode.paused && (forall j :: i < j < |h| ==> !TellsVideo(h[j])) ==> Played(h).view.semantic.videoGeneration == 0
  {
    ShownIsLatest(h);
    ModeLasts(h, i);
  }

  // ---- The effects ------------------------------------------------------------------------------------

  lemma QueuedIn(es: seq<Effect>, a: Effect, x: Effect)
    ensures x in Queued(es, a) <==> x == a || (x in es && !(IsKeyboard(a) && IsKeyboard(x)))
  {
    WithoutKeyboardIs(es);
  }

  lemma Queue2In(es: seq<Effect>, first: bool, a: Effect, second: bool, b: Effect, x: Effect)
    requires !IsKeyboard(a)
    ensures x in Queue2(es, first, a, second, b) <==>
              (first && x == a) || (second && x == b) || (x in es && !(second && IsKeyboard(b) && IsKeyboard(x)))
  {
    QueuedIn(es, a, x);
    QueuedIn(if first then Queued(es, a) else es, b, x);
  }

  /** The keyboard effect that waits. */
  function KeyboardWaiting(es: seq<Effect>): Option<Effect> {
    if ShowKeyboard in es then Some(ShowKeyboard) else if HideKeyboard in es then Some(HideKeyboard) else None
  }

  /** The effects are as the call says. */
  predicate EffectsMove(k: Context, c: Call, before: seq<Effect>, after: seq<Effect>) {
    && (ClearPagePresentation in after <==> SaysClearing(k, c, ClearPagePresentation in before))
    && (RequestLibrary in after <==> SaysAsking(k, c, RequestLibrary in before))
    && KeyboardWaiting(after) == SaysKeyboardEffect(k, c, KeyboardWaiting(before))
  }

  lemma Queue2Waiting(es: seq<Effect>, first: bool, a: Effect, second: bool, b: Effect)
    requires a == ClearPagePresentation
    ensures var after := Queue2(es, first, a, second, b);
            && (ClearPagePresentation in after <==> first || (second && b == ClearPagePresentation) || ClearPagePresentation in es)
            && (RequestLibrary in after <==> (second && b == RequestLibrary) || RequestLibrary in es)
            && KeyboardWaiting(after) == if second && IsKeyboard(b) then Some(b) else KeyboardWaiting(es)
  {
    Queue2In(es, first, a, second, b, ClearPagePresentation);
    Queue2In(es, first, a, second, b, RequestLibrary);
    Queue2In(es, first, a, second, b, ShowKeyboard);
    Queue2In(es, first, a, second, b, HideKeyboard);
  }

  lemma EffectsOfEditable(k: Context, c: Call, e: Event, p: Page, es: seq<Effect>)
    requires InContext(k, p) && c == Happened(e) && Distinct(es) && e.Editable?
    ensures EffectsMove(k, c, es, AfterEffects(p, es, e))
  {
    if e.on {
      Queue2Waiting(es, false, ClearPagePresentation, e.showKeyboard || p.keyboard, ShowKeyboard);
    } else {
      Queue2Waiting(es, false, ClearPagePresentation, p.keyboard, HideKeyboard);
    }
  }

  lemma EffectsOfTabs(k: Context, c: Call, e: Event, p: Page, es: seq<Effect>)
    requires InContext(k, p) && c == Happened(e) && Distinct(es) && e.Tabs?
    ensures EffectsMove(k, c, es, AfterEffects(p, es, e))
  {
    TabChangesInContext(k, p, e.items);
    Queue2Waiting(es, p.hasActive, ClearPagePresentation, p.keyboard, HideKeyboard);
  }

  lemma EffectsOfUrl(k: Context, c: Call, e: Event, p: Page, es: seq<Effect>, newTab: bool)
    requires InContext(k, p) && c == Happened(e) && Distinct(es) && e.Url? && newTab == OpensNewTab(c)
    ensures EffectsMove(k, c, es, Queue2(es, UrlChanges(p, e.url), ClearPagePresentation, newTab, RequestLibrary))
  {
    Queue2Waiting(es, UrlChanges(p, e.url), ClearPagePresentation, newTab, RequestLibrary);
  }

  lemma EffectsOfMode(k: Context, c: Call, e: Event, p: Page, es: seq<Effect>)
    requires c == Happened(e) && e.BrowserMode?
    ensures EffectsMove(k, c, es, AfterEffects(p, es, e))
  {
    Queue2Waiting(es, true, ClearPagePresentation, true, HideKeyboard);
  }

  lemma EffectsOfOthers(k: Context, c: Call, e: Event, p: Page, es: seq<Effect>)
    requires c == Happened(e) && !e.Tabs? && !e.Url? && !e.BrowserMode? && !e.Editable?
    ensures EffectsMove(k, c, es, AfterEffects(p, es, e))
  {
  }

  lemma EffectsOfEvent(k: Context, c: Call, e: Event, p: Page, es: seq<Effect>)
    requires InContext(k, p) && c == Happened(e) && Distinct(es)
    ensures EffectsMove(k, c, es, AfterEffects(p, es, e))
  {
    if e.Tabs? {
      EffectsOfTabs(k, c, e, p, es);
    } else if e.Url? {
      EffectsOfUrl(k, c, e, p, es, OpensNewTab(c));
    } else if e.BrowserMode? {
      EffectsOfMode(k, c, e, p, es);
    } else if e.Editable? {
      EffectsOfEditable(k, c, e, p, es);
    } else {
      EffectsOfOthers(k, c, e, p, es);
    }
  }

  lemma EffectsOfTaking(k: Context, es: seq<Effect>)
    requires Distinct(es) && es != []
    ensures Distinct(es[1..]) && EffectsMove(k, Took(es[0]), es, es[1..])
  {
    forall i, j | 0 <= i < j < |es[1..]| ensures Apart(es[1..][i], es[1..][j]) {
      assert Apart(es[i + 1], es[j + 1]);
    }
    forall x | x in es[1..] ensures Apart(es[0], x) {
      var j: nat :| j < |es[1..]| && es[1..][j] == x;
      assert Apart(es[0], es[j + 1]);
    }
    assert es == [es[0]] + es[1..];
  }

  /** Whether an effect waits, from the history alone. */
  predicate EffectsAgree(h: seq<Call>, es: seq<Effect>) {
    && Distinct(es)
    && (ClearPagePresentation in es <==> Latest(h, SaysClearing, false))
    && (RequestLibrary in es <==> Latest(h, SaysAsking, false))
    && KeyboardWaiting(es) == Latest(h, SaysKeyboardEffect, None)
  }

  lemma EffectsJoin(h: seq<Call>, c: Call, before: seq<Effect>, after: seq<Effect>)
    requires EffectsAgree(h, before) && EffectsMove(ContextIn(h), c, before, after) && Distinct(after)
    ensures EffectsAgree(h + [c], after)
  {
    LatestOne(h, c, SaysClearing, false);
    LatestOne(h, c, SaysAsking, false);
    LatestOne(h, c, SaysKeyboardEffect, None);
  }

  lemma EffectsStep(h: seq<Call>, s: State, c: Call, after: seq<Effect>)
    requires s.view.page == PageIn(h) && EffectsAgree(h, s.effects) && after == Followed(s, c).effects
    requires c.Took? ==> s.effects != [] && s.effects[0] == c.effect
    ensures EffectsAgree(h + [c], after)
  {
    var k := ContextIn(h);
    match c {
      case Happened(e) =>
        EffectsOfEvent(k, c, e, s.view.page, s.effects);
        AfterKeepsDistinct(s, e);
      case Connected(_) =>
      case Took(_) => EffectsOfTaking(k, s.effects);
    }
    EffectsJoin(h, c, s.effects, after);
  }

  /**
    * After every sequence of calls in which effects are handed out oldest first: an effect waits
    * exactly when a call has asked for it since it was last handed out or everything was cleared,
    * and of the keyboard effects the one asked for last.
    */
  lemma {:induction false} WaitingIsLatest(h: seq<Call>)
    requires Real(h)
    ensures EffectsAgree(h, Played(h).effects)
    decreases |h|
  {
    if h != [] {
      var front, c := h[..|h| - 1], h[|h| - 1];
      WaitingIsLatest(front);
      ShownIsLatest(front);
      assert front + [c] == h;
      EffectsStep(front, Played(front), c, Followed(Played(front), c).effects);
    }
  }
}
