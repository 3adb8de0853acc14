/**
  * The client core's reducer. Strings are copied through an allocator that may refuse
  * at any point; an event then leaves no trace.
  */
module ClientCores {
  import opened Options
  import opened EffectRings

  const MAX_URL: nat := 8192
  const MAX_TITLE: nat := 2048
  const MAX_ICON: nat := 8192
  const MAX_SHORT_TEXT: nat := 128
  const MAX_CONTENT: nat := 1048576
  const NEW_TAB: string := "about:blank#surf-new"

  datatype Result = Okay | ErrorArgument | ErrorLimit | ErrorAllocate | ErrorState

  /** `host` is the host name in the URL, or empty. */
  datatype Tab = Tab(id: int, title: string, url: string, icon: string, active: bool, host: string)

  datatype Page = Page(tabs: seq<Tab>, activeId: int, hasActive: bool, activeTitle: string, url: string, security: string,
                       startPage: bool, loading: bool, back: bool, forward: bool, starred: bool, fullscreen: bool,
                       editable: bool, hasRect: bool, rect: seq<real>, editableKind: string, keyboard: bool, awaiting: bool, awaited: nat)

  datatype Dialog = Dialog(kind: string, text: string, default_: string, active: bool)
  datatype Select = Select(id: string, title: string, active: bool, multiple: bool, options: nat)
  datatype Chooser = Chooser(active: bool, multiple: bool)
  datatype Find = Find(known: bool, found: bool)
  datatype Clipboard = Clipboard(id: string, text: string, pending: bool, syncRequest: bool, syncEnabled: bool, known: bool)
  datatype Reader = Reader(title: string, url: string, available: bool)
  datatype Media = Media(title: string, available: bool, count: int, paused: bool, muted: bool, volume: real, current: real, duration: real)
  datatype Library = Library(query: string, history: nat, bookmarks: nat, offset: int, total: int)
  datatype Downloads = Downloads(name: string, count: nat, percent: int)

  datatype Semantic = Semantic(dialog: Dialog, select: Select, chooser: Chooser, find: Find, clipboard: Clipboard, reader: Reader, media: Media,
                               library: Library, downloads: Downloads, suggestions: nat, pageError: string, toast: string, videoGeneration: nat)

  datatype Mode = Mode(state: string, host: string, message: string, revision: nat, paused: bool, standalone: bool, canForce: bool)

  /** What the three snapshots show. */
  datatype View = View(page: Page, semantic: Semantic, mode: Mode)

  datatype State = State(view: View, effects: seq<Effect>, revision: nat, connection: nat)

  const BlankPage := Page([], 0, false, "", "", "", true, false, false, false, false, false, false, false, [], "", false, false, 0)
  const NoDialog := Dialog("", "", "", false)
  const NoSelect := Select("", "", false, false, 0)
  const NoReader := Reader("", "", false)
  const NoMedia := Media("", false, 0, false, false, 0.0, 0.0, 0.0)
  const BlankSemantic := Semantic(NoDialog, NoSelect, Chooser(false, false), Find(false, false), Clipboard("", "", false, false, false, false),
                                  NoReader, NoMedia, Library("", 0, 0, 0, 0), Downloads("", 0, 0), 0, "", "", 0)
  const BlankMode := Mode("", "", "", 0, false, false, false)

  datatype Event =
    | Reset
    | Tabs(items: seq<Tab>)
    | Url(url: string, security: string, starred: bool)
    | HistoryState(back: bool, forward: bool)
    | Loading(on: bool)
    | Editable(on: bool, showKeyboard: bool, kind: string, hasRect: bool, rect: seq<real>)
    | Fullscreen(on: bool)
    | Security(state: string)
    | Starred(on: bool)
    | PageFrame(sequence: nat)
    | FramePresented(sequence: nat)
    | KeyboardVisibility(on: bool)
    | BrowserMode(mode: Mode)
    | PageErrorEvent(url: string, security: string, starred: bool)
    | LibraryEvent(history: nat, bookmarks: nat, starred: bool)
    | DialogEvent(kind: string, text: string, default_: string)
    | DialogDone
    | SelectEvent(id: string, title: string, multiple: bool, options: nat)
    | FileChooserEvent(multiple: bool)
    | FoundEvent(on: bool)
    | SuggestEvent(count: nat)
    | HistoryEvent(query: string, count: nat, offset: int, total: int)
    | DownloadsEvent(count: nat)
    | DownloadEvent(name: string)
    | DownloadProgress(name: string, percent: int)
    | ClipboardEvent(id: string, text: string, sync: bool)
    | ClipboardSync(enabled: bool, known: bool, text: string)
    | ReaderEvent(ok: bool, title: string, url: string)
    | MediaEvent(media: Media)
    | ToastEvent(text: string)
    | VideoConfig(generation: nat)
    | CompleteSelect
    | CompleteFileChooser
    | CompleteClipboard
    | CompleteToast
    | Passive

  /** The events that the semantic snapshot alone shows. */
  predicate SemanticOnly(e: Event) {
    || e.DialogEvent? || e.DialogDone? || e.SelectEvent? || e.FileChooserEvent? || e.FoundEvent? || e.SuggestEvent? || e.HistoryEvent?
    || e.DownloadsEvent? || e.DownloadEvent? || e.DownloadProgress? || e.ClipboardEvent? || e.ClipboardSync? || e.ReaderEvent?
    || e.MediaEvent? || e.ToastEvent? || e.VideoConfig? || e.CompleteSelect? || e.CompleteFileChooser? || e.CompleteClipboard? || e.CompleteToast?
  }

  // ---- What an event comes to ------------------------------------------------------------------

  predicate StartsWith(s: string, prefix: string) {
    |prefix| <= |s| && s[..|prefix|] == prefix
  }

  /** surf_clear_semantic_transients. */
  function ClearSemantic(s: Semantic): Semantic {
    s.(dialog := NoDialog, select := NoSelect, chooser := Chooser(false, false), find := Find(false, false),
       clipboard := s.clipboard.(id := "", pending := false, syncRequest := false), reader := NoReader, media := NoMedia,
       suggestions := 0, pageError := "")
  }

  function AfterSemantic(s: Semantic, e: Event): Semantic
    requires SemanticOnly(e)
  {
    match e
    case DialogEvent(kind, text, default_) => s.(dialog := Dialog(kind, text, default_, true))
    case DialogDone => s.(dialog := NoDialog)
    case SelectEvent(id, title, multiple, options) => s.(select := Select(id, title, true, multiple, options))
    case FileChooserEvent(multiple) => s.(chooser := Chooser(true, multiple))
    case FoundEvent(on) => s.(find := Find(true, on))
    case SuggestEvent(count) => s.(suggestions := count)
    case HistoryEvent(query, count, offset, total) => s.(library := s.library.(query := query, history := count, offset := offset, total := total))
    case DownloadsEvent(count) => s.(downloads := s.downloads.(count := count))
    case DownloadEvent(name) => s.(downloads := s.downloads.(name := name))
    case DownloadProgress(name, percent) => s.(downloads := s.downloads.(name := name, percent := percent))
    case ClipboardEvent(id, text, sync) => s.(clipboard := s.clipboard.(id := id, text := text, pending := true, syncRequest := sync))
    case ClipboardSync(enabled, known, text) =>
      s.(clipboard := s.clipboard.(text := text, pending := false, syncEnabled := enabled, known := known))
    case ReaderEvent(ok, title, url) => s.(reader := Reader(title, url, ok))
    case MediaEvent(media) => s.(media := media)
    case ToastEvent(text) => s.(toast := text)
    case VideoConfig(generation) => s.(videoGeneration := generation)
    case CompleteSelect => s.(select := NoSelect)
    case CompleteFileChooser => s.(chooser := Chooser(false, false))
    case CompleteClipboard => s.(clipboard := s.clipboard.(id := "", pending := false, syncRequest := false))
    case CompleteToast => s.(toast := "")
  }

  /** The strings such an event brings, and how long they may be. */
  function SemanticStrings(e: Event): (seq<string>, nat) {
    match e
    case DialogEvent(kind, text, default_) => ([kind, text, default_], MAX_CONTENT)
    case SelectEvent(id, title, _, _) => ([id, title], MAX_TITLE)
    case HistoryEvent(query, _, _, _) => ([query], MAX_TITLE)
    case DownloadEvent(name) => ([name], MAX_TITLE)
    case DownloadProgress(name, _) => ([name], MAX_TITLE)
    case ClipboardEvent(id, text, _) => ([id, text], MAX_CONTENT)
    case ClipboardSync(_, _, text) => ([text], MAX_CONTENT)
    case ReaderEvent(_, title, url) => ([title, url], MAX_URL)
    case MediaEvent(media) => ([media.title], MAX_TITLE)
    case ToastEvent(text) => ([text], MAX_TITLE)
    case _ => ([], 0)
  }

  /** surf_clear_page_transients, which also clears the semantic ones. */
  function ClearPage(p: Page): Page {
    p.(loading := false, editable := false, hasRect := false, rect := [], awaiting := false, awaited := 0, editableKind := "")
  }

  function Queue2(es: seq<Effect>, first: bool, a: Effect, second: bool, b: Effect): seq<Effect> {
    var one := if first then Queued(es, a) else es;
    if second then Queued(one, b) else one
  }

  function DisplayTitle(t: Tab): string {
    if StartsWith(t.url, NEW_TAB) || StartsWith(t.title, NEW_TAB) then "New Tab"
    else if t.title == "" || t.title == t.url then (if t.host == "" then "New Tab" else t.host)
    else t.title
  }

  /** The last active tab of the first `n`; a list that is accepted has at most one. */
  function ActiveTab(items: seq<Tab>, n: nat): Option<Tab>
    requires n <= |items|
  {
    if n == 0 then None else if items[n - 1].active then Some(items[n - 1]) else ActiveTab(items, n - 1)
  }

  /** Another tab is active, or none. */
  predicate TabChanges(p: Page, items: seq<Tab>) {
    var active := ActiveTab(items, |items|);
    p.hasActive != active.Some? || (active.Some? && p.activeId != active.value.id)
  }

  function TabsPage(p: Page, items: seq<Tab>, active: Option<Tab>, changed: bool): Page {
    var p' := p.(tabs := items, activeId := if active.Some? then active.value.id else 0, hasActive := active.Some?,
                 activeTitle := if active.Some? then DisplayTitle(active.value) else "");
    if changed then ClearPage(p') else p'
  }

  /** Another page in the same tab. */
  predicate UrlChanges(p: Page, url: string) {
    p.url != "" && p.url != url
  }

  function UrlPage(p: Page, url: string, security: string, starred: bool, newTab: bool): Page {
    var p' := p.(url := url, security := security, starred := starred, startPage := newTab);
    if newTab then p'.(loading := false, awaiting := false, awaited := 0) else p'
  }

  function EditablePage(p: Page, on: bool, kind: string, hasRect: bool, rect: seq<real>): Page {
    if on then p.(editable := true, editableKind := kind, hasRect := hasRect, rect := if hasRect then rect else [])
    else p.(editable := false, hasRect := false, editableKind := "")
  }

  predicate Pausing(mode: Mode) {
    mode.state != "streaming"
  }

  function ResetPage(p: Page): Page {
    ClearPage(p).(back := false, forward := false, fullscreen := false, keyboard := false)
  }

  function PausedPage(p: Page): Page {
    ClearPage(p).(fullscreen := false, keyboard := false)
  }

  function PresentedPage(p: Page, sequence: nat): Page {
    if p.awaiting && sequence >= p.awaited then p.(awaiting := false, startPage := false) else p
  }

  function AfterPage(p: Page, e: Event): Page {
    match e
    case Reset => ResetPage(p)
    case Tabs(items) => TabsPage(p, items, ActiveTab(items, |items|), TabChanges(p, items))
    case Url(url, security, starred) => UrlPage(p, url, security, starred, StartsWith(url, NEW_TAB))
    case HistoryState(back, forward) => p.(back := back, forward := forward)
    case Loading(on) => p.(loading := on)
    case Editable(on, _, kind, hasRect, rect) => EditablePage(p, on, kind, hasRect, rect)
    case Fullscreen(on) => p.(fullscreen := on)
    case Security(state) => p.(security := state)
    case Starred(on) => p.(starred := on)
    case PageFrame(sequence) => p.(awaiting := true, awaited := sequence)
    case FramePresented(sequence) => PresentedPage(p, sequence)
    case KeyboardVisibility(on) => p.(keyboard := on)
    case BrowserMode(mode) => if Pausing(mode) then PausedPage(p) else p
    case PageErrorEvent(url, security, starred) => p.(url := url, security := security, starred := starred, startPage := false)
    case LibraryEvent(_, _, starred) => p.(starred := starred)
    case _ => p
  }

  function AfterContent(p: Page, s: Semantic, e: Event): Semantic {
    if SemanticOnly(e) then AfterSemantic(s, e)
    else match e
      case Reset => ClearSemantic(s)
      case Tabs(items) => if TabChanges(p, items) then ClearSemantic(s) else s
      case Url(url, _, _) => if UrlChanges(p, url) then ClearSemantic(s) else s
      case BrowserMode(mode) => if Pausing(mode) then ClearSemantic(s).(videoGeneration := 0) else s
      case PageErrorEvent(url, _, _) => s.(pageError := url)
      case LibraryEvent(history, bookmarks, _) => s.(library := s.library.(history := history, bookmarks := bookmarks))
      case _ => s
  }

  function AfterMode(m: Mode, e: Event): Mode {
    if e.BrowserMode? then e.mode.(paused := Pausing(e.mode)) else m
  }

  function AfterEffects(p: Page, es: seq<Effect>, e: Event): seq<Effect> {
    match e
    case Reset => []
    case Tabs(items) =>
      if TabChanges(p, items) then Queue2(es, p.hasActive, ClearPagePresentation, p.keyboard, HideKeyboard) else es
    case Url(url, _, _) => Queue2(es, UrlChanges(p, url), ClearPagePresentation, StartsWith(url, NEW_TAB), RequestLibrary)
    case Editable(on, show, _, _, _) =>
      if on then Queue2(es, false, ClearPagePresentation, show || p.keyboard, ShowKeyboard)
      else Queue2(es, false, ClearPagePresentation, p.keyboard, HideKeyboard)
    case BrowserMode(mode) => if Pausing(mode) then Queue2(es, true, ClearPagePresentation, true, HideKeyboard) else es
    case _ => es
  }

  /** The state after an event that went through, but for the revision. */
  function After(s: State, e: Event): State {
    var p := s.view.page;
    s.(view := View(AfterPage(p, e), AfterContent(p, s.view.semantic, e), AfterMode(s.view.mode, e)), effects := AfterEffects(p, s.effects, e))
  }

  lemma AfterIs(s: State, e: Event, p: Page, c: Semantic, m: Mode, es: seq<Effect>)
    requires p == AfterPage(s.view.page, e) && c == AfterContent(s.view.page, s.view.semantic, e)
    requires m == AfterMode(s.view.mode, e) && es == AfterEffects(s.view.page, s.effects, e)
    ensures After(s, e) == s.(view := View(p, c, m), effects := es)
  {
  }

  /** Every event keeps the effects distinct. */
  lemma AfterKeepsDistinct(s: State, e: Event)
    requires Distinct(s.effects)
    ensures Distinct(After(s, e).effects)
  {
    forall a | Distinct(s.effects) ensures Distinct(Queued(s.effects, a)) {
      QueuedDistinct(s.effects, a);
    }
    forall a, b ensures Distinct(Queued(Queued(s.effects, a), b)) {
      QueuedDistinct(s.effects, a);
      QueuedDistinct(Queued(s.effects, a), b);
    }
  }

  predicate TabsOk(items: seq<Tab>) {
    && (forall i, j :: 0 <= i < j < |items| ==> items[i].id != items[j].id)
    && (forall i, j :: 0 <= i < j < |items| ==> !(items[i].active && items[j].active))
  }

  /** A browser mode older than what is shown, or an event that is none of the core's business. */
  predicate Ignored(s: State, e: Event) {
    e.Passive? || (e.BrowserMode? && e.mode.revision < s.view.mode.revision)
  }

  // ---- What the strings have to be like --------------------------------------------------------------

  predicate TabFits(t: Tab) {
    |t.title| <= MAX_TITLE && |t.url| <= MAX_URL && |t.icon| <= MAX_ICON && (t.active ==> |DisplayTitle(t)| <= MAX_TITLE)
  }

  /** No string of the event is longer than its field. */
  predicate Fits(e: Event) {
    match e
    case Tabs(items) => forall i :: 0 <= i < |items| ==> TabFits(items[i])
    case Url(url, security, _) => |url| <= MAX_URL && |security| <= MAX_SHORT_TEXT
    case Editable(on, _, kind, _, _) => on ==> |kind| <= MAX_SHORT_TEXT
    case Security(state) => |state| <= MAX_SHORT_TEXT
    case BrowserMode(mode) => |mode.state| <= MAX_TITLE && |mode.host| <= MAX_TITLE && |mode.message| <= MAX_TITLE
    case PageErrorEvent(url, security, _) => |url| <= MAX_URL && |security| <= MAX_URL
    case DialogEvent(kind, text, default_) => |kind| <= MAX_CONTENT && |text| <= MAX_CONTENT && |default_| <= MAX_CONTENT
    case SelectEvent(id, title, _, _) => |id| <= MAX_TITLE && |title| <= MAX_TITLE
    case HistoryEvent(query, _, _, _) => |query| <= MAX_TITLE
    case DownloadEvent(name) => |name| <= MAX_TITLE
    case DownloadProgress(name, _) => |name| <= MAX_TITLE
    case ClipboardEvent(id, text, _) => |id| <= MAX_CONTENT && |text| <= MAX_CONTENT
    case ClipboardSync(_, _, text) => |text| <= MAX_CONTENT
    case ReaderEvent(_, title, url) => |title| <= MAX_URL && |url| <= MAX_URL
    case MediaEvent(media) => |media.title| <= MAX_TITLE
    case ToastEvent(text) => |text| <= MAX_TITLE
    case _ => true
  }

  /** The event brings something that has to be copied. */
  predicate Copies(e: Event) {
    || (e.Tabs? && e.items != []) || e.Url? || (e.Editable? && e.on) || e.Security? || e.BrowserMode? || e.PageErrorEvent?
    || e.DialogEvent? || e.SelectEvent? || e.HistoryEvent? || e.DownloadEvent? || e.DownloadProgress? || e.ClipboardEvent?
    || e.ClipboardSync? || e.ReaderEvent? || e.MediaEvent? || e.ToastEvent?
  }

  predicate AllFit(sources: seq<string>, maximum: nat) {
    forall i :: 0 <= i < |sources| ==> |sources[i]| <= maximum
  }

  lemma AllFitOf(a: string, b: string, c: string, maximum: nat)
    ensures AllFit([a], maximum) <==> |a| <= maximum
    ensures AllFit([a, b], maximum) <==> |a| <= maximum && |b| <= maximum
    ensures AllFit([a, b, c], maximum) <==> |a| <= maximum && |b| <= maximum && |c| <= maximum
  {
    assert [a][0] == a;
    assert [a, b][0] == a && [a, b][1] == b;
    assert [a, b, c][0] == a && [a, b, c][1] == b && [a, b, c][2] == c;
  }

  lemma ContentFits(e: Event)
    requires e.DialogEvent? || e.SelectEvent? || e.ClipboardEvent? || e.ClipboardSync? || e.ReaderEvent?
    ensures AllFit(SemanticStrings(e).0, SemanticStrings(e).1) <==> Fits(e)
  {
    match e
    case DialogEvent(kind, text, default_) => AllFitOf(kind, text, default_, MAX_CONTENT);
    case SelectEvent(id, title, _, _) => AllFitOf(id, title, "", MAX_TITLE);
    case ClipboardEvent(id, text, _) => AllFitOf(id, text, "", MAX_CONTENT);
    case ClipboardSync(_, _, text) => AllFitOf(text, "", "", MAX_CONTENT);
    case ReaderEvent(_, title, url) => AllFitOf(title, url, "", MAX_URL);
  }

  lemma TitleFits(e: Event)
    requires e.HistoryEvent? || e.DownloadEvent? || e.DownloadProgress? || e.MediaEvent? || e.ToastEvent?
    ensures AllFit(SemanticStrings(e).0, SemanticStrings(e).1) <==> Fits(e)
  {
    match e
    case HistoryEvent(query, _, _, _) => AllFitOf(query, "", "", MAX_TITLE);
    case DownloadEvent(name) => AllFitOf(name, "", "", MAX_TITLE);
    case DownloadProgress(name, _) => AllFitOf(name, "", "", MAX_TITLE);
    case MediaEvent(media) => AllFitOf(media.title, "", "", MAX_TITLE);
    case ToastEvent(text) => AllFitOf(text, "", "", MAX_TITLE);
  }

  lemma SemanticFits(e: Event)
    requires SemanticOnly(e)
    ensures AllFit(SemanticStrings(e).0, SemanticStrings(e).1) <==> Fits(e)
    ensures SemanticStrings(e).0 != [] <==> Copies(e)
  {
    if e.DialogEvent? || e.SelectEvent? || e.ClipboardEvent? || e.ClipboardSync? || e.ReaderEvent? {
      ContentFits(e);
    } else if e.HistoryEvent? || e.DownloadEvent? || e.DownloadProgress? || e.MediaEvent? || e.ToastEvent? {
      TitleFits(e);
    }
  }

  /** Why an event is refused. */
  predicate Explained(e: Event, maxTabs: nat, r: Result) {
    && (r == Okay ==> Fits(e) && (e.Tabs? ==> TabsOk(e.items) && |e.items| <= maxTabs))
    && (r == ErrorLimit ==> !Fits(e) || (e.Tabs? && |e.items| > maxTabs))
    && (r == ErrorAllocate ==> Copies(e))
    && (r == ErrorState ==> e.Tabs? && !TabsOk(e.items))
    && r != ErrorArgument
  }

  // ---- Histories --------------------------------------------------------------------------------

  /** What has happened to a core: events that went through, new connections, effects handed out. */
  datatype Call =
    | Happened(e: Event)
    | Connected(generation: nat)
    | Took(effect: Effect)

  const Blank := View(BlankPage, BlankSemantic, BlankMode)

  /** The state such a history leads to. */
  function Played(history: seq<Call>): State {
    if history == [] then State(Blank, [], 1, 1)
    else Followed(Played(history[..|history| - 1]), history[|history| - 1])
  }

  function Followed(s: State, c: Call): State {
    match c
    case Happened(e) => After(s, e).(revision := s.revision + 1)
    case Connected(generation) => State(Blank, [], s.revision + 1, generation)
    case Took(_) => s.(effects := if s.effects == [] then [] else s.effects[1..])
  }

  /** The effects handed out are the ones that waited longest. */
  predicate Real(history: seq<Call>) {
    history != [] ==>
      && Real(history[..|history| - 1])
      && (history[|history| - 1].Took? ==>
            var es := Played(history[..|history| - 1]).effects; es != [] && es[0] == history[|history| - 1].effect)
  }

  lemma PlayedOne(history: seq<Call>, c: Call)
    requires Real(history)
    requires c.Took? ==> var es := Played(history).effects; es != [] && es[0] == c.effect
    ensures Real(history + [c])
    ensures Played(history + [c]) == Followed(Played(history), c)
  {
    assert (history + [c])[..|history|] == history;
  }

  /** What the event comes to, field by field, but for the revision. */
  predicate Became(s: State, e: Event, t: State) {
    && t.view.page == AfterPage(s.view.page, e) && t.view.semantic == AfterContent(s.view.page, s.view.semantic, e)
    && t.view.mode == AfterMode(s.view.mode, e) && t.effects == AfterEffects(s.view.page, s.effects, e)
    && t.revision == s.revision && t.connection == s.connection
  }

  lemma PlayedEvent(history: seq<Call>, s: State, e: Event, t: State)
    requires Real(history) && s == Played(history) && Became(s, e, t)
    ensures Real(history + [Happened(e)]) && Played(history + [Happened(e)]) == t.(revision := t.revision + 1)
  {
    AfterIs(s, e, t.view.page, t.view.semantic, t.view.mode, t.effects);
    PlayedOne(history, Happened(e));
  }

  class ClientCore {
    const maxTabs: nat
    var page: Page
    var semantic: Semantic
    var mode: Mode
    var revision: nat
    var connection: nat
    var stale: nat
    const ring: EffectRing
    ghost var history: seq<Call>

    ghost predicate Valid()
      reads this, ring, ring.slots
    {
      ring.Valid()
    }

    ghost function Shown(): View
      reads this
    {
      View(page, semantic, mode)
    }

    ghost function Now(): State
      requires Valid()
      reads this, ring, ring.slots
    {
      State(Shown(), ring.Effects(), revision, connection)
    }

    /** What the core shows is what its history leads to. */
    ghost predicate Tracked()
      reads this, ring, ring.slots
    {
      Valid() && Real(history) && Now() == Played(history)
    }

    constructor (maxTabs: nat)
      ensures Tracked() && history == [] && fresh(ring) && fresh(ring.slots)
      ensures Now() == State(View(BlankPage, BlankSemantic, BlankMode), [], 1, 1)
    {
      this.maxTabs := maxTabs;
      page, semantic, mode, revision, connection, stale := BlankPage, BlankSemantic, BlankMode, 1, 1, 0;
      ring := new EffectRing();
      history := [];
    }

    /** surf_owned_string_create: the allocator may refuse any string that is not empty. */
    method Create(source: string, maximum: nat) returns (r: Result)
      ensures r == Okay || r == ErrorLimit || r == ErrorAllocate
      ensures r == ErrorLimit <==> |source| > maximum
      ensures source == "" ==> r == Okay
    {
      if |source| > maximum {
        return ErrorLimit;
      }
      var refused: bool := *;
      return if source != "" && refused then ErrorAllocate else Okay;
    }

    /** surf_owned_string_group_replace up to where the strings are put in place. */
    method CreateGroup(sources: seq<string>, maximum: nat) returns (r: Result)
      ensures r == Okay || r == ErrorLimit || r == ErrorAllocate
      ensures r == Okay ==> AllFit(sources, maximum)
      ensures r == ErrorLimit ==> !AllFit(sources, maximum)
      ensures r == ErrorAllocate ==> sources != []
    {
      for i := 0 to |sources|
        invariant forall k :: 0 <= k < i ==> |sources[k]| <= maximum
      {
        r := Create(sources[i], maximum);
        if r != Okay {
          return;
        }
      }
      return Okay;
    }

    /** The loop of surf_dispatch_tabs, which builds the new list beside the old one. */
    method BuildTabs(items: seq<Tab>) returns (r: Result, active: Option<Tab>)
      ensures r == Okay ==> TabsOk(items) && active == ActiveTab(items, |items|) && forall i :: 0 <= i < |items| ==> TabFits(items[i])
      ensures r == ErrorState ==> !TabsOk(items)
      ensures r == ErrorLimit ==> exists i :: 0 <= i < |items| && !TabFits(items[i])
      ensures r == ErrorAllocate ==> items != []
      ensures r != ErrorArgument
    {
      active := None;
      for index := 0 to |items|
        invariant active == ActiveTab(items, index)
        invariant forall i :: 0 <= i < index ==> TabFits(items[i])
        invariant forall i, j :: 0 <= i < j < index ==> items[i].id != items[j].id && !(items[i].active && items[j].active)
        invariant active.None? ==> forall i :: 0 <= i < index ==> !items[i].active
        invariant active.Some? ==> exists i :: 0 <= i < index && items[i].active
      {
        var source := items[index];
        for previous := 0 to index
          invariant forall i :: 0 <= i < previous ==> items[i].id != source.id
        {
          if items[previous].id == source.id {
            return ErrorState, active;
          }
        }
        r := Create(source.title, MAX_TITLE);
        if r == Okay {
          r := Create(source.url, MAX_URL);
        }
        if r == Okay {
          r := Create(source.icon, MAX_ICON);
        }
        if r != Okay {
          assert r == ErrorLimit ==> !TabFits(items[index]);
          return;
        }
        if source.active {
          if active.Some? {
            return ErrorState, active;
          }
          r := Create(DisplayTitle(source), MAX_TITLE);
          if r != Okay {
            assert r == ErrorLimit ==> !TabFits(items[index]);
            return;
          }
          active := Some(source);
        }
      }
      return Okay, active;
    }

    method ClearPageTransients()
      modifies this`page, this`semantic
      ensures page == ClearPage(old(page)) && semantic == ClearSemantic(old(semantic))
    {
      page := page.(loading := false, editable := false, hasRect := false, rect := [], awaiting := false, awaited := 0, editableKind := "");
      semantic := ClearSemantic(semantic);
    }

    /** Queues up to two effects, as the dispatchers do; the ring always has room. */
    method QueueBoth(first: bool, a: Effect, second: bool, b: Effect) returns (ok: bool)
      requires Valid()
      modifies ring, ring.slots
      ensures Valid() && ok && ring.Effects() == Queue2(old(ring.Effects()), first, a, second, b)
    {
      ok := true;
      if first {
        ok := ring.Queue(a);
      }
      if ok && second {
        ok := ring.Queue(b);
      }
    }

    /** The last part of surf_dispatch_tabs. */
    method ShowTabs(items: seq<Tab>, active: Option<Tab>) returns (r: Result)
      requires Valid() && active == ActiveTab(items, |items|)
      modifies this`page, this`semantic, ring, ring.slots
      ensures Valid() && r == Okay && page == TabsPage(old(page), items, active, TabChanges(old(page), items))
      ensures semantic == if TabChanges(old(page), items) then ClearSemantic(old(semantic)) else old(semantic)
      ensures ring.Effects() == AfterEffects(old(page), old(ring.Effects()), Tabs(items))
    {
      var id := if active.Some? then active.value.id else 0;
      r := Okay;
      var changed := page.hasActive != active.Some? || (active.Some? && page.activeId != id);
      var hadPage, keyboard := page.hasActive, page.keyboard;
      page := page.(tabs := items, activeId := id, hasActive := active.Some?,
                    activeTitle := if active.Some? then DisplayTitle(active.value) else "");
      if changed {
        ClearPageTransients();
        var ok := QueueBoth(hadPage, ClearPagePresentation, keyboard, HideKeyboard);
        r := if ok then Okay else ErrorLimit;
      }
    }

    /** surf_dispatch_tabs. */
    method DispatchTabs(e: Event) returns (r: Result)
      requires Valid() && e.Tabs?
      modifies this`page, this`semantic, ring, ring.slots
      ensures Valid() && (r == Okay ==> page == AfterPage(old(page), e) && semantic == AfterContent(old(page), old(semantic), e))
      ensures r == Okay ==> mode == AfterMode(old(mode), e) && ring.Effects() == AfterEffects(old(page), old(ring.Effects()), e)
      ensures r != Okay ==> page == old(page) && semantic == old(semantic) && mode == old(mode) && ring.Effects() == old(ring.Effects())
      ensures Explained(e, maxTabs, r)
    {
      var items := e.items;
      if |items| > maxTabs {
        return ErrorLimit;
      }
      var refused: bool := *;
      if items != [] && refused {
        return ErrorAllocate;
      }
      var active: Option<Tab>;
      r, active := BuildTabs(items);
      if r != Okay {
        return;
      }
      r := ShowTabs(items, active);
    }

    /** The last part of surf_dispatch_url. */
    method ShowUrl(e: Event) returns (r: Result)
      requires Valid() && e.Url?
      modifies this`page, ring, ring.slots
      ensures Valid() && r == Okay
      ensures page == UrlPage(old(page), e.url, e.security, e.starred, StartsWith(e.url, NEW_TAB))
      ensures ring.Effects() == if StartsWith(e.url, NEW_TAB) then Queued(old(ring.Effects()), RequestLibrary) else old(ring.Effects())
    {
      var newTab := StartsWith(e.url, NEW_TAB);
      page := page.(url := e.url, security := e.security, starred := e.starred, startPage := newTab);
      r := Okay;
      if newTab {
        page := page.(loading := false, awaiting := false, awaited := 0);
        var ok := ring.Queue(RequestLibrary);
        r := if ok then Okay else ErrorLimit;
      }
    }

    /** surf_dispatch_url: strings first, then the effects, then the page. */
    method DispatchUrl(e: Event) returns (r: Result)
      requires Valid() && e.Url?
      modifies this`page, this`semantic, ring, ring.slots
      ensures Valid() && mode == old(mode)
      ensures r == Okay ==> page == UrlPage(old(page), e.url, e.security, e.starred, StartsWith(e.url, NEW_TAB))
      ensures r == Okay ==> semantic == if UrlChanges(old(page), e.url) then ClearSemantic(old(semantic)) else old(semantic)
      ensures var changed, newTab := UrlChanges(old(page), e.url), StartsWith(e.url, NEW_TAB);
              r == Okay ==> ring.Effects() == Queue2(old(ring.Effects()), changed, ClearPagePresentation, newTab, RequestLibrary)
      ensures r != Okay ==> page == old(page) && semantic == old(semantic) && mode == old(mode) && ring.Effects() == old(ring.Effects())
      ensures Explained(e, maxTabs, r)
    {
      r := Create(e.url, MAX_URL);
      if r != Okay {
        return;
      }
      r := Create(e.security, MAX_SHORT_TEXT);
      if r != Okay {
        return;
      }
      var changed := page.url != "" && page.url != e.url;
      if changed {
        semantic := ClearSemantic(semantic);
        var ok := ring.Queue(ClearPagePresentation);
        r := if ok then Okay else ErrorLimit;
      }
      if r == Okay {
        r := ShowUrl(e);
      }
    }

    /** surf_dispatch_editable. */
    method DispatchEditable(e: Event) returns (r: Result)
      requires Valid() && e.Editable?
      modifies this`page, ring, ring.slots
      ensures Valid() && semantic == old(semantic) && mode == old(mode)
      ensures r == Okay ==> page == EditablePage(old(page), e.on, e.kind, e.hasRect, e.rect)
      ensures var show := old(page).keyboard || (e.on && e.showKeyboard);
              var effect := if e.on then ShowKeyboard else HideKeyboard;
              r == Okay ==> ring.Effects() == Queue2(old(ring.Effects()), false, ClearPagePresentation, show, effect)
      ensures r != Okay ==> page == old(page) && semantic == old(semantic) && mode == old(mode) && ring.Effects() == old(ring.Effects())
      ensures Explained(e, maxTabs, r)
    {
      var ok := true;
      if !e.on {
        page := page.(editable := false, hasRect := false, editableKind := "");
        if page.keyboard {
          ok := ring.Queue(HideKeyboard);
        }
      } else {
        r := Create(e.kind, MAX_SHORT_TEXT);
        if r != Okay {
          return;
        }
        page := page.(editable := true, editableKind := e.kind, hasRect := e.hasRect, rect := if e.hasRect then e.rect else []);
        if e.showKeyboard || page.keyboard {
          ok := ring.Queue(ShowKeyboard);
        }
      }
      r := if ok then Okay else ErrorLimit;
    }

    /** What a pause does to the page. */
    method PausePage() returns (r: Result)
      requires Valid()
      modifies this`page, this`semantic, ring, ring.slots
      ensures Valid() && r == Okay
      ensures page == PausedPage(old(page)) && semantic == ClearSemantic(old(semantic)).(videoGeneration := 0)
      ensures ring.Effects() == Queue2(old(ring.Effects()), true, ClearPagePresentation, true, HideKeyboard)
    {
      ClearPageTransients();
      page := page.(fullscreen := false, keyboard := false);
      semantic := semantic.(videoGeneration := 0);
      var ok := QueueBoth(true, ClearPagePresentation, true, HideKeyboard);
      r := if ok then Okay else ErrorLimit;
    }

    /** The browser-mode event, unless it is older than what is shown. */
    method DispatchMode(e: Event) returns (r: Result)
      requires Valid() && e.BrowserMode? && e.mode.revision >= mode.revision
      modifies this`page, this`semantic, this`mode, ring, ring.slots
      ensures Valid()
      ensures r == Okay ==> mode == e.mode.(paused := Pausing(e.mode))
      ensures r == Okay && !mode.paused ==> page == old(page) && semantic == old(semantic) && ring.Effects() == old(ring.Effects())
      ensures r == Okay && mode.paused ==>
                && page == PausedPage(old(page)) && semantic == ClearSemantic(old(semantic)).(videoGeneration := 0)
                && ring.Effects() == Queue2(old(ring.Effects()), true, ClearPagePresentation, true, HideKeyboard)
      ensures r != Okay ==> page == old(page) && semantic == old(semantic) && mode == old(mode) && ring.Effects() == old(ring.Effects())
      ensures Explained(e, maxTabs, r)
    {
      var next := e.mode;
      AllFitOf(next.state, next.host, next.message, MAX_TITLE);
      r := CreateGroup([next.state, next.host, next.message], MAX_TITLE);
      if r != Okay {
        return;
      }
      mode := next.(paused := next.state != "streaming");
      if mode.paused {
        r := PausePage();
      }
    }

    method DispatchReset()
      requires Valid()
      modifies this`page, this`semantic, ring
      ensures Valid() && page == ResetPage(old(page)) && semantic == ClearSemantic(old(semantic)) && ring.Effects() == []
    {
      ClearPageTransients();
      page := page.(back := false, forward := false, fullscreen := false, keyboard := false);
      ring.Clear();
    }

    /** The page events that set a flag or two. */
    method DispatchFlag(e: Event)
      requires e.HistoryState? || e.Loading? || e.Fullscreen? || e.Starred? || e.KeyboardVisibility?
      modifies this`page
      ensures page == AfterPage(old(page), e)
    {
      match e {
        case HistoryState(back, forward) => page := page.(back := back, forward := forward);
        case Loading(on) => page := page.(loading := on);
        case Fullscreen(on) => page := page.(fullscreen := on);
        case Starred(on) => page := page.(starred := on);
        case KeyboardVisibility(on) => page := page.(keyboard := on);
      }
    }

    method DispatchFrame(e: Event)
      requires e.PageFrame? || e.FramePresented?
      modifies this`page
      ensures page == AfterPage(old(page), e)
    {
      if e.PageFrame? {
        page := page.(awaiting := true, awaited := e.sequence);
      } else if page.awaiting && e.sequence >= page.awaited {
        page := page.(awaiting := false, startPage := false);
      }
    }

    method DispatchSecurity(e: Event) returns (r: Result)
      requires e.Security?
      modifies this`page
      ensures page == if r == Okay then AfterPage(old(page), e) else old(page)
      ensures Explained(e, maxTabs, r)
    {
      r := Create(e.state, MAX_SHORT_TEXT);
      if r == Okay {
        page := page.(security := e.state);
      }
    }

    method DispatchPageError(e: Event) returns (r: Result)
      requires e.PageErrorEvent?
      modifies this`page, this`semantic
      ensures page == if r == Okay then AfterPage(old(page), e) else old(page)
      ensures semantic == if r == Okay then AfterContent(old(page), old(semantic), e) else old(semantic)
      ensures Explained(e, maxTabs, r)
    {
      AllFitOf(e.url, e.security, e.url, MAX_URL);
      r := CreateGroup([e.url, e.security, e.url], MAX_URL);
      if r == Okay {
        page := page.(url := e.url, security := e.security, starred := e.starred, startPage := false);
        semantic := semantic.(pageError := e.url);
      }
    }

    method DispatchLibrary(e: Event)
      requires e.LibraryEvent?
      modifies this`page, this`semantic
      ensures page == AfterPage(old(page), e) && semantic == AfterContent(old(page), old(semantic), e)
    {
      semantic := semantic.(library := semantic.library.(history := e.history, bookmarks := e.bookmarks));
      page := page.(starred := e.starred);
    }

    /** The other events: all their strings are copied before anything is put in place. */
    method DispatchSemantic(e: Event) returns (r: Result)
      requires Valid() && SemanticOnly(e)
      modifies this`semantic
      ensures Valid() && (r == Okay ==> page == AfterPage(old(page), e) && semantic == AfterContent(old(page), old(semantic), e))
      ensures r == Okay ==> mode == AfterMode(old(mode), e) && ring.Effects() == AfterEffects(old(page), old(ring.Effects()), e)
      ensures r != Okay ==> page == old(page) && semantic == old(semantic) && mode == old(mode) && ring.Effects() == old(ring.Effects())
      ensures Explained(e, maxTabs, r)
    {
      SemanticFits(e);
      var strings := SemanticStrings(e);
      r := CreateGroup(strings.0, strings.1);
      if r == Okay {
        semantic := AfterSemantic(semantic, e);
      }
    }

    /** The events that leave the mode alone and ask for no effect. */
    method ReduceOthers(e: Event) returns (r: Result)
      requires Valid() && !e.Tabs? && !e.Url? && !e.Editable? && !e.BrowserMode? && !SemanticOnly(e) && !e.Passive?
      modifies this`page, this`semantic, ring, ring.slots
      ensures Valid() && (r == Okay ==> page == AfterPage(old(page), e) && semantic == AfterContent(old(page), old(semantic), e))
      ensures r == Okay ==> ring.Effects() == AfterEffects(old(page), old(ring.Effects()), e)
      ensures r != Okay ==> page == old(page) && semantic == old(semantic) && ring.Effects() == old(ring.Effects())
      ensures Explained(e, maxTabs, r)
    {
      r := Okay;
      if e.Reset? {
        DispatchReset();
      } else if e.Security? {
        r := DispatchSecurity(e);
      } else if e.PageErrorEvent? {
        r := DispatchPageError(e);
      } else if e.LibraryEvent? {
        DispatchLibrary(e);
      } else if e.PageFrame? || e.FramePresented? {
        DispatchFrame(e);
      } else {
        DispatchFlag(e);
      }
    }

    method ReduceUrl(e: Event) returns (r: Result)
      requires Valid() && e.Url?
      modifies this`page, this`semantic, ring, ring.slots
      ensures Valid() && (r == Okay ==> page == AfterPage(old(page), e) && semantic == AfterContent(old(page), old(semantic), e))
      ensures r == Okay ==> mode == AfterMode(old(mode), e) && ring.Effects() == AfterEffects(old(page), old(ring.Effects()), e)
      ensures r != Okay ==> page == old(page) && semantic == old(semantic) && mode == old(mode) && ring.Effects() == old(ring.Effects())
      ensures Explained(e, maxTabs, r)
    {
      r := DispatchUrl(e);
    }

    method ReduceEditable(e: Event) returns (r: Result)
      requires Valid() && e.Editable?
      modifies this`page, ring, ring.slots
      ensures Valid() && (r == Okay ==> page == AfterPage(old(page), e) && semantic == AfterContent(old(page), old(semantic), e))
      ensures r == Okay ==> mode == AfterMode(old(mode), e) && ring.Effects() == AfterEffects(old(page), old(ring.Effects()), e)
      ensures r != Okay ==> page == old(page) && semantic == old(semantic) && mode == old(mode) && ring.Effects() == old(ring.Effects())
      ensures Explained(e, maxTabs, r)
    {
      r := DispatchEditable(e);
    }

    method ReduceMode(e: Event) returns (r: Result)
      requires Valid() && e.BrowserMode? && e.mode.revision >= mode.revision
      modifies this`page, this`semantic, this`mode, ring, ring.slots
      ensures Valid() && (r == Okay ==> page == AfterPage(old(page), e) && semantic == AfterContent(old(page), old(semantic), e))
      ensures r == Okay ==> mode == AfterMode(old(mode), e) && ring.Effects() == AfterEffects(old(page), old(ring.Effects()), e)
      ensures r != Okay ==> page == old(page) && semantic == old(semantic) && mode == old(mode) && ring.Effects() == old(ring.Effects())
      ensures Explained(e, maxTabs, r)
    {
      r := DispatchMode(e);
    }

    method Reduce(e: Event) returns (r: Result)
      requires Valid() && !e.Passive? && !(e.BrowserMode? && e.mode.revision < mode.revision)
      modifies this`page, this`semantic, this`mode, ring, ring.slots
      ensures Valid() && Explained(e, maxTabs, r)
      ensures r == Okay ==> Became(old(Now()), e, Now())
      ensures r != Okay ==> Now() == old(Now())
    {
      if e.Tabs? {
        r := DispatchTabs(e);
      } else if e.Url? {
        r := ReduceUrl(e);
      } else if e.Editable? {
        r := ReduceEditable(e);
      } else if e.BrowserMode? {
        r := ReduceMode(e);
      } else if SemanticOnly(e) {
        r := DispatchSemantic(e);
      } else {
        r := ReduceOthers(e);
      }
    }

    /** The revision moves on. */
    method Advance(ghost before: State, e: Event)
      requires Valid() && Real(history) && before == Played(history) && Became(before, e, Now())
      modifies this`revision, this`history
      ensures Tracked() && history == old(history) + [Happened(e)] && revision == old(revision) + 1
    {
      PlayedEvent(history, before, e, Now());
      revision, history := revision + 1, history + [Happened(e)];
    }

    /** An event that is not ignored: the revision moves on when it went through. */
    method Apply(e: Event) returns (r: Result)
      requires Tracked() && !Ignored(Now(), e)
      modifies this`page, this`semantic, this`mode, this`revision, this`history, ring, ring.slots
      ensures Tracked() && Explained(e, maxTabs, r)
      ensures history == if r == Okay then old(history) + [Happened(e)] else old(history)
      ensures revision == if r == Okay then old(revision) + 1 else old(revision)
      ensures r != Okay ==> Now() == old(Now())
    {
      ghost var before := Now();
      r := Reduce(e);
      if r == Okay {
        Advance(before, e);
      }
    }

    /** surf_core_dispatch and the protocol events it does not know: all of the event happens, or nothing. */
    method Dispatch(e: Event) returns (r: Result)
      requires Tracked()
      modifies this`page, this`semantic, this`mode, this`revision, this`history, ring, ring.slots
      ensures Tracked()
      ensures e.Passive? || (e.BrowserMode? && e.mode.revision < old(mode).revision) || Explained(e, maxTabs, r)
      ensures history == if r != Okay || e.Passive? || (e.BrowserMode? && e.mode.revision < old(mode).revision) then old(history)
                         else old(history) + [Happened(e)]
      ensures revision == old(revision) ==> Shown() == old(Shown()) && ring.Effects() == old(ring.Effects())
    {
      if e.Passive? || (e.BrowserMode? && e.mode.revision < mode.revision) {
        return Okay;
      }
      r := Apply(e);
    }

    /** Events of another connection are counted and dropped. */
    method DispatchScoped(generation: nat, e: Event) returns (r: Result)
      requires Tracked()
      modifies this`page, this`semantic, this`mode, this`revision, this`stale, this`history, ring, ring.slots
      ensures Tracked()
      ensures if generation == 0 then r == ErrorArgument && Now() == old(Now()) && history == old(history)
              else if generation != old(connection) then r == Okay && Now() == old(Now()) && stale == old(stale) + 1 && history == old(history)
              else
                && stale == old(stale)
                && (e.Passive? || (e.BrowserMode? && e.mode.revision < old(mode).revision) || Explained(e, maxTabs, r))
                && history == if r != Okay || e.Passive? || (e.BrowserMode? && e.mode.revision < old(mode).revision) then old(history)
                              else old(history) + [Happened(e)]
      ensures revision == old(revision) ==> Shown() == old(Shown())
    {
      if generation == 0 {
        return ErrorArgument;
      }
      if generation != connection {
        stale := stale + 1;
        return Okay;
      }
      r := Dispatch(e);
    }

    /** surf_core_present_frame. */
    method PresentFrame(generation: nat, video: nat, sequence: nat) returns (r: Result)
      requires Tracked()
      modifies this`page, this`semantic, this`mode, this`revision, this`stale, this`history, ring, ring.slots
      ensures Tracked()
      ensures generation == 0 ==> r == ErrorArgument && history == old(history)
      ensures var foreign := generation != old(connection) || (old(semantic).videoGeneration != 0 && video != 0 && video != old(semantic).videoGeneration);
              generation != 0 ==> r == Okay && history == if old(mode).paused || foreign then old(history) else old(history) + [Happened(FramePresented(sequence))]
      ensures revision == old(revision) ==> Shown() == old(Shown())
    {
      if generation == 0 {
        return ErrorArgument;
      }
      if mode.paused || generation != connection || (semantic.videoGeneration != 0 && video != 0 && video != semantic.videoGeneration) {
        stale := stale + 1;
        return Okay;
      }
      r := Dispatch(FramePresented(sequence));
    }

    /** surf_core_begin_connection: only a later generation starts over. */
    method BeginConnection(generation: nat) returns (r: Result)
      requires Tracked()
      modifies this`page, this`semantic, this`mode, this`revision, this`connection, this`history, ring
      ensures Tracked() && history == if r == Okay then old(history) + [Connected(generation)] else old(history)
      ensures r == Okay <==> generation > old(connection) && generation != 0
      ensures Now() == if r == Okay then State(View(BlankPage, BlankSemantic, BlankMode), [], old(revision) + 1, generation) else old(Now())
    {
      if generation == 0 {
        return ErrorArgument;
      }
      if generation <= connection {
        return ErrorState;
      }
      page, semantic, mode := BlankPage, BlankSemantic, BlankMode;
      ring.Clear();
      connection, revision := generation, revision + 1;
      PlayedOne(history, Connected(generation));
      history := history + [Connected(generation)];
      return Okay;
    }

    /** surf_core_next_effect shows nothing new. */
    method NextEffect() returns (some: bool, e: Effect)
      requires Tracked()
      modifies ring, this`history
      ensures Tracked() && Shown() == old(Shown()) && revision == old(revision)
      ensures history == if some then old(history) + [Took(e)] else old(history)
      ensures some <==> old(ring.Effects()) != []
      ensures if some then [e] + ring.Effects() == old(ring.Effects()) else ring.Effects() == old(ring.Effects())
    {
      some, e := ring.Next();
      if some {
        PlayedOne(history, Took(e));
        history := history + [Took(e)];
      }
    }
  }
}
