/**
 * The operator's selection dialogue: from idle, `on` or `switch` opens the
 * category menu; a category number opens its channel menu; a channel number
 * starts the stream on it (on the current worker, or on a restarted one for a
 * switch) and returns to idle; `q` cancels.
 */
module Selection {
  import opened Base
  import opened Strings
  import opened Playlist
  import opened Menus
  import opened Ipc
  import opened Host
  import opened WorkerControl
  import Client

  datatype Mode = Idle | ChooseCategory | ChooseChannel

  /** What the selection will do once a channel is chosen. */
  datatype Action = Start | Switch

  // ---------------------------------------------------------------------------
  // Reading a menu number
  // ---------------------------------------------------------------------------

  /** The range check as written: `idx = Number(cmd) - 1` is accepted when it is
      not NaN and `0 <= idx < n`. An infinite `idx` fails one of the bounds. */
  datatype IndexCheck = Rejected | Accepted(idx: real)

  function IndexCheckAsWritten(cmd: string, n: nat): (r: IndexCheck)
    ensures r.Accepted? ==> 0.0 <= r.idx < n as real
  {
    CheckNumber(ToNumber(cmd), n)
  }

  /** The range check on the number read. */
  function CheckNumber(x: JsNumber, n: nat): (r: IndexCheck)
    ensures r.Accepted? ==> 0.0 <= r.idx < n as real
  {
    match x
    case Finite(v) => if 0.0 <= v - 1.0 < n as real then Accepted(v - 1.0) else Rejected
    case _ => Rejected
  }

  /** The check lets `"1.5"` through with `idx` 0.5, which designates no entry:
      `sorted[0.5]` and `ui.channels[0.5]` are `undefined`. */
  lemma FractionPassesCheck()
    ensures IndexCheckAsWritten("1.5", 2) == Accepted(0.5)
    ensures (0.5).Floor as real != 0.5
  {
    NumberOfFraction();
  }

  lemma NumberOfFraction()
    ensures ToNumber("1.5") == Finite(1.5)
  {
    var t := "1.5";
    assert !IsSpace(t[0]) && !IsSpace(t[|t| - 1]);
    TrimNoop(t);
    assert ExponentMarks(t) == t;
    assert 'e' !in t;
    assert UnsignedDecimal(t) == Mantissa(t);
    assert t[1..] == ".5" && t[1..][1..] == "5";
    assert BeforeFirst(t[1..], '.') == [];
    assert BeforeFirst(t, '.') == "1";
    assert AfterFirst(t, '.') == "5";
    assert "1"[..0] == [] && "5"[..0] == [];
    assert DigitsValue("1") == 1 && DigitsValue("5") == 5;
    assert Pow10(1) == 10.0;
    assert Mantissa(t) == Some(1.5);
  }

  /** The intended check: the number must designate an entry, that is be a
      whole number between 1 and `n`; the result is the entry's index. */
  function Pick(cmd: string, n: nat): (r: Option<nat>)
    ensures r.Some? ==> r.value < n
  {
    PickNumber(ToNumber(cmd), n)
  }

  /** The entry a number designates, if any. */
  function PickNumber(x: JsNumber, n: nat): (r: Option<nat>)
    ensures r.Some? ==> r.value < n
  {
    match x
    case Finite(v) => if v.Floor as real == v && 1 <= v.Floor <= n then Some(v.Floor - 1) else None
    case _ => None
  }

  /** `PickNumber` accepts exactly the numbers the check accepts with a whole
      index. */
  lemma PickNumberIsWholeAcceptance(x: JsNumber, n: nat, k: nat)
    ensures PickNumber(x, n) == Some(k) <==> CheckNumber(x, n) == Accepted(k as real)
  {
    if x.Finite? {
      var v := x.value;
      if PickNumber(x, n) == Some(k) {
        assert v == (k + 1) as real;
      }
      if CheckNumber(x, n) == Accepted(k as real) {
        assert v == (k + 1) as real;
        assert v.Floor == k + 1;
      }
    }
  }

  /** `Pick` accepts exactly the inputs the check as written accepts with a
      whole index, and picks that index. */
  lemma PickIsWholeAcceptance(cmd: string, n: nat, k: nat)
    ensures Pick(cmd, n) == Some(k) <==> IndexCheckAsWritten(cmd, n) == Accepted(k as real)
  {
    PickNumberIsWholeAcceptance(ToNumber(cmd), n, k);
  }

  /** Typing back the number shown before menu entry `k` picks entry `k`. */
  lemma PickDisplayed(m: nat, n: nat)
    requires 1 <= m <= n
    ensures Pick(ToLower(Trim(Decimal(m))), n) == Some(m - 1)
  {
    var d := Decimal(m);
    assert !IsSpace(d[0]) && !IsSpace(d[|d| - 1]);
    TrimNoop(d);
    assert ToLower(d) == d;
    NumberOfDecimal(m);
    assert (m as real).Floor == m;
  }

  /** The number in front of a console menu line picks that line's entry. */
  lemma MenuNumberSelects(i: nat, name: string, n: nat)
    requires i < n
    ensures Pick(BeforeFirst(MenuLine(i, name), '.'), n) == Some(i)
  {
    MenuLineNumber(i, name);
    assert ((i + 1) as real).Floor == i + 1;
  }

  /** The number shown before entry `k` of a page of the Discord menu picks the
      list element the entry shows. */
  lemma EmbedNumberSelects<T>(list: seq<T>, page: int, k: nat, m: nat)
    requires k < |Client.BuildPage(list, page, Client.PerPage).slice|
    requires m == Client.BuildPage(list, page, Client.PerPage).start + k + 1
    ensures 1 <= m <= |list| && list[m - 1] == Client.BuildPage(list, page, Client.PerPage).slice[k]
    ensures Pick(ToLower(Trim(Decimal(m))), |list|) == Some(m - 1)
  {
    Client.DisplayedIndex(list, page, Client.PerPage, k, m);
    PickDisplayed(m, |list|);
    assert Pick(ToLower(Trim(Decimal(m))), |list|) == Some(m - 1);
  }

  // ---------------------------------------------------------------------------
  // Is the playlist there?
  // ---------------------------------------------------------------------------

  /** `startSelection` as written asks `ensurePlaylistLoaded()` without a url. */
  function SelectionReadyAsWritten(c: CacheState, response: Response): bool {
    Ensure(c, None, response).0
  }

  /** Without a url the reload can only fail, so a cache that is not usable
      stays unusable whatever the download would have given. */
  lemma AsWrittenNeverRecovers(c: CacheState, response: Response)
    requires !(c.loaded && |c.categories| > 0)
    ensures !SelectionReadyAsWritten(c, response)
    ensures Ensure(c, None, response).1 == c.(loaded := false, lastError := Some("Failed to parse URL from undefined"))
  {
  }

  /** The intended check: reload from the configured playlist url. */
  function SelectionReady(c: CacheState, url: Option<string>, response: Response): bool {
    Ensure(c, url, response).0
  }

  /** With the configured url, a download offering at least one category makes
      the selection available. */
  lemma CorrectedSelectionRecovers(c: CacheState, url: string, response: Response, text: string)
    requires FetchText(Some(url), response) == Ok(text) && |CatalogOf(text).categories| > 0
    ensures SelectionReady(c, Some(url), response)
  {
  }

  // ---------------------------------------------------------------------------
  // The state machine
  // ---------------------------------------------------------------------------

  const PlaylistUnavailable: string := "\U{26A0}\U{FE0F} Playlist indisponible. Tape 'refresh' pour réessayer."
  const LaunchingWorker: string := "\U{1F680} Lancement du worker..."
  const Cancelled: string := "\U{23F9}\U{FE0F}  Sélection annulée."
  const InvalidInput: string := "\U{26D4} Entrée invalide, réessaie."

  function LaunchingOn(title: string): string {
    "\U{1F4FA} Lancement sur: " + title
  }

  /** `cached.groups.get(cat) || []` */
  function ChannelsOf(groups: map<string, seq<Channel>>, cat: string): seq<Channel> {
    if cat in groups then groups[cat] else []
  }

  /** How the category menu is shown: through the renderer when one is given,
      else as console text. */
  function CategoryMenu(render: bool, c: CacheState): Effect {
    if render then ShowCategories(FavouritesFirst(c.categories))
    else Output(CategoriesMenu(FavouritesFirst(c.categories), c.groups))
  }

  function ChannelMenu(render: bool, cat: string, channels: seq<Channel>): Effect {
    if render then ShowChannels(cat, channels) else Output(ChannelsMenu(cat, channels))
  }

  /** The effects of launching a worker when there is none (`w` being the next
      worker's number). */
  function LaunchEffects(current: Option<nat>, w: nat): seq<Effect> {
    if current.None? then [Output(LaunchingWorker), Fork(w), AwaitReady(w)] else []
  }

  /** The worker used after launching one if needed. */
  function LaunchedWorker(current: Option<nat>, w: nat): nat {
    if current.None? then w else current.value
  }

  /** `workerRef`: the current worker, shared with the router. */
  class WorkerRef {
    var current: Option<nat>

    constructor ()
      ensures current == None
    {
      current := None;
    }
  }

  class StateMachine {
    var mode: Mode
    var pendingAction: Option<Action>
    var selectedCategory: Option<string>
    var channels: seq<Channel>
    const workerRef: WorkerRef
    const cache: PlaylistCache
    const host: Host
    /** The url `startSelection` reloads the playlist from. */
    const playlistUrl: Option<string>
    /** Whether `render.categories` and `render.channels` are given. */
    const renderCategories: bool
    const renderChannels: bool

    /** A pending action exactly while a selection is under way; a channel menu
        always belongs to a category. */
    predicate Valid()
      reads this, host
    {
      && (mode != Idle <==> pendingAction.Some?)
      && (mode == ChooseChannel ==> selectedCategory.Some?)
      && host.Valid()
    }

    /** `createStateMachine(...)`: idle, nothing pending. */
    constructor (workerRef: WorkerRef, cache: PlaylistCache, host: Host, playlistUrl: Option<string>,
                 renderCategories: bool, renderChannels: bool)
      requires host.Valid()
      ensures Valid() && mode == Idle && pendingAction == None && selectedCategory == None && channels == []
      ensures this.workerRef == workerRef && this.cache == cache && this.host == host
      ensures this.playlistUrl == playlistUrl
      ensures this.renderCategories == renderCategories && this.renderChannels == renderChannels
    {
      mode, pendingAction, selectedCategory, channels := Idle, None, None, [];
      this.workerRef, this.cache, this.host := workerRef, cache, host;
      this.playlistUrl := playlistUrl;
      this.renderCategories, this.renderChannels := renderCategories, renderChannels;
    }

    /** `getMode()` */
    function GetMode(): Mode
      reads this
    {
      mode
    }

    method ShowCategoryMenu()
      modifies host
      ensures host.log == old(host.log) + [CategoryMenu(renderCategories, cache.State())]
      ensures host.connected == old(host.connected) && host.nextWorker == old(host.nextWorker)
    {
      if renderCategories {
        var sorted := GetSortedCategories(cache);
        host.Emit(ShowCategories(sorted));
      } else {
        var text := PrintCategories(cache);
        host.Emit(Output(text));
      }
    }

    method ShowChannelMenu(cat: string, list: seq<Channel>)
      modifies host
      ensures host.log == old(host.log) + [ChannelMenu(renderChannels, cat, list)]
      ensures host.connected == old(host.connected) && host.nextWorker == old(host.nextWorker)
    {
      if renderChannels {
        host.Emit(ShowChannels(cat, list));
      } else {
        var text := PrintChannels(cat, list);
        host.Emit(Output(text));
      }
    }

    /** `startSelection(action)`: make sure the playlist is there, then open the
        category menu; otherwise print the hint and stay as before. */
    method StartSelection(action: Action, response: Response)
      requires Valid()
      modifies this, cache, host
      ensures Valid()
      ensures var r := Ensure(old(cache.State()), playlistUrl, response);
        && cache.State() == r.1
        && (r.0 ==> mode == ChooseCategory && pendingAction == Some(action) && selectedCategory == None
                    && channels == [] && host.log == old(host.log) + [CategoryMenu(renderCategories, r.1)])
        && (!r.0 ==> mode == old(mode) && pendingAction == old(pendingAction) && selectedCategory == old(selectedCategory)
                     && channels == old(channels) && host.log == old(host.log) + [Output(PlaylistUnavailable), Prompt(false)])
      ensures host.connected == old(host.connected) && host.nextWorker == old(host.nextWorker)
    {
      var ok := cache.EnsurePlaylistLoaded(playlistUrl, response);
      if !ok {
        ShowHint();
      } else {
        OpenCategoryMenu(action);
      }
    }

    /** The playlist is missing: say so and prompt again. */
    method ShowHint()
      modifies host
      ensures host.log == old(host.log) + [Output(PlaylistUnavailable), Prompt(false)]
      ensures host.connected == old(host.connected) && host.nextWorker == old(host.nextWorker)
    {
      host.Emit(Output(PlaylistUnavailable));
      host.Emit(Prompt(false));
    }

    /** The playlist is there: remember the action and show the categories. */
    method OpenCategoryMenu(action: Action)
      requires Valid()
      modifies this, host
      ensures Valid()
      ensures mode == ChooseCategory && pendingAction == Some(action) && selectedCategory == None && channels == []
      ensures host.log == old(host.log) + [CategoryMenu(renderCategories, cache.State())]
      ensures host.connected == old(host.connected) && host.nextWorker == old(host.nextWorker)
    {
      pendingAction := Some(action);
      mode := ChooseCategory;
      selectedCategory := None;
      channels := [];
      ShowCategoryMenu();
    }

    /** Launch a worker when there is none (`launchWorker` then `await
        readyPromise`). */
    method EnsureWorker()
      requires host.Valid()
      modifies host, workerRef
      ensures host.Valid()
      ensures host.log == old(host.log) + LaunchEffects(old(workerRef.current), old(host.nextWorker))
      ensures workerRef.current == Some(LaunchedWorker(old(workerRef.current), old(host.nextWorker)))
      ensures host.connected == old(host.connected) + (if old(workerRef.current).None? then {old(host.nextWorker)} else {})
      ensures host.nextWorker == old(host.nextWorker) + (if old(workerRef.current).None? then 1 else 0)
    {
      if workerRef.current.None? {
        host.Emit(Output(LaunchingWorker));
        var w := LaunchWorker(host);
        workerRef.current := Some(w);
        host.Emit(AwaitReady(w));
      }
    }

    /** `handleCommand` in idle: only `on`, `switch` and `s` do anything. */
    method HandleIdle(cmd: string, response: Response)
      requires Valid() && mode == Idle
      modifies this, cache, host, workerRef
      ensures Valid()
      ensures cmd != "on" && cmd != "switch" && cmd != "s" ==>
        && mode == Idle && pendingAction == None && selectedCategory == old(selectedCategory)
        && channels == old(channels) && cache.State() == old(cache.State()) && host.log == old(host.log)
        && workerRef.current == old(workerRef.current) && host.connected == old(host.connected)
        && host.nextWorker == old(host.nextWorker)
      ensures cmd == "on" || cmd == "switch" || cmd == "s" ==>
        var launched := if cmd == "on" then LaunchEffects(old(workerRef.current), old(host.nextWorker)) else [];
        var r := Ensure(old(cache.State()), playlistUrl, response);
        && cache.State() == r.1
        && workerRef.current == (if cmd == "on" then Some(LaunchedWorker(old(workerRef.current), old(host.nextWorker)))
                                 else old(workerRef.current))
        && (r.0 ==> mode == ChooseCategory && pendingAction == Some(if cmd == "on" then Start else Switch)
                    && host.log == old(host.log) + launched + [CategoryMenu(renderCategories, r.1)])
        && (!r.0 ==> mode == Idle && pendingAction == None
                     && host.log == old(host.log) + launched + [Output(PlaylistUnavailable), Prompt(false)])
    {
      if cmd == "on" {
        EnsureWorker();
        StartSelection(Start, response);
        return;
      }
      if cmd == "switch" || cmd == "s" {
        StartSelection(Switch, response);
        return;
      }
    }

    /** `handleCommand` in the category menu. */
    method HandleChooseCategory(cmd: string)
      requires Valid() && mode == ChooseCategory
      modifies this, host
      ensures Valid()
      ensures host.connected == old(host.connected) && host.nextWorker == old(host.nextWorker)
      ensures cmd == "q" ==>
        && mode == Idle && pendingAction == None && selectedCategory == old(selectedCategory)
        && channels == old(channels) && host.log == old(host.log) + [Output(Cancelled), Prompt(false)]
      ensures cmd != "q" ==>
        var sorted := FavouritesFirst(cache.categories);
        match Pick(cmd, |sorted|)
        case Some(k) =>
          && mode == ChooseChannel && pendingAction == old(pendingAction)
          && selectedCategory == Some(sorted[k]) && channels == ChannelsOf(cache.groups, sorted[k])
          && host.log == old(host.log) + [ChannelMenu(renderChannels, sorted[k], channels)]
        case None =>
          && mode == old(mode) && pendingAction == old(pendingAction) && selectedCategory == old(selectedCategory)
          && channels == old(channels)
          && host.log == old(host.log) + [Output(InvalidInput), CategoryMenu(renderCategories, cache.State())]
    {
      if cmd == "q" {
        host.Emit(Output(Cancelled));
        mode := Idle;
        pendingAction := None;
        host.Emit(Prompt(false));
        return;
      }
      var sorted := GetSortedCategories(cache);
      var pick := Pick(cmd, |sorted|);
      if pick.Some? {
        var cat := sorted[pick.value];
        var list := ChannelsOf(cache.groups, cat);
        selectedCategory := Some(cat);
        channels := list;
        mode := ChooseChannel;
        ShowChannelMenu(cat, list);
        return;
      }
      host.Emit(Output(InvalidInput));
      ShowCategoryMenu();
    }

    /** `handleCommand` in the channel menu. */
    method HandleChooseChannel(cmd: string)
      requires Valid() && mode == ChooseChannel
      modifies this, host, workerRef
      ensures Valid()
      ensures cmd == "q" ==>
        && mode == Idle && pendingAction == None && selectedCategory == old(selectedCategory)
        && channels == old(channels) && host.log == old(host.log) + [Output(Cancelled), Prompt(false)]
        && workerRef.current == old(workerRef.current)
        && host.connected == old(host.connected) && host.nextWorker == old(host.nextWorker)
      ensures cmd != "q" && Pick(cmd, |old(channels)|).None? ==>
        && mode == old(mode) && pendingAction == old(pendingAction) && selectedCategory == old(selectedCategory)
        && channels == old(channels) && workerRef.current == old(workerRef.current)
        && host.connected == old(host.connected) && host.nextWorker == old(host.nextWorker)
        && host.log == old(host.log) + [Output(InvalidInput), ChannelMenu(renderChannels, selectedCategory.value, channels)]
      ensures cmd != "q" && Pick(cmd, |old(channels)|).Some? ==>
        var ch := old(channels)[Pick(cmd, |old(channels)|).value];
        var w := old(host.nextWorker);
        && mode == Idle && pendingAction == None && selectedCategory == None && channels == []
        && (old(pendingAction) == Some(Start) ==>
              && workerRef.current == Some(LaunchedWorker(old(workerRef.current), w))
              && host.log == old(host.log) + [Output(LaunchingOn(ch.title))] + LaunchEffects(old(workerRef.current), w)
                             + Guarded(host.connected, workerRef.current, StartMsg(ch.url)) + [Prompt(false)])
        && (old(pendingAction) == Some(Switch) ==>
              && workerRef.current == Some(w) && host.nextWorker == w + 1
              && host.log == old(host.log) + [Output(LaunchingOn(ch.title))]
                             + RestartEffects(old(workerRef.current), ch.url, DefaultBackoffMs, w) + [Prompt(false)])
    {
      if cmd == "q" {
        host.Emit(Output(Cancelled));
        mode := Idle;
        pendingAction := None;
        host.Emit(Prompt(false));
        return;
      }
      var pick := Pick(cmd, |channels|);
      if pick.Some? {
        var channel := channels[pick.value];
        host.Emit(Output(LaunchingOn(channel.title)));
        if pendingAction == Some(Start) {
          EnsureWorker();
          StartWorkerStream(host, workerRef.current, channel.url);
        } else if pendingAction == Some(Switch) {
          var newWorker := RestartWorkerAndStart(host, workerRef.current, channel.url, Some(2000));
          workerRef.current := Some(newWorker);
        }
        mode := Idle;
        pendingAction := None;
        selectedCategory := None;
        channels := [];
        host.Emit(Prompt(false));
        return;
      }
      host.Emit(Output(InvalidInput));
      ShowChannelMenu(selectedCategory.value, channels);
    }

    /** `handleCommand(cmdRaw)`: the input is trimmed and lower-cased, then
        handled by the current mode. */
    method HandleCommand(cmdRaw: string, response: Response)
      requires Valid()
      modifies this, cache, host, workerRef
      ensures Valid()
      ensures var cmd := ToLower(Trim(cmdRaw));
        old(mode) == Idle && cmd != "on" && cmd != "switch" && cmd != "s" ==>
          && mode == Idle && host.log == old(host.log) && cache.State() == old(cache.State())
          && workerRef.current == old(workerRef.current)
      ensures var cmd := ToLower(Trim(cmdRaw));
        old(mode) != Idle && cmd == "q" ==>
          && mode == Idle && pendingAction == None && host.log == old(host.log) + [Output(Cancelled), Prompt(false)]
          && workerRef.current == old(workerRef.current) && cache.State() == old(cache.State())
    {
      var cmd := ToLower(Trim(cmdRaw));
      if mode == Idle {
        HandleIdle(cmd, response);
      } else if mode == ChooseCategory {
        HandleChooseCategory(cmd);
      } else {
        HandleChooseChannel(cmd);
      }
    }
  }
}
