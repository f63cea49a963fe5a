/**
 * The control process's entry point: loading the playlist at start, the
 * console line router (`off`, `r`/`refresh`, `q`/`quit`/`exit`, everything else
 * to the selection state machine) and the handler of worker events.
 */
module App {
  import opened Base
  import opened Strings
  import opened Playlist
  import opened Ipc
  import opened Host
  import opened WorkerControl
  import opened Selection

  /** `process.env.DISCORD_PREFIX ?? "!tv "` */
  function PrefixOf(configured: Option<string>): string {
    configured.GetOr("!tv ")
  }

  /** The greeting sent once the playlist has been loaded. */
  function Greeting(prefix: string): string {
    "\U{1F44B} Prêt. Utilise " + prefix + " on|off|s(witch)|r(efresh)|q(uit)."
  }

  /** How the router sends a line on, by its trimmed, lower-cased form. */
  datatype Route = StopStream | Reload | Quit | Delegate

  function RouteOf(cmd: string): (r: Route)
    ensures r == StopStream <==> cmd == "off"
    ensures r == Reload <==> cmd == "r" || cmd == "refresh"
    ensures r == Quit <==> cmd == "q" || cmd == "quit" || cmd == "exit"
  {
    if cmd == "off" then StopStream
    else if cmd == "r" || cmd == "refresh" then Reload
    else if cmd == "q" || cmd == "quit" || cmd == "exit" then Quit
    else Delegate
  }

  /** The state machine's own commands and every menu number reach it. */
  lemma MenuInputDelegated(n: nat)
    ensures RouteOf("on") == Delegate && RouteOf("s") == Delegate && RouteOf("switch") == Delegate
    ensures RouteOf(Decimal(n)) == Delegate
  {
    var d := Decimal(n);
    assert IsDigit(d[0]);
    assert d != "off" && d != "r" && d != "refresh";
    assert d != "q" && d != "quit" && d != "exit";
  }

  /** The router and the state machine normalise a line the same way, so the
      state machine sees exactly the command the router looked at. */
  lemma SameCommand(line: string)
    ensures ToLower(Trim(Trim(line))) == ToLower(Trim(line))
  {
    TrimIdempotent(line);
  }

  // ---------------------------------------------------------------------------
  // Worker events
  // ---------------------------------------------------------------------------

  /** `payload.<name>` in a template string: the field's text, or "undefined". */
  function FieldText(msg: Incoming, name: string): (r: string)
    ensures msg.Object? && name in msg.fields ==> r == msg.fields[name]
    ensures !(msg.Object? && name in msg.fields) ==> r == "undefined"
  {
    if msg.Object? && name in msg.fields then msg.fields[name] else "undefined"
  }

  /** `${payload.code}`: the exit code in decimal, "null" after a signal. */
  function CodeText(code: Option<int>): string {
    match code
    case None => "null"
    case Some(n) => if n < 0 then "-" + Decimal(-n) else Decimal(n)
  }

  /** The exit announcement ends with the exit code's decimal digits, which
      denote that code, or with "null" when a signal ended the worker. */
  lemma ExitAnnounced(code: Option<int>, n: nat)
    ensures code == Some(n as int) ==>
      EventEffects(Exited(code)) == [Output("\U{2139}\U{FE0F} Worker terminé avec code " + Decimal(n))]
      && DigitsValue(Decimal(n)) == n
    ensures code.None? ==> EventEffects(Exited(code)) == [Output("\U{2139}\U{FE0F} Worker terminé avec code " + "null")]
  {
    DecimalRoundTrip(n);
  }

  /** What the event callback writes for one event, before its prompt. */
  function EventEffects(e: WorkerEvent): (r: seq<Effect>)
    ensures |r| <= 1
    ensures e.Stdout? ==> r == [WriteStdout(e.chunk)]
    ensures e.Stderr? ==> r == [WriteStderr(e.chunk)]
    ensures e.Relayed? && e.name !in ["ready", "joined", "started", "stopped", "error"] ==> r == []
    ensures e.Relayed? && e.name == "error" ==> r == [Output("\U{274C} Worker error: " + FieldText(e.msg, "text"))]
  {
    match e
    case Relayed(name, msg) =>
      if name == "ready" then [Output("\U{2705} Worker prêt (" + FieldText(msg, "username") + ")")]
      else if name == "joined" then [Output("\U{1F399}\U{FE0F}  Salon vocal rejoint")]
      else if name == "started" then [Output("\U{1F7E2} Stream lancé")]
      else if name == "stopped" then [Output("\U{1F534} Stream arrêté")]
      else if name == "error" then [Output("\U{274C} Worker error: " + FieldText(msg, "text"))]
      else []
    case Stdout(chunk) => [WriteStdout(chunk)]
    case Stderr(chunk) => [WriteStderr(chunk)]
    case Exited(code) => [Output("\U{2139}\U{FE0F} Worker terminé avec code " + CodeText(code))]
  }

  /** Every message a worker posts is announced with its own text; a ready
      message names the worker's account, an error carries the worker's text. */
  lemma WorkerMessageAnnounced(m: WorkerMsg)
    ensures m.Ready? ==> EventEffects(Relayed(TypeOf(m), Encode(m))) == [Output("\U{2705} Worker prêt (" + m.username + ")")]
    ensures m.ErrorMsg? ==> EventEffects(Relayed(TypeOf(m), Encode(m))) == [Output("\U{274C} Worker error: " + m.text)]
    ensures m.LogMsg? <==> EventEffects(Relayed(TypeOf(m), Encode(m))) == []
  {
    var e := Relayed(TypeOf(m), Encode(m));
    if m.Ready? {
      assert FieldText(Encode(m), "username") == m.username;
    } else if m.ErrorMsg? {
      assert FieldText(Encode(m), "text") == m.text;
    } else if m.LogMsg? {
      assert e.name == "log";
    } else {
      assert |EventEffects(e)| == 1;
    }
  }

  /** `startApp({ rl, send, allowProcessExit, render })`. */
  class App {
    var workerReady: bool
    const workerRef: WorkerRef
    const cache: PlaylistCache
    const sm: StateMachine
    const host: Host
    const allowProcessExit: bool
    /** `M3U_URL`, which may be unset. */
    const m3uUrl: Option<string>
    const prefix: string

    /** The state machine shares the app's worker reference, cache and host and
        reloads from the app's playlist url. */
    predicate Valid()
      reads this, sm, host
    {
      && sm.host == host && sm.workerRef == workerRef && sm.cache == cache
      && sm.Valid()
      && sm.playlistUrl == m3uUrl
    }

    /** The first part of `startApp`: the worker reference, the cache and the
        state machine, wired to each other and to the host; nothing loaded yet. */
    constructor (host: Host, allowProcessExit: bool, m3uUrl: Option<string>, configuredPrefix: Option<string>,
                 renderCategories: bool, renderChannels: bool)
      requires host.Valid()
      ensures Valid() && !workerReady && workerRef.current == None
      ensures this.host == host && this.allowProcessExit == allowProcessExit && this.m3uUrl == m3uUrl
      ensures prefix == PrefixOf(configuredPrefix)
      ensures sm.mode == Idle && sm.renderCategories == renderCategories && sm.renderChannels == renderChannels
      ensures cache.State() == InitialCache
      ensures fresh(workerRef) && fresh(cache) && fresh(sm)
    {
      var wr := new WorkerRef();
      var c := new PlaylistCache();
      var m := new StateMachine(wr, c, host, m3uUrl, renderCategories, renderChannels);
      workerReady := false;
      workerRef, cache, sm, this.host := wr, c, m, host;
      this.allowProcessExit, this.m3uUrl := allowProcessExit, m3uUrl;
      prefix := PrefixOf(configuredPrefix);
    }

    /** The rest of `startApp`: the playlist is loaded once, the prompt shown,
        then the greeting sent. */
    method Boot(response: Response)
      requires Valid()
      modifies cache, host
      ensures Valid()
      ensures cache.State() == Load(old(cache.State()), m3uUrl, response)
      ensures host.log == old(host.log) + [Prompt(false), Output(Greeting(prefix))]
      ensures host.connected == old(host.connected) && host.nextWorker == old(host.nextWorker)
    {
      cache.LoadPlaylistOnce(m3uUrl, response);
      host.Emit(Prompt(false));
      host.Emit(Output(Greeting(prefix)));
    }

    /** The event callback: announce the event, forget the worker after its
        exit, and prompt again keeping the cursor. */
    method OnWorkerEvent(e: WorkerEvent)
      requires Valid()
      modifies this, workerRef, host
      ensures Valid()
      ensures host.log == old(host.log) + EventEffects(e) + [Prompt(true)]
      ensures host.connected == old(host.connected) && host.nextWorker == old(host.nextWorker)
      ensures e.Exited? ==> workerRef.current == None && !workerReady
      ensures !e.Exited? ==> workerRef.current == old(workerRef.current) && workerReady == old(workerReady)
    {
      match e {
        case Relayed(name, msg) =>
          if name == "ready" {
            host.Emit(Output("\U{2705} Worker prêt (" + FieldText(msg, "username") + ")"));
          } else if name == "joined" {
            host.Emit(Output("\U{1F399}\U{FE0F}  Salon vocal rejoint"));
          } else if name == "started" {
            host.Emit(Output("\U{1F7E2} Stream lancé"));
          } else if name == "stopped" {
            host.Emit(Output("\U{1F534} Stream arrêté"));
          } else if name == "error" {
            host.Emit(Output("\U{274C} Worker error: " + FieldText(msg, "text")));
          }
        case Stdout(chunk) =>
          host.Emit(WriteStdout(chunk));
        case Stderr(chunk) =>
          host.Emit(WriteStderr(chunk));
        case Exited(code) =>
          host.Emit(Output("\U{2139}\U{FE0F} Worker terminé avec code " + CodeText(code)));
          workerRef.current := None;
          workerReady := false;
      }
      host.Emit(Prompt(true));
    }

    /** `rl.on("line", ...)` for one console line. */
    method OnLine(line: string, response: Response)
      requires Valid()
      modifies sm, cache, host, workerRef
      ensures Valid()
      ensures var cmd := ToLower(Trim(line));
        RouteOf(cmd) == StopStream ==>
          && host.log == old(host.log) + Guarded(old(host.connected), old(workerRef.current), StopMsg) + [Prompt(false)]
          && sm.mode == old(sm.mode) && cache.State() == old(cache.State())
          && workerRef.current == old(workerRef.current) && host.connected == old(host.connected)
      ensures var cmd := ToLower(Trim(line));
        RouteOf(cmd) == Reload ==>
          && cache.State() == Load(old(cache.State()), m3uUrl, response)
          && host.log == old(host.log) + [Prompt(false)]
          && sm.mode == old(sm.mode) && workerRef.current == old(workerRef.current)
      ensures var cmd := ToLower(Trim(line));
        RouteOf(cmd) == Quit && old(sm.mode) != Idle ==>
          && sm.mode == Idle && sm.pendingAction == None
          && host.log == old(host.log) + [Output(Cancelled), Prompt(false), Prompt(false)]
          && cache.State() == old(cache.State()) && workerRef.current == old(workerRef.current)
      ensures var cmd := ToLower(Trim(line));
        var w := old(workerRef.current);
        RouteOf(cmd) == Quit && old(sm.mode) == Idle && w.Some? && w.value in old(host.connected) ==>
          && host.log == old(host.log) + [Send(w.value, LeaveMsg)]
                         + (if allowProcessExit then [ScheduleExit(300, 0)] else []) + [Prompt(false)]
          && sm.mode == Idle && cache.State() == old(cache.State()) && workerRef.current == w
      ensures var cmd := ToLower(Trim(line));
        var w := old(workerRef.current);
        RouteOf(cmd) == Quit && old(sm.mode) == Idle && !(w.Some? && w.value in old(host.connected)) ==>
          && host.log == old(host.log) + (if allowProcessExit then [ExitProcess(0)] else [Prompt(false)])
          && sm.mode == Idle && cache.State() == old(cache.State()) && workerRef.current == w
      ensures var cmd := ToLower(Trim(line));
        RouteOf(cmd) == Delegate && old(sm.mode) == Idle && cmd != "on" && cmd != "switch" && cmd != "s" ==>
          && sm.mode == Idle && host.log == old(host.log) && cache.State() == old(cache.State())
          && workerRef.current == old(workerRef.current)
    {
      var raw := Trim(line);
      var cmd := ToLower(raw);
      if cmd == "off" {
        StopWorker(host, workerRef.current);
        host.Emit(Prompt(false));
        return;
      }
      if cmd == "r" || cmd == "refresh" {
        cache.LoadPlaylistOnce(m3uUrl, response);
        host.Emit(Prompt(false));
        return;
      }
      if cmd == "q" || cmd == "quit" || cmd == "exit" {
        OnQuit(response);
        return;
      }
      SameCommand(line);
      sm.HandleCommand(raw, response);
    }

    /** `q`, `quit` or `exit`: a selection under way is cancelled; otherwise a
        connected worker is told to leave (and the process exits 300 ms later
        when it may), or the process exits at once when it may. */
    method OnQuit(response: Response)
      requires Valid()
      modifies sm, cache, host, workerRef
      ensures Valid()
      ensures old(sm.mode) != Idle ==>
        && sm.mode == Idle && sm.pendingAction == None
        && host.log == old(host.log) + [Output(Cancelled), Prompt(false), Prompt(false)]
        && cache.State() == old(cache.State()) && workerRef.current == old(workerRef.current)
      ensures var w := old(workerRef.current);
        old(sm.mode) == Idle && w.Some? && w.value in old(host.connected) ==>
          && host.log == old(host.log) + [Send(w.value, LeaveMsg)]
                         + (if allowProcessExit then [ScheduleExit(300, 0)] else []) + [Prompt(false)]
          && sm.mode == Idle && cache.State() == old(cache.State()) && workerRef.current == w
      ensures var w := old(workerRef.current);
        old(sm.mode) == Idle && !(w.Some? && w.value in old(host.connected)) ==>
          && host.log == old(host.log) + (if allowProcessExit then [ExitProcess(0)] else [Prompt(false)])
          && sm.mode == Idle && cache.State() == old(cache.State()) && workerRef.current == w
    {
      if sm.GetMode() != Idle {
        assert ToLower(Trim("q")) == "q";
        sm.HandleCommand("q", response);
        host.Emit(Prompt(false));
        return;
      }
      if workerRef.current.Some? && workerRef.current.value in host.connected {
        LeaveWorker(host, workerRef.current);
        if allowProcessExit {
          host.Emit(ScheduleExit(300, 0));
        }
      } else if allowProcessExit {
        host.Emit(ExitProcess(0));
        return;
      }
      host.Emit(Prompt(false));
    }
  }
}
