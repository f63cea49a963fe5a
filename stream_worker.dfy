/**
 * The stream worker's control state. The pipeline is a handful of slots (the
 * streaming flag, the FIFO path, the transcoder, the prepared command and its
 * output, the abort controller and the play promise); each handle is named by
 * the run that created it. A run counter separates successive starts and
 * decides whether a finished play still matters; the set of aborted
 * controllers records which runs' abort signals have fired.
 * Every handler and every completion callback is one atomic step; what the
 * worker does outside its own state is appended to a trace.
 */
module StreamWorker {
  import opened Base
  import opened Strings
  import opened Ipc

  datatype WorkerEffect =
    | Post(msg: WorkerMsg)                               // `process.send(msg)`
    | Login                                              // `client.login(TOKEN)`
    | AbortPlay(run: nat)                                // `currentAbort.abort()`
    | DestroyOutput(run: nat)                            // `prepOutput.destroy()`
    | KillPrepare(run: nat)                              // `prepCmd.kill("SIGTERM")`
    | KillTranscoder(run: nat)                           // `ffProc.kill("SIGTERM")`
    | RemoveFifo(path: string)                           // `fs.unlinkSync(fifoPath)`
    | JoinVoice                                          // `streamer.joinVoice(...)`
    | MakeFifo(path: string)                             // `ensureFifo(path)`
    | SpawnTranscoder(run: nat, url: string, path: string) // `startFfmpegToFifo(url, path)`
    | PrepareStream(run: nat, path: string)              // `prepareStream(fifoPath, ...)`
    | PlayStream(run: nat)                               // `playStream(prepOutput, ...)`
    | LeaveVoice                                         // `streamer.leaveVoice()`
    | Exit(code: int)                                    // `process.exit(code)`

  /** The seven pipeline slots. */
  datatype Pipeline = Pipeline(
    isStreaming: bool,
    fifoPath: Option<string>,
    ffProc: Option<nat>,
    prepCmd: Option<nat>,
    prepOutput: Option<nat>,
    currentAbort: Option<nat>,
    playPromise: Option<nat>)

  const NoPipeline: Pipeline := Pipeline(false, None, None, None, None, None, None)

  /** The worker's module-level variables, plus the aborted controllers, the
      starts parked until login, the exit code once the process has exited and
      the trace. */
  datatype WorkerState = WorkerState(
    pipe: Pipeline,
    inVoice: bool,
    runId: nat,
    aborted: set<nat>,
    loggedIn: bool,
    waiting: seq<string>,
    exitCode: Option<int>,
    trace: seq<WorkerEffect>)

  /** A failure the start sequence can throw: from `joinVoice`, from creating the
      FIFO, or from `prepareStream`. */
  datatype Fault = NoFault | JoinFails(error: string) | FifoFails(error: string) | PrepareFails(error: string)

  const MissingVars: string := "Vars manquantes (TOKEN, GUILD_ID, VOICE_CHANNEL_ID)"

  /** The state after the module has run: without its three settings the worker
      reports the error and exits at once; otherwise it starts logging in. */
  function Boot(configured: bool): WorkerState {
    if configured then WorkerState(NoPipeline, false, 0, {}, false, [], None, [Login])
    else WorkerState(NoPipeline, false, 0, {}, false, [], Some(1), [Post(ErrorMsg(MissingVars)), Exit(1)])
  }

  function LogLine(text: string): WorkerEffect {
    Post(LogMsg(text))
  }

  // ---------------------------------------------------------------------------
  // Teardown
  // ---------------------------------------------------------------------------

  /** `hadSomething`: one of the five slots the teardown reports on is set. */
  predicate HadSomething(p: Pipeline) {
    p.isStreaming || p.prepOutput.Some? || p.prepCmd.Some? || p.ffProc.Some? || p.fifoPath.Some?
  }

  /** What the teardown does to the handles that are set, in its order. */
  function TeardownEffects(p: Pipeline): seq<WorkerEffect> {
    (if p.currentAbort.Some? then [AbortPlay(p.currentAbort.value)] else [])
    + (if p.prepOutput.Some? then [DestroyOutput(p.prepOutput.value)] else [])
    + (if p.prepCmd.Some? then [KillPrepare(p.prepCmd.value)] else [])
    + (if p.ffProc.Some? then [KillTranscoder(p.ffProc.value)] else [])
    + (if p.fifoPath.Some? then [RemoveFifo(p.fifoPath.value)] else [])
  }

  /** The aborted controllers once the current one has been aborted. */
  function AbortCurrent(p: Pipeline, aborted: set<nat>): set<nat> {
    if p.currentAbort.Some? then aborted + {p.currentAbort.value} else aborted
  }

  /** `stopMediaFull()` */
  function Teardown(s: WorkerState): WorkerState {
    s.(pipe := NoPipeline, aborted := AbortCurrent(s.pipe, s.aborted),
       trace := s.trace + TeardownEffects(s.pipe) + (if HadSomething(s.pipe) then [Post(Stopped)] else []))
  }

  /** The teardown empties every slot, aborts the current controller and leaves
      the session flag, the run counter and the login untouched. */
  lemma TeardownClears(s: WorkerState)
    ensures var t := Teardown(s);
      && t.pipe == NoPipeline && t.inVoice == s.inVoice && t.runId == s.runId && t.loggedIn == s.loggedIn
      && t.waiting == s.waiting && t.exitCode == s.exitCode
      && t.aborted == s.aborted + (if s.pipe.currentAbort.Some? then {s.pipe.currentAbort.value} else {})
      && s.trace <= t.trace
  {
  }

  /** `stopped` is posted exactly when one of the reported slots was set. */
  lemma TeardownStopped(s: WorkerState)
    ensures var t := Teardown(s);
      Post(Stopped) in t.trace[|s.trace|..] <==> HadSomething(s.pipe)
  {
    var t := Teardown(s);
    var fx := TeardownEffects(s.pipe);
    assert forall i :: 0 <= i < |fx| ==> !fx[i].Post?;
    assert t.trace[|s.trace|..] == fx + (if HadSomething(s.pipe) then [Post(Stopped)] else []);
  }

  /** A second teardown in a row changes nothing and posts nothing. */
  lemma TeardownIdempotent(s: WorkerState)
    ensures Teardown(Teardown(s)) == Teardown(s)
  {
    var t := Teardown(s);
    assert TeardownEffects(t.pipe) == [];
    assert t.trace + [] + [] == t.trace;
  }

  // ---------------------------------------------------------------------------
  // Start / switch
  // ---------------------------------------------------------------------------

  /** `/tmp/discord-live-${Date.now()}.mkv` for the clock reading `now`. */
  function FifoPathAt(now: nat): string {
    "/tmp/discord-live-" + Decimal(now) + ".mkv"
  }

  /** The catch block of the message handler: report, tear down, leave the
      voice channel, exit with code 1. */
  function Crash(s: WorkerState, error: string): WorkerState {
    var t := Teardown(s.(trace := s.trace + [Post(ErrorMsg(error))]));
    t.(exitCode := Some(1), trace := t.trace + [LeaveVoice, Exit(1)])
  }

  const JoinLog: seq<WorkerEffect> := [LogLine("switch/start: ensure joinVoice (if needed)"), JoinVoice]
  const JoinedLog: seq<WorkerEffect> := [LogLine("switch/start: joined (or already in)"), Post(Joined)]

  /** Joining the voice channel, done only when not in it yet. */
  function JoinStep(s: WorkerState, fault: Fault): WorkerState {
    if s.inVoice then s
    else if fault.JoinFails? then Crash(s.(trace := s.trace + JoinLog), fault.error)
    else s.(inVoice := true, trace := s.trace + JoinLog + JoinedLog)
  }

  /** The trace of the pipeline's construction, in three stretches separated by
      the two calls that can throw. */
  function FifoEffects(path: string): seq<WorkerEffect> {
    [MakeFifo(path)]
  }

  function SpawnEffects(run: nat, url: string, path: string): seq<WorkerEffect> {
    [LogLine("switch/start: spawn ffmpeg"), SpawnTranscoder(run, url, path), LogLine("switch/start: spawned"),
     LogLine("switch/start: prepareStream()"), PrepareStream(run, path)]
  }

  function PlayEffects(run: nat): seq<WorkerEffect> {
    [LogLine("switch/start: prepareStream() ok"), LogLine("switch/start: playStream() begin"), PlayStream(run),
     LogLine("playStream started (pipeline alive)"), Post(Started)]
  }

  /** Filling the slots of run `s.runId`, one after the other: the FIFO first. */
  function LaunchStep(s: WorkerState, url: string, now: nat, fault: Fault): WorkerState {
    var path := FifoPathAt(now);
    var a := s.(pipe := s.pipe.(isStreaming := true, fifoPath := Some(path)), trace := s.trace + FifoEffects(path));
    if fault.FifoFails? then Crash(a, fault.error) else SpawnStep(a, url, path, fault)
  }

  /** Then the transcoder, the controller and the prepared stream, and the play. */
  function SpawnStep(s: WorkerState, url: string, path: string, fault: Fault): WorkerState {
    var run := s.runId;
    var b := s.(pipe := s.pipe.(ffProc := Some(run), currentAbort := Some(run)), trace := s.trace + SpawnEffects(run, url, path));
    if fault.PrepareFails? then Crash(b, fault.error)
    else b.(pipe := b.pipe.(prepCmd := Some(run), prepOutput := Some(run), playPromise := Some(run)),
            trace := b.trace + PlayEffects(run))
  }

  /** The teardown that opens a start: the run counter bumped, then
      `stopMediaFull()`. */
  function StartTeardown(s: WorkerState): WorkerState {
    Teardown(s.(runId := s.runId + 1, trace := s.trace + [LogLine("switch/start: stopMediaFull()")]))
  }

  /** A start or switch with a url, once logged in. */
  function StartRun(s: WorkerState, url: string, now: nat, fault: Fault): WorkerState {
    var j := JoinStep(StartTeardown(s), fault);
    if j.exitCode.Some? then j else LaunchStep(j, url, now, fault)
  }

  /** `leaveVoiceAndExit()`, run for `leave`, on disconnect, SIGTERM and SIGINT. */
  function LeaveAndExit(s: WorkerState): WorkerState {
    var t := Teardown(s);
    t.(exitCode := Some(0), trace := t.trace + [LeaveVoice, Exit(0)])
  }

  /** The `message` handler. */
  function Receive(s: WorkerState, msg: Inbound, now: nat, fault: Fault): WorkerState {
    if s.exitCode.Some? then s
    else if msg.kind == Some("stop") then Teardown(s)
    else if msg.kind == Some("leave") then LeaveAndExit(s)
    else if msg.kind == Some("start") || msg.kind == Some("switch") then
      if msg.url.None? || msg.url.value == "" then s.(trace := s.trace + [Post(ErrorMsg("URL manquante"))])
      else if !s.loggedIn then s.(waiting := s.waiting + [msg.url.value])
      else StartRun(s, msg.url.value, now, fault)
    else s
  }

  /** The client's `ready` event: report it; the parked starts may now go on. */
  function ClientReady(s: WorkerState, username: string): WorkerState {
    if s.exitCode.Some? then s else s.(loggedIn := true, trace := s.trace + [Post(Ready(username))])
  }

  /** The oldest parked start goes on past `await readyPromise`. */
  function ResumeStart(s: WorkerState, now: nat, fault: Fault): WorkerState
    requires s.loggedIn && s.waiting != []
  {
    if s.exitCode.Some? then s else StartRun(s.(waiting := s.waiting[1..]), s.waiting[0], now, fault)
  }

  /** The log line of the play promise's `.finally`. It reads `aborted` on the
      controller itself, which has no such property (only its signal has), so
      the line always shows `undefined`. */
  function FinallyLine(run: nat, runId: nat): WorkerEffect {
    LogLine("playStream finally (myRun=" + Decimal(run) + ", runId=" + Decimal(runId)
            + ", aborted=undefined)")
  }

  /** The `.catch`/`.finally` of the play promise of run `run`: a failure is
      reported, and the teardown runs whenever the run is still the current
      one. The negated controller property is always true, so whether the
      run's signal was aborted plays no part. */
  function PlayEnded(s: WorkerState, run: nat, failure: Option<string>): WorkerState {
    if s.exitCode.Some? then s
    else
      var b := s.(trace := s.trace + (if failure.Some? then [Post(ErrorMsg(failure.value))] else [])
                           + [FinallyLine(run, s.runId)]);
      if s.runId == run then Teardown(b) else b
  }

  /** The shutdown listeners, once per process. */
  function Shutdown(s: WorkerState): WorkerState {
    if s.exitCode.Some? then s else LeaveAndExit(s)
  }

  // ---------------------------------------------------------------------------
  // Properties
  // ---------------------------------------------------------------------------

  /** The states the worker can be in: every handle belongs to the current run
      (so at most one pipeline is alive), aborted controllers belong to runs
      already started, and the live controller is not aborted. */
  predicate Valid(s: WorkerState) {
    && (s.pipe.ffProc.Some? ==> s.pipe.ffProc.value == s.runId)
    && (s.pipe.prepCmd.Some? ==> s.pipe.prepCmd.value == s.runId)
    && (s.pipe.prepOutput.Some? ==> s.pipe.prepOutput.value == s.runId)
    && (s.pipe.playPromise.Some? ==> s.pipe.playPromise.value == s.runId)
    && (s.pipe.currentAbort.Some? ==> s.pipe.currentAbort.value == s.runId && s.runId !in s.aborted)
    && (forall r :: r in s.aborted ==> r <= s.runId)
  }

  /** Everything except the trace is equal. */
  predicate SameExceptTrace(s: WorkerState, t: WorkerState) {
    s.(trace := t.trace) == t
  }

  lemma BootValid(configured: bool)
    ensures Valid(Boot(configured)) && Boot(configured).pipe == NoPipeline && !Boot(configured).inVoice
    ensures Boot(configured).exitCode.Some? <==> !configured
  {
  }

  lemma TeardownValid(s: WorkerState)
    requires Valid(s)
    ensures Valid(Teardown(s))
  {
  }

  /** The crash path reports the error first and ends with leaving the voice
      channel and exit code 1, with the pipeline torn down. */
  lemma CrashShape(s: WorkerState, error: string)
    requires Valid(s)
    ensures var t := Crash(s, error);
      && Valid(t) && t.pipe == NoPipeline && t.exitCode == Some(1) && t.inVoice == s.inVoice
      && t.runId == s.runId && t.loggedIn == s.loggedIn
      && s.trace + [Post(ErrorMsg(error))] <= t.trace
      && t.trace[|t.trace| - 2..] == [LeaveVoice, Exit(1)]
  {
    var e := s.(trace := s.trace + [Post(ErrorMsg(error))]);
    TeardownClears(e);
    TeardownValid(e);
  }

  /** A start or switch without a url only reports the error. */
  lemma MissingUrlOnlyReports(s: WorkerState, kind: string, url: Option<string>, now: nat, fault: Fault)
    requires s.exitCode.None? && (kind == "start" || kind == "switch")
    requires url.None? || url.value == ""
    ensures var t := Receive(s, Inbound(Some(kind), url), now, fault);
      SameExceptTrace(s, t) && t.trace == s.trace + [Post(ErrorMsg("URL manquante"))]
  {
  }

  /** The opening teardown bumps the counter, empties the pipeline and does not
      touch the session flag. */
  lemma StartTeardownShape(s: WorkerState)
    requires Valid(s)
    ensures var t := StartTeardown(s);
      && Valid(t) && t.pipe == NoPipeline && t.runId == s.runId + 1 && t.inVoice == s.inVoice
      && t.exitCode == s.exitCode && t.loggedIn == s.loggedIn && t.runId !in t.aborted && s.trace <= t.trace
  {
    var l := s.(runId := s.runId + 1, trace := s.trace + [LogLine("switch/start: stopMediaFull()")]);
    TeardownClears(l);
  }

  /** `joinVoice` runs and `joined` is posted only when not in the voice channel;
      after a successful join the worker is in it. */
  lemma JoinStepShape(s: WorkerState, fault: Fault)
    requires Valid(s) && s.pipe == NoPipeline && s.exitCode.None? && s.runId !in s.aborted
    ensures var t := JoinStep(s, fault);
      && Valid(t) && t.pipe == NoPipeline && t.runId == s.runId && s.trace <= t.trace && t.runId !in t.aborted
      && (t.exitCode.None? ==> t.inVoice)
      && (t.exitCode.Some? ==> t.exitCode == Some(1) && !s.inVoice && fault.JoinFails?)
      && (s.inVoice ==> t == s)
      && (JoinVoice in t.trace[|s.trace|..] <==> !s.inVoice)
      && (Post(Joined) in t.trace[|s.trace|..] <==> !s.inVoice && !fault.JoinFails?)
  {
    if !s.inVoice {
      if fault.JoinFails? {
        JoinFailureShape(s, fault.error);
        var t := JoinStep(s, fault);
        var tail := JoinLog + [Post(ErrorMsg(fault.error)), LeaveVoice, Exit(1)];
        assert t.trace[|s.trace|..] == tail;
        assert tail[1] == JoinVoice;
        assert forall i :: 0 <= i < |tail| ==> tail[i] != Post(Joined);
      } else {
        var t := JoinStep(s, fault);
        assert t.trace[|s.trace|..] == JoinLog + JoinedLog;
      }
    }
  }

  /** A failing join crashes right after the join attempt. */
  lemma JoinFailureShape(s: WorkerState, error: string)
    requires Valid(s) && s.pipe == NoPipeline && s.exitCode.None? && s.runId !in s.aborted && !s.inVoice
    ensures var t := JoinStep(s, JoinFails(error));
      && Valid(t) && t.pipe == NoPipeline && t.runId == s.runId && t.runId !in t.aborted
      && t.exitCode == Some(1) && !t.inVoice
      && t.trace == s.trace + JoinLog + [Post(ErrorMsg(error)), LeaveVoice, Exit(1)]
  {
    var j := s.(trace := s.trace + JoinLog);
    var e := j.(trace := j.trace + [Post(ErrorMsg(error))]);
    assert JoinStep(s, JoinFails(error)) == Crash(j, error);
    assert TeardownEffects(e.pipe) == [] && !HadSomething(e.pipe);
    assert Teardown(e) == e.(aborted := s.aborted, trace := e.trace + [] + []);
  }

  /** Launching without a fault fills every slot with the current run and ends
      with `started`; a fault ends in the crash path. */
  lemma LaunchStepShape(s: WorkerState, url: string, now: nat, fault: Fault)
    requires Valid(s) && s.pipe == NoPipeline && s.exitCode.None? && s.runId !in s.aborted
    ensures var t := LaunchStep(s, url, now, fault);
      && Valid(t) && t.runId == s.runId && t.inVoice == s.inVoice && s.trace <= t.trace
      && (fault.FifoFails? || fault.PrepareFails? ==> t.exitCode == Some(1) && t.pipe == NoPipeline)
      && (!fault.FifoFails? && !fault.PrepareFails? ==>
           && t.exitCode.None?
           && t.pipe == Pipeline(true, Some(FifoPathAt(now)), Some(s.runId), Some(s.runId), Some(s.runId), Some(s.runId), Some(s.runId))
           && t.trace[|t.trace| - 1] == Post(Started))
  {
    var run := s.runId;
    var path := FifoPathAt(now);
    var a := s.(pipe := s.pipe.(isStreaming := true, fifoPath := Some(path)), trace := s.trace + FifoEffects(path));
    if fault.FifoFails? {
      CrashShape(a, fault.error);
    } else if fault.PrepareFails? {
      CrashShape(a.(pipe := a.pipe.(ffProc := Some(run), currentAbort := Some(run)), trace := a.trace + SpawnEffects(run, url, path)), fault.error);
    }
  }

  /** A start with a url bumps the run counter by one and tears the previous
      pipeline down before any slot is set again; without a fault the new run
      ends with every slot set to it, the stream flag on, in the voice channel,
      and `started` as the last thing posted. */
  lemma StartRunShape(s: WorkerState, url: string, now: nat, fault: Fault)
    requires Valid(s) && s.exitCode.None?
    ensures var t := StartRun(s, url, now, fault);
      && Valid(t) && t.runId == s.runId + 1
      && StartTeardown(s).trace <= t.trace
      && (s.inVoice ==> t.inVoice)
      && (fault == NoFault ==>
           && t.pipe == Pipeline(true, Some(FifoPathAt(now)), Some(t.runId), Some(t.runId), Some(t.runId), Some(t.runId), Some(t.runId))
           && t.inVoice && t.exitCode.None? && t.trace[|t.trace| - 1] == Post(Started))
      && (t.exitCode.Some? ==> t.exitCode == Some(1) && t.pipe == NoPipeline && fault != NoFault)
  {
    var o := StartTeardown(s);
    StartTeardownShape(s);
    JoinStepShape(o, fault);
    var j := JoinStep(o, fault);
    if j.exitCode.None? {
      LaunchStepShape(j, url, now, fault);
    }
  }

  /** A completion whose run is no longer current changes nothing but the
      trace. */
  lemma StaleCompletionIgnored(s: WorkerState, run: nat, failure: Option<string>)
    requires s.runId != run
    ensures SameExceptTrace(s, PlayEnded(s, run, failure))
  {
  }

  /** The completion of the current run tears the pipeline down, whether or
      not a stop already aborted its signal. */
  lemma CurrentCompletionTearsDown(s: WorkerState, run: nat, failure: Option<string>)
    requires Valid(s) && s.exitCode.None? && s.runId == run
    ensures var t := PlayEnded(s, run, failure);
      Valid(t) && t.pipe == NoPipeline && t.runId == s.runId && t.inVoice == s.inVoice
  {
  }

  /** After a start or switch, the completion of any earlier run is stale. */
  lemma SwitchMakesEarlierRunsStale(s: WorkerState, url: string, now: nat, fault: Fault, run: nat, failure: Option<string>)
    requires Valid(s) && s.exitCode.None? && run <= s.runId
    ensures SameExceptTrace(StartRun(s, url, now, fault), PlayEnded(StartRun(s, url, now, fault), run, failure))
  {
    StartRunShape(s, url, now, fault);
  }

  /** After a stop, the completion of the run it stopped is still current and
      runs the teardown again; on the emptied pipeline that second teardown is
      a no-op, so only the trace changes. */
  lemma StopThenCompletionIgnored(s: WorkerState, failure: Option<string>)
    requires Valid(s) && s.exitCode.None? && s.pipe.currentAbort.Some?
    ensures var t := Receive(s, Inbound(Some("stop"), None), 0, NoFault);
      SameExceptTrace(t, PlayEnded(t, s.runId, failure))
  {
  }

  /** `leave` and the shutdown signals: teardown, then leaving the voice
      channel, then exit code 0. */
  lemma LeaveShape(s: WorkerState)
    requires Valid(s)
    ensures var t := LeaveAndExit(s);
      && Valid(t) && t.pipe == NoPipeline && t.exitCode == Some(0)
      && t.trace == Teardown(s).trace + [LeaveVoice, Exit(0)]
      && (Post(Stopped) in t.trace[|s.trace|..] <==> HadSomething(s.pipe))
  {
    var d := Teardown(s);
    var t := LeaveAndExit(s);
    TeardownStopped(s);
    TeardownClears(s);
    TeardownValid(s);
    assert t == d.(exitCode := Some(0), trace := d.trace + [LeaveVoice, Exit(0)]);
    assert t.trace[|s.trace|..] == d.trace[|s.trace|..] + [LeaveVoice, Exit(0)];
  }

  /** Every handled message keeps the worker's state valid. */
  lemma ReceiveValid(s: WorkerState, msg: Inbound, now: nat, fault: Fault)
    requires Valid(s)
    ensures Valid(Receive(s, msg, now, fault))
  {
    var t := Receive(s, msg, now, fault);
    if s.exitCode.Some? {
      assert t == s;
    } else if msg.kind == Some("stop") {
      assert t == Teardown(s);
      TeardownValid(s);
    } else if msg.kind == Some("leave") {
      assert t == LeaveAndExit(s);
      LeaveShape(s);
    } else if msg.kind == Some("start") || msg.kind == Some("switch") {
      if msg.url.None? || msg.url.value == "" {
        assert t == s.(trace := s.trace + [Post(ErrorMsg("URL manquante"))]);
      } else if !s.loggedIn {
        assert t == s.(waiting := s.waiting + [msg.url.value]);
      } else {
        assert t == StartRun(s, msg.url.value, now, fault);
        StartRunShape(s, msg.url.value, now, fault);
      }
    } else {
      assert t == s;
    }
  }

  /** No step ever takes the worker out of the voice channel's session flag. */
  lemma InVoiceNeverReset(s: WorkerState, msg: Inbound, now: nat, fault: Fault, run: nat, failure: Option<string>)
    requires Valid(s) && s.inVoice
    ensures Receive(s, msg, now, fault).inVoice
    ensures PlayEnded(s, run, failure).inVoice
    ensures s.loggedIn && s.waiting != [] ==> ResumeStart(s, now, fault).inVoice
  {
    ReceiveKeepsVoice(s, msg, now, fault);
    PlayEndedKeepsVoice(s, run, failure);
    if s.loggedIn && s.waiting != [] && s.exitCode.None? {
      StartRunShape(s.(waiting := s.waiting[1..]), s.waiting[0], now, fault);
    }
  }

  lemma ReceiveKeepsVoice(s: WorkerState, msg: Inbound, now: nat, fault: Fault)
    requires Valid(s) && s.inVoice
    ensures Receive(s, msg, now, fault).inVoice
  {
    var t := Receive(s, msg, now, fault);
    if s.exitCode.None? {
      if msg.kind == Some("stop") {
        assert t == Teardown(s);
      } else if msg.kind == Some("leave") {
        assert t == LeaveAndExit(s);
      } else if && (msg.kind == Some("start") || msg.kind == Some("switch"))
                && msg.url.Some? && msg.url.value != "" && s.loggedIn {
        assert t == StartRun(s, msg.url.value, now, fault);
        StartRunShape(s, msg.url.value, now, fault);
      }
    }
  }

  lemma PlayEndedKeepsVoice(s: WorkerState, run: nat, failure: Option<string>)
    requires s.inVoice
    ensures PlayEnded(s, run, failure).inVoice
  {
  }

  /** The login keeps the worker's state valid. */
  lemma ClientReadyValid(s: WorkerState, username: string)
    requires Valid(s)
    ensures Valid(ClientReady(s, username))
  {
  }

  /** Validity does not depend on the trace. */
  lemma ValidWithTrace(s: WorkerState, trace: seq<WorkerEffect>)
    requires Valid(s)
    ensures Valid(s.(trace := trace))
  {
  }

  /** A settled play keeps the worker's state valid. */
  lemma PlayEndedValid(s: WorkerState, run: nat, failure: Option<string>)
    requires Valid(s)
    ensures Valid(PlayEnded(s, run, failure))
  {
    if s.exitCode.None? {
      var b := s.(trace := s.trace + (if failure.Some? then [Post(ErrorMsg(failure.value))] else [])
                           + [FinallyLine(run, s.runId)]);
      ValidWithTrace(s, b.trace);
      if s.runId == run {
        TeardownValid(b);
      }
    }
  }

  /** The shutdown listeners keep the worker's state valid; with `ReceiveValid`,
      `ClientReadyValid`, `PlayEndedValid` and `ResumeValid`, every reachable
      state is valid. */
  lemma ShutdownValid(s: WorkerState)
    requires Valid(s)
    ensures Valid(Shutdown(s))
  {
    if s.exitCode.None? {
      LeaveShape(s);
    }
  }

  /** A parked start that resumes keeps the worker's state valid. */
  lemma ResumeValid(s: WorkerState, now: nat, fault: Fault)
    requires Valid(s) && s.loggedIn && s.waiting != []
    ensures Valid(ResumeStart(s, now, fault))
  {
    if s.exitCode.None? {
      StartRunShape(s.(waiting := s.waiting[1..]), s.waiting[0], now, fault);
    }
  }

  // ---------------------------------------------------------------------------
  // The worker process
  // ---------------------------------------------------------------------------

  /** The worker process. The seven pipeline variables are kept together in
      `pipe` and updated slot by slot. */
  class Worker {
    var pipe: Pipeline
    var inVoice: bool
    var runId: nat
    var aborted: set<nat>
    var loggedIn: bool
    var waiting: seq<string>
    var exitCode: Option<int>
    var trace: seq<WorkerEffect>

    function State(): WorkerState
      reads this
    {
      WorkerState(pipe, inVoice, runId, aborted, loggedIn, waiting, exitCode, trace)
    }

    /** The module's top level: the settings check, then the login. */
    constructor (configured: bool)
      ensures State() == Boot(configured)
    {
      pipe := NoPipeline;
      inVoice, runId, aborted, loggedIn, waiting := false, 0, {}, false, [];
      if !configured {
        exitCode := Some(1);
        trace := [Post(ErrorMsg(MissingVars)), Exit(1)];
      } else {
        exitCode := None;
        trace := [Login];
      }
    }

    /** `stopMediaFull()` */
    method StopMediaFull()
      modifies this
      ensures State() == Teardown(old(State()))
    {
      var p := pipe;
      var hadSomething := HadSomething(p);
      aborted := AbortCurrent(p, aborted);
      pipe := NoPipeline;
      trace := trace + TeardownEffects(p) + (if hadSomething then [Post(Stopped)] else []);
    }

    /** The catch block: report, tear down, leave, exit with code 1. */
    method CrashExit(error: string)
      modifies this
      ensures State() == Crash(old(State()), error)
    {
      trace := trace + [Post(ErrorMsg(error))];
      StopMediaFull();
      trace := trace + [LeaveVoice, Exit(1)];
      exitCode := Some(1);
    }

    /** `leaveVoiceAndExit()` */
    method LeaveVoiceAndExit()
      modifies this
      ensures State() == LeaveAndExit(old(State()))
    {
      StopMediaFull();
      trace := trace + [LeaveVoice, Exit(0)];
      exitCode := Some(0);
    }

    /** The join of the start sequence. */
    method JoinIfNeeded(fault: Fault)
      modifies this
      ensures State() == JoinStep(old(State()), fault)
    {
      if !inVoice {
        trace := trace + JoinLog;
        if fault.JoinFails? {
          CrashExit(fault.error);
          return;
        }
        inVoice := true;
        trace := trace + JoinedLog;
      }
    }

    /** The pipeline construction of the start sequence: the FIFO. */
    method Launch(url: string, now: nat, fault: Fault)
      modifies this
      ensures State() == LaunchStep(old(State()), url, now, fault)
    {
      var path := FifoPathAt(now);
      pipe := pipe.(isStreaming := true, fifoPath := Some(path));
      trace := trace + FifoEffects(path);
      if fault.FifoFails? {
        CrashExit(fault.error);
        return;
      }
      SpawnAndPlay(url, path, fault);
    }

    /** The transcoder, the prepared stream and the play. */
    method SpawnAndPlay(url: string, path: string, fault: Fault)
      modifies this
      ensures State() == SpawnStep(old(State()), url, path, fault)
    {
      var run := runId;
      pipe := pipe.(ffProc := Some(run), currentAbort := Some(run));
      trace := trace + SpawnEffects(run, url, path);
      if fault.PrepareFails? {
        CrashExit(fault.error);
        return;
      }
      pipe := pipe.(prepCmd := Some(run), prepOutput := Some(run), playPromise := Some(run));
      trace := trace + PlayEffects(run);
    }

    /** The start sequence after `await readyPromise`. */
    method Start(url: string, now: nat, fault: Fault)
      modifies this
      ensures State() == StartRun(old(State()), url, now, fault)
    {
      ghost var s0 := State();
      runId := runId + 1;
      trace := trace + [LogLine("switch/start: stopMediaFull()")];
      assert State() == s0.(runId := s0.runId + 1, trace := s0.trace + [LogLine("switch/start: stopMediaFull()")]);
      StopMediaFull();
      ghost var o := State();
      assert o == StartTeardown(s0);
      JoinIfNeeded(fault);
      assert State() == JoinStep(o, fault);
      if exitCode.Some? {
        return;
      }
      Launch(url, now, fault);
    }

    /** The `message` handler. */
    method OnMessage(msg: Inbound, now: nat, fault: Fault)
      modifies this
      ensures State() == Receive(old(State()), msg, now, fault)
    {
      if exitCode.Some? {
        return;
      }
      if msg.kind == Some("stop") {
        StopMediaFull();
      } else if msg.kind == Some("leave") {
        LeaveVoiceAndExit();
      } else if msg.kind == Some("start") || msg.kind == Some("switch") {
        if msg.url.None? || msg.url.value == "" {
          trace := trace + [Post(ErrorMsg("URL manquante"))];
        } else if !loggedIn {
          waiting := waiting + [msg.url.value];
        } else {
          Start(msg.url.value, now, fault);
        }
      }
    }

    /** The client's `ready` listener. */
    method OnClientReady(username: string)
      modifies this
      ensures State() == ClientReady(old(State()), username)
    {
      if exitCode.Some? {
        return;
      }
      loggedIn := true;
      trace := trace + [Post(Ready(username))];
    }

    /** A start parked on `await readyPromise` continues. */
    method Resume(now: nat, fault: Fault)
      requires loggedIn && waiting != []
      modifies this
      ensures State() == ResumeStart(old(State()), now, fault)
    {
      if exitCode.Some? {
        return;
      }
      ghost var s0 := State();
      var url := waiting[0];
      waiting := waiting[1..];
      assert State() == s0.(waiting := s0.waiting[1..]);
      Start(url, now, fault);
    }

    /** The play promise of run `run` settled, with `failure` when it rejected. */
    method OnPlayEnded(run: nat, failure: Option<string>)
      modifies this
      ensures State() == PlayEnded(old(State()), run, failure)
    {
      if exitCode.Some? {
        return;
      }
      if failure.Some? {
        trace := trace + [Post(ErrorMsg(failure.value))];
      } else {
        assert trace == trace + [];
      }
      trace := trace + [FinallyLine(run, runId)];
      if runId == run {
        StopMediaFull();
      }
    }

    /** The `disconnect`, `SIGTERM` and `SIGINT` listeners. */
    method OnShutdown()
      modifies this
      ensures State() == Shutdown(old(State()))
    {
      if exitCode.Some? {
        return;
      }
      LeaveVoiceAndExit();
    }
  }
}
