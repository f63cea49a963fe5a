/**
 * The supervisor side of the worker protocol: the relay that turns the worker's
 * messages and output into events for the control process, the guarded sends,
 * the hard kill, and the restart sequence.
 */
module WorkerControl {
  import opened Base
  import opened Ipc
  import opened Host

  // ---------------------------------------------------------------------------
  // The relay in launchWorker
  // ---------------------------------------------------------------------------

  /** What the `onEvent` callback receives. */
  datatype WorkerEvent =
    | Relayed(name: string, msg: Incoming)  // an IPC message, passed on whole
    | Stdout(chunk: string)
    | Stderr(chunk: string)
    | Exited(code: Option<int>)             // `{ code }`; `None` for a signalled exit

  /** What the child process can do that the relay listens to. */
  datatype ChildSignal =
    | IpcMessage(msg: Incoming)
    | StdoutData(chunk: string)
    | StderrData(chunk: string)
    | ProcessExit(code: Option<int>)

  /** The message types the relay forwards. */
  const RelayedTypes: seq<string> := ["ready", "joined", "started", "stopped", "error", "log"]

  /** The `message` listener: non-objects are ignored, the six known types are
      forwarded under their own name with the whole message, anything else is
      dropped. */
  function Relay(msg: Incoming): (r: Option<WorkerEvent>)
    ensures r.Some? <==> msg.Object? && msg.kind.Some? && msg.kind.value in RelayedTypes
    ensures r.Some? ==> r.value == Relayed(msg.kind.value, msg)
  {
    if !msg.Object? then None
    else if msg.kind == Some("ready") then Some(Relayed("ready", msg))
    else if msg.kind == Some("joined") then Some(Relayed("joined", msg))
    else if msg.kind == Some("started") then Some(Relayed("started", msg))
    else if msg.kind == Some("stopped") then Some(Relayed("stopped", msg))
    else if msg.kind == Some("error") then Some(Relayed("error", msg))
    else if msg.kind == Some("log") then Some(Relayed("log", msg))
    else None
  }

  /** The message that resolves `readyPromise`. */
  predicate ResolvesReady(msg: Incoming) {
    msg.Object? && msg.kind == Some("ready")
  }

  /** Readiness is resolved exactly by the messages the relay forwards as
      `ready`. */
  lemma ReadyOnlyFromReady(msg: Incoming)
    ensures ResolvesReady(msg) <==> Relay(msg) == Some(Relayed("ready", msg))
  {
  }

  /** Every message the worker posts reaches the control process under its own
      type. */
  lemma WorkerMessagesRelayed(m: WorkerMsg)
    ensures Relay(Encode(m)) == Some(Relayed(TypeOf(m), Encode(m)))
    ensures ResolvesReady(Encode(m)) <==> m.Ready?
  {
    assert TypeOf(m) in RelayedTypes;
  }

  /** All listeners of `launchWorker`: IPC messages through the relay, output
      chunks and the exit as they are. */
  function Forward(s: ChildSignal): (r: Option<WorkerEvent>)
    ensures s.IpcMessage? ==> r == Relay(s.msg)
    ensures r.None? ==> s.IpcMessage?
    ensures r.Some? && r.value.Exited? <==> s.ProcessExit?
  {
    match s
    case IpcMessage(m) => Relay(m)
    case StdoutData(c) => Some(Stdout(c))
    case StderrData(c) => Some(Stderr(c))
    case ProcessExit(code) => Some(Exited(code))
  }

  /** Output and exit are never lost and never come from an IPC message. */
  lemma ForwardOutput(s: ChildSignal)
    ensures Forward(s) == Some(Stdout(s.chunk)) <== s.StdoutData?
    ensures Forward(s) == Some(Stderr(s.chunk)) <== s.StderrData?
    ensures Forward(s) == Some(Exited(s.code)) <== s.ProcessExit?
    ensures s.IpcMessage? ==> Forward(s).None? || Forward(s).value.Relayed?
  {
  }

  // ---------------------------------------------------------------------------
  // Guarded sends, kill, launch and restart
  // ---------------------------------------------------------------------------

  /** What a guarded send does: nothing unless the worker exists and is
      connected, and then exactly one send of `m` to it. */
  function Guarded(connected: set<nat>, worker: Option<nat>, m: ControlMsg): (r: seq<Effect>)
    ensures r == [] <==> worker.None? || worker.value !in connected
    ensures r != [] ==> r == [Send(worker.value, m)]
  {
    if worker.Some? && worker.value in connected then [Send(worker.value, m)] else []
  }

  method SendGuarded(host: Host, worker: Option<nat>, m: ControlMsg)
    modifies host
    ensures host.log == old(host.log) + Guarded(old(host.connected), worker, m)
    ensures host.connected == old(host.connected) && host.nextWorker == old(host.nextWorker)
  {
    if worker.None? || worker.value !in host.connected {
      return;
    }
    host.Emit(Send(worker.value, m));
  }

  /** `startWorkerStream(worker, url)` */
  method StartWorkerStream(host: Host, worker: Option<nat>, url: string)
    modifies host
    ensures host.log == old(host.log) + Guarded(old(host.connected), worker, StartMsg(url))
    ensures host.connected == old(host.connected) && host.nextWorker == old(host.nextWorker)
  {
    SendGuarded(host, worker, StartMsg(url));
  }

  /** `stopWorker(worker)` */
  method StopWorker(host: Host, worker: Option<nat>)
    modifies host
    ensures host.log == old(host.log) + Guarded(old(host.connected), worker, StopMsg)
    ensures host.connected == old(host.connected) && host.nextWorker == old(host.nextWorker)
  {
    SendGuarded(host, worker, StopMsg);
  }

  /** `leaveWorker(worker)` */
  method LeaveWorker(host: Host, worker: Option<nat>)
    modifies host
    ensures host.log == old(host.log) + Guarded(old(host.connected), worker, LeaveMsg)
    ensures host.connected == old(host.connected) && host.nextWorker == old(host.nextWorker)
  {
    SendGuarded(host, worker, LeaveMsg);
  }

  /** `killWorker(worker)`: a SIGTERM when there is a worker; a failing kill is
      swallowed, so the call always returns normally. */
  method KillWorker(host: Host, worker: Option<nat>)
    modifies host
    ensures host.log == old(host.log) + (if worker.Some? then [Kill(worker.value)] else [])
    ensures host.connected == old(host.connected) && host.nextWorker == old(host.nextWorker)
  {
    if worker.Some? {
      host.Emit(Kill(worker.value));
    }
  }

  /** `launchWorker(...)`: fork a worker; the relay is attached to it. */
  method LaunchWorker(host: Host) returns (w: nat)
    requires host.Valid()
    modifies host
    ensures host.Valid()
    ensures w == old(host.nextWorker) && host.nextWorker == w + 1
    ensures host.connected == old(host.connected) + {w} && host.log == old(host.log) + [Fork(w)]
  {
    w := host.ForkWorker();
  }

  const DefaultBackoffMs: nat := 2000

  /** The effects of `restartWorkerAndStart(current, url, { backoffMs })`, the
      new worker being `w`. */
  function RestartEffects(current: Option<nat>, url: string, backoffMs: nat, w: nat): seq<Effect> {
    (if current.Some? then [Kill(current.value)] else [])
    + [Wait(backoffMs), Fork(w), AwaitReady(w), Send(w, StartMsg(url))]
  }

  /** The restart order: the old worker is killed first (only if there is one),
      then the back-off, the launch, the wait for readiness and finally the one
      and only send, a start of `url` on the new worker. */
  lemma RestartOrder(current: Option<nat>, url: string, backoffMs: nat, w: nat)
    ensures var r := RestartEffects(current, url, backoffMs, w);
      var k := if current.Some? then 1 else 0;
      && |r| == k + 4
      && (current.Some? ==> r[0] == Kill(current.value))
      && r[k] == Wait(backoffMs) && r[k + 1] == Fork(w) && r[k + 2] == AwaitReady(w)
      && r[|r| - 1] == Send(w, StartMsg(url))
      && (forall i :: 0 <= i < |r| - 1 ==> !r[i].Send?)
      && (forall i :: 0 <= i < |r| && r[i].Kill? ==> current.Some? && i == 0 && r[i].worker == current.value)
  {
  }

  /** `restartWorkerAndStart(current, url, { backoffMs })`, which returns the new
      worker. The new worker is connected when `startWorkerStream` runs, so its
      guard lets the start through. */
  method RestartWorkerAndStart(host: Host, current: Option<nat>, url: string, backoffMs: Option<nat>)
    returns (w: nat)
    requires host.Valid()
    modifies host
    ensures host.Valid()
    ensures w == old(host.nextWorker) && host.nextWorker == w + 1 && host.connected == old(host.connected) + {w}
    ensures host.log == old(host.log) + RestartEffects(current, url, backoffMs.GetOr(DefaultBackoffMs), w)
  {
    KillWorker(host, current);
    host.Emit(Wait(backoffMs.GetOr(DefaultBackoffMs)));
    w := LaunchWorker(host);
    host.Emit(AwaitReady(w));
    StartWorkerStream(host, Some(w), url);
  }
}
