/**
 * The control process's view of the outside world. Every console write, prompt,
 * renderer call, child-process operation and timer the control side performs is
 * appended to an effect log; workers are named by the order they were forked
 * in, and the host tracks which of them still have a connected IPC channel.
 */
module Host {
  import opened Ipc
  import opened Playlist

  datatype Effect =
    | Output(text: string)                                  // the `out` / `send` callback
    | Prompt(preserveCursor: bool)                          // `rl.prompt()`
    | ShowCategories(sorted: seq<string>)                   // `render.categories(sorted)`
    | ShowChannels(category: string, channels: seq<Channel>) // `render.channels(cat, channels)`
    | Fork(worker: nat)                                     // `fork("src/worker/stream-worker.js")`
    | AwaitReady(worker: nat)                               // `await readyPromise`
    | Send(worker: nat, msg: ControlMsg)                    // `worker.send(msg)`
    | Kill(worker: nat)                                     // `worker.kill("SIGTERM")`
    | Wait(ms: nat)                                         // `await wait(ms)`
    | WriteStdout(chunk: string)
    | WriteStderr(chunk: string)
    | ExitProcess(code: int)                                // `process.exit(code)`
    | ScheduleExit(delayMs: nat, code: int)                 // `setTimeout(() => process.exit(code), delayMs)`

  class Host {
    var log: seq<Effect>
    var connected: set<nat>
    var nextWorker: nat

    /** Only forked workers can be connected. */
    predicate Valid()
      reads this
    {
      forall w :: w in connected ==> w < nextWorker
    }

    constructor ()
      ensures Valid() && log == [] && connected == {} && nextWorker == 0
    {
      log, connected, nextWorker := [], {}, 0;
    }

    method Emit(e: Effect)
      modifies this
      ensures log == old(log) + [e]
      ensures connected == old(connected) && nextWorker == old(nextWorker)
    {
      log := log + [e];
    }

    /** `fork(...)`: a new worker, connected from the start. */
    method ForkWorker() returns (w: nat)
      requires Valid()
      modifies this
      ensures Valid()
      ensures w == old(nextWorker) && nextWorker == w + 1
      ensures connected == old(connected) + {w} && log == old(log) + [Fork(w)]
    {
      w := nextWorker;
      nextWorker := nextWorker + 1;
      connected := connected + {w};
      log := log + [Fork(w)];
    }

    /** The worker's IPC channel closed (it exited or disconnected). */
    method Disconnected(w: nat)
      requires Valid()
      modifies this
      ensures Valid()
      ensures connected == old(connected) - {w}
      ensures log == old(log) && nextWorker == old(nextWorker)
    {
      connected := connected - {w};
    }
  }
}
