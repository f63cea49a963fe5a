/**
 * The messages that cross the IPC channel between the control process and the
 * stream worker, in both directions, and how each side sees them.
 */
module Ipc {
  import opened Base

  /** A message as the control process receives it: anything that is not an
      object, or an object with an optional `type` and some string fields. */
  datatype Incoming =
    | NotAnObject
    | Object(kind: Option<string>, fields: map<string, string>)

  /** What the worker posts with `process.send`. */
  datatype WorkerMsg =
    | Ready(username: string)
    | Joined
    | Started
    | Stopped
    | ErrorMsg(text: string)
    | LogMsg(text: string)

  /** The `type` field each worker message carries. */
  function TypeOf(m: WorkerMsg): string {
    match m
    case Ready(_) => "ready"
    case Joined => "joined"
    case Started => "started"
    case Stopped => "stopped"
    case ErrorMsg(_) => "error"
    case LogMsg(_) => "log"
  }

  /** The object a worker message arrives as: its type, plus `username` or
      `text` where it has one. */
  function Encode(m: WorkerMsg): (r: Incoming)
    ensures r.Object? && r.kind == Some(TypeOf(m))
    ensures m.Ready? ==> r.fields == map["username" := m.username]
    ensures m.ErrorMsg? || m.LogMsg? ==> r.fields == map["text" := m.text]
  {
    match m
    case Ready(u) => Object(Some("ready"), map["username" := u])
    case Joined => Object(Some("joined"), map[])
    case Started => Object(Some("started"), map[])
    case Stopped => Object(Some("stopped"), map[])
    case ErrorMsg(t) => Object(Some("error"), map["text" := t])
    case LogMsg(t) => Object(Some("log"), map["text" := t])
  }

  /** Different worker messages arrive as different objects. */
  lemma EncodeInjective(a: WorkerMsg, b: WorkerMsg)
    requires Encode(a) == Encode(b)
    ensures a == b
  {
    assert TypeOf(a) == TypeOf(b);
    if a.Ready? {
      assert Encode(a).fields["username"] == a.username;
    } else if a.ErrorMsg? || a.LogMsg? {
      assert Encode(a).fields["text"] == a.text;
    }
  }

  /** What the control process sends the worker. */
  datatype ControlMsg =
    | StartMsg(url: string)
    | StopMsg
    | LeaveMsg

  /** A message as the worker reads it: `msg?.type` and `msg.url`. */
  datatype Inbound = Inbound(kind: Option<string>, url: Option<string>)

  /** `{type: "start", url}`, `{type: "stop"}` and `{type: "leave"}` as the
      worker reads them. */
  function Deliver(m: ControlMsg): (r: Inbound)
    ensures m.StartMsg? <==> r.kind == Some("start")
    ensures m.StopMsg? <==> r.kind == Some("stop")
    ensures m.LeaveMsg? <==> r.kind == Some("leave")
    ensures r.url.Some? <==> m.StartMsg?
    ensures m.StartMsg? ==> r.url == Some(m.url)
  {
    match m
    case StartMsg(u) => Inbound(Some("start"), Some(u))
    case StopMsg => Inbound(Some("stop"), None)
    case LeaveMsg => Inbound(Some("leave"), None)
  }
}
