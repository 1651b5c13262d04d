/** The errors of the cluster server. A batch of failures is itself an error, so errors form trees;
    the ids of the sockets to close are collected from the whole tree. */
module Errors {
  import opened Base
  import opened Ids

  datatype Error =
    | EncodeError(socket: Option<nat>, to: Option<NodeId>)
    | DecodeError(id: nat, from: Option<NodeId>)
    | RegistrarError(socket: Option<nat>, node: Option<NodeId>)
    | WriteError(id: nat, node: Option<NodeId>)
    | ReadError(id: nat, node: Option<NodeId>)
    | BroadcastError(errors: seq<Error>)
    | PollNotificationErrors(errors: seq<Error>)
    | ConnectError(peer: NodeId)
    | SendError(msg: string, pid: Option<Pid>)
    | ShutdownError(server: Pid)
    | OtherError(text: string)

  /** The socket ids of the error, left to right. */
  function GetIds(e: Error): seq<nat>
    decreases e, 0
  {
    match e
    case EncodeError(socket, _) => if socket.Some? then [socket.value] else []
    case DecodeError(id, _) => [id]
    case RegistrarError(socket, _) => if socket.Some? then [socket.value] else []
    case WriteError(id, _) => [id]
    case ReadError(id, _) => [id]
    case BroadcastError(errors) => FlatIds(errors)
    case PollNotificationErrors(errors) => FlatIds(errors)
    case _ => []
  }

  function FlatIds(errors: seq<Error>): seq<nat>
    decreases errors, 1
  {
    if errors == [] then []
    else
      var last := errors[|errors| - 1];
      FlatIds(errors[..|errors| - 1]) + GetIds(last)
  }

  /** `inner` occurs somewhere in the tree `e`, at any depth. */
  ghost predicate Within(inner: Error, e: Error) {
    || inner == e
    || (e.BroadcastError? && exists i | 0 <= i < |e.errors| :: Within(inner, e.errors[i]))
    || (e.PollNotificationErrors? && exists i | 0 <= i < |e.errors| :: Within(inner, e.errors[i]))
  }

  /** The error itself, not its children, names socket `id`. */
  ghost predicate Names(e: Error, id: nat) {
    match e
    case EncodeError(socket, _) => socket == Some(id)
    case DecodeError(i, _) => i == id
    case RegistrarError(socket, _) => socket == Some(id)
    case WriteError(i, _) => i == id
    case ReadError(i, _) => i == id
    case _ => false
  }

  /** Exactly the sockets named somewhere in the tree are collected. */
  lemma {:induction false} GetIdsComplete(e: Error, id: nat)
    ensures id in GetIds(e) <==> exists inner :: Within(inner, e) && Names(inner, id)
    decreases e, 0
  {
    if e.BroadcastError? || e.PollNotificationErrors? {
      FlatIdsComplete(e.errors, id);
      if id in GetIds(e) {
        var i :| 0 <= i < |e.errors| && id in GetIds(e.errors[i]);
        GetIdsComplete(e.errors[i], id);
        var inner :| Within(inner, e.errors[i]) && Names(inner, id);
        assert Within(inner, e);
      }
      if exists inner :: Within(inner, e) && Names(inner, id) {
        var inner :| Within(inner, e) && Names(inner, id);
        var i :| 0 <= i < |e.errors| && Within(inner, e.errors[i]);
        GetIdsComplete(e.errors[i], id);
      }
    } else if Names(e, id) {
      assert Within(e, e);
    }
  }

  lemma {:induction false} FlatIdsComplete(errors: seq<Error>, id: nat)
    ensures id in FlatIds(errors) <==> exists i | 0 <= i < |errors| :: id in GetIds(errors[i])
  {
    if errors != [] {
      var front := errors[..|errors| - 1];
      FlatIdsComplete(front, id);
      if id in FlatIds(errors) && id in FlatIds(front) {
        var i :| 0 <= i < |front| && id in GetIds(front[i]);
        assert errors[i] == front[i];
      }
      if i :| 0 <= i < |errors| && id in GetIds(errors[i]) {
        assert i < |front| ==> front[i] == errors[i];
      }
    }
  }

  /** What a handler reports: success, or an error to clean up after. */
  datatype Outcome = Success | Failure(error: Error)

  function SetOf(ids: seq<nat>): set<nat> {
    set id | id in ids
  }

  /** The set of sockets to close after an outcome. */
  function FailedIds(o: Outcome): set<nat> {
    match o
    case Success => {}
    case Failure(e) => SetOf(GetIds(e))
  }

  /** The errors after which the cluster server's main loop stops. */
  predicate Fatal(e: Error) {
    e.EncodeError? || e.DecodeError? || e.RegistrarError? || e.SendError? || e.ShutdownError?
  }
}
