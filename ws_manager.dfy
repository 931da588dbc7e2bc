/**
 * The WebSocket manager of the real-time status service: a mapping from
 * session id to the client's socket, with connect, disconnect, send and
 * membership. Sockets are opaque handles; what the manager does to them
 * (writes and closes) is recorded in order as a trace, and whether a write
 * succeeds is an input.
 */
module WsManager {

  datatype SocketId = SocketId(handle: nat)

  /** An operation performed on a socket. */
  datatype IoAction = Write(ws: SocketId, data: string) | Close(ws: SocketId)

  /** One call on the manager; `ok` is whether the socket write succeeds. */
  datatype Op =
    | Connect(sid: string, ws: SocketId)
    | Disconnect(sid: string)
    | Send(sid: string, data: string, ok: bool)

  type Sessions = map<string, SocketId>

  /**
   * The new mapping and the socket actions of one call: connecting replaces
   * any earlier socket without closing it; disconnecting closes the socket
   * only when one was mapped; a send to an unknown session does nothing;
   * a failed write drops (and closes) the session.
   */
  function Step(m: Sessions, op: Op): (r: (Sessions, seq<IoAction>))
    ensures forall k :: k != op.sid ==> (k in r.0 <==> k in m) && (k in m ==> r.0[k] == m[k])
    ensures op.Connect? ==> op.sid in r.0 && r.0[op.sid] == op.ws && r.1 == []
    ensures op.Disconnect? ==> op.sid !in r.0 && r.1 == (if op.sid in m then [Close(m[op.sid])] else [])
    ensures op.Send? && op.sid !in m ==> r == (m, [])
    ensures op.Send? && op.sid in m && op.ok ==> r == (m, [Write(m[op.sid], op.data)])
    ensures op.Send? && op.sid in m && !op.ok ==>
              op.sid !in r.0 && r.1 == [Write(m[op.sid], op.data), Close(m[op.sid])]
  {
    match op
    case Connect(sid, ws) => (m[sid := ws], [])
    case Disconnect(sid) =>
      if sid in m then (m - {sid}, [Close(m[sid])]) else (m, [])
    case Send(sid, data, ok) =>
      if sid !in m then (m, [])
      else if ok then (m, [Write(m[sid], data)])
      else (m - {sid}, [Write(m[sid], data), Close(m[sid])])
  }

  /** The mapping after a sequence of calls. */
  function Run(m: Sessions, ops: seq<Op>): Sessions
    decreases |ops|
  {
    if ops == [] then m else Run(Step(m, ops[0]).0, ops[1..])
  }

  lemma {:induction false} RunAppend(m: Sessions, a: seq<Op>, b: seq<Op>)
    ensures Run(m, a + b) == Run(Run(m, a), b)
    decreases |a|
  {
    if a != [] {
      assert (a + b)[0] == a[0];
      assert (a + b)[1..] == a[1..] + b;
      RunAppend(Step(m, a[0]).0, a[1..], b);
    } else {
      assert a + b == b;
    }
  }

  /** Calls for other sessions never change a session's entry. */
  lemma {:induction false} OthersDoNotInterfere(m: Sessions, ops: seq<Op>, sid: string)
    requires forall i :: 0 <= i < |ops| ==> ops[i].sid != sid
    ensures sid in Run(m, ops) <==> sid in m
    ensures sid in m ==> Run(m, ops)[sid] == m[sid]
    decreases |ops|
  {
    if ops != [] {
      OthersDoNotInterfere(Step(m, ops[0]).0, ops[1..], sid);
    }
  }

  /** After `connect(sid, ws)` and only calls for other sessions, `sid` maps to `ws`. */
  lemma LastConnectWins(m: Sessions, before: seq<Op>, sid: string, ws: SocketId, after: seq<Op>)
    requires forall i :: 0 <= i < |after| ==> after[i].sid != sid
    ensures sid in Run(m, before + [Connect(sid, ws)] + after)
    ensures Run(m, before + [Connect(sid, ws)] + after)[sid] == ws
  {
    RunAppend(m, before + [Connect(sid, ws)], after);
    RunAppend(m, before, [Connect(sid, ws)]);
    OthersDoNotInterfere(Run(m, before + [Connect(sid, ws)]), after, sid);
  }

  /** After `disconnect(sid)` and only calls for other sessions, `sid` is gone. */
  lemma LastDisconnectWins(m: Sessions, before: seq<Op>, sid: string, after: seq<Op>)
    requires forall i :: 0 <= i < |after| ==> after[i].sid != sid
    ensures sid !in Run(m, before + [Disconnect(sid)] + after)
  {
    RunAppend(m, before + [Disconnect(sid)], after);
    RunAppend(m, before, [Disconnect(sid)]);
    OthersDoNotInterfere(Run(m, before + [Disconnect(sid)]), after, sid);
  }

  /** A second `disconnect` of the same session changes nothing and closes nothing. */
  lemma DisconnectTwice(m: Sessions, sid: string)
    ensures var once := Step(m, Disconnect(sid)).0;
            Step(once, Disconnect(sid)) == (once, [])
  {
  }

  class WebSocketManager {
    /** `_connections`. */
    var connections: Sessions
    /** The socket writes and closes performed so far, oldest first. */
    var trace: seq<IoAction>

    constructor()
      ensures connections == map[] && trace == []
    {
      connections := map[];
      trace := [];
    }

    method Connect(sid: string, ws: SocketId)
      modifies this
      ensures connections == Step(old(connections), Op.Connect(sid, ws)).0
      ensures trace == old(trace) + Step(old(connections), Op.Connect(sid, ws)).1
    {
      connections := connections[sid := ws];
    }

    method Disconnect(sid: string)
      modifies this
      ensures connections == Step(old(connections), Op.Disconnect(sid)).0
      ensures trace == old(trace) + Step(old(connections), Op.Disconnect(sid)).1
    {
      if sid in connections {
        var ws := connections[sid];
        connections := connections - {sid};
        trace := trace + [Close(ws)];
      }
    }

    /** `writeOk` is whether the socket accepts the write. */
    method SendJson(sid: string, data: string, writeOk: bool)
      modifies this
      ensures connections == Step(old(connections), Send(sid, data, writeOk)).0
      ensures trace == old(trace) + Step(old(connections), Send(sid, data, writeOk)).1
    {
      if sid !in connections {
        return;
      }
      var ws := connections[sid];
      trace := trace + [Write(ws, data)];
      if !writeOk {
        Disconnect(sid);
      }
    }

    method Has(sid: string) returns (b: bool)
      ensures b <==> sid in connections
    {
      b := sid in connections;
    }
  }
}
