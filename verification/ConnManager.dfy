/** The control-connection manager of client/conn.go together with the transfer registry of
    client/files.go: every mutex section is one method, proved against a function on the manager's
    state. The protocols built from these sections are in RequestProtocol and TransferProtocol. */
module ConnManager {
  import opened Basics

  type ConnId = nat      // identity of one control transport
  type RequestId = nat   // identity of one call of request, and so of its result channel
  type Socket = nat      // identity of one data-port transport
  type MsgType = nat

  /** The `origin` of an error frame whose sender did not name the failed request. */
  const NO_ORIGIN: MsgType := 0

  datatype Pending = Pending(request: MsgType, reply: MsgType, waiter: RequestId)

  datatype Transfer = Transfer(frontendId: string, socket: Socket)

  /** What the dispatcher looks at in a frame: its type or, for an error frame, the request type that
      caused it. `Garbled` is an error frame that does not decode. */
  datatype FrameKind = Typed(mt: MsgType) | Failure(origin: MsgType) | Garbled

  datatype Manager = Manager(
    conn: Option<ConnId>,
    epoch: nat,
    pending: map<MsgType, Pending>,
    transferEpoch: nat,
    accepting: bool,
    nextToken: nat,
    entries: map<nat, Transfer>)

  datatype Endpoint = Endpoint(conn: ConnId, epoch: nat)

  function FreshManager(): Manager {
    Manager(None, 0, map[], 0, false, 0, map[])
  }

  function Installed(m: Manager, c: ConnId): Manager {
    m.(conn := Some(c), epoch := m.epoch + 1, transferEpoch := m.transferEpoch + 1, accepting := true)
  }

  function Detached(m: Manager): Manager {
    m.(conn := None, epoch := m.epoch + 1, pending := map[],
       transferEpoch := m.transferEpoch + 1, accepting := false, entries := map[])
  }

  /** What terminateConn leaves behind: nothing happens unless `c` is the installed transport. */
  function Terminated(m: Manager, c: ConnId): Manager {
    if m.conn == Some(c) then Detached(m) else m
  }

  function Registered(m: Manager, send: MsgType, reply: MsgType, w: RequestId): Manager {
    if m.conn.None? then m else m.(pending := m.pending[reply := Pending(send, reply, w)])
  }

  function Forgotten(m: Manager, reply: MsgType, w: RequestId): Manager {
    if reply in m.pending && m.pending[reply].waiter == w then m.(pending := m.pending - {reply}) else m
  }

  function Claimed(m: Manager, claim: Option<MsgType>): Manager {
    if claim.None? then m else m.(pending := m.pending - {claim.value})
  }

  /** The waiters a frame may complete: the one awaiting its type, or any whose request caused it. */
  ghost predicate MayClaim(pending: map<MsgType, Pending>, kind: FrameKind, claim: Option<MsgType>) {
    match kind
    case Typed(mt) => claim == if mt in pending then Some(mt) else None
    case Failure(origin) =>
      if origin != NO_ORIGIN && exists r :: r in pending && pending[r].request == origin
      then claim.Some? && claim.value in pending && pending[claim.value].request == origin
      else claim.None?
    case Garbled => claim.None?
  }

  function Tracked(m: Manager, id: string, epoch: nat, s: Socket): Manager {
    if m.accepting && m.conn.Some? && m.transferEpoch == epoch
    then m.(nextToken := m.nextToken + 1, entries := m.entries[m.nextToken + 1 := Transfer(id, s)])
    else m
  }

  function Untracked(m: Manager, token: nat): Manager {
    m.(entries := m.entries - {token})
  }

  function Cancelled(m: Manager, id: string): Manager {
    m.(entries := map t | t in m.entries && m.entries[t].frontendId != id :: m.entries[t])
  }

  /** `sockets` are the sockets of the entries `tokens`, one by one. */
  ghost predicate SocketsOf(entries: map<nat, Transfer>, tokens: seq<nat>, sockets: seq<Socket>) {
    && |sockets| == |tokens|
    && forall i :: 0 <= i < |tokens| ==> tokens[i] in entries && sockets[i] == entries[tokens[i]].socket
  }

  /** `waiters` are the waiters of the pending replies `order`, one by one. */
  ghost predicate WaitersOf(pending: map<MsgType, Pending>, order: seq<MsgType>, waiters: seq<RequestId>) {
    && |waiters| == |order|
    && forall i :: 0 <= i < |order| ==> order[i] in pending && waiters[i] == pending[order[i]].waiter
  }

  class ConnManager {
    var conn: Option<ConnId>
    var epoch: nat
    var pending: map<MsgType, Pending>
    var transferEpoch: nat
    var accepting: bool
    var nextToken: nat
    var entries: map<nat, Transfer>

    ghost function View(): Manager
      reads this
    {
      Manager(conn, epoch, pending, transferEpoch, accepting, nextToken, entries)
    }

    constructor ()
      ensures View() == FreshManager()
    {
      conn, epoch, pending := None, 0, map[];
      transferEpoch, accepting, nextToken, entries := 0, false, 0, map[];
    }

    /** The installation section of connectWith. */
    method Install(c: ConnId)
      modifies this
      ensures View() == Installed(old(View()), c)
    {
      conn, epoch := Some(c), epoch + 1;
      transferEpoch, accepting := transferEpoch + 1, true;
    }

    /** Empties the registry and hands every registered socket over for closing, each once. */
    method DetachTransfersLocked() returns (sockets: seq<Socket>, ghost tokens: seq<nat>)
      modifies this`entries
      ensures entries == map[]
      ensures IsListing(tokens, old(entries).Keys) && SocketsOf(old(entries), tokens, sockets)
    {
      sockets, tokens := [], [];
      var rest := entries.Keys;
      while rest != {}
        invariant entries.Keys == rest && rest <= old(entries).Keys
        invariant forall t :: t in rest ==> entries[t] == old(entries)[t]
        invariant forall t :: t in old(entries).Keys ==> (t in rest <==> t !in tokens)
        invariant Distinct(tokens) && SocketsOf(old(entries), tokens, sockets)
      {
        var token :| token in rest;
        sockets, tokens := sockets + [entries[token].socket], tokens + [token];
        entries, rest := entries - {token}, rest - {token};
      }
    }

    /** The whole locked section of disconnect: it clears all connection state, and every pending waiter
        and every socket is returned exactly once. */
    method DetachLocked()
      returns (closing: Option<ConnId>, waiters: seq<RequestId>, sockets: seq<Socket>,
               ghost order: seq<MsgType>, ghost tokens: seq<nat>)
      modifies this
      ensures View() == Detached(old(View()))
      ensures closing == old(conn)
      ensures IsListing(order, old(pending).Keys) && WaitersOf(old(pending), order, waiters)
      ensures IsListing(tokens, old(entries).Keys) && SocketsOf(old(entries), tokens, sockets)
    {
      closing := conn;
      waiters, order := [], [];
      var rest := pending.Keys;
      while rest != {}
        invariant rest <= pending.Keys
        invariant forall r :: r in pending.Keys ==> (r in rest <==> r !in order)
        invariant Distinct(order) && WaitersOf(pending, order, waiters)
        invariant View() == old(View())
      {
        var reply :| reply in rest;
        waiters, order := waiters + [pending[reply].waiter], order + [reply];
        rest := rest - {reply};
      }
      pending, conn, epoch := map[], None, epoch + 1;
      accepting, transferEpoch := false, transferEpoch + 1;
      sockets, tokens := DetachTransfersLocked();
    }

    /** The detaching section of terminateConn: a stale loop cannot cut a replacement. */
    method TerminateConn(c: ConnId)
      returns (cut: bool, waiters: seq<RequestId>, sockets: seq<Socket>,
               ghost order: seq<MsgType>, ghost tokens: seq<nat>)
      modifies this
      ensures View() == Terminated(old(View()), c)
      ensures cut <==> old(conn) == Some(c)
      ensures cut ==> IsListing(order, old(pending).Keys) && WaitersOf(old(pending), order, waiters)
      ensures cut ==> IsListing(tokens, old(entries).Keys) && SocketsOf(old(entries), tokens, sockets)
      ensures !cut ==> waiters == [] && sockets == []
    {
      cut, waiters, sockets, order, tokens := false, [], [], [], [];
      if conn != Some(c) {
        return;
      }
      cut := true;
      var closing;
      closing, waiters, sockets, order, tokens := DetachLocked();
    }

    /** The registering section of request; `on` is the transport the call will write to. */
    method RegisterRequest(send: MsgType, reply: MsgType, w: RequestId) returns (on: Option<ConnId>)
      modifies this`pending
      ensures View() == Registered(old(View()), send, reply, w)
      ensures on == conn
    {
      on := conn;
      if on.None? {
        return;
      }
      pending := pending[reply := Pending(send, reply, w)];
    }

    /** The deferred cleanup of request: it removes its own waiter and no one else's. */
    method ForgetRequest(reply: MsgType, w: RequestId)
      modifies this`pending
      ensures View() == Forgotten(old(View()), reply, w)
    {
      if reply in pending && pending[reply].waiter == w {
        pending := pending - {reply};
      }
    }

    /** The section of dispatchAccepted: source check and waiter claim under one lock. */
    method ClaimWaiter(source: ConnId, readerEpoch: nat, kind: FrameKind)
      returns (accepted: bool, waiter: Option<RequestId>, ghost claim: Option<MsgType>)
      modifies this`pending
      ensures accepted <==> kind != Garbled && old(conn) == Some(source) && old(epoch) == readerEpoch
      ensures accepted ==> MayClaim(old(pending), kind, claim)
      ensures !accepted ==> claim.None?
      ensures View() == Claimed(old(View()), claim)
      ensures waiter == if claim.None? then None else Some(old(pending)[claim.value].waiter)
    {
      accepted, waiter, claim := false, None, None;
      if kind == Garbled || conn != Some(source) || epoch != readerEpoch {
        return;
      }
      accepted := true;
      match kind {
        case Typed(mt) =>
          if mt in pending {
            waiter, claim := Some(pending[mt].waiter), Some(mt);
            pending := pending - {mt};
          }
        case Failure(origin) =>
          if origin != NO_ORIGIN {
            var rest := pending.Keys;
            while rest != {}
              invariant rest <= pending.Keys
              invariant forall r :: r in pending.Keys && r !in rest ==> pending[r].request != origin
              invariant pending == old(pending) && waiter.None? && claim.None? && accepted
            {
              var reply :| reply in rest;
              if pending[reply].request == origin {
                waiter, claim := Some(pending[reply].waiter), Some(reply);
                pending := pending - {reply};
                return;
              }
              rest := rest - {reply};
            }
          }
      }
    }

    /** The snapshot section of ftTarget: connection and transfer epoch are read together. A snapshot of the
        installed connection is what the gate accepts in this state; without one, the gate accepts nothing. */
    method FtTarget() returns (ep: Option<Endpoint>)
      ensures ep.Some? ==> Some(ep.value.conn) == conn
      ensures ep.Some? ==>
        forall id, s :: Tracked(View(), id, ep.value.epoch, s).entries == entries[nextToken + 1 := Transfer(id, s)]
      ensures ep.None? ==> forall id, epoch, s :: Tracked(View(), id, epoch, s) == View()
    {
      if conn.None? || !accepting {
        return None;
      }
      return Some(Endpoint(conn.value, transferEpoch));
    }

    /** Registers a data-port socket only while the snapshot's connection is still installed. */
    method TrackTransferAt(id: string, atEpoch: nat, s: Socket) returns (token: Option<nat>)
      modifies this`nextToken, this`entries
      ensures View() == Tracked(old(View()), id, atEpoch, s)
      ensures token == if old(View()) == View() then None else Some(old(nextToken) + 1)
    {
      if !accepting || conn.None? || transferEpoch != atEpoch {
        return None;
      }
      nextToken := nextToken + 1;
      entries := entries[nextToken := Transfer(id, s)];
      return Some(nextToken);
    }

    method Untrack(token: nat)
      modifies this`entries
      ensures View() == Untracked(old(View()), token)
    {
      entries := entries - {token};
    }

    /** Removes every entry with the label, and no other, handing over exactly their sockets. */
    method CancelTransfers(id: string) returns (sockets: seq<Socket>, ghost tokens: seq<nat>)
      modifies this`entries
      ensures View() == Cancelled(old(View()), id)
      ensures IsListing(tokens, set t | t in old(entries) && old(entries)[t].frontendId == id)
      ensures SocketsOf(old(entries), tokens, sockets)
    {
      sockets, tokens := [], [];
      var rest := entries.Keys;
      while rest != {}
        invariant rest <= entries.Keys <= old(entries).Keys
        invariant forall t :: t in entries ==> entries[t] == old(entries)[t]
        invariant forall t :: t in old(entries).Keys && t !in rest ==>
                                (t in entries <==> old(entries)[t].frontendId != id) &&
                                (t in tokens <==> old(entries)[t].frontendId == id)
        invariant forall i :: 0 <= i < |tokens| ==> tokens[i] in old(entries) && tokens[i] !in rest
        invariant Distinct(tokens) && SocketsOf(old(entries), tokens, sockets)
      {
        var token :| token in rest;
        if entries[token].frontendId == id {
          sockets, tokens := sockets + [entries[token].socket], tokens + [token];
          entries := entries - {token};
        }
        rest := rest - {token};
      }
    }
  }
}
