/** Requests over a wire without request identifiers (client/conn.go). Every mutex section, channel
    operation and wire event is one step; a run is any interleaving of steps of any number of calls,
    read loops, timeouts, terminations, disconnects and installations. */
module RequestProtocol {
  import opened Basics
  import opened ConnManager

  /** A frame on the wire from the server: the transport it travels on and, in the server's mind, the
      request it answers. The client sees only `kind`. */
  datatype Frame = Frame(id: nat, conn: ConnId, kind: FrameKind, answers: Option<RequestId>)

  /** What a result channel carries: a frame, or the closed-connection error of notifyWaiters. */
  datatype Result = Reply(frame: Frame) | Closed

  /** Where one call of request stands. `on` is the transport captured at registration. */
  datatype Phase =
    | Gated                        // holds the reply gate, has not registered yet
    | Writing(on: ConnId)          // registered, about to write
    | Waiting(on: ConnId)          // in the select
    | Cutting(on: ConnId)          // the write failed or the timer fired; the transport is still to be cut
    | Leaving                      // about to run the deferred cleanup
    | Cleaned                      // about to release the gate
    | Done

  datatype Call = Call(send: MsgType, reply: MsgType, phase: Phase)

  /** How writing a request went: a failed write may still have reached the server. */
  datatype Outcome = Sent | Broken(reached: bool) | Unencodable

  /** How an installed transport ended. */
  datatype End = Intentional | Unexpected

  /** The calls, the locked reply gates and the transport each registered call captured. */
  datatype Calls = Calls(calls: map<RequestId, Call>, gates: map<MsgType, RequestId>, on: map<RequestId, ConnId>)

  /** Result channels: claimed results still to be sent, results on their channel, every send, and what each call read
      from its channel and returned. */
  datatype Channels = Channels(
    mail: map<RequestId, Result>, inbox: map<RequestId, Result>, sends: multiset<RequestId>,
    returned: map<RequestId, Result>)

  /** Transports: epochs captured by read loops, frames sent and not yet dispatched, requests the server
      may have received, the requests it has answered and those whose answer was dispatched, and the transports
      whose read loop has met an error without origin and is about to cut them. */
  datatype Net = Net(readers: map<ConnId, nat>, wire: set<Frame>, written: map<RequestId, ConnId>,
                     answered: set<RequestId>, consumed: set<RequestId>, cutting: set<ConnId>)

  /** Every transport ever installed, how it ended, and its "disconnected" events owed and emitted. */
  datatype Life = Life(installed: set<ConnId>, ended: map<ConnId, End>, notices: set<ConnId>, emitted: multiset<ConnId>)

  datatype Sys = Sys(m: Manager, c: Calls, ch: Channels, net: Net, life: Life)

  datatype Step =
    | Begin(rid: RequestId, send: MsgType, reply: MsgType)
    | Register(rid: RequestId)
    | Write(rid: RequestId, outcome: Outcome)
    | Receive(rid: RequestId)
    | Timeout(rid: RequestId)
    | Cut(rid: RequestId)
    | Cleanup(rid: RequestId)
    | ReleaseGate(rid: RequestId)
    | InstallConn(c: ConnId)
    | StartReader(c: ConnId)
    | Disconnect
    | Terminate(c: ConnId)
    | ServerSend(frame: Frame)
    | Dispatch(frame: Frame, claim: Option<MsgType>)
    | ReaderCut(c: ConnId)
    | Deliver(rid: RequestId)
    | EmitDisconnected(c: ConnId)

  function Start(): Sys {
    Sys(FreshManager(), Calls(map[], map[], map[]), Channels(map[], map[], multiset{}, map[]),
        Net(map[], {}, map[], {}, {}, {}), Life({}, map[], {}, multiset{}))
  }

  /** The source check of dispatchAccepted. */
  predicate Accepts(s: Sys, f: Frame) {
    f.kind != Garbled && s.m.conn == Some(f.conn) && f.conn in s.net.readers && s.m.epoch == s.net.readers[f.conn]
  }

  ghost predicate Enabled(s: Sys, step: Step) {
    match step
    case Begin(rid, send, reply) => rid !in s.c.calls && reply !in s.c.gates
    case Register(rid) => rid in s.c.calls && s.c.calls[rid].phase.Gated?
    case Write(rid, _) => rid in s.c.calls && s.c.calls[rid].phase.Writing?
    case Receive(rid) => rid in s.c.calls && s.c.calls[rid].phase.Waiting? && rid in s.ch.inbox
    case Timeout(rid) => rid in s.c.calls && s.c.calls[rid].phase.Waiting?
    case Cut(rid) => rid in s.c.calls && s.c.calls[rid].phase.Cutting?
    case Cleanup(rid) => rid in s.c.calls && s.c.calls[rid].phase.Leaving?
    case ReleaseGate(rid) => rid in s.c.calls && s.c.calls[rid].phase.Cleaned?
    case InstallConn(c) => s.m.conn.None? && c !in s.life.installed
    case StartReader(c) => c in s.life.installed && c !in s.net.readers
    case Disconnect => true
    case Terminate(c) => true
    case ServerSend(f) => f.conn in s.life.installed && f !in s.net.wire
    case Dispatch(f, claim) =>
      && f in s.net.wire && f.conn in s.net.readers && f.conn !in s.net.cutting
      && if Accepts(s, f) then MayClaim(s.m.pending, f.kind, claim) else claim.None?
    case ReaderCut(c) => c in s.net.cutting
    case Deliver(rid) => rid in s.ch.mail
    case EmitDisconnected(c) => c in s.life.notices
  }

  function Move(c: Calls, rid: RequestId, p: Phase): Calls
    requires rid in c.calls
  {
    c.(calls := c.calls[rid := c.calls[rid].(phase := p)])
  }

  /** notifyWaiters is owed to every waiter detachLocked collected. */
  function Notify(ch: Channels, m: Manager): Channels {
    ch.(mail := ch.mail + map w | w in PendingWaiters(m) :: Closed)
  }

  function PendingWaiters(m: Manager): set<RequestId> {
    set r | r in m.pending :: m.pending[r].waiter
  }

  function Finish(life: Life, conn: Option<ConnId>, end: End): Life {
    if conn.None? then life
    else life.(ended := life.ended[conn.value := end],
               notices := if end == Unexpected then life.notices + {conn.value} else life.notices)
  }

  /** A detach by disconnect or by terminateConn, up to its unlock. */
  function Detach(s: Sys, end: End): Sys {
    s.(m := Detached(s.m), ch := Notify(s.ch, s.m), life := Finish(s.life, s.m.conn, end))
  }

  function TerminateOn(s: Sys, c: ConnId): Sys {
    if s.m.conn == Some(c) then Detach(s, Unexpected) else s
  }

  function Answered(f: Frame): set<RequestId> {
    if f.answers.Some? then {f.answers.value} else {}
  }

  function Send(ch: Channels, rid: RequestId): Channels
    requires rid in ch.mail
  {
    var inbox := if rid in ch.inbox then ch.inbox else ch.inbox[rid := ch.mail[rid]];
    ch.(mail := ch.mail - {rid}, inbox := inbox, sends := ch.sends + multiset{rid})
  }

  ghost function Apply(s: Sys, step: Step): Sys
    requires Enabled(s, step)
  {
    match step
    case Begin(rid, send, reply) =>
      s.(c := s.c.(calls := s.c.calls[rid := Call(send, reply, Gated)], gates := s.c.gates[reply := rid]))
    case Register(rid) =>
      if s.m.conn.None? then s.(c := Move(s.c, rid, Cleaned))
      else s.(m := Registered(s.m, s.c.calls[rid].send, s.c.calls[rid].reply, rid),
              c := Move(s.c, rid, Writing(s.m.conn.value)).(on := s.c.on[rid := s.m.conn.value]))
    case Write(rid, outcome) =>
      var on := s.c.calls[rid].phase.on;
      s.(c := Move(s.c, rid, if outcome.Sent? then Waiting(on) else if outcome.Broken? then Cutting(on) else Leaving),
         net := if outcome.Sent? || (outcome.Broken? && outcome.reached)
                then s.net.(written := s.net.written[rid := on]) else s.net)
    case Receive(rid) =>
      s.(c := Move(s.c, rid, Leaving), ch := s.ch.(returned := s.ch.returned[rid := s.ch.inbox[rid]]))
    case Timeout(rid) => s.(c := Move(s.c, rid, Cutting(s.c.calls[rid].phase.on)))
    case Cut(rid) => TerminateOn(s.(c := Move(s.c, rid, Leaving)), s.c.calls[rid].phase.on)
    case Cleanup(rid) => s.(m := Forgotten(s.m, s.c.calls[rid].reply, rid), c := Move(s.c, rid, Cleaned))
    case ReleaseGate(rid) =>
      s.(c := Move(s.c, rid, Done).(gates := s.c.gates - {s.c.calls[rid].reply}))
    case InstallConn(c) => s.(m := Installed(s.m, c), life := s.life.(installed := s.life.installed + {c}))
    case StartReader(c) => s.(net := s.net.(readers := s.net.readers[c := s.m.epoch]))
    case Disconnect => Detach(s, Intentional)
    case Terminate(c) => TerminateOn(s, c)
    case ServerSend(f) =>
      s.(net := s.net.(wire := s.net.wire + {f}, answered := s.net.answered + Answered(f)))
    case Dispatch(f, claim) =>
      s.(m := Claimed(s.m, claim),
         net := s.net.(wire := s.net.wire - {f}, consumed := s.net.consumed + Answered(f),
                       cutting := if Accepts(s, f) && f.kind == Failure(NO_ORIGIN) then s.net.cutting + {f.conn}
                                  else s.net.cutting),
         ch := if claim.Some? then s.ch.(mail := s.ch.mail[s.m.pending[claim.value].waiter := Reply(f)]) else s.ch)
    case ReaderCut(c) => TerminateOn(s.(net := s.net.(cutting := s.net.cutting - {c})), c)
    case Deliver(rid) => s.(ch := Send(s.ch, rid))
    case EmitDisconnected(c) =>
      s.(life := s.life.(notices := s.life.notices - {c}, emitted := s.life.emitted + multiset{c}))
  }

  /** The state after a run, or None if some step of it could not happen. */
  ghost function Execute(s: Sys, steps: seq<Step>): Option<Sys>
    decreases |steps|
  {
    if steps == [] then Some(s)
    else
      var before := Execute(s, steps[..|steps| - 1]);
      if before.Some? && Enabled(before.value, steps[|steps| - 1])
      then Some(Apply(before.value, steps[|steps| - 1]))
      else None
  }

  // ---------------------------------------------------------------------------------------------
  // What every step keeps, whatever the server sends

  /** A call past registration and before its cleanup. */
  predicate Owns(p: Phase) {
    p.Writing? || p.Waiting? || p.Cutting? || p.Leaving?
  }

  /** A reply gate is held by exactly one unfinished call for that reply. */
  ghost predicate GatesHeld(c: Calls) {
    && (forall r :: r in c.gates ==>
          c.gates[r] in c.calls && c.calls[c.gates[r]].reply == r && c.calls[c.gates[r]].phase != Done)
    && (forall rid :: rid in c.calls && c.calls[rid].phase != Done ==>
          c.calls[rid].reply in c.gates && c.gates[c.calls[rid].reply] == rid)
  }

  /** A registered call knows the transport it registered on. */
  ghost predicate CallsSound(c: Calls) {
    && (forall rid :: rid in c.calls && Owns(c.calls[rid].phase) && !c.calls[rid].phase.Leaving? ==>
          rid in c.on && c.on[rid] == c.calls[rid].phase.on)
    && (forall rid :: rid in c.on ==> rid in c.calls && !c.calls[rid].phase.Gated?)
  }

  /** A pending entry belongs to the unfinished call holding its gate, registered on the live transport. */
  ghost predicate PendingOwned(m: Manager, c: Calls) {
    forall r :: r in m.pending ==>
      var w := m.pending[r].waiter;
      && m.pending[r].reply == r && w in c.calls && c.calls[w].reply == r && c.calls[w].send == m.pending[r].request
      && Owns(c.calls[w].phase) && w in c.on && m.conn == Some(c.on[w])
  }

  /** A pending waiter has been sent nothing and is owed nothing else. */
  ghost predicate PendingEmpty(m: Manager, ch: Channels) {
    forall r :: r in m.pending ==> m.pending[r].waiter !in ch.mail && m.pending[r].waiter !in ch.sends
  }

  /** A result on its way or on its channel came from the transport its call registered on. */
  ghost predicate FromOwnConn(results: map<RequestId, Result>, on: map<RequestId, ConnId>) {
    forall w :: w in results ==> w in on && (results[w].Reply? ==> results[w].frame.conn == on[w])
  }

  /** Every channel was sent to at most once, and what was sent arrived. */
  ghost predicate OneSend(ch: Channels) {
    && (forall w :: w in ch.mail ==> w !in ch.sends)
    && (forall w :: w in ch.inbox <==> w in ch.sends)
    && (forall w :: w in ch.sends ==> ch.sends[w] == 1)
  }

  /** What a call returned is what is on its channel. */
  ghost predicate ReturnedSound(ch: Channels) {
    forall w :: w in ch.returned ==> w in ch.inbox && ch.returned[w] == ch.inbox[w]
  }

  /** An installed transport is live or ended, not both. */
  ghost predicate EndsSound(conn: Option<ConnId>, life: Life) {
    && (forall c :: c in life.ended ==> c in life.installed)
    && (conn.Some? ==> conn.value in life.installed && conn.value !in life.ended)
  }

  /** Exactly the unexpected ends are announced, each once. */
  ghost predicate NoticesSound(life: Life) {
    && (forall c :: c in life.notices ==> c !in life.emitted)
    && (forall c :: c in life.emitted ==> life.emitted[c] == 1)
    && (forall c :: c in life.notices || c in life.emitted <==> c in life.ended && life.ended[c] == Unexpected)
  }

  /** A read loop of the live transport holds the live epoch. */
  ghost predicate ReadersSound(m: Manager, net: Net, life: Life) {
    && (forall c :: c in net.readers ==> c in life.installed)
    && (m.conn.Some? && m.conn.value in net.readers ==> net.readers[m.conn.value] == m.epoch)
  }

  /** The parts of the invariant, each proved by itself. */
  datatype Part =
    | GatesPart | CallsPart | OwnedPart | EmptyPart | MailPart | InboxPart | SendPart | ReturnPart
    | EndsPart | NoticePart | ReaderPart

  ghost predicate Holds(s: Sys, part: Part) {
    match part
    case GatesPart => GatesHeld(s.c)
    case CallsPart => CallsSound(s.c)
    case OwnedPart => PendingOwned(s.m, s.c)
    case EmptyPart => PendingEmpty(s.m, s.ch)
    case MailPart => FromOwnConn(s.ch.mail, s.c.on)
    case InboxPart => FromOwnConn(s.ch.inbox, s.c.on)
    case SendPart => OneSend(s.ch)
    case ReturnPart => ReturnedSound(s.ch)
    case EndsPart => EndsSound(s.m.conn, s.life)
    case NoticePart => NoticesSound(s.life)
    case ReaderPart => ReadersSound(s.m, s.net, s.life)
  }

  ghost predicate Inv(s: Sys) {
    forall part :: Holds(s, part)
  }

  /** The steps of one call of request. */
  predicate OfCaller(step: Step) {
    || step.Begin? || step.Register? || step.Write? || step.Receive? || step.Timeout?
    || step.Cut? || step.Cleanup? || step.ReleaseGate?
  }

  /** Those after its request was written. */
  predicate Leaves(step: Step) {
    step.Receive? || step.Timeout? || step.Cut? || step.Cleanup? || step.ReleaseGate?
  }

  lemma StepKeepsGates(s: Sys, step: Step)
    requires Holds(s, GatesPart) && Enabled(s, step)
    ensures Holds(Apply(s, step), GatesPart)
  {
    if Leaves(step) {
      LeavingKeepsGates(s, step);
    }
  }

  lemma LeavingKeepsGates(s: Sys, step: Step)
    requires Holds(s, GatesPart) && Enabled(s, step) && Leaves(step)
    ensures Holds(Apply(s, step), GatesPart)
  {
  }

  lemma StepKeepsCalls(s: Sys, step: Step)
    requires Holds(s, CallsPart) && Enabled(s, step)
    ensures Holds(Apply(s, step), CallsPart)
  {
  }

  lemma StepKeepsOwned(s: Sys, step: Step)
    requires Holds(s, OwnedPart) && Holds(s, GatesPart) && Holds(s, CallsPart) && Enabled(s, step)
    ensures Holds(Apply(s, step), OwnedPart)
  {
    if OfCaller(step) {
      CallerKeepsOwned(s, step);
    }
  }

  lemma CallerKeepsOwned(s: Sys, step: Step)
    requires Holds(s, OwnedPart) && Holds(s, GatesPart) && Holds(s, CallsPart) && Enabled(s, step)
    requires OfCaller(step)
    ensures Holds(Apply(s, step), OwnedPart)
  {
    if Leaves(step) {
      LeavingKeepsOwned(s, step);
    }
  }

  lemma LeavingKeepsOwned(s: Sys, step: Step)
    requires Holds(s, OwnedPart) && Holds(s, GatesPart) && Holds(s, CallsPart) && Enabled(s, step)
    requires Leaves(step)
    ensures Holds(Apply(s, step), OwnedPart)
  {
  }

  lemma StepKeepsEmpty(s: Sys, step: Step)
    requires Holds(s, EmptyPart) && Holds(s, OwnedPart) && Holds(s, CallsPart) && Enabled(s, step)
    requires Holds(s, MailPart) && Holds(s, InboxPart) && Holds(s, SendPart)
    ensures Holds(Apply(s, step), EmptyPart)
  {
    if OfCaller(step) {
      CallerKeepsEmpty(s, step);
    } else if step.Dispatch? {
      DispatchKeepsEmpty(s, step);
    }
  }

  lemma CallerKeepsEmpty(s: Sys, step: Step)
    requires Holds(s, EmptyPart) && Holds(s, CallsPart) && Enabled(s, step) && OfCaller(step)
    requires Holds(s, MailPart) && Holds(s, InboxPart) && Holds(s, SendPart)
    ensures Holds(Apply(s, step), EmptyPart)
  {
  }

  lemma DispatchKeepsEmpty(s: Sys, step: Step)
    requires Holds(s, EmptyPart) && Holds(s, OwnedPart) && Enabled(s, step) && step.Dispatch?
    ensures Holds(Apply(s, step), EmptyPart)
  {
  }

  lemma StepKeepsMail(s: Sys, step: Step)
    requires Holds(s, MailPart) && Holds(s, OwnedPart) && Holds(s, CallsPart) && Enabled(s, step)
    ensures Holds(Apply(s, step), MailPart)
  {
  }

  lemma StepKeepsInbox(s: Sys, step: Step)
    requires Holds(s, InboxPart) && Holds(s, MailPart) && Holds(s, CallsPart) && Enabled(s, step)
    ensures Holds(Apply(s, step), InboxPart)
  {
  }

  lemma StepKeepsSend(s: Sys, step: Step)
    requires Holds(s, SendPart) && Holds(s, EmptyPart) && Enabled(s, step)
    ensures Holds(Apply(s, step), SendPart)
  {
  }

  lemma StepKeepsReturned(s: Sys, step: Step)
    requires Holds(s, ReturnPart) && Enabled(s, step)
    ensures Holds(Apply(s, step), ReturnPart)
  {
  }

  lemma StepKeepsEnds(s: Sys, step: Step)
    requires Holds(s, EndsPart) && Enabled(s, step)
    ensures Holds(Apply(s, step), EndsPart)
  {
  }

  lemma StepKeepsNotices(s: Sys, step: Step)
    requires Holds(s, NoticePart) && Holds(s, EndsPart) && Enabled(s, step)
    ensures Holds(Apply(s, step), NoticePart)
  {
  }

  lemma StepKeepsReaders(s: Sys, step: Step)
    requires Holds(s, ReaderPart) && Holds(s, EndsPart) && Enabled(s, step)
    ensures Holds(Apply(s, step), ReaderPart)
  {
  }

  lemma StepKeepsInv(s: Sys, step: Step)
    requires Inv(s) && Enabled(s, step)
    ensures Inv(Apply(s, step))
  {
    forall part ensures Holds(Apply(s, step), part) {
      match part
      case GatesPart => StepKeepsGates(s, step);
      case CallsPart => StepKeepsCalls(s, step);
      case OwnedPart => StepKeepsOwned(s, step);
      case EmptyPart => StepKeepsEmpty(s, step);
      case MailPart => StepKeepsMail(s, step);
      case InboxPart => StepKeepsInbox(s, step);
      case SendPart => StepKeepsSend(s, step);
      case ReturnPart => StepKeepsReturned(s, step);
      case EndsPart => StepKeepsEnds(s, step);
      case NoticePart => StepKeepsNotices(s, step);
      case ReaderPart => StepKeepsReaders(s, step);
    }
  }

  lemma {:induction false} RunKeepsInv(s: Sys, steps: seq<Step>)
    requires Inv(s) && Execute(s, steps).Some?
    ensures Inv(Execute(s, steps).value)
    decreases |steps|
  {
    if steps == [] {
    } else {
      var front := steps[..|steps| - 1];
      RunKeepsInv(s, front);
      StepKeepsInv(Execute(s, front).value, steps[|steps| - 1]);
    }
  }

  lemma StartHasInv()
    ensures Inv(Start())
  {
    forall part ensures Holds(Start(), part) {
      match part case _ =>
    }
  }

  // ---------------------------------------------------------------------------------------------
  // Main results, whatever the server sends

  /** In every run, a frame on a result channel was read from the transport its request was registered
      on, and no channel is ever sent to twice. */
  lemma ReplyComesFromOwnConnection(steps: seq<Step>, w: RequestId)
    requires Execute(Start(), steps).Some?
    ensures var s := Execute(Start(), steps).value;
            && s.ch.sends[w] <= 1
            && (w in s.ch.inbox && s.ch.inbox[w].Reply? ==> w in s.c.on && s.ch.inbox[w].frame.conn == s.c.on[w])
  {
    StartHasInv();
    RunKeepsInv(Start(), steps);
    assert Holds(Execute(Start(), steps).value, InboxPart);
    assert Holds(Execute(Start(), steps).value, SendPart);
  }

  /** "disconnected" is emitted at most once per transport, only for one that was installed and ended
      unexpectedly, and never for a live one or after an intentional disconnect. */
  lemma DisconnectedAnnouncedOnce(steps: seq<Step>, c: ConnId)
    requires Execute(Start(), steps).Some?
    ensures var s := Execute(Start(), steps).value;
            && s.life.emitted[c] <= 1
            && (s.life.emitted[c] == 1 ==> c in s.life.installed && c in s.life.ended && s.life.ended[c] == Unexpected)
            && (s.m.conn == Some(c) ==> s.life.emitted[c] == 0)
            && (c in s.life.ended && s.life.ended[c] == Unexpected && c !in s.life.notices ==> s.life.emitted[c] == 1)
  {
    StartHasInv();
    RunKeepsInv(Start(), steps);
    assert Holds(Execute(Start(), steps).value, EndsPart);
    assert Holds(Execute(Start(), steps).value, NoticePart);
  }

  /** The step cuts the live transport `c` otherwise than by an intentional disconnect. */
  predicate Cuts(s: Sys, step: Step, c: ConnId) {
    s.m.conn == Some(c) && Detaches(s, step) && !step.Disconnect?
  }

  ghost predicate WasCut(steps: seq<Step>, c: ConnId)
    decreases |steps|
  {
    if steps == [] then false
    else
      var front := steps[..|steps| - 1];
      WasCut(front, c) || (Execute(Start(), front).Some? && Cuts(Execute(Start(), front).value, steps[|steps| - 1], c))
  }

  predicate Announced(life: Life, c: ConnId) {
    c in life.notices || life.emitted[c] == 1
  }

  /** Cutting the live transport owes its announcement, and nothing else does or takes it back. */
  lemma StepAnnouncesCut(s: Sys, step: Step, c: ConnId)
    requires Inv(s) && Enabled(s, step)
    ensures Announced(Apply(s, step).life, c) <==> Announced(s.life, c) || Cuts(s, step, c)
  {
    assert Holds(s, EndsPart);
    assert Holds(s, NoticePart);
  }

  /** In every run, "disconnected" is owed or emitted for exactly the transports that were cut while live by
      their read loop, a failed write, a timeout or an error without origin. */
  lemma {:induction false} AnnouncedIffCut(steps: seq<Step>, c: ConnId)
    requires Execute(Start(), steps).Some?
    ensures Announced(Execute(Start(), steps).value.life, c) <==> WasCut(steps, c)
    decreases |steps|
  {
    if steps == [] {
    } else {
      var front := steps[..|steps| - 1];
      AnnouncedIffCut(front, c);
      StartHasInv();
      RunKeepsInv(Start(), front);
      StepAnnouncesCut(Execute(Start(), front).value, steps[|steps| - 1], c);
    }
  }

  predicate Detaches(s: Sys, step: Step) {
    || step.Disconnect?
    || ((step.Terminate? || step.ReaderCut?) && s.m.conn == Some(step.c))
    || (step.Cut? && step.rid in s.c.calls && s.c.calls[step.rid].phase.Cutting? &&
        s.m.conn == Some(s.c.calls[step.rid].phase.on))
  }

  /** A waiter is never overwritten, and leaves the pending table only by a dispatch that claims it, a
      detach, or the cleanup of its own call. */
  lemma WaiterConservation(s: Sys, step: Step, r: MsgType)
    requires Inv(s) && Enabled(s, step) && r in s.m.pending
    ensures r in Apply(s, step).m.pending ==> Apply(s, step).m.pending[r] == s.m.pending[r]
    ensures r !in Apply(s, step).m.pending ==>
              || Detaches(s, step)
              || (step.Dispatch? && step.claim == Some(r))
              || (step.Cleanup? && step.rid == s.m.pending[r].waiter)
  {
    assert Holds(s, GatesPart);
    assert Holds(s, OwnedPart);
  }

  /** Every detach empties the pending table and wakes each waiter it finds there. */
  lemma DetachWakesEveryWaiter(s: Sys, step: Step, r: MsgType)
    requires Inv(s) && Enabled(s, step) && Detaches(s, step) && r in s.m.pending
    ensures var s' := Apply(s, step);
            && s'.m.pending == map[] && s'.m.conn.None?
            && s.m.pending[r].waiter in s'.ch.mail && s'.ch.mail[s.m.pending[r].waiter] == Closed
  {
    assert s.m.pending[r].waiter in PendingWaiters(s.m);
  }

  /** The managers that connect are new, so an install finds no transport; then it finds nothing pending. */
  lemma InstallFindsNothingPending(steps: seq<Step>, c: ConnId)
    requires Execute(Start(), steps).Some? && Enabled(Execute(Start(), steps).value, InstallConn(c))
    ensures Execute(Start(), steps).value.m.pending == map[]
  {
    StartHasInv();
    RunKeepsInv(Start(), steps);
    var s := Execute(Start(), steps).value;
    assert Holds(s, OwnedPart);
  }

  /** connectWith installs without looking at the pending table. That keeps every pending waiter on the
      live transport exactly when nothing is pending. */
  lemma InstallIsSafeIffNothingPending(s: Sys, c: ConnId)
    requires Inv(s) && c !in s.life.installed
    ensures PendingOwned(Installed(s.m, c), s.c) <==> s.m.pending == map[]
  {
    assert Holds(s, OwnedPart);
    assert Holds(s, EndsPart);
    if s.m.pending != map[] {
      var r :| r in s.m.pending;
      assert s.m.conn == Some(s.c.on[s.m.pending[r].waiter]);
    }
  }

  // What arrives on a result channel, read off the run

  /** What has been claimed for a request, on its way or on its channel. */
  function SentTo(ch: Channels, w: RequestId): Option<Result> {
    if w in ch.mail then Some(ch.mail[w]) else if w in ch.inbox then Some(ch.inbox[w]) else None
  }

  /** What a step claims for a request: a detach that finds it pending the closed-connection error, and a dispatch that
      takes it out of the table the frame. */
  function ClaimedBy(s: Sys, step: Step, w: RequestId): Option<Result> {
    if Detaches(s, step) && w in PendingWaiters(s.m) then Some(Closed)
    else if step.Dispatch? && step.claim.Some? && step.claim.value in s.m.pending
            && s.m.pending[step.claim.value].waiter == w then Some(Reply(step.frame))
    else None
  }

  /** The first claim for a request in a run. */
  ghost function FirstClaim(steps: seq<Step>, w: RequestId): Option<Result>
    decreases |steps|
  {
    if steps == [] then None
    else
      var front := steps[..|steps| - 1];
      if FirstClaim(front, w).Some? then FirstClaim(front, w)
      else if Execute(Start(), front).Some? then ClaimedBy(Execute(Start(), front).value, steps[|steps| - 1], w)
      else None
  }

  lemma PendingIsUnsent(s: Sys, w: RequestId)
    requires Inv(s) && w in PendingWaiters(s.m)
    ensures SentTo(s.ch, w).None?
  {
    assert Holds(s, EmptyPart);
    assert Holds(s, SendPart);
  }

  /** A step adds its own claim, and neither changes nor loses an earlier one. */
  lemma StepClaims(s: Sys, step: Step, w: RequestId)
    requires Inv(s) && Enabled(s, step)
    ensures SentTo(Apply(s, step).ch, w) ==
            if SentTo(s.ch, w).Some? then SentTo(s.ch, w) else ClaimedBy(s, step, w)
  {
    assert Holds(s, SendPart);
    if w in PendingWaiters(s.m) {
      PendingIsUnsent(s, w);
    }
    if OfCaller(step) {
      CallerClaims(s, step, w);
    } else if step.Deliver? {
      DeliveryKeepsClaim(s, step.rid, w);
    }
  }

  lemma CallerClaims(s: Sys, step: Step, w: RequestId)
    requires Enabled(s, step) && OfCaller(step) && (w in PendingWaiters(s.m) ==> SentTo(s.ch, w).None?)
    ensures SentTo(Apply(s, step).ch, w) == if SentTo(s.ch, w).Some? then SentTo(s.ch, w) else ClaimedBy(s, step, w)
  {
  }

  lemma DeliveryKeepsClaim(s: Sys, rid: RequestId, w: RequestId)
    requires Holds(s, SendPart) && Enabled(s, Deliver(rid))
    ensures SentTo(Apply(s, Deliver(rid)).ch, w) == SentTo(s.ch, w)
  {
  }

  /** In every run, what is on its way to a request or on its channel is the first claim made for it, whole and
      unchanged; what the call returned is that too. */
  lemma {:induction false} ResultIsFirstClaim(steps: seq<Step>, w: RequestId)
    requires Execute(Start(), steps).Some?
    ensures var s := Execute(Start(), steps).value;
            && SentTo(s.ch, w) == FirstClaim(steps, w)
            && (w in s.ch.inbox ==> Some(s.ch.inbox[w]) == FirstClaim(steps, w))
            && (w in s.ch.returned ==> Some(s.ch.returned[w]) == FirstClaim(steps, w))
    decreases |steps|
  {
    StartHasInv();
    RunKeepsInv(Start(), steps);
    ReturnedIsSent(Execute(Start(), steps).value, w);
    if steps == [] {
    } else {
      var front := steps[..|steps| - 1];
      ResultIsFirstClaim(front, w);
      RunKeepsInv(Start(), front);
      StepClaims(Execute(Start(), front).value, steps[|steps| - 1], w);
    }
  }

  lemma ReturnedIsSent(s: Sys, w: RequestId)
    requires Inv(s)
    ensures w in s.ch.inbox ==> SentTo(s.ch, w) == Some(s.ch.inbox[w])
    ensures w in s.ch.returned ==> SentTo(s.ch, w) == Some(s.ch.returned[w])
  {
    assert Holds(s, SendPart);
    assert Holds(s, ReturnPart);
  }

  /** So a call ends with the closed-connection error only if a detach of the run found it pending, and with a frame
      only if a dispatch of the run took it out of the table for that very frame. */
  lemma {:induction false} ClaimHasItsStep(steps: seq<Step>, w: RequestId) returns (n: nat)
    requires Execute(Start(), steps).Some? && FirstClaim(steps, w).Some?
    ensures n < |steps| && Execute(Start(), steps[..n]).Some?
    ensures ClaimedBy(Execute(Start(), steps[..n]).value, steps[n], w) == FirstClaim(steps, w)
    decreases |steps|
  {
    var front := steps[..|steps| - 1];
    if FirstClaim(front, w).Some? {
      n := ClaimHasItsStep(front, w);
      assert front[..n] == steps[..n];
    } else {
      n := |front|;
    }
  }

  /** What was claimed stays claimed. */
  lemma {:induction false} ClaimStays(s: Sys, steps: seq<Step>, w: RequestId)
    requires Inv(s) && Execute(s, steps).Some? && SentTo(s.ch, w).Some?
    ensures SentTo(Execute(s, steps).value.ch, w) == SentTo(s.ch, w)
    decreases |steps|
  {
    if steps == [] {
    } else {
      var front := steps[..|steps| - 1];
      ClaimStays(s, front, w);
      RunKeepsInv(s, front);
      StepClaims(Execute(s, front).value, steps[|steps| - 1], w);
    }
  }

  // ---------------------------------------------------------------------------------------------
  // Main result with a server that answers each request once

  /** `routes` maps every request type to its one reply type. */
  type Routes = map<MsgType, MsgType>

  /** The frame answers request `rid` with its typed reply or an error naming its type. */
  predicate Answers(c: Calls, f: Frame, rid: RequestId) {
    rid in c.calls && (f.kind == Typed(c.calls[rid].reply) || f.kind == Failure(c.calls[rid].send))
  }

  /** A frame that no request waits for: another type, an error of another command, or of no command. */
  predicate Unsolicited(routes: Routes, f: Frame) {
    match f.kind
    case Typed(mt) => mt !in routes.Values
    case Failure(origin) => origin == NO_ORIGIN || origin !in routes
    case Garbled => true
  }

  /** The caller uses the routing table; the server answers a request it received at most once, on the
      transport it came on, with its reply, an error naming its type or an error naming nothing, and sends nothing
      else that a request could wait for. */
  predicate Honest(routes: Routes, s: Sys, step: Step) {
    match step
    case Begin(_, send, reply) => send in routes && routes[send] == reply && send != NO_ORIGIN
    case ServerSend(f) =>
      if f.answers.None? then Unsolicited(routes, f)
      else
        var rid := f.answers.value;
        && rid in s.net.written && s.net.written[rid] == f.conn && rid !in s.net.answered
        && (Answers(s.c, f, rid) || f.kind == Failure(NO_ORIGIN))
    case _ => true
  }

  ghost predicate HonestRun(routes: Routes, s: Sys, steps: seq<Step>)
    decreases |steps|
  {
    steps == [] ||
    (HonestRun(routes, s, steps[..|steps| - 1]) &&
     var before := Execute(s, steps[..|steps| - 1]);
     before.Some? ==> Honest(routes, before.value, steps[|steps| - 1]))
  }

  ghost predicate Routed(routes: Routes, c: Calls) {
    forall rid :: rid in c.calls ==>
      c.calls[rid].send in routes && routes[c.calls[rid].send] == c.calls[rid].reply && c.calls[rid].send != NO_ORIGIN
  }

  ghost predicate WrittenSound(c: Calls, net: Net) {
    forall rid :: rid in net.written ==>
      rid in c.calls && rid in c.on && net.written[rid] == c.on[rid] && !c.calls[rid].phase.Writing?
  }

  ghost predicate OnInstalled(c: Calls, life: Life) {
    forall rid :: rid in c.on ==> c.on[rid] in life.installed
  }

  ghost predicate WireSound(routes: Routes, c: Calls, net: Net) {
    && (forall f :: f in net.wire ==>
          if f.answers.None? then Unsolicited(routes, f)
          else f.answers.value in net.written && net.written[f.answers.value] == f.conn &&
               f.answers.value in net.answered && f.answers.value !in net.consumed &&
               (Answers(c, f, f.answers.value) || f.kind == Failure(NO_ORIGIN)))
    && (forall f, g :: f in net.wire && g in net.wire && f.answers.Some? && f.answers == g.answers ==> f == g)
    && (forall rid :: rid in net.consumed ==> rid in net.answered)
    && (forall rid :: rid in net.answered ==> rid in net.written)
  }

  /** A request whose answer may still arrive on the live transport is still the pending one. */
  ghost predicate Awaited(m: Manager, c: Calls, net: Net) {
    forall rid :: rid in net.written && m.conn == Some(net.written[rid]) && rid !in net.consumed ==>
      rid in c.calls && c.calls[rid].reply in m.pending && m.pending[c.calls[rid].reply].waiter == rid
  }

  /** So is a call about to write on the live transport. */
  ghost predicate WritersAwaited(m: Manager, c: Calls) {
    forall rid :: rid in c.calls && c.calls[rid].phase.Writing? && m.conn == Some(c.calls[rid].phase.on) ==>
      c.calls[rid].reply in m.pending && m.pending[c.calls[rid].reply].waiter == rid
  }

  /** A call leaves only when its answer can no longer arrive on the live transport. */
  ghost predicate LeftSafely(m: Manager, c: Calls, net: Net) {
    forall rid :: rid in net.written && rid in c.calls && m.conn == Some(net.written[rid]) && rid !in net.consumed ==>
      !c.calls[rid].phase.Leaving? && !c.calls[rid].phase.Cleaned? && !c.calls[rid].phase.Done?
  }

  /** A request whose answer had no origin stays pending only while its read loop is about to cut the transport. */
  ghost predicate SpentIsCut(m: Manager, net: Net) {
    forall r :: r in m.pending && m.pending[r].waiter in net.consumed ==> m.conn.Some? && m.conn.value in net.cutting
  }

  ghost predicate OwnAnswers(c: Calls, results: map<RequestId, Result>) {
    forall w :: w in results && results[w].Reply? ==>
      results[w].frame.answers == Some(w) && Answers(c, results[w].frame, w)
  }

  datatype HonestPart =
    | RoutedPart | WrittenPart | OnPart | WirePart | AwaitedPart | WriterPart | LeftPart | SpentPart
    | MailAnswerPart | AnswerPart

  ghost predicate HoldsHonest(routes: Routes, s: Sys, part: HonestPart) {
    match part
    case RoutedPart => Routed(routes, s.c)
    case WrittenPart => WrittenSound(s.c, s.net)
    case OnPart => OnInstalled(s.c, s.life)
    case WirePart => WireSound(routes, s.c, s.net)
    case AwaitedPart => Awaited(s.m, s.c, s.net)
    case WriterPart => WritersAwaited(s.m, s.c)
    case LeftPart => LeftSafely(s.m, s.c, s.net)
    case SpentPart => SpentIsCut(s.m, s.net)
    case MailAnswerPart => OwnAnswers(s.c, s.ch.mail)
    case AnswerPart => OwnAnswers(s.c, s.ch.inbox)
  }

  ghost predicate HonestInv(routes: Routes, s: Sys) {
    forall part :: HoldsHonest(routes, s, part)
  }

  /** The claim of an accepted frame is the request it answers, and nothing for an unsolicited one or an error
      without origin. */
  lemma ClaimIsOwn(routes: Routes, s: Sys, f: Frame, claim: Option<MsgType>)
    requires Holds(s, OwnedPart) && Enabled(s, Dispatch(f, claim)) && Accepts(s, f)
    requires HoldsHonest(routes, s, RoutedPart) && HoldsHonest(routes, s, WirePart)
    requires HoldsHonest(routes, s, AwaitedPart)
    ensures f.answers.None? ==> claim.None?
    ensures f.kind == Failure(NO_ORIGIN) ==> claim.None?
    ensures f.answers.Some? && f.kind != Failure(NO_ORIGIN) ==>
              claim.Some? && s.m.pending[claim.value].waiter == f.answers.value
  {
    if f.answers.Some? && f.kind != Failure(NO_ORIGIN) {
      var rid := f.answers.value;
      assert s.m.pending[s.c.calls[rid].reply].waiter == rid;
    }
  }

  lemma StepKeepsRouted(routes: Routes, s: Sys, step: Step)
    requires HoldsHonest(routes, s, RoutedPart) && Enabled(s, step) && Honest(routes, s, step)
    ensures HoldsHonest(routes, Apply(s, step), RoutedPart)
  {
  }

  lemma StepKeepsWritten(routes: Routes, s: Sys, step: Step)
    requires HoldsHonest(routes, s, WrittenPart) && Holds(s, CallsPart) && Enabled(s, step)
    ensures HoldsHonest(routes, Apply(s, step), WrittenPart)
  {
    if OfCaller(step) {
      CallerKeepsWritten(routes, s, step);
    }
  }

  lemma CallerKeepsWritten(routes: Routes, s: Sys, step: Step)
    requires HoldsHonest(routes, s, WrittenPart) && Holds(s, CallsPart) && Enabled(s, step) && OfCaller(step)
    ensures HoldsHonest(routes, Apply(s, step), WrittenPart)
  {
  }

  lemma StepKeepsOn(routes: Routes, s: Sys, step: Step)
    requires HoldsHonest(routes, s, OnPart) && Holds(s, EndsPart) && Enabled(s, step)
    ensures HoldsHonest(routes, Apply(s, step), OnPart)
  {
  }

  lemma StepKeepsWire(routes: Routes, s: Sys, step: Step)
    requires HoldsHonest(routes, s, WirePart) && HoldsHonest(routes, s, WrittenPart) && Enabled(s, step)
    requires Honest(routes, s, step)
    ensures HoldsHonest(routes, Apply(s, step), WirePart)
  {
    if OfCaller(step) {
      CallerKeepsWire(routes, s, step);
    }
  }

  lemma CallerKeepsWire(routes: Routes, s: Sys, step: Step)
    requires HoldsHonest(routes, s, WirePart) && HoldsHonest(routes, s, WrittenPart) && Enabled(s, step)
    requires Honest(routes, s, step)
    requires OfCaller(step)
    ensures HoldsHonest(routes, Apply(s, step), WirePart)
  {
  }

  lemma StepKeepsAwaited(routes: Routes, s: Sys, step: Step)
    requires HoldsHonest(routes, s, AwaitedPart) && HoldsHonest(routes, s, WriterPart)
    requires HoldsHonest(routes, s, WrittenPart) && HoldsHonest(routes, s, OnPart) && HoldsHonest(routes, s, LeftPart)
    requires HoldsHonest(routes, s, WirePart) && HoldsHonest(routes, s, RoutedPart)
    requires Holds(s, OwnedPart) && Holds(s, GatesPart) && Enabled(s, step) && Honest(routes, s, step)
    ensures HoldsHonest(routes, Apply(s, step), AwaitedPart)
  {
    if OfCaller(step) {
      CallerKeepsAwaited(routes, s, step);
    } else if step.Dispatch? {
      DispatchKeepsAwaited(routes, s, step.frame, step.claim);
    }
  }

  lemma DispatchKeepsAwaited(routes: Routes, s: Sys, f: Frame, claim: Option<MsgType>)
    requires HoldsHonest(routes, s, AwaitedPart) && HoldsHonest(routes, s, WirePart)
    requires HoldsHonest(routes, s, RoutedPart) && HoldsHonest(routes, s, WrittenPart)
    requires Holds(s, OwnedPart) && Enabled(s, Dispatch(f, claim))
    ensures HoldsHonest(routes, Apply(s, Dispatch(f, claim)), AwaitedPart)
  {
    if Accepts(s, f) {
      ClaimIsOwn(routes, s, f, claim);
    }
  }

  lemma CallerKeepsAwaited(routes: Routes, s: Sys, step: Step)
    requires HoldsHonest(routes, s, AwaitedPart) && HoldsHonest(routes, s, WriterPart)
    requires HoldsHonest(routes, s, WrittenPart) && HoldsHonest(routes, s, OnPart) && HoldsHonest(routes, s, LeftPart)
    requires HoldsHonest(routes, s, WirePart) && HoldsHonest(routes, s, RoutedPart)
    requires Holds(s, OwnedPart) && Holds(s, GatesPart) && Enabled(s, step) && Honest(routes, s, step)
    requires OfCaller(step)
    ensures HoldsHonest(routes, Apply(s, step), AwaitedPart)
  {
    if Leaves(step) {
      LeavingKeepsAwaited(routes, s, step);
    } else if step.Write? {
      WriteKeepsAwaited(routes, s, step);
    }
  }

  lemma WriteKeepsAwaited(routes: Routes, s: Sys, step: Step)
    requires HoldsHonest(routes, s, AwaitedPart) && HoldsHonest(routes, s, WriterPart)
    requires Enabled(s, step) && step.Write?
    ensures HoldsHonest(routes, Apply(s, step), AwaitedPart)
  {
  }

  lemma LeavingKeepsAwaited(routes: Routes, s: Sys, step: Step)
    requires HoldsHonest(routes, s, AwaitedPart) && HoldsHonest(routes, s, WrittenPart)
    requires HoldsHonest(routes, s, LeftPart) && Enabled(s, step) && Leaves(step)
    ensures HoldsHonest(routes, Apply(s, step), AwaitedPart)
  {
  }

  lemma DispatchKeepsWriters(routes: Routes, s: Sys, f: Frame, claim: Option<MsgType>)
    requires HoldsHonest(routes, s, WriterPart) && HoldsHonest(routes, s, WrittenPart)
    requires HoldsHonest(routes, s, AwaitedPart)
    requires HoldsHonest(routes, s, WirePart) && HoldsHonest(routes, s, RoutedPart)
    requires Holds(s, OwnedPart) && Enabled(s, Dispatch(f, claim))
    ensures HoldsHonest(routes, Apply(s, Dispatch(f, claim)), WriterPart)
  {
    if Accepts(s, f) {
      ClaimIsOwn(routes, s, f, claim);
    }
  }

  lemma StepKeepsWriters(routes: Routes, s: Sys, step: Step)
    requires HoldsHonest(routes, s, WriterPart) && !step.Dispatch?
    requires Holds(s, OwnedPart) && Holds(s, CallsPart) && Holds(s, GatesPart) && Enabled(s, step)
    requires HoldsHonest(routes, s, WrittenPart) && HoldsHonest(routes, s, OnPart)
    ensures HoldsHonest(routes, Apply(s, step), WriterPart)
  {
    if OfCaller(step) {
      CallerKeepsWriters(routes, s, step);
    }
  }

  lemma CallerKeepsWriters(routes: Routes, s: Sys, step: Step)
    requires HoldsHonest(routes, s, WriterPart) && !step.Dispatch?
    requires Holds(s, OwnedPart) && Holds(s, CallsPart) && Holds(s, GatesPart) && Enabled(s, step)
    requires HoldsHonest(routes, s, WrittenPart) && HoldsHonest(routes, s, OnPart)
    requires OfCaller(step)
    ensures HoldsHonest(routes, Apply(s, step), WriterPart)
  {
    if Leaves(step) {
      LeavingKeepsWriters(routes, s, step);
    }
  }

  lemma LeavingKeepsWriters(routes: Routes, s: Sys, step: Step)
    requires HoldsHonest(routes, s, WriterPart) && Holds(s, OwnedPart) && Holds(s, CallsPart) && Holds(s, GatesPart)
    requires Enabled(s, step) && Leaves(step)
    ensures HoldsHonest(routes, Apply(s, step), WriterPart)
  {
  }

  lemma StepKeepsLeft(routes: Routes, s: Sys, step: Step)
    requires HoldsHonest(routes, s, AwaitedPart) && HoldsHonest(routes, s, WrittenPart)
    requires HoldsHonest(routes, s, LeftPart)
    requires HoldsHonest(routes, s, OnPart) && Inv(s) && Enabled(s, step)
    ensures HoldsHonest(routes, Apply(s, step), LeftPart)
  {
    if OfCaller(step) {
      CallerKeepsLeft(routes, s, step);
    }
  }

  lemma CallerKeepsLeft(routes: Routes, s: Sys, step: Step)
    requires HoldsHonest(routes, s, AwaitedPart) && HoldsHonest(routes, s, WrittenPart)
    requires HoldsHonest(routes, s, LeftPart) && Inv(s) && Enabled(s, step) && OfCaller(step)
    ensures HoldsHonest(routes, Apply(s, step), LeftPart)
  {
    assert Holds(s, EmptyPart);
    assert Holds(s, SendPart);
    assert Holds(s, CallsPart);
  }

  lemma StepKeepsSpent(routes: Routes, s: Sys, step: Step)
    requires HonestInv(routes, s) && Inv(s) && Enabled(s, step)
    ensures HoldsHonest(routes, Apply(s, step), SpentPart)
  {
    assert HoldsHonest(routes, s, SpentPart);
    if step.Dispatch? {
      DispatchKeepsSpent(routes, s, step.frame, step.claim);
    } else if step.Register? {
      assert Holds(s, CallsPart);
      assert HoldsHonest(routes, s, WirePart);
      assert HoldsHonest(routes, s, WrittenPart);
    } else if step.InstallConn? {
      assert Holds(s, OwnedPart);
    }
  }

  lemma DispatchKeepsSpent(routes: Routes, s: Sys, f: Frame, claim: Option<MsgType>)
    requires HonestInv(routes, s) && Inv(s) && Enabled(s, Dispatch(f, claim))
    ensures HoldsHonest(routes, Apply(s, Dispatch(f, claim)), SpentPart)
  {
    assert HoldsHonest(routes, s, SpentPart) && HoldsHonest(routes, s, WirePart);
    assert HoldsHonest(routes, s, WrittenPart) && HoldsHonest(routes, s, RoutedPart);
    assert HoldsHonest(routes, s, AwaitedPart);
    assert Holds(s, OwnedPart) && Holds(s, ReaderPart);
    if Accepts(s, f) {
      ClaimIsOwn(routes, s, f, claim);
    } else if f.kind != Garbled {
      StaleAnswersNobody(s, f);
    }
  }

  /** A frame its read loop has to drop answers no pending request. */
  lemma StaleAnswersNobody(s: Sys, f: Frame)
    requires Holds(s, OwnedPart) && Holds(s, ReaderPart)
    requires f.conn in s.net.readers && !Accepts(s, f) && f.kind != Garbled
    ensures forall r :: r in s.m.pending ==> s.m.conn.Some? && s.m.conn != Some(f.conn)
    ensures forall r :: r in s.m.pending ==> s.m.pending[r].waiter in s.c.on && s.c.on[s.m.pending[r].waiter] != f.conn
  {
  }

  lemma StepKeepsMailAnswers(routes: Routes, s: Sys, step: Step)
    requires HoldsHonest(routes, s, MailAnswerPart) && HoldsHonest(routes, s, WirePart)
    requires HoldsHonest(routes, s, RoutedPart) && HoldsHonest(routes, s, AwaitedPart)
    requires Holds(s, OwnedPart) && Enabled(s, step)
    ensures HoldsHonest(routes, Apply(s, step), MailAnswerPart)
  {
    if step.Dispatch? {
      DispatchKeepsMailAnswers(routes, s, step.frame, step.claim);
    } else if OfCaller(step) {
      CallerKeepsMailAnswers(routes, s, step);
    }
  }

  lemma CallerKeepsMailAnswers(routes: Routes, s: Sys, step: Step)
    requires HoldsHonest(routes, s, MailAnswerPart) && Enabled(s, step) && OfCaller(step)
    ensures HoldsHonest(routes, Apply(s, step), MailAnswerPart)
  {
  }

  lemma DispatchKeepsMailAnswers(routes: Routes, s: Sys, f: Frame, claim: Option<MsgType>)
    requires HoldsHonest(routes, s, MailAnswerPart) && HoldsHonest(routes, s, WirePart)
    requires HoldsHonest(routes, s, RoutedPart) && HoldsHonest(routes, s, AwaitedPart)
    requires Holds(s, OwnedPart) && Enabled(s, Dispatch(f, claim))
    ensures HoldsHonest(routes, Apply(s, Dispatch(f, claim)), MailAnswerPart)
  {
    if Accepts(s, f) {
      ClaimIsOwn(routes, s, f, claim);
    }
  }

  lemma StepKeepsAnswers(routes: Routes, s: Sys, step: Step)
    requires HoldsHonest(routes, s, AnswerPart) && HoldsHonest(routes, s, MailAnswerPart) && Enabled(s, step)
    ensures HoldsHonest(routes, Apply(s, step), AnswerPart)
  {
  }

  lemma StepKeepsHonestInv(routes: Routes, s: Sys, step: Step)
    requires HonestInv(routes, s) && Inv(s) && Enabled(s, step) && Honest(routes, s, step)
    ensures HonestInv(routes, Apply(s, step))
  {
    forall part ensures HoldsHonest(routes, Apply(s, step), part) {
      if part.RoutedPart? || part.WrittenPart? || part.OnPart? || part.WirePart? {
        StepKeepsTraffic(routes, s, step, part);
      } else {
        StepKeepsWaiting(routes, s, step, part);
      }
    }
  }

  lemma StepKeepsTraffic(routes: Routes, s: Sys, step: Step, part: HonestPart)
    requires HonestInv(routes, s) && Inv(s) && Enabled(s, step) && Honest(routes, s, step)
    requires part.RoutedPart? || part.WrittenPart? || part.OnPart? || part.WirePart?
    ensures HoldsHonest(routes, Apply(s, step), part)
  {
    match part
    case RoutedPart => StepKeepsRouted(routes, s, step);
    case WrittenPart => StepKeepsWritten(routes, s, step);
    case OnPart => StepKeepsOn(routes, s, step);
    case WirePart => StepKeepsWire(routes, s, step);
  }

  lemma StepKeepsWaiting(routes: Routes, s: Sys, step: Step, part: HonestPart)
    requires HonestInv(routes, s) && Inv(s) && Enabled(s, step) && Honest(routes, s, step)
    requires !part.RoutedPart? && !part.WrittenPart? && !part.OnPart? && !part.WirePart?
    ensures HoldsHonest(routes, Apply(s, step), part)
  {
    match part
    case AwaitedPart => StepKeepsAwaited(routes, s, step);
    case WriterPart =>
      if step.Dispatch? {
        DispatchKeepsWriters(routes, s, step.frame, step.claim);
      } else {
        StepKeepsWriters(routes, s, step);
      }
    case LeftPart => StepKeepsLeft(routes, s, step);
    case SpentPart => StepKeepsSpent(routes, s, step);
    case MailAnswerPart => StepKeepsMailAnswers(routes, s, step);
    case AnswerPart => StepKeepsAnswers(routes, s, step);
  }

  lemma {:induction false} RunKeepsHonestInv(routes: Routes, steps: seq<Step>)
    requires Execute(Start(), steps).Some? && HonestRun(routes, Start(), steps)
    ensures HonestInv(routes, Execute(Start(), steps).value)
    decreases |steps|
  {
    if steps == [] {
      forall part ensures HoldsHonest(routes, Start(), part) {
        match part case _ =>
      }
    } else {
      var front := steps[..|steps| - 1];
      RunKeepsHonestInv(routes, front);
      StartHasInv();
      RunKeepsInv(Start(), front);
      StepKeepsHonestInv(routes, Execute(Start(), front).value, steps[|steps| - 1]);
    }
  }

  /** No request ever receives another request's answer. */
  lemma RequestGetsOwnAnswer(routes: Routes, steps: seq<Step>, w: RequestId)
    requires Execute(Start(), steps).Some? && HonestRun(routes, Start(), steps)
    ensures var s := Execute(Start(), steps).value;
            w in s.ch.inbox && s.ch.inbox[w].Reply? ==>
              s.ch.inbox[w].frame.answers == Some(w) && Answers(s.c, s.ch.inbox[w].frame, w)
  {
    RunKeepsHonestInv(routes, steps);
    assert HoldsHonest(routes, Execute(Start(), steps).value, AnswerPart);
  }

  /** In every run, a request whose answer has been dispatched is not left waiting: it is no longer pending, or its
      read loop is about to cut the transport and wake it. */
  lemma AnsweredIsNotStranded(routes: Routes, steps: seq<Step>, r: MsgType)
    requires Execute(Start(), steps).Some? && HonestRun(routes, Start(), steps)
    requires r in Execute(Start(), steps).value.m.pending
    ensures var s := Execute(Start(), steps).value;
            s.m.pending[r].waiter in s.net.consumed ==>
              s.m.conn.Some? && Enabled(s, ReaderCut(s.m.conn.value)) && Detaches(s, ReaderCut(s.m.conn.value))
  {
    RunKeepsHonestInv(routes, steps);
    assert HoldsHonest(routes, Execute(Start(), steps).value, SpentPart);
  }

  /** An answer that the live read loop dispatches always completes its request: none is dropped. One without origin
      completes nothing, and its read loop goes on to cut the transport. */
  lemma LiveAnswerIsNotLost(routes: Routes, steps: seq<Step>, f: Frame, claim: Option<MsgType>)
    requires Execute(Start(), steps).Some? && HonestRun(routes, Start(), steps)
    requires var s := Execute(Start(), steps).value;
             Enabled(s, Dispatch(f, claim)) && f.answers.Some? && s.m.conn == Some(f.conn)
    ensures var s := Apply(Execute(Start(), steps).value, Dispatch(f, claim));
            if f.kind == Failure(NO_ORIGIN) then f.conn in s.net.cutting
            else f.answers.value in s.ch.mail && s.ch.mail[f.answers.value] == Reply(f)
  {
    var s := Execute(Start(), steps).value;
    StartHasInv();
    RunKeepsInv(Start(), steps);
    RunKeepsHonestInv(routes, steps);
    assert Holds(s, ReaderPart);
    assert HoldsHonest(routes, s, WirePart);
    ClaimIsOwn(routes, s, f, claim);
  }

  /** And it reaches its request: whatever happens after the dispatch, the frame is on its way to the call or on its
      channel, and if the call returned from its channel, it returned the frame. */
  lemma LiveAnswerReachesItsCall(
      routes: Routes, steps: seq<Step>, f: Frame, claim: Option<MsgType>, after: seq<Step>)
    requires Execute(Start(), steps).Some? && HonestRun(routes, Start(), steps)
    requires var s := Execute(Start(), steps).value;
             && Enabled(s, Dispatch(f, claim)) && f.answers.Some? && s.m.conn == Some(f.conn)
             && f.kind != Failure(NO_ORIGIN)
             && Execute(Apply(s, Dispatch(f, claim)), after).Some?
    ensures var t := Execute(Apply(Execute(Start(), steps).value, Dispatch(f, claim)), after).value;
            var w := f.answers.value;
            && ((w in t.ch.mail && t.ch.mail[w] == Reply(f)) || (w in t.ch.inbox && t.ch.inbox[w] == Reply(f)))
            && (w in t.ch.returned ==> t.ch.returned[w] == Reply(f))
  {
    var s := Execute(Start(), steps).value;
    StartHasInv();
    RunKeepsInv(Start(), steps);
    LiveAnswerIsNotLost(routes, steps, f, claim);
    var s' := Apply(s, Dispatch(f, claim));
    StepKeepsInv(s, Dispatch(f, claim));
    ClaimStays(s', after, f.answers.value);
    RunKeepsInv(s', after);
    ReturnedIsSent(Execute(s', after).value, f.answers.value);
  }
}
