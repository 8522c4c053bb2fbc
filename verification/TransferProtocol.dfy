/** The transfer registry of client/files.go under the epoch gate it shares with the connection manager:
    workers snapshot an endpoint, dial for as long as they like, and only then register their socket,
    while connections come and go and transfers are cancelled. */
module TransferProtocol {
  import opened Basics
  import opened ConnManager

  /** A registered transfer: the endpoint its worker snapshotted, its label and its socket. */
  datatype Track = Track(endpoint: Endpoint, frontendId: string, socket: Socket)

  datatype Sys = Sys(
    m: Manager,
    installed: set<ConnId>,
    snapshots: set<Endpoint>,       // every endpoint handed out by ftTarget
    tracks: map<nat, Track>,        // every registration, by token
    closing: multiset<nat>,         // tokens whose socket a detach or a cancel handed over for closing
    released: set<nat>)             // tokens whose own worker has untracked them

  datatype Step =
    | InstallConn(c: ConnId)
    | DetachConn
    | Snapshot
    | Register(endpoint: Endpoint, frontendId: string, socket: Socket)
    | Release(token: nat)
    | Cancel(frontendId: string)

  function Start(): Sys {
    Sys(FreshManager(), {}, {}, map[], multiset{}, {})
  }

  predicate Enabled(s: Sys, step: Step) {
    match step
    case InstallConn(c) => s.m.conn.None? && c !in s.installed
    case Register(ep, _, _) => ep in s.snapshots
    case Release(t) => t in s.tracks && t !in s.released
    case _ => true
  }

  function Labelled(m: Manager, id: string): set<nat> {
    set t | t in m.entries && m.entries[t].frontendId == id
  }

  function Apply(s: Sys, step: Step): Sys
    requires Enabled(s, step)
  {
    match step
    case InstallConn(c) => s.(m := Installed(s.m, c), installed := s.installed + {c})
    case DetachConn => s.(m := Detached(s.m), closing := s.closing + multiset(s.m.entries.Keys))
    case Snapshot =>
      if s.m.conn.Some? && s.m.accepting
      then s.(snapshots := s.snapshots + {Endpoint(s.m.conn.value, s.m.transferEpoch)})
      else s
    case Register(ep, id, socket) =>
      var m' := Tracked(s.m, id, ep.epoch, socket);
      if m' == s.m then s else s.(m := m', tracks := s.tracks[m'.nextToken := Track(ep, id, socket)])
    case Release(t) => s.(m := Untracked(s.m, t), released := s.released + {t})
    case Cancel(id) =>
      s.(m := Cancelled(s.m, id), closing := s.closing + multiset(Labelled(s.m, id)))
  }

  function Execute(s: Sys, steps: seq<Step>): Option<Sys>
    decreases |steps|
  {
    if steps == [] then Some(s)
    else
      var before := Execute(s, steps[..|steps| - 1]);
      if before.Some? && Enabled(before.value, steps[|steps| - 1])
      then Some(Apply(before.value, steps[|steps| - 1]))
      else None
  }

  /** A snapshot is of a past epoch, or of the installed connection. */
  ghost predicate SnapshotsSound(s: Sys) {
    forall ep :: ep in s.snapshots ==>
      ep.epoch <= s.m.transferEpoch && (ep.epoch == s.m.transferEpoch ==> s.m.conn == Some(ep.conn))
  }

  /** Every live entry was registered from a snapshot of the installed connection. */
  ghost predicate EntriesSound(s: Sys) {
    forall t :: t in s.m.entries ==>
      && t in s.tracks && s.m.entries[t] == Transfer(s.tracks[t].frontendId, s.tracks[t].socket)
      && s.tracks[t].endpoint.epoch == s.m.transferEpoch && s.m.conn == Some(s.tracks[t].endpoint.conn)
  }

  /** A token is in the registry, or its socket was handed over once, or its worker has released it. */
  ghost predicate TokensSound(s: Sys) {
    && (forall t :: t in s.tracks ==> 1 <= t <= s.m.nextToken)
    && (forall t :: t in s.closing ==> t in s.tracks && s.closing[t] == 1 && t !in s.m.entries)
    && (forall t :: t in s.released ==> t in s.tracks && t !in s.m.entries)
    && (forall t :: t in s.tracks ==> t in s.m.entries || t in s.closing || t in s.released)
  }

  /** The gate is open exactly while a connection is installed. */
  predicate GateSound(m: Manager) {
    m.accepting <==> m.conn.Some?
  }

  ghost predicate Inv(s: Sys) {
    SnapshotsSound(s) && EntriesSound(s) && TokensSound(s) && GateSound(s.m)
  }

  lemma StepKeepsSnapshots(s: Sys, step: Step)
    requires SnapshotsSound(s) && Enabled(s, step)
    ensures SnapshotsSound(Apply(s, step))
  {
  }

  lemma StepKeepsEntries(s: Sys, step: Step)
    requires SnapshotsSound(s) && EntriesSound(s) && TokensSound(s) && Enabled(s, step)
    ensures EntriesSound(Apply(s, step))
  {
  }

  /** Handing over a set of registered tokens, as a detach and a cancel do. */
  lemma HandOverKeepsTokens(s: Sys, out: set<nat>, m': Manager)
    requires EntriesSound(s) && TokensSound(s) && out <= s.m.entries.Keys
    requires m'.nextToken == s.m.nextToken && m'.entries.Keys == s.m.entries.Keys - out
    ensures TokensSound(s.(m := m', closing := s.closing + multiset(out)))
  {
  }

  lemma StepKeepsTokens(s: Sys, step: Step)
    requires EntriesSound(s) && TokensSound(s) && Enabled(s, step)
    ensures TokensSound(Apply(s, step))
  {
    match step
    case DetachConn => HandOverKeepsTokens(s, s.m.entries.Keys, Detached(s.m));
    case Cancel(id) => HandOverKeepsTokens(s, Labelled(s.m, id), Cancelled(s.m, id));
    case _ =>
  }

  lemma StepKeepsInv(s: Sys, step: Step)
    requires Inv(s) && Enabled(s, step)
    ensures Inv(Apply(s, step))
    ensures s.m.transferEpoch <= Apply(s, step).m.transferEpoch
  {
    StepKeepsSnapshots(s, step);
    StepKeepsEntries(s, step);
    StepKeepsTokens(s, step);
  }

  lemma {:induction false} RunKeepsInv(s: Sys, steps: seq<Step>)
    requires Inv(s) && Execute(s, steps).Some?
    ensures Inv(Execute(s, steps).value)
    ensures s.m.transferEpoch <= Execute(s, steps).value.m.transferEpoch
    decreases |steps|
  {
    if steps == [] {
    } else {
      var front := steps[..|steps| - 1];
      RunKeepsInv(s, front);
      StepKeepsInv(Execute(s, front).value, steps[|steps| - 1]);
    }
  }

  /** In every run, each registered transfer belongs to the connection installed now, and each socket
      is handed over for closing at most once and never while it is still registered. */
  lemma TransfersBelongToInstalledConnection(steps: seq<Step>, t: nat)
    requires Execute(Start(), steps).Some?
    ensures var s := Execute(Start(), steps).value;
            && (t in s.m.entries ==> t in s.tracks && s.m.conn == Some(s.tracks[t].endpoint.conn))
            && s.closing[t] <= 1
            && (t in s.closing ==> t !in s.m.entries)
            && (t in s.tracks && t !in s.m.entries ==> t in s.closing || t in s.released)
  {
    RunKeepsInv(Start(), steps);
  }

  /** A snapshot taken before a disconnect can never register again, whatever connects later. */
  lemma StaleSnapshotNeverRegisters(before: seq<Step>, ep: Endpoint, after: seq<Step>, id: string, socket: Socket)
    requires Execute(Start(), before).Some? && ep in Execute(Start(), before).value.snapshots
    requires Execute(Apply(Execute(Start(), before).value, DetachConn), after).Some?
    ensures var s := Execute(Apply(Execute(Start(), before).value, DetachConn), after).value;
            Tracked(s.m, id, ep.epoch, socket) == s.m
  {
    var s := Execute(Start(), before).value;
    RunKeepsInv(Start(), before);
    StepKeepsInv(s, DetachConn);
    RunKeepsInv(Apply(s, DetachConn), after);
  }

  /** A detach hands over every registered socket; a cancel hands over exactly those with its label and
      leaves all others registered. */
  lemma TeardownHandsOverExactly(s: Sys, step: Step, t: nat)
    requires Inv(s) && (step.DetachConn? || step.Cancel?) && t in s.m.entries
    ensures var s' := Apply(s, step);
            var hit := step.DetachConn? || s.m.entries[t].frontendId == step.frontendId;
            && (hit ==> t !in s'.m.entries && s'.closing[t] == 1)
            && (!hit ==> t in s'.m.entries && s'.m.entries[t] == s.m.entries[t] && s'.closing[t] == 0)
  {
    assert t !in s.closing;
    if step.Cancel? {
      assert t in Labelled(s.m, step.frontendId) <==> s.m.entries[t].frontendId == step.frontendId;
    }
  }

  /** In every run, a snapshot is handed out exactly while a connection is installed, and it is of that connection. */
  lemma SnapshotIffInstalled(steps: seq<Step>)
    requires Execute(Start(), steps).Some?
    ensures var s := Execute(Start(), steps).value;
            Apply(s, Snapshot).snapshots ==
            s.snapshots + if s.m.conn.Some? then {Endpoint(s.m.conn.value, s.m.transferEpoch)} else {}
  {
    RunKeepsInv(Start(), steps);
  }

  predicate SameConnection(step: Step) {
    !step.InstallConn? && !step.DetachConn?
  }

  lemma {:induction false} EpochStays(s: Sys, steps: seq<Step>)
    requires Execute(s, steps).Some? && forall i :: 0 <= i < |steps| ==> SameConnection(steps[i])
    ensures var t := Execute(s, steps).value;
            t.m.conn == s.m.conn && t.m.transferEpoch == s.m.transferEpoch && t.m.accepting == s.m.accepting
    decreases |steps|
  {
    if steps == [] {
    } else {
      EpochStays(s, steps[..|steps| - 1]);
      assert SameConnection(steps[|steps| - 1]);
    }
  }

  /** And it does register, with its label and socket and under a new token, as long as the connection lasts, whatever
      other transfers come, go or are cancelled in between. */
  lemma LiveSnapshotRegisters(before: seq<Step>, after: seq<Step>, id: string, socket: Socket)
    requires Execute(Start(), before).Some? && Execute(Start(), before).value.m.conn.Some?
    requires Execute(Execute(Start(), before).value, after).Some?
    requires forall i :: 0 <= i < |after| ==> SameConnection(after[i])
    ensures var s, t := Execute(Start(), before).value, Execute(Execute(Start(), before).value, after).value;
            var m := Tracked(t.m, id, s.m.transferEpoch, socket);
            m.nextToken !in t.m.entries && m.entries == t.m.entries[m.nextToken := Transfer(id, socket)]
  {
    RunKeepsInv(Start(), before);
    var s := Execute(Start(), before).value;
    EpochStays(s, after);
    RunKeepsInv(s, after);
  }
}
