/** Settings transactions and live effects interleaved. A transaction is three steps under its lock: read the
    base, write the candidate, publish it. A published change owes one call per effect family it may touch.
    Such a call claims its family's generation, or is skipped when a later ticket has claimed it, then reads
    the newest settings, then makes the native call. Everything else may happen between any two steps. */
module SettingsEffects {
  import opened Basics
  import opened Settings

  datatype Family = Hotkeys | WindowOpacity | AlwaysOnTop

  /** What a family hands to the platform. */
  datatype Value = KeysValue(keys: map<Action, string>) | OpacityValue(percent: int) | OnTopValue(on: bool)

  function FieldOf(s: Settings, f: Family): Value {
    match f
    case Hotkeys => KeysValue(s.front.hotkeys)
    case WindowOpacity => OpacityValue(s.front.windowOpacity)
    case AlwaysOnTop => OnTopValue(s.front.alwaysOnTop)
  }

  /** The effect calls made after a commit; without a window a saved blob only re-applies the hotkeys. */
  predicate Owes(m: Mutation, window: bool, f: Family) {
    match m
    case SaveBlob(_) => window || f == Hotkeys
    case Opacity(_) => f == WindowOpacity
    case OnTop(_) => f == AlwaysOnTop
    case ThreeHotkeys(_, _, _) => f == Hotkeys
    case OneHotkey(_, _) => f == Hotkeys
    case _ => false
  }

  const FAMILIES: set<Family> := {Hotkeys, WindowOpacity, AlwaysOnTop}

  function Rank(f: Family): nat {
    match f case Hotkeys => 0 case WindowOpacity => 1 case AlwaysOnTop => 2
  }

  datatype Call = Call(ticket: nat, family: Family)

  datatype Tx = Tx(mutation: Mutation, base: Settings, written: bool)

  datatype Running = Running(ticket: nat, family: Family, live: Option<Value>)

  /** `committed` is the family's generation in the program. For the statement: `applied` is what the platform
      last accepted, `seen` the generation of the settings last read for it, and `stale` says that this read
      was followed by a native failure, or that a call was given up because of one. */
  datatype FamilyState = FamilyState(committed: nat, applied: Option<Value>, seen: nat, stale: bool)

  // What the sections of one effect call do to their family

  function ClaimedBy(state: FamilyState, ticket: nat): FamilyState {
    state.(committed := ticket)
  }

  function ReadAt(state: FamilyState, generation: nat): FamilyState {
    state.(seen := generation, stale := false)
  }

  function Accepted(state: FamilyState, live: Option<Value>): FamilyState {
    state.(applied := live)
  }

  function Failed(state: FamilyState): FamilyState {
    state.(stale := true)
  }

  /** One whole call: skipped when its ticket is not newer, else claim, read and native call. */
  function Effect(state: FamilyState, ticket: nat, live: Value, generation: nat, ok: bool): FamilyState {
    if ticket <= state.committed then state
    else
      var read := ReadAt(ClaimedBy(state, ticket), generation);
      if ok then Accepted(read, Some(live)) else Failed(read)
  }

  datatype Durable = Durable(memory: Settings, disk: Option<Settings>, log: seq<Mutation>, tx: Option<Tx>)

  datatype Sys = Sys(
    valid: string -> bool,
    window: bool,
    start: Settings,
    store: Durable,
    owed: set<Call>,
    running: Option<Running>,
    families: map<Family, FamilyState>)

  datatype Step =
    | Begin(mutation: Mutation)
    | WriteFails
    | Write
    | Publish
    | Claim(call: Call)
    | ReadLive
    | NativeOk
    | NativeFails

  function Start(valid: string -> bool, window: bool, loaded: Settings): Sys {
    var start := Normalize(loaded);
    Sys(valid, window, start, Durable(start, None, [], None), {}, None,
        map f | f in FAMILIES :: FamilyState(0, None, 0, false))
  }

  function Of(s: Sys, f: Family): FamilyState {
    if f in s.families then s.families[f] else FamilyState(0, None, 0, false)
  }

  predicate Enabled(s: Sys, step: Step) {
    match step
    case Begin(m) => s.store.tx.None? && Refused(s.valid, m) == None
    case WriteFails => s.store.tx.Some? && !s.store.tx.value.written
    case Write => s.store.tx.Some? && !s.store.tx.value.written
    case Publish => s.store.tx.Some? && s.store.tx.value.written
    case Claim(call) =>
      && s.running.None?
      && call in s.owed
      && forall c :: c in s.owed && c.ticket == call.ticket ==> Rank(call.family) <= Rank(c.family)
    case ReadLive => s.running.Some? && s.running.value.live.None?
    case NativeOk => s.running.Some? && s.running.value.live.Some?
    case NativeFails => s.running.Some? && s.running.value.live.Some? && s.running.value.family == WindowOpacity
  }

  function Calls(m: Mutation, window: bool, ticket: nat): set<Call> {
    set f | f in FAMILIES && Owes(m, window, f) :: Call(ticket, f)
  }

  function Published(d: Durable): Durable
    requires d.tx.Some?
  {
    d.(memory := Candidate(d.tx.value.base, d.tx.value.mutation), log := d.log + [d.tx.value.mutation], tx := None)
  }

  /** A failed opacity call makes SaveSettings return before its always-on-top call. */
  function GivenUp(s: Sys, ticket: nat): Sys {
    var onTop := Call(ticket, AlwaysOnTop);
    if onTop !in s.owed then s
    else
      var state := Of(s, AlwaysOnTop);
      s.(owed := s.owed - {onTop},
         families := s.families[AlwaysOnTop := state.(stale := state.stale || ticket > state.committed)])
  }

  function Apply(s: Sys, step: Step): Sys
    requires Enabled(s, step)
  {
    match step
    case Begin(m) => s.(store := s.store.(tx := Some(Tx(m, s.store.memory, false))))
    case WriteFails => s.(store := s.store.(tx := None))
    case Write =>
      var tx := s.store.tx.value;
      s.(store := s.store.(disk := Some(Candidate(tx.base, tx.mutation)), tx := Some(tx.(written := true))))
    case Publish =>
      s.(store := Published(s.store), owed := s.owed + Calls(s.store.tx.value.mutation, s.window, |s.store.log| + 1))
    case Claim(call) =>
      var state := Of(s, call.family);
      if call.ticket <= state.committed then s.(owed := s.owed - {call})
      else
        s.(owed := s.owed - {call}, running := Some(Running(call.ticket, call.family, None)),
           families := s.families[call.family := ClaimedBy(state, call.ticket)])
    case ReadLive =>
      var r := s.running.value;
      s.(running := Some(r.(live := Some(FieldOf(s.store.memory, r.family)))),
         families := s.families[r.family := ReadAt(Of(s, r.family), |s.store.log|)])
    case NativeOk =>
      var r := s.running.value;
      s.(running := None, families := s.families[r.family := Accepted(Of(s, r.family), r.live)])
    case NativeFails =>
      var r := s.running.value;
      GivenUp(s.(running := None, families := s.families[r.family := Failed(Of(s, r.family))]), r.ticket)
  }

  function Execute(s: Sys, steps: seq<Step>): Option<Sys> {
    if steps == [] then Some(s)
    else
      var before := Execute(s, steps[..|steps| - 1]);
      var last := steps[|steps| - 1];
      if before.None? || !Enabled(before.value, last) then None else Some(Apply(before.value, last))
  }

  // ---------------------------------------------------------------------------------------------
  // Transactions

  /** The log starts empty, so nothing has been written by then. */
  predicate DurableInv(start: Settings, d: Durable) {
    && d.memory == Fold(start, d.log)
    && (d.tx.Some? ==> d.tx.value.base == d.memory)
    && d.disk == if d.tx.Some? && d.tx.value.written then Some(Candidate(d.memory, d.tx.value.mutation))
                 else if d.log == [] then None else Some(d.memory)
  }

  lemma StepKeepsDurable(s: Sys, step: Step)
    requires DurableInv(s.start, s.store) && Enabled(s, step)
    ensures DurableInv(s.start, Apply(s, step).store)
    ensures Apply(s, step).start == s.start && Apply(s, step).window == s.window
  {
    if step.Publish? {
      FoldAppend(s.start, s.store.log, s.store.tx.value.mutation);
    }
  }

  /** The mutations whose write succeeded and was published, in order: read off the steps alone. */
  function CommitsOf(steps: seq<Step>): seq<Mutation> {
    Pending(steps).0
  }

  /** The published mutations, and the one a transaction is working on. */
  function Pending(steps: seq<Step>): (seq<Mutation>, Option<Mutation>) {
    if steps == [] then ([], None)
    else
      var (done, current) := Pending(steps[..|steps| - 1]);
      match steps[|steps| - 1]
      case Begin(m) => (done, Some(m))
      case WriteFails => (done, None)
      case Publish => if current.Some? then (done + [current.value], None) else (done, None)
      case _ => (done, current)
  }

  lemma {:induction false} RunKeepsDurable(s0: Sys, steps: seq<Step>)
    requires DurableInv(s0.start, s0.store) && s0.store.tx.None? && s0.store.log == [] && Execute(s0, steps).Some?
    ensures var s := Execute(s0, steps).value;
            s.start == s0.start && s.window == s0.window && DurableInv(s0.start, s.store)
    ensures var s := Execute(s0, steps).value; s.store.log == CommitsOf(steps)
    ensures var s := Execute(s0, steps).value; s.store.tx.Some? <==> Pending(steps).1.Some?
    ensures var s := Execute(s0, steps).value; s.store.tx.Some? ==> Pending(steps).1 == Some(s.store.tx.value.mutation)
  {
    if steps == [] {
    } else {
      var front := steps[..|steps| - 1];
      RunKeepsDurable(s0, front);
      StepKeepsDurable(Execute(s0, front).value, steps[|steps| - 1]);
    }
  }

  /** Memory is the fold of exactly the successfully written and published mutations, in commit order; a failed
      write is not among them. The file never holds anything but that, or the one candidate about to be
      published. */
  lemma CommitsAreLinearizable(valid: string -> bool, window: bool, loaded: Settings, steps: seq<Step>)
    requires Execute(Start(valid, window, loaded), steps).Some?
    ensures var s := Execute(Start(valid, window, loaded), steps).value;
            s.store.memory == Fold(Normalize(loaded), CommitsOf(steps))
    ensures var s := Execute(Start(valid, window, loaded), steps).value;
            var pending := Pending(steps).1;
            s.store.disk.Some? ==>
              || s.store.disk == Some(s.store.memory)
              || (pending.Some? && s.store.disk == Some(Candidate(s.store.memory, pending.value)))
  {
    RunKeepsDurable(Start(valid, window, loaded), steps);
  }

  /** A write failure undoes the transaction: the state is the one before it began. */
  lemma FailedWriteChangesNothing(s: Sys, m: Mutation)
    requires Enabled(s, Begin(m))
    ensures Execute(s, [Begin(m), WriteFails]) == Some(s)
  {
    var begun := Apply(s, Begin(m));
    assert [Begin(m), WriteFails][..1] == [Begin(m)];
    assert [Begin(m)][..0] == [];
    assert Execute(s, [Begin(m)]) == Some(begun);
    assert begun.store.(tx := None) == s.store;
  }

  /** In every run, whatever blobs the frontend saved: the Go-owned fields follow from the committed Go-side
      mutations alone, and the recent servers, if the loaded list had no duplicates and at most ten, are the ten
      newest distinct ones. */
  lemma GoFieldsInRuns(valid: string -> bool, window: bool, loaded: Settings, steps: seq<Step>)
    requires Execute(Start(valid, window, loaded), steps).Some?
    ensures var s := Execute(Start(valid, window, loaded), steps).value;
            s.store.memory.owned == GoFold(loaded.owned, GoSideOf(CommitsOf(steps)))
    ensures var s := Execute(Start(valid, window, loaded), steps).value;
            DistinctServers(loaded.owned.recents) && |loaded.owned.recents| <= MAX_RECENTS ==>
              s.store.memory.owned.recents ==
              Take(NewestFirst(loaded.owned.recents, ConnectsOf(CommitsOf(steps)), []), MAX_RECENTS)
  {
    CommitsAreLinearizable(valid, window, loaded, steps);
    GoFieldsIgnoreBlobs(Normalize(loaded), CommitsOf(steps));
    RecentsInSettings(Normalize(loaded), CommitsOf(steps));
    if DistinctServers(loaded.owned.recents) && |loaded.owned.recents| <= MAX_RECENTS {
      RecentsAreNewestServers(loaded.owned.recents, ConnectsOf(CommitsOf(steps)));
    }
  }

  // What validation guarantees

  predicate Sound(f: Front) {
    0 <= f.volume <= 200 && f.chatNotificationLevel in LEVELS
  }

  lemma {:induction false} FoldStaysSound(valid: string -> bool, start: Settings, log: seq<Mutation>)
    requires Sound(start.front) && forall i :: 0 <= i < |log| ==> Refused(valid, log[i]) == None
    ensures Sound(Fold(start, log).front)
  {
    if log == [] {
    } else {
      FoldStaysSound(valid, start, log[..|log| - 1]);
      assert Refused(valid, log[|log| - 1]) == None;
    }
  }

  // ---------------------------------------------------------------------------------------------
  // Effects

  lemma CommitKeepsField(s: Settings, m: Mutation, window: bool, f: Family)
    requires InRange(s) && !Owes(m, window, f) && (window || f == Hotkeys)
    ensures FieldOf(Candidate(s, m), f) == FieldOf(s, f)
  {
  }

  /** A family's field only changes at commits that owe it a call. */
  lemma {:induction false} FieldBetween(start: Settings, log: seq<Mutation>, from: nat, window: bool, f: Family)
    requires InRange(start) && from <= |log| && (window || f == Hotkeys)
    requires forall g :: from <= g < |log| ==> !Owes(log[g], window, f)
    ensures FieldOf(Fold(start, log), f) == FieldOf(Fold(start, log[..from]), f)
    decreases |log|
  {
    if from == |log| {
      assert log[..from] == log;
    } else {
      var front := log[..|log| - 1];
      FieldBetween(start, front, from, window, f);
      assert front[..from] == log[..from];
      FoldStaysInRange(start, front);
      CommitKeepsField(Fold(start, front), log[|log| - 1], window, f);
    }
  }

  function ValueAt(start: Settings, log: seq<Mutation>, seen: nat, f: Family): Option<Value>
    requires seen <= |log|
  {
    if seen == 0 then None else Some(FieldOf(Fold(start, log[..seen]), f))
  }

  predicate RunningOn(s: Sys, f: Family) {
    s.running.Some? && s.running.value.family == f
  }

  /** A call that has claimed `f` and not yet read the settings. */
  predicate AboutToRead(s: Sys, f: Family) {
    RunningOn(s, f) && s.running.value.live.None?
  }

  datatype Part = CallsPart | GenerationPart | ValuePart | CoverPart

  predicate InLog(log: seq<Mutation>, ticket: nat, window: bool, f: Family) {
    1 <= ticket <= |log| && Owes(log[ticket - 1], window, f)
  }

  /** A commit newer than the last read still has its call ahead of it. */
  predicate Covered(s: Sys, g: nat, f: Family) {
    Of(s, f).stale || Call(g, f) in s.owed || AboutToRead(s, f)
  }

  ghost predicate Holds(s: Sys, f: Family, part: Part) {
    var log, state := s.store.log, Of(s, f);
    match part
    case CallsPart =>
      && f in s.families
      && (forall c :: c in s.owed ==> 1 <= c.ticket <= |log|)
      && (RunningOn(s, f) ==> state.committed >= 1)
    case GenerationPart =>
      && state.committed <= |log|
      && state.seen <= |log|
      && (AboutToRead(s, f) || state.committed <= state.seen)
    case ValuePart =>
      && state.seen <= |log|
      && (RunningOn(s, f) && s.running.value.live.Some? ==>
            s.running.value.live == ValueAt(s.start, log, state.seen, f))
      && (RunningOn(s, f) || state.stale || state.applied == ValueAt(s.start, log, state.seen, f))
    case CoverPart =>
      forall g :: state.seen < g && InLog(log, g, s.window, f) ==> Covered(s, g, f)
  }

  ghost predicate Inv(s: Sys) {
    && InRange(s.start)
    && DurableInv(s.start, s.store)
    && forall f: Family, part: Part :: Holds(s, f, part)
  }

  lemma ValueAtGrows(start: Settings, log: seq<Mutation>, m: Mutation, seen: nat, f: Family)
    requires seen <= |log|
    ensures ValueAt(start, log + [m], seen, f) == ValueAt(start, log, seen, f)
  {
    assert (log + [m])[..seen] == log[..seen];
  }

  lemma StepKeepsCalls(s: Sys, step: Step, f: Family)
    requires Inv(s) && Enabled(s, step)
    ensures Holds(Apply(s, step), f, CallsPart)
  {
    assert Holds(s, f, CallsPart);
    if step.Claim? {
      assert 1 <= step.call.ticket;
    }
  }

  /** The family's own state after a step. */
  function FamilyAfter(s: Sys, step: Step, f: Family): FamilyState
    requires Enabled(s, step)
  {
    var state := Of(s, f);
    match step
    case Claim(call) =>
      if call.family == f && call.ticket > state.committed then state.(committed := call.ticket) else state
    case ReadLive => if RunningOn(s, f) then state.(seen := |s.store.log|, stale := false) else state
    case NativeOk => if RunningOn(s, f) then state.(applied := s.running.value.live) else state
    case NativeFails =>
      if RunningOn(s, f) then state.(stale := true)
      else if f == AlwaysOnTop && Call(s.running.value.ticket, f) in s.owed then
        state.(stale := state.stale || s.running.value.ticket > state.committed)
      else state
    case _ => state
  }

  lemma FamilyStep(s: Sys, step: Step, f: Family)
    requires Enabled(s, step)
    ensures Of(Apply(s, step), f) == FamilyAfter(s, step, f)
  {
  }

  lemma StepKeepsGeneration(s: Sys, step: Step, f: Family)
    requires Inv(s) && Enabled(s, step)
    ensures Holds(Apply(s, step), f, GenerationPart)
  {
    assert Holds(s, f, CallsPart) && Holds(s, f, GenerationPart);
    FamilyStep(s, step, f);
  }

  lemma StepKeepsValue(s: Sys, step: Step, f: Family)
    requires Inv(s) && Enabled(s, step)
    ensures Holds(Apply(s, step), f, ValuePart)
  {
    if step.Publish? {
      PublishKeepsValue(s, f);
    } else if step.ReadLive? {
      ReadKeepsValue(s, f);
    } else {
      RestKeepsValue(s, step, f);
    }
  }

  lemma RestKeepsValue(s: Sys, step: Step, f: Family)
    requires Inv(s) && Enabled(s, step) && !step.Publish? && !step.ReadLive?
    ensures Holds(Apply(s, step), f, ValuePart)
  {
    assert Holds(s, f, ValuePart);
    FamilyStep(s, step, f);
  }

  lemma PublishKeepsValue(s: Sys, f: Family)
    requires Inv(s) && Enabled(s, Publish)
    ensures Holds(Apply(s, Publish), f, ValuePart)
  {
    assert Holds(s, f, ValuePart);
    ValueAtGrows(s.start, s.store.log, s.store.tx.value.mutation, Of(s, f).seen, f);
  }

  lemma ReadKeepsValue(s: Sys, f: Family)
    requires Inv(s) && Enabled(s, ReadLive)
    ensures Holds(Apply(s, ReadLive), f, ValuePart)
  {
    assert Holds(s, f, CallsPart) && Holds(s, f, GenerationPart) && Holds(s, f, ValuePart);
    assert s.store.log[..|s.store.log|] == s.store.log;
  }

  lemma StepKeepsCover(s: Sys, step: Step, f: Family)
    requires Inv(s) && Enabled(s, step)
    ensures Holds(Apply(s, step), f, CoverPart)
  {
    assert Holds(s, f, CoverPart);
    FamilyStep(s, step, f);
    var s' := Apply(s, step);
    forall g: nat | Of(s', f).seen < g && InLog(s'.store.log, g, s.window, f)
      ensures Covered(s', g, f)
    {
      CoverStep(s, step, f, g);
    }
  }

  lemma CoverStep(s: Sys, step: Step, f: Family, g: nat)
    requires Inv(s) && Enabled(s, step) && Of(Apply(s, step), f) == FamilyAfter(s, step, f)
    requires Of(Apply(s, step), f).seen < g && InLog(Apply(s, step).store.log, g, s.window, f)
    ensures Covered(Apply(s, step), g, f)
  {
    if step.Publish? {
      CoverPublish(s, f, g);
    } else if step.Claim? {
      CoverClaim(s, step.call, f, g);
    } else if !step.ReadLive? || !RunningOn(s, f) {
      assert Holds(s, f, CoverPart);
      assert Covered(s, g, f);
      assert Holds(s, f, GenerationPart);
    }
  }

  lemma CoverClaim(s: Sys, call: Call, f: Family, g: nat)
    requires Inv(s) && Enabled(s, Claim(call)) && Of(Apply(s, Claim(call)), f) == FamilyAfter(s, Claim(call), f)
    requires Of(s, f).seen < g && InLog(s.store.log, g, s.window, f)
    ensures Covered(Apply(s, Claim(call)), g, f)
  {
    assert Holds(s, f, CoverPart) && Holds(s, f, GenerationPart);
    assert Covered(s, g, f);
  }

  lemma CoverPublish(s: Sys, f: Family, g: nat)
    requires Inv(s) && Enabled(s, Publish)
    requires Of(s, f).seen < g && InLog(Apply(s, Publish).store.log, g, s.window, f)
    ensures Covered(Apply(s, Publish), g, f)
  {
    assert Holds(s, f, CoverPart);
    if g <= |s.store.log| {
      assert InLog(s.store.log, g, s.window, f);
    } else {
      assert f.Hotkeys? || f.WindowOpacity? || f.AlwaysOnTop?;
      assert Call(g, f) in Calls(s.store.tx.value.mutation, s.window, g);
    }
  }

  lemma StepKeepsInv(s: Sys, step: Step)
    requires Inv(s) && Enabled(s, step)
    ensures Inv(Apply(s, step))
  {
    StepKeepsDurable(s, step);
    var s' := Apply(s, step);
    forall f: Family, part: Part ensures Holds(s', f, part) {
      match part
      case CallsPart => StepKeepsCalls(s, step, f);
      case GenerationPart => StepKeepsGeneration(s, step, f);
      case ValuePart => StepKeepsValue(s, step, f);
      case CoverPart => StepKeepsCover(s, step, f);
    }
  }

  lemma StartHolds(valid: string -> bool, window: bool, loaded: Settings)
    ensures Inv(Start(valid, window, loaded))
  {
    NormalizeReachesRange(loaded);
    var s := Start(valid, window, loaded);
    forall f: Family, part: Part ensures Holds(s, f, part) {
      assert f.Hotkeys? || f.WindowOpacity? || f.AlwaysOnTop?;
      match part
      case _ =>
    }
  }

  lemma {:induction false} RunKeepsInv(s0: Sys, steps: seq<Step>)
    requires Inv(s0) && Execute(s0, steps).Some?
    ensures Inv(Execute(s0, steps).value)
  {
    if steps == [] {
    } else {
      var front := steps[..|steps| - 1];
      RunKeepsInv(s0, front);
      StepKeepsInv(Execute(s0, front).value, steps[|steps| - 1]);
    }
  }

  /** No call of the family is outstanding or running. */
  predicate Idle(s: Sys, f: Family) {
    !RunningOn(s, f) && forall c :: c in s.owed ==> c.family != f
  }

  lemma IdleFamilyIsCurrent(s: Sys, f: Family)
    requires Inv(s) && Idle(s, f) && !Of(s, f).stale && (s.window || f == Hotkeys)
    ensures match Of(s, f).applied
            case Some(v) => v == FieldOf(s.store.memory, f)
            case None => FieldOf(s.store.memory, f) == FieldOf(s.start, f)
  {
    assert Holds(s, f, ValuePart) && Holds(s, f, CoverPart);
    var log, seen := s.store.log, Of(s, f).seen;
    forall g | seen <= g < |log| ensures !Owes(log[g], s.window, f) {
      assert InLog(log, g + 1, s.window, f) ==> Covered(s, g + 1, f);
      assert !Covered(s, g + 1, f);
    }
    FieldBetween(s.start, log, seen, s.window, f);
  }

  /** Whatever the order of commits, delayed tickets and skipped calls: once a family has no call outstanding
      and its last native call did not fail, the platform has the value in the settings. The other families do
      not matter. */
  lemma EffectsConverge(valid: string -> bool, window: bool, loaded: Settings, steps: seq<Step>, f: Family)
    requires Execute(Start(valid, window, loaded), steps).Some? && (window || f == Hotkeys)
    requires var s := Execute(Start(valid, window, loaded), steps).value; Idle(s, f) && !Of(s, f).stale
    ensures var s := Execute(Start(valid, window, loaded), steps).value;
            match Of(s, f).applied
            case Some(v) => v == FieldOf(s.store.memory, f)
            case None => FieldOf(s.store.memory, f) == FieldOf(Normalize(loaded), f)
  {
    StartHolds(valid, window, loaded);
    RunKeepsInv(Start(valid, window, loaded), steps);
    RunKeepsDurable(Start(valid, window, loaded), steps);
    IdleFamilyIsCurrent(Execute(Start(valid, window, loaded), steps).value, f);
  }

  /** The platform's value is what the last mutation that wrote the field asked for, the opacity brought in range. */
  ghost predicate ShowsLastWritten(v: Value, f: Family, start: Settings, log: seq<Mutation>) {
    match f
    case Hotkeys => v.KeysValue? && forall a: Action :: Spec(v.keys, a) == HotkeyAfter(start, log, a)
    case WindowOpacity => v.OpacityValue? && Nearest(v.percent, OpacityAsked(start, log), 20, 100)
    case AlwaysOnTop => v == OnTopValue(OnTopAfter(start, log))
  }

  predicate AnyOwes(log: seq<Mutation>, window: bool, f: Family) {
    exists g :: 0 <= g < |log| && Owes(log[g], window, f)
  }

  /** The same, read off the steps alone: once a family has no call outstanding and its last native call did not fail,
      and some commit of the run concerned it, the platform has what the last such commit asked for. */
  lemma PlatformShowsLastWriter(valid: string -> bool, window: bool, loaded: Settings, steps: seq<Step>, f: Family)
    requires Execute(Start(valid, window, loaded), steps).Some? && (window || f == Hotkeys)
    requires var s := Execute(Start(valid, window, loaded), steps).value; Idle(s, f) && !Of(s, f).stale
    requires AnyOwes(CommitsOf(steps), window, f)
    ensures var applied := Of(Execute(Start(valid, window, loaded), steps).value, f).applied;
            applied.Some? && ShowsLastWritten(applied.value, f, Normalize(loaded), CommitsOf(steps))
  {
    var s := Execute(Start(valid, window, loaded), steps).value;
    StartHolds(valid, window, loaded);
    RunKeepsInv(Start(valid, window, loaded), steps);
    RunKeepsDurable(Start(valid, window, loaded), steps);
    NormalizeReachesRange(loaded);
    LastWriterWins(Normalize(loaded), CommitsOf(steps));
    OwedIsApplied(s, f);
    IdleFamilyIsCurrent(s, f);
  }

  lemma OwedIsApplied(s: Sys, f: Family)
    requires Inv(s) && Idle(s, f) && !Of(s, f).stale && AnyOwes(s.store.log, s.window, f)
    ensures Of(s, f).applied.Some?
  {
    assert Holds(s, f, ValuePart) && Holds(s, f, CoverPart);
    var g :| 0 <= g < |s.store.log| && Owes(s.store.log[g], s.window, f);
    assert InLog(s.store.log, g + 1, s.window, f);
    assert !Covered(s, g + 1, f);
  }

  // The calls owed can be made

  function EffectSize(s: Sys): nat {
    3 * |s.owed| + if s.running.None? then 0 else if s.running.value.live.None? then 2 else 1
  }

  predicate EffectStep(step: Step) {
    step.Claim? || step.ReadLive? || step.NativeOk?
  }

  /** The first call of some commit that may be claimed. */
  lemma FirstCall(owed: set<Call>) returns (call: Call)
    requires owed != {}
    ensures call in owed && forall c :: c in owed && c.ticket == call.ticket ==> Rank(call.family) <= Rank(c.family)
  {
    var c0 :| c0 in owed;
    call := c0;
    if c1 :| c1 in owed && c1.ticket == c0.ticket && Rank(c1.family) < Rank(c0.family) {
      call := c1;
      if c2 :| c2 in owed && c2.ticket == c0.ticket && Rank(c2.family) < Rank(c1.family) {
        call := c2;
      }
    }
  }

  lemma NextEffect(s: Sys) returns (step: Step)
    requires s.running.Some? || s.owed != {}
    ensures EffectStep(step) && Enabled(s, step) && EffectSize(Apply(s, step)) < EffectSize(s)
  {
    if s.running.Some? {
      step := if s.running.value.live.None? then ReadLive else NativeOk;
    } else {
      var call := FirstCall(s.owed);
      step := Claim(call);
      assert |s.owed - {call}| == |s.owed| - 1;
    }
  }

  lemma ExecuteFirst(s: Sys, step: Step, rest: seq<Step>)
    requires Enabled(s, step)
    ensures Execute(s, [step] + rest) == Execute(Apply(s, step), rest)
  {
    assert [step][..0] == [];
    assert Execute(s, [step]) == Some(Apply(s, step));
    ExecuteConcat(s, [step], rest);
  }

  /** From every state the outstanding calls can be made, one after another, without any further commit, until no family
      has one left. */
  lemma {:induction false} EffectsCanFinish(s: Sys) returns (steps: seq<Step>)
    ensures Execute(s, steps).Some? && (forall i :: 0 <= i < |steps| ==> EffectStep(steps[i]))
    ensures forall f: Family :: Idle(Execute(s, steps).value, f)
    decreases EffectSize(s)
  {
    if s.running.None? && s.owed == {} {
      steps := [];
    } else {
      var step := NextEffect(s);
      var rest := EffectsCanFinish(Apply(s, step));
      ExecuteFirst(s, step, rest);
      steps := [step] + rest;
    }
  }

  lemma StaysFresh(s: Sys, step: Step, f: Family)
    requires Enabled(s, step) && !Of(s, f).stale && (f == Hotkeys || step != NativeFails)
    ensures !Of(Apply(s, step), f).stale
  {
    FamilyStep(s, step, f);
  }

  /** Nothing is stale before a native failure, and the hotkeys never are. */
  lemma {:induction false} StaleNeedsFailure(s0: Sys, steps: seq<Step>, f: Family)
    requires Execute(s0, steps).Some? && !Of(s0, f).stale && (f == Hotkeys || NativeFails !in steps)
    ensures !Of(Execute(s0, steps).value, f).stale
  {
    if steps == [] {
    } else {
      var front := steps[..|steps| - 1];
      StaleNeedsFailure(s0, front, f);
      assert steps[|steps| - 1] in steps;
      StaysFresh(Execute(s0, front).value, steps[|steps| - 1], f);
    }
  }

  // ---------------------------------------------------------------------------------------------
  // One SaveSettings call on its own

  lemma {:induction false} ExecuteConcat(s: Sys, a: seq<Step>, b: seq<Step>)
    requires Execute(s, a).Some?
    ensures Execute(s, a + b) == Execute(Execute(s, a).value, b)
  {
    if b == [] {
      assert a + b == a;
    } else {
      ExecuteConcat(s, a, b[..|b| - 1]);
      assert (a + b)[..|a + b| - 1] == a + b[..|b| - 1];
    }
  }

  lemma ExecuteThree(s: Sys, one: Step, two: Step, three: Step)
    requires Enabled(s, one) && Enabled(Apply(s, one), two) && Enabled(Apply(Apply(s, one), two), three)
    ensures Execute(s, [one, two, three]) == Some(Apply(Apply(Apply(s, one), two), three))
  {
    assert [one, two, three][..2] == [one, two] && [one, two][..1] == [one] && [one][..0] == [];
    assert Execute(s, [one]) == Some(Apply(s, one));
    assert Execute(s, [one, two]) == Some(Apply(Apply(s, one), two));
  }

  function CommitSteps(m: Mutation): seq<Step> {
    [Begin(m), Write, Publish]
  }

  function EffectSteps(call: Call, ok: bool): seq<Step> {
    [Claim(call), ReadLive, if ok then NativeOk else NativeFails]
  }

  /** The steps of one call that nothing interrupts. */
  function SaveSteps(blob: Settings, ticket: nat, opacityOk: bool): seq<Step> {
    CommitSteps(SaveBlob(blob)) + EffectSteps(Call(ticket, Hotkeys), true) +
    EffectSteps(Call(ticket, WindowOpacity), opacityOk) +
    if opacityOk then EffectSteps(Call(ticket, AlwaysOnTop), true) else []
  }

  lemma CommitAlone(s: Sys, m: Mutation)
    requires s.store.tx.None? && Refused(s.valid, m) == None
    ensures Execute(s, CommitSteps(m)) ==
            var memory := Candidate(s.store.memory, m);
            Some(s.(store := Durable(memory, Some(memory), s.store.log + [m], None),
                    owed := s.owed + Calls(m, s.window, |s.store.log| + 1)))
  {
    ExecuteThree(s, Begin(m), Write, Publish);
  }

  /** A whole call on the family's state, reading the settings of this moment. */
  function EffectNow(s: Sys, call: Call, ok: bool): FamilyState {
    Effect(Of(s, call.family), call.ticket, FieldOf(s.store.memory, call.family), |s.store.log|, ok)
  }

  /** One uninterrupted effect call with a ticket newer than the family's. */
  lemma EffectSucceeds(s: Sys, call: Call)
    requires Enabled(s, Claim(call)) && call.ticket > Of(s, call.family).committed
    ensures Execute(s, EffectSteps(call, true)) ==
            Some(s.(owed := s.owed - {call},
                    families := s.families[call.family := EffectNow(s, call, true)]))
  {
    var claimed := Apply(s, Claim(call));
    var read := Apply(claimed, ReadLive);
    ExecuteThree(s, Claim(call), ReadLive, NativeOk);
    var f := call.family;
    assert Apply(read, NativeOk).families == s.families[f := Of(Apply(read, NativeOk), f)];
  }

  lemma OpacityFails(s: Sys, ticket: nat)
    requires Enabled(s, Claim(Call(ticket, WindowOpacity))) && ticket > Of(s, WindowOpacity).committed
    ensures Execute(s, EffectSteps(Call(ticket, WindowOpacity), false)).Some?
    ensures var t := Execute(s, EffectSteps(Call(ticket, WindowOpacity), false)).value;
            && t.store == s.store && t.running.None?
            && t.owed == s.owed - {Call(ticket, WindowOpacity)} - {Call(ticket, AlwaysOnTop)}
            && Of(t, AlwaysOnTop).applied == Of(s, AlwaysOnTop).applied
            && Of(t, WindowOpacity) == EffectNow(s, Call(ticket, WindowOpacity), false)
  {
    ExecuteThree(s, Claim(Call(ticket, WindowOpacity)), ReadLive, NativeFails);
  }

  /** SaveSettings makes its always-on-top call only after its opacity call succeeded. So, run on its own from a
      quiet state, it leaves the window as the saved blob says exactly when the opacity call succeeds or the
      window was already that way. */
  lemma SaveDeliversOnTopIff(s: Sys, blob: Settings, opacityOk: bool) returns (t: Sys)
    requires Inv(s) && s.window && s.store.tx.None? && s.running.None? && s.owed == {}
    requires Refused(s.valid, SaveBlob(blob)) == None
    ensures Execute(s, SaveSteps(blob, |s.store.log| + 1, opacityOk)) == Some(t)
    ensures t.store.memory.front.alwaysOnTop == blob.front.alwaysOnTop && t.owed == {} && t.running.None?
    ensures Of(t, AlwaysOnTop).applied ==
            if opacityOk then Some(OnTopValue(blob.front.alwaysOnTop)) else Of(s, AlwaysOnTop).applied
    ensures Of(t, AlwaysOnTop).applied == Some(FieldOf(t.store.memory, AlwaysOnTop)) <==>
            opacityOk || Of(s, AlwaysOnTop).applied == Some(OnTopValue(blob.front.alwaysOnTop))
  {
    var ticket := |s.store.log| + 1;
    var commit, keys := CommitSteps(SaveBlob(blob)), EffectSteps(Call(ticket, Hotkeys), true);
    var opacity := EffectSteps(Call(ticket, WindowOpacity), opacityOk);
    var onTop := EffectSteps(Call(ticket, AlwaysOnTop), true);
    var b := SavedAndHotkeys(s, blob);
    if opacityOk {
      EffectSucceeds(b, Call(ticket, WindowOpacity));
      ExecuteConcat(s, commit + keys, opacity);
      var c := Execute(b, opacity).value;
      EffectSucceeds(c, Call(ticket, AlwaysOnTop));
      ExecuteConcat(s, commit + keys + opacity, onTop);
      t := Execute(c, onTop).value;
    } else {
      OpacityFails(b, ticket);
      ExecuteConcat(s, commit + keys, opacity);
      t := Execute(b, opacity).value;
      assert commit + keys + opacity + [] == commit + keys + opacity;
    }
  }

  lemma CommittedBelowLog(s: Sys, f: Family)
    requires Inv(s)
    ensures Of(s, f).committed <= |s.store.log|
  {
    assert Holds(s, f, GenerationPart);
  }

  lemma CallsOfSave(blob: Settings, ticket: nat)
    ensures Calls(SaveBlob(blob), true, ticket) ==
            {Call(ticket, Hotkeys), Call(ticket, WindowOpacity), Call(ticket, AlwaysOnTop)}
  {
  }

  /** The call up to its opacity effect. */
  lemma SavedAndHotkeys(s: Sys, blob: Settings) returns (b: Sys)
    requires Inv(s) && s.window && s.store.tx.None? && s.running.None? && s.owed == {}
    requires Refused(s.valid, SaveBlob(blob)) == None
    ensures Execute(s, CommitSteps(SaveBlob(blob)) + EffectSteps(Call(|s.store.log| + 1, Hotkeys), true)) == Some(b)
    ensures b.store.memory == Candidate(s.store.memory, SaveBlob(blob)) && b.running.None?
    ensures b.owed == {Call(|s.store.log| + 1, WindowOpacity), Call(|s.store.log| + 1, AlwaysOnTop)}
    ensures Of(b, WindowOpacity).committed <= |s.store.log| && Of(b, AlwaysOnTop) == Of(s, AlwaysOnTop)
    ensures Of(b, AlwaysOnTop).committed <= |s.store.log|
  {
    var ticket := |s.store.log| + 1;
    CommittedBelowLog(s, Hotkeys);
    CommittedBelowLog(s, WindowOpacity);
    CommittedBelowLog(s, AlwaysOnTop);
    CommitAlone(s, SaveBlob(blob));
    CallsOfSave(blob, ticket);
    var a := Execute(s, CommitSteps(SaveBlob(blob))).value;
    EffectSucceeds(a, Call(ticket, Hotkeys));
    ExecuteConcat(s, CommitSteps(SaveBlob(blob)), EffectSteps(Call(ticket, Hotkeys), true));
    b := Execute(a, EffectSteps(Call(ticket, Hotkeys), true)).value;
  }

  /** A run that ends quiet with the settings and the window disagreeing. */
  lemma OpacityFailureHidesOnTop(valid: string -> bool, loaded: Settings) returns (steps: seq<Step>)
    requires valid("") && !loaded.front.alwaysOnTop && Sound(loaded.front)
    requires loaded.front.hotkeys == map[] && loaded.front.look.chatMaxLines >= 1
    ensures Execute(Start(valid, true, loaded), steps).Some?
    ensures var s := Execute(Start(valid, true, loaded), steps).value;
            s.owed == {} && s.running.None? && s.store.memory.front.alwaysOnTop && Of(s, AlwaysOnTop).applied == None
  {
    var s := Start(valid, true, loaded);
    var blob := loaded.(front := loaded.front.(alwaysOnTop := true));
    StartHolds(valid, true, loaded);
    var t := SaveDeliversOnTopIff(s, blob, false);
    steps := SaveSteps(blob, 1, false);
  }

  // ---------------------------------------------------------------------------------------------
  // The program's own fields

  /** The steps of one whole call of the family. */
  function CallSteps(s: Sys, call: Call, ok: bool): seq<Step> {
    if call.ticket <= Of(s, call.family).committed then [Claim(call)] else EffectSteps(call, ok)
  }

  /** Uninterrupted, the steps of a call do to its family what the method below does to the program's fields. */
  lemma CallIsEffect(s: Sys, call: Call, ok: bool)
    requires Enabled(s, Claim(call)) && (ok || call.family == WindowOpacity)
    ensures Execute(s, CallSteps(s, call, ok)).Some?
    ensures Of(Execute(s, CallSteps(s, call, ok)).value, call.family) == EffectNow(s, call, ok)
  {
    if call.ticket <= Of(s, call.family).committed {
      assert [Claim(call)][..0] == [];
    } else if ok {
      EffectSucceeds(s, call);
    } else {
      OpacityFails(s, call.ticket);
    }
  }

  /** The per-family generations of the App over its settings, and the platform behind them. */
  class EffectGate {
    const store: Store
    var hotkeyGeneration: nat
    var opacityGeneration: nat
    var alwaysOnTopGeneration: nat
    var platform: map<Family, Value>
    ghost var seen: map<Family, nat>
    ghost var stale: set<Family>

    function Committed(f: Family): nat
      reads this
    {
      match f
      case Hotkeys => hotkeyGeneration
      case WindowOpacity => opacityGeneration
      case AlwaysOnTop => alwaysOnTopGeneration
    }

    ghost function View(f: Family): FamilyState
      reads this
    {
      FamilyState(Committed(f), if f in platform then Some(platform[f]) else None,
                  if f in seen then seen[f] else 0, f in stale)
    }

    constructor (store: Store)
      ensures this.store == store && forall f :: View(f) == FamilyState(0, None, 0, false)
    {
      this.store := store;
      hotkeyGeneration, opacityGeneration, alwaysOnTopGeneration := 0, 0, 0;
      platform, seen, stale := map[], map[], {};
    }

    /** applyLatestSettingsEffect under its lock; `ok` is the native outcome. What it hands to the platform is
        the settings as they are now, not as they were at the ticket. */
    method ApplyLatest(ticket: nat, f: Family, ok: bool) returns (failed: bool)
      modifies this
      ensures View(f) == Effect(old(View(f)), ticket, FieldOf(store.settings, f), store.generation, ok)
      ensures forall g :: g != f ==> View(g) == old(View(g))
      ensures failed <==> ticket > old(Committed(f)) && !ok
    {
      if ticket <= Committed(f) {
        return false;
      }
      match f {
        case Hotkeys => hotkeyGeneration := ticket;
        case WindowOpacity => opacityGeneration := ticket;
        case AlwaysOnTop => alwaysOnTopGeneration := ticket;
      }
      var live := store.settings;
      seen, stale := seen[f := store.generation], stale - {f};
      if ok {
        platform := platform[f := FieldOf(live, f)];
      } else {
        stale := stale + {f};
      }
      failed := !ok;
    }
  }
}
