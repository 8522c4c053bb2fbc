/** The missing-key path of client/e2e.go: one leader per key generation fetches the key, a bounded queue
    of followers waits for it, a bounded number of workers runs at all, and whoever cannot be served is
    shown a placeholder. Every locked section and every emission is one step of a run. */
module DecryptQueue {
  import opened Basics

  const MAX_WAITERS := 64
  const MAX_WORKERS := 8

  type Work = nat   // identity of one sealed event handed to startScopeDecrypt

  datatype Pull = Pull(scope: int, keyId: nat)

  datatype Queue = Queue(inFlight: set<Pull>, waiters: map<Pull, seq<Work>>)

  datatype Role = Leads | Follows | Full

  function Waiters(q: Queue, p: Pull): seq<Work> {
    if p in q.waiters then q.waiters[p] else []
  }

  function RoleOf(q: Queue, p: Pull): Role {
    if p !in q.inFlight then Leads else if |Waiters(q, p)| >= MAX_WAITERS then Full else Follows
  }

  function Queued(q: Queue, p: Pull, w: Work): Queue {
    match RoleOf(q, p)
    case Leads => q.(inFlight := q.inFlight + {p})
    case Follows => q.(waiters := q.waiters[p := Waiters(q, p) + [w]])
    case Full => q
  }

  function Finished(q: Queue, p: Pull): Queue {
    Queue(q.inFlight - {p}, q.waiters - {p})
  }

  class PullQueue {
    var inFlight: set<Pull>
    var waiters: map<Pull, seq<Work>>
    var updated: nat   // the number of the store's wake channel: channels below it have been closed

    ghost function View(): Queue
      reads this
    {
      Queue(inFlight, waiters)
    }

    constructor ()
      ensures View() == Queue({}, map[]) && updated == 0
    {
      inFlight, waiters, updated := {}, map[], 0;
    }

    method QueuePull(p: Pull, w: Work) returns (leader: bool, queued: bool)
      modifies this
      ensures View() == Queued(old(View()), p, w)
      ensures leader <==> RoleOf(old(View()), p) == Leads
      ensures !queued <==> RoleOf(old(View()), p) == Full
      ensures updated == old(updated)
    {
      if p in inFlight {
        if p in waiters && |waiters[p]| >= MAX_WAITERS {
          return false, false;
        }
        waiters := waiters[p := (if p in waiters then waiters[p] else []) + [w]];
        return false, true;
      }
      inFlight := inFlight + {p};
      return true, true;
    }

    method FinishQueuedPull(p: Pull) returns (callbacks: seq<Work>)
      modifies this
      ensures View() == Finished(old(View()), p)
      ensures callbacks == Waiters(old(View()), p)
      ensures updated == old(updated) + 1
    {
      callbacks := if p in waiters then waiters[p] else [];
      waiters := waiters - {p};
      inFlight := inFlight - {p};
      updated := updated + 1;
    }
  }

  // ---------------------------------------------------------------------------------------------
  // Runs

  /** Where the leader of a pull is. */
  datatype Stage =
    | Deciding      // claimed the pull, has not tried for a worker yet
    | Fetching      // its worker waits for the key
    | OwnNext       // its worker has taken the followers and emits its own event next
    | Draining      // its worker emits the followers
    | Refused       // no worker was accepted; it still owns the pull
    | Flushing      // it gives the followers it took a placeholder
    | OwnLast       // it returned false; its caller emits its own event
    | Over

  /** One pull: its leader's progress, everyone who joined it, and the callbacks still to be invoked. */
  datatype Batch = Batch(pull: Pull, stage: Stage, worker: bool, followers: seq<Work>, todo: seq<Work>)

  /** The role an event ended up in. */
  datatype Place = Direct(emitted: bool) | Leader | Follower(leader: Work, index: nat)

  datatype How = Resolved | Placeholder

  datatype Emission = Emission(work: Work, how: How)

  datatype Sys = Sys(
    queue: Queue,
    permits: nat,                   // occupied slots of decryptSem
    dms: nat,                       // slots held by direct-message workers
    batches: map<Work, Batch>,      // by leader
    emitted: seq<Emission>,
    // history
    owner: map<Pull, Work>,         // leader of each pull in flight
    place: map<Work, Place>,
    at: map<Work, nat>)             // position of each event in `emitted`

  datatype Step =
    | Submit(w: Work, pull: Pull)
    | TryWorker(l: Work)
    | FinishPull(l: Work)
    | EmitOwn(l: Work)
    | EmitNext(l: Work)
    | EndDrain(l: Work)
    | EmitDirect(w: Work)
    | StartDM
    | EndDM

  function Start(): Sys {
    Sys(Queue({}, map[]), 0, 0, map[], [], map[], map[], map[])
  }

  /** The leader still owns its pull. */
  predicate Owns(st: Stage) {
    st.Deciding? || st.Fetching? || st.Refused?
  }

  predicate Working(st: Stage) {
    st.Fetching? || st.OwnNext? || st.Draining?
  }

  /** The steps that work on one pull. */
  predicate OnBatch(step: Step) {
    step.TryWorker? || step.FinishPull? || step.EmitOwn? || step.EmitNext? || step.EndDrain?
  }

  predicate BatchEnabled(b: Batch, step: Step)
    requires OnBatch(step)
  {
    match step
    case TryWorker(_) => b.stage.Deciding?
    case FinishPull(_) => b.stage.Fetching? || b.stage.Refused?
    case EmitOwn(_) => b.stage.OwnNext? || b.stage.OwnLast?
    case EmitNext(_) => (b.stage.Draining? || b.stage.Flushing?) && b.todo != []
    case EndDrain(_) => (b.stage.Draining? || b.stage.Flushing?) && b.todo == []
  }

  function BatchAfter(b: Batch, step: Step, accepted: bool, waiters: seq<Work>): Batch
    requires OnBatch(step) && BatchEnabled(b, step)
  {
    match step
    case TryWorker(_) => if accepted then b.(stage := Fetching, worker := true) else b.(stage := Refused)
    case FinishPull(_) => b.(stage := if b.stage.Fetching? then OwnNext else Flushing, todo := waiters)
    case EmitOwn(_) => b.(stage := if b.stage.OwnNext? then Draining else Over)
    case EmitNext(_) => b.(todo := b.todo[1..])
    case EndDrain(_) => b.(stage := if b.stage.Draining? then Over else OwnLast)
  }

  predicate Enabled(s: Sys, step: Step) {
    match step
    case Submit(w, pull) =>
      w !in s.place && (RoleOf(s.queue, pull).Follows? ==> pull in s.owner && s.owner[pull] in s.batches)
    case TryWorker(l) => l in s.batches && BatchEnabled(s.batches[l], step)
    case FinishPull(l) => l in s.batches && BatchEnabled(s.batches[l], step)
    case EmitOwn(l) => l in s.batches && BatchEnabled(s.batches[l], step)
    case EmitNext(l) => l in s.batches && BatchEnabled(s.batches[l], step)
    case EndDrain(l) => l in s.batches && BatchEnabled(s.batches[l], step)
    case EmitDirect(w) => w in s.place && s.place[w] == Direct(false)
    case StartDM => s.permits < MAX_WORKERS
    case EndDM => 0 < s.dms
  }

  function Emit(s: Sys, w: Work, how: How): Sys {
    s.(emitted := s.emitted + [Emission(w, how)], at := s.at[w := |s.emitted|])
  }

  function SetBatch(s: Sys, l: Work, b: Batch): Sys {
    s.(batches := s.batches[l := b])
  }

  function HowOf(b: Batch): How {
    if b.worker then Resolved else Placeholder
  }

  function Worked(s: Sys, step: Step): Batch
    requires OnBatch(step) && Enabled(s, step)
  {
    BatchAfter(s.batches[step.l], step, s.permits < MAX_WORKERS, Waiters(s.queue, s.batches[step.l].pull))
  }

  function Apply(s: Sys, step: Step): Sys
    requires Enabled(s, step)
  {
    match step
    case Submit(w, pull) =>
      var q := Queued(s.queue, pull, w);
      match RoleOf(s.queue, pull) {
        case Leads =>
          s.(queue := q, batches := s.batches[w := NewBatch(pull)],
             owner := s.owner[pull := w], place := s.place[w := Leader])
        case Follows =>
          var l := s.owner[pull];
          s.(queue := q, batches := s.batches[l := Joined(s.batches[l], w)],
             place := s.place[w := Follower(l, |s.batches[l].followers|)])
        case Full => s.(place := s.place[w := Direct(false)])
      }
    case TryWorker(l) =>
      SetBatch(s, l, Worked(s, step)).(permits := if s.permits < MAX_WORKERS then s.permits + 1 else s.permits)
    case FinishPull(l) =>
      SetBatch(s, l, Worked(s, step))
      .(queue := Finished(s.queue, s.batches[l].pull), owner := s.owner - {s.batches[l].pull})
    case EmitOwn(l) => Emit(SetBatch(s, l, Worked(s, step)), l, HowOf(s.batches[l]))
    case EmitNext(l) => Emit(SetBatch(s, l, Worked(s, step)), s.batches[l].todo[0], HowOf(s.batches[l]))
    case EndDrain(l) =>
      SetBatch(s, l, Worked(s, step))
      .(permits := if s.batches[l].stage.Draining? && s.permits > 0 then s.permits - 1
                   else s.permits)
    case EmitDirect(w) => Emit(s, w, Placeholder).(place := s.place[w := Direct(true)])
    case StartDM => s.(permits := s.permits + 1, dms := s.dms + 1)
    case EndDM => s.(permits := if s.permits > 0 then s.permits - 1 else 0, dms := s.dms - 1)
  }

  function Execute(s: Sys, steps: seq<Step>): Option<Sys>
    decreases |steps|
  {
    if steps == [] then Some(s)
    else
      var before := Execute(s, steps[..|steps| - 1]);
      if before.Some? && Enabled(before.value, steps[|steps| - 1])
      then Some(Apply(before.value, steps[|steps| - 1]))
      else None
  }

  // ---------------------------------------------------------------------------------------------
  // What every step keeps

  /** One leader owns each pull in flight, and its queue is exactly the followers that joined it. */
  ghost predicate OwnersSound(q: Queue, owner: map<Pull, Work>, batches: map<Work, Batch>) {
    && (forall p :: p in q.inFlight <==> p in owner)
    && (forall p :: p in owner ==> owner[p] in batches && batches[owner[p]].pull == p && Owns(batches[owner[p]].stage))
    && (forall l :: l in batches && Owns(batches[l].stage) ==> batches[l].pull in owner && owner[batches[l].pull] == l)
  }

  ghost predicate QueueSound(q: Queue, owner: map<Pull, Work>, batches: map<Work, Batch>) {
    && (forall p :: p in q.waiters ==> p in owner)
    && (forall p :: p in owner ==> owner[p] in batches && Waiters(q, p) == batches[owner[p]].followers)
  }

  /** At most 64 followers; the callbacks still to be invoked are a tail of them. */
  ghost predicate TodoSound(b: Batch) {
    && |b.followers| <= MAX_WAITERS && |b.todo| <= |b.followers|
    && (Owns(b.stage) ==> b.todo == [])
    && (!Owns(b.stage) ==> b.todo == b.followers[|b.followers| - |b.todo|..])
    && (b.stage.OwnNext? ==> b.todo == b.followers)
    && (b.stage.OwnLast? || b.stage.Over? ==> b.todo == [])
    && (b.stage.Fetching? || b.stage.OwnNext? || b.stage.Draining? ==> b.worker)
    && (b.stage.Deciding? || b.stage.Refused? || b.stage.Flushing? || b.stage.OwnLast? ==> !b.worker)
  }

  ghost predicate TodosSound(batches: map<Work, Batch>) {
    forall l :: l in batches ==> TodoSound(batches[l])
  }

  /** Every event is in the one place it was given. */
  ghost predicate PlacesSound(place: map<Work, Place>, batches: map<Work, Batch>) {
    && (forall w :: w in place && place[w].Follower? ==>
          place[w].leader in batches && place[w].index < |batches[place[w].leader].followers| &&
          batches[place[w].leader].followers[place[w].index] == w)
    && (forall w :: w in batches <==> w in place && place[w].Leader?)
    && (forall l, i :: l in batches && 0 <= i < |batches[l].followers| ==>
          batches[l].followers[i] in place && place[batches[l].followers[i]] == Follower(l, i))
  }

  predicate OwnOut(b: Batch) {
    b.stage.Draining? || b.stage.Over?
  }

  /** How many followers of the pull have been emitted. */
  function OutCount(b: Batch): nat {
    if Owns(b.stage) || |b.todo| > |b.followers| then 0 else |b.followers| - |b.todo|
  }

  /** The event has been emitted, by what its place says. */
  predicate Emitted(place: map<Work, Place>, batches: map<Work, Batch>, w: Work)
    requires w in place
  {
    match place[w]
    case Direct(out) => out
    case Leader => w in batches && OwnOut(batches[w])
    case Follower(l, i) => l in batches && i < OutCount(batches[l])
  }

  /** `at` indexes the emissions: no event is emitted twice. */
  ghost predicate IndexSound(emitted: seq<Emission>, at: map<Work, nat>) {
    && (forall w :: w in at ==> at[w] < |emitted| && emitted[at[w]].work == w)
    && (forall k :: 0 <= k < |emitted| ==> emitted[k].work in at && at[emitted[k].work] == k)
  }

  /** An event is among the emissions exactly when its place says so. */
  ghost predicate OutSound(place: map<Work, Place>, batches: map<Work, Batch>, at: map<Work, nat>) {
    && (forall w :: w in at ==> w in place)
    && (forall w :: w in place ==> (w in at <==> Emitted(place, batches, w)))
  }

  /** Followers of one pull are emitted in the order they queued. */
  ghost predicate OrderSound(batches: map<Work, Batch>, at: map<Work, nat>) {
    forall l, i, j :: l in batches && 0 <= i < j < |batches[l].followers| && batches[l].followers[j] in at ==>
      batches[l].followers[i] in at && at[batches[l].followers[i]] < at[batches[l].followers[j]]
  }

  /** The pull of the event was handled by a worker. */
  predicate Handled(place: map<Work, Place>, batches: map<Work, Batch>, w: Work)
    requires w in place
  {
    match place[w]
    case Direct(_) => false
    case Leader => w in batches && batches[w].worker
    case Follower(l, _) => l in batches && batches[l].worker
  }

  /** An event is resolved from its own ciphertext exactly when a worker handled its pull. */
  ghost predicate HowSound(place: map<Work, Place>, batches: map<Work, Batch>,
                           emitted: seq<Emission>, at: map<Work, nat>)
  {
    forall w :: w in at && at[w] < |emitted| && w in place ==>
      (emitted[at[w]].how == Resolved <==> Handled(place, batches, w))
  }

  function Workers(batches: map<Work, Batch>): set<Work> {
    set l | l in batches && Working(batches[l].stage)
  }

  ghost predicate PermitsSound(s: Sys) {
    s.permits == |Workers(s.batches)| + s.dms <= MAX_WORKERS
  }

  datatype Part = OwnerPart | QueuePart | TodoPart | PlacePart | IndexPart | OutPart | OrderPart | HowPart | PermitPart

  ghost predicate Holds(s: Sys, part: Part) {
    match part
    case OwnerPart => OwnersSound(s.queue, s.owner, s.batches)
    case QueuePart => QueueSound(s.queue, s.owner, s.batches)
    case TodoPart => TodosSound(s.batches)
    case PlacePart => PlacesSound(s.place, s.batches)
    case IndexPart => IndexSound(s.emitted, s.at)
    case OutPart => OutSound(s.place, s.batches, s.at)
    case OrderPart => OrderSound(s.batches, s.at)
    case HowPart => HowSound(s.place, s.batches, s.emitted, s.at)
    case PermitPart => PermitsSound(s)
  }

  ghost predicate Inv(s: Sys) {
    forall part :: Holds(s, part)
  }

  // Replacing one batch by one with the same followers

  lemma SwapPlaces(place: map<Work, Place>, batches: map<Work, Batch>, l: Work, b: Batch)
    requires PlacesSound(place, batches) && l in batches && b.followers == batches[l].followers
    ensures PlacesSound(place, batches[l := b])
  {
  }

  lemma SwapOut(place: map<Work, Place>, batches: map<Work, Batch>, at: map<Work, nat>, l: Work, b: Batch)
    requires OutSound(place, batches, at) && l in batches
    requires OwnOut(b) == OwnOut(batches[l]) && OutCount(b) == OutCount(batches[l])
    ensures OutSound(place, batches[l := b], at)
  {
  }

  lemma OwnGoesOut(place: map<Work, Place>, batches: map<Work, Batch>, at: map<Work, nat>, l: Work, b: Batch, k: nat)
    requires PlacesSound(place, batches) && OutSound(place, batches, at) && l in batches
    requires !OwnOut(batches[l]) && OwnOut(b) && OutCount(b) == OutCount(batches[l])
    ensures l !in at && OutSound(place, batches[l := b], at[l := k])
  {
  }

  lemma NextGoesOut(place: map<Work, Place>, batches: map<Work, Batch>, at: map<Work, nat>, l: Work, b: Batch, k: nat)
    requires PlacesSound(place, batches) && OutSound(place, batches, at) && l in batches
    requires b.followers == batches[l].followers && OwnOut(b) == OwnOut(batches[l])
    requires OutCount(b) == OutCount(batches[l]) + 1 <= |b.followers|
    ensures var w := b.followers[OutCount(batches[l])];
            w !in at && OutSound(place, batches[l := b], at[w := k])
  {
    var w := b.followers[OutCount(batches[l])];
    assert place[w] == Follower(l, OutCount(batches[l]));
    forall x | x in place ensures x in at[w := k] <==> Emitted(place, batches[l := b], x) {
      if x != w && place[x].Follower? && place[x].leader == l {
        assert place[x].index != OutCount(batches[l]);
      }
    }
  }

  lemma EmitIndex(emitted: seq<Emission>, at: map<Work, nat>, w: Work, how: How)
    requires IndexSound(emitted, at) && w !in at
    ensures IndexSound(emitted + [Emission(w, how)], at[w := |emitted|])
  {
  }

  lemma SwapOrder(batches: map<Work, Batch>, at: map<Work, nat>, l: Work, b: Batch)
    requires OrderSound(batches, at) && l in batches && b.followers == batches[l].followers
    ensures OrderSound(batches[l := b], at)
  {
  }

  /** Emitting an event whose earlier queue mates are all out. */
  lemma EmitOrder(batches: map<Work, Batch>, at: map<Work, nat>, w: Work, k: nat)
    requires OrderSound(batches, at) && w !in at && forall x :: x in at ==> at[x] < k
    requires forall l, i, j :: l in batches && 0 <= i < j < |batches[l].followers| && batches[l].followers[j] == w ==>
               batches[l].followers[i] in at
    ensures OrderSound(batches, at[w := k])
  {
  }

  // Handing in an event

  function NewBatch(pull: Pull): Batch {
    Batch(pull, Deciding, false, [], [])
  }

  function Joined(b: Batch, w: Work): Batch {
    b.(followers := b.followers + [w])
  }

  lemma LeaderPlaces(place: map<Work, Place>, batches: map<Work, Batch>, w: Work, pull: Pull)
    requires PlacesSound(place, batches) && w !in place
    ensures w !in batches && PlacesSound(place[w := Leader], batches[w := NewBatch(pull)])
  {
  }

  lemma FollowerPlaces(place: map<Work, Place>, batches: map<Work, Batch>, w: Work, l: Work)
    requires PlacesSound(place, batches) && w !in place && l in batches
    ensures PlacesSound(place[w := Follower(l, |batches[l].followers|)], batches[l := Joined(batches[l], w)])
  {
    var place', batches' := place[w := Follower(l, |batches[l].followers|)], batches[l := Joined(batches[l], w)];
    forall m, i | m in batches' && 0 <= i < |batches'[m].followers|
      ensures batches'[m].followers[i] in place' && place'[batches'[m].followers[i]] == Follower(m, i)
    {
      if m != l || i < |batches[l].followers| {
        assert batches[m].followers[i] in place && place[batches[m].followers[i]] == Follower(m, i);
      }
    }
  }

  lemma DirectPlaces(place: map<Work, Place>, batches: map<Work, Batch>, w: Work, out: bool)
    requires PlacesSound(place, batches) && (w in place ==> place[w].Direct?)
    ensures PlacesSound(place[w := Direct(out)], batches)
  {
  }

  lemma StepKeepsPlaces(s: Sys, step: Step)
    requires Holds(s, PlacePart) && Enabled(s, step)
    ensures Holds(Apply(s, step), PlacePart)
  {
    if step.Submit? {
      match RoleOf(s.queue, step.pull)
      case Leads => LeaderPlaces(s.place, s.batches, step.w, step.pull);
      case Follows => FollowerPlaces(s.place, s.batches, step.w, s.owner[step.pull]);
      case Full => DirectPlaces(s.place, s.batches, step.w, false);
    } else if step.EmitDirect? {
      DirectPlaces(s.place, s.batches, step.w, true);
    } else if !step.StartDM? && !step.EndDM? {
      SwapPlaces(s.place, s.batches, step.l, Apply(s, step).batches[step.l]);
    }
  }

  // Owners and queue

  lemma SwapOwners(q: Queue, owner: map<Pull, Work>, batches: map<Work, Batch>, l: Work, b: Batch)
    requires OwnersSound(q, owner, batches) && l in batches
    requires b.pull == batches[l].pull && Owns(b.stage) == Owns(batches[l].stage)
    ensures OwnersSound(q, owner, batches[l := b])
  {
  }

  lemma LeaderOwns(q: Queue, owner: map<Pull, Work>, batches: map<Work, Batch>, w: Work, pull: Pull)
    requires OwnersSound(q, owner, batches) && RoleOf(q, pull).Leads? && w !in batches
    ensures OwnersSound(Queued(q, pull, w), owner[pull := w], batches[w := NewBatch(pull)])
  {
  }

  lemma FinishOwners(q: Queue, owner: map<Pull, Work>, batches: map<Work, Batch>, l: Work, b: Batch)
    requires OwnersSound(q, owner, batches) && l in batches && Owns(batches[l].stage)
    requires b.pull == batches[l].pull && !Owns(b.stage)
    ensures OwnersSound(Finished(q, b.pull), owner - {b.pull}, batches[l := b])
  {
  }

  lemma StepKeepsOwners(s: Sys, step: Step)
    requires Holds(s, OwnerPart) && Holds(s, PlacePart) && Enabled(s, step)
    ensures Holds(Apply(s, step), OwnerPart)
  {
    if step.Submit? {
      match RoleOf(s.queue, step.pull)
      case Leads => LeaderOwns(s.queue, s.owner, s.batches, step.w, step.pull);
      case Follows =>
        var l := s.owner[step.pull];
        SwapOwners(s.queue, s.owner, s.batches, l, Joined(s.batches[l], step.w));
      case Full =>
    } else if step.FinishPull? {
      FinishOwners(s.queue, s.owner, s.batches, step.l, Apply(s, step).batches[step.l]);
    } else if !step.EmitDirect? && !step.StartDM? && !step.EndDM? {
      SwapOwners(s.queue, s.owner, s.batches, step.l, Apply(s, step).batches[step.l]);
    }
  }

  lemma SwapQueue(q: Queue, owner: map<Pull, Work>, batches: map<Work, Batch>, l: Work, b: Batch)
    requires QueueSound(q, owner, batches) && l in batches && b.followers == batches[l].followers
    ensures QueueSound(q, owner, batches[l := b])
  {
  }

  lemma LeaderQueue(q: Queue, owner: map<Pull, Work>, batches: map<Work, Batch>, w: Work, pull: Pull)
    requires OwnersSound(q, owner, batches) && QueueSound(q, owner, batches) && RoleOf(q, pull).Leads? && w !in batches
    ensures QueueSound(Queued(q, pull, w), owner[pull := w], batches[w := NewBatch(pull)])
  {
  }

  lemma FollowerQueue(q: Queue, owner: map<Pull, Work>, batches: map<Work, Batch>, w: Work, pull: Pull)
    requires OwnersSound(q, owner, batches) && QueueSound(q, owner, batches) && RoleOf(q, pull).Follows?
    ensures QueueSound(Queued(q, pull, w), owner, batches[owner[pull] := Joined(batches[owner[pull]], w)])
  {
  }

  lemma FinishQueue(q: Queue, owner: map<Pull, Work>, batches: map<Work, Batch>, l: Work, b: Batch)
    requires OwnersSound(q, owner, batches) && QueueSound(q, owner, batches) && l in batches && Owns(batches[l].stage)
    requires b.pull == batches[l].pull
    ensures QueueSound(Finished(q, b.pull), owner - {b.pull}, batches[l := b])
  {
  }

  lemma StepKeepsQueue(s: Sys, step: Step)
    requires Holds(s, QueuePart) && Holds(s, OwnerPart) && Holds(s, PlacePart) && Enabled(s, step)
    ensures Holds(Apply(s, step), QueuePart)
  {
    if step.Submit? {
      match RoleOf(s.queue, step.pull)
      case Leads => LeaderQueue(s.queue, s.owner, s.batches, step.w, step.pull);
      case Follows => FollowerQueue(s.queue, s.owner, s.batches, step.w, step.pull);
      case Full =>
    } else if step.FinishPull? {
      FinishQueue(s.queue, s.owner, s.batches, step.l, Apply(s, step).batches[step.l]);
    } else if !step.EmitDirect? && !step.StartDM? && !step.EndDM? {
      SwapQueue(s.queue, s.owner, s.batches, step.l, Apply(s, step).batches[step.l]);
    }
  }

  // Callbacks

  lemma SwapTodos(batches: map<Work, Batch>, l: Work, b: Batch)
    requires TodosSound(batches) && TodoSound(b)
    ensures TodosSound(batches[l := b])
  {
  }

  /** The new state of the batch a step works on. */
  lemma BatchKeepsTodo(b: Batch, step: Step, accepted: bool, waiters: seq<Work>)
    requires OnBatch(step) && BatchEnabled(b, step) && TodoSound(b) && (step.FinishPull? ==> waiters == b.followers)
    ensures TodoSound(BatchAfter(b, step, accepted, waiters))
  {
  }

  lemma StepKeepsTodos(s: Sys, step: Step)
    requires Holds(s, TodoPart) && Holds(s, QueuePart) && Holds(s, OwnerPart) && Enabled(s, step)
    ensures Holds(Apply(s, step), TodoPart)
  {
    if step.Submit? {
      match RoleOf(s.queue, step.pull)
      case Leads => SwapTodos(s.batches, step.w, NewBatch(step.pull));
      case Follows =>
        var l := s.owner[step.pull];
        assert TodoSound(s.batches[l]);
        SwapTodos(s.batches, l, Joined(s.batches[l], step.w));
      case Full =>
    } else if !step.EmitDirect? && !step.StartDM? && !step.EndDM? {
      assert TodoSound(s.batches[step.l]);
      BatchKeepsTodo(s.batches[step.l], step, s.permits < MAX_WORKERS, Waiters(s.queue, s.batches[step.l].pull));
      SwapTodos(s.batches, step.l, Worked(s, step));
    }
  }

  /** What a step does to its batch, seen from outside: who is out, and how. */
  ghost predicate Progressed(b: Batch, b': Batch, step: Step) {
    && b'.followers == b.followers && OutCount(b) <= OutCount(b') <= |b.followers|
    && (step.EmitOwn? ==> !OwnOut(b) && OwnOut(b') && OutCount(b') == OutCount(b))
    && (step.EmitNext? ==> OwnOut(b') == OwnOut(b) && OutCount(b') == OutCount(b) + 1)
    && (step.EmitNext? ==> b.todo != [] && OutCount(b) < |b.followers| && b.todo[0] == b.followers[OutCount(b)])
    && (!step.EmitOwn? && !step.EmitNext? ==> OwnOut(b') == OwnOut(b) && OutCount(b') == OutCount(b))
    && (!step.TryWorker? ==> b'.worker == b.worker) && (step.TryWorker? ==> OutCount(b) == 0 && !OwnOut(b))
  }

  lemma BatchGoesOn(b: Batch, step: Step, accepted: bool, waiters: seq<Work>)
    requires OnBatch(step) && BatchEnabled(b, step) && TodoSound(b) && (step.FinishPull? ==> waiters == b.followers)
    ensures Progressed(b, BatchAfter(b, step, accepted, waiters), step)
  {
  }

  lemma BatchProgress(s: Sys, step: Step)
    requires Holds(s, TodoPart) && Holds(s, QueuePart) && Holds(s, OwnerPart) && Enabled(s, step) && OnBatch(step)
    ensures Apply(s, step).batches[step.l] == Worked(s, step) && Progressed(s.batches[step.l], Worked(s, step), step)
  {
    assert TodoSound(s.batches[step.l]);
    BatchGoesOn(s.batches[step.l], step, s.permits < MAX_WORKERS, Waiters(s.queue, s.batches[step.l].pull));
  }

  // Emissions

  lemma LeaderOut(place: map<Work, Place>, batches: map<Work, Batch>, at: map<Work, nat>, w: Work, pull: Pull)
    requires PlacesSound(place, batches) && OutSound(place, batches, at) && w !in place
    ensures OutSound(place[w := Leader], batches[w := NewBatch(pull)], at)
  {
  }

  lemma FollowerOut(place: map<Work, Place>, batches: map<Work, Batch>, at: map<Work, nat>, w: Work, l: Work)
    requires OutSound(place, batches, at) && w !in place && l in batches && Owns(batches[l].stage)
    ensures OutSound(place[w := Follower(l, |batches[l].followers|)], batches[l := Joined(batches[l], w)], at)
  {
  }

  lemma DirectOut(place: map<Work, Place>, batches: map<Work, Batch>, at: map<Work, nat>, w: Work, k: nat)
    requires OutSound(place, batches, at)
    ensures w !in place ==> OutSound(place[w := Direct(false)], batches, at)
    ensures w in place && place[w] == Direct(false) ==>
              w !in at && OutSound(place[w := Direct(true)], batches, at[w := k])
  {
  }

  lemma StepKeepsOut(s: Sys, step: Step)
    requires Holds(s, OutPart) && Holds(s, PlacePart) && Holds(s, TodoPart) && Holds(s, OwnerPart) && Enabled(s, step)
    requires Holds(s, QueuePart)
    ensures Holds(Apply(s, step), OutPart)
  {
    var k := |s.emitted|;
    if step.Submit? {
      match RoleOf(s.queue, step.pull)
      case Leads => LeaderOut(s.place, s.batches, s.at, step.w, step.pull);
      case Follows => FollowerOut(s.place, s.batches, s.at, step.w, s.owner[step.pull]);
      case Full => DirectOut(s.place, s.batches, s.at, step.w, k);
    } else if step.EmitDirect? {
      DirectOut(s.place, s.batches, s.at, step.w, k);
    } else if !step.StartDM? && !step.EndDM? {
      BatchProgress(s, step);
      var b' := Apply(s, step).batches[step.l];
      if step.EmitOwn? {
        OwnGoesOut(s.place, s.batches, s.at, step.l, b', k);
      } else if step.EmitNext? {
        NextGoesOut(s.place, s.batches, s.at, step.l, b', k);
      } else {
        SwapOut(s.place, s.batches, s.at, step.l, b');
      }
    }
  }

  /** The event a step emits, if any. */
  function EmittedBy(s: Sys, step: Step): Option<Work>
    requires Enabled(s, step)
  {
    match step
    case EmitOwn(l) => Some(l)
    case EmitNext(l) => Some(s.batches[l].todo[0])
    case EmitDirect(w) => Some(w)
    case _ => None
  }

  /** No step emits an event that is already out. */
  lemma EmitsOnlyNew(s: Sys, step: Step)
    requires Holds(s, OutPart) && Holds(s, PlacePart) && Holds(s, TodoPart) && Enabled(s, step)
    requires Holds(s, QueuePart) && Holds(s, OwnerPart)
    ensures EmittedBy(s, step).Some? ==> EmittedBy(s, step).value !in s.at
  {
    if step.EmitDirect? {
      DirectOut(s.place, s.batches, s.at, step.w, 0);
    } else if step.EmitOwn? || step.EmitNext? {
      BatchProgress(s, step);
      var b' := Apply(s, step).batches[step.l];
      if step.EmitOwn? {
        OwnGoesOut(s.place, s.batches, s.at, step.l, b', 0);
      } else {
        NextGoesOut(s.place, s.batches, s.at, step.l, b', 0);
      }
    }
  }

  lemma StepKeepsIndex(s: Sys, step: Step)
    requires Holds(s, IndexPart) && Enabled(s, step)
    requires EmittedBy(s, step).Some? ==> EmittedBy(s, step).value !in s.at
    ensures Holds(Apply(s, step), IndexPart)
  {
    if EmittedBy(s, step).Some? {
      var how := if step.EmitDirect? then Placeholder else HowOf(s.batches[step.l]);
      EmitIndex(s.emitted, s.at, EmittedBy(s, step).value, how);
    }
  }

  lemma FollowerOrder(batches: map<Work, Batch>, at: map<Work, nat>, w: Work, l: Work)
    requires OrderSound(batches, at) && w !in at && l in batches
    ensures OrderSound(batches[l := Joined(batches[l], w)], at)
  {
  }

  /** The follower emitted next comes after all its earlier queue mates, and is in no other queue. */
  lemma NextIsOldest(s: Sys, w: Work)
    requires Holds(s, OutPart) && Holds(s, PlacePart) && w in s.place
    requires s.place[w].Follower? ==>
               s.place[w].leader in s.batches && s.place[w].index <= OutCount(s.batches[s.place[w].leader])
    ensures forall l, i, j ::
              l in s.batches && 0 <= i < j < |s.batches[l].followers| && s.batches[l].followers[j] == w ==>
              s.batches[l].followers[i] in s.at
  {
    forall l, i, j | l in s.batches && 0 <= i < j < |s.batches[l].followers| && s.batches[l].followers[j] == w
      ensures s.batches[l].followers[i] in s.at
    {
      assert s.place[w] == Follower(l, j);
      assert s.place[s.batches[l].followers[i]] == Follower(l, i);
    }
  }

  lemma StepKeepsOrder(s: Sys, step: Step)
    requires Holds(s, OrderPart) && Holds(s, OutPart) && Holds(s, IndexPart) && Holds(s, PlacePart)
    requires Holds(s, TodoPart)
    requires Enabled(s, step) && (EmittedBy(s, step).Some? ==> EmittedBy(s, step).value !in s.at)
    requires Holds(s, QueuePart) && Holds(s, OwnerPart)
    ensures Holds(Apply(s, step), OrderPart)
  {
    if step.Submit? {
      SubmitOrder(s, step);
    } else if !step.StartDM? && !step.EndDM? {
      var s' := Apply(s, step);
      EmissionOrder(s, step);
      if OnBatch(step) {
        SwapOrder(s.batches, s'.at, step.l, s'.batches[step.l]);
      }
    }
  }

  lemma SubmitOrder(s: Sys, step: Step)
    requires Holds(s, OrderPart) && Holds(s, OutPart) && Holds(s, PlacePart) && Enabled(s, step) && step.Submit?
    ensures Holds(Apply(s, step), OrderPart)
  {
    if RoleOf(s.queue, step.pull).Follows? {
      FollowerOrder(s.batches, s.at, step.w, s.owner[step.pull]);
    }
  }

  /** What the step emits comes after everything that queued before it. */
  lemma EmissionOrder(s: Sys, step: Step)
    requires Holds(s, OrderPart) && Holds(s, OutPart) && Holds(s, IndexPart) && Holds(s, PlacePart)
    requires Holds(s, TodoPart) && Holds(s, QueuePart) && Holds(s, OwnerPart)
    requires Enabled(s, step) && (EmittedBy(s, step).Some? ==> EmittedBy(s, step).value !in s.at)
    ensures OrderSound(s.batches, Apply(s, step).at)
  {
    if EmittedBy(s, step).Some? {
      EmitterIsPlaced(s, step);
      NextIsOldest(s, EmittedBy(s, step).value);
      EmitOrder(s.batches, s.at, EmittedBy(s, step).value, |s.emitted|);
    }
  }

  lemma EmitterIsPlaced(s: Sys, step: Step)
    requires Holds(s, PlacePart) && Holds(s, TodoPart) && Enabled(s, step) && EmittedBy(s, step).Some?
    requires Holds(s, QueuePart) && Holds(s, OwnerPart)
    ensures var w := EmittedBy(s, step).value;
            w in s.place && (s.place[w].Follower? ==>
                               s.place[w].leader in s.batches &&
                               s.place[w].index <= OutCount(s.batches[s.place[w].leader]))
    ensures step.EmitNext? ==> s.place[EmittedBy(s, step).value] == Follower(step.l, OutCount(s.batches[step.l]))
  {
    if step.EmitNext? {
      BatchProgress(s, step);
      assert s.batches[step.l].followers[OutCount(s.batches[step.l])] in s.place;
    }
  }

  lemma SwapHow(place: map<Work, Place>, batches: map<Work, Batch>, emitted: seq<Emission>, at: map<Work, nat>,
                l: Work, b: Batch)
    requires HowSound(place, batches, emitted, at) && OutSound(place, batches, at) && l in batches
    requires b.worker == batches[l].worker || (OutCount(batches[l]) == 0 && !OwnOut(batches[l]))
    ensures HowSound(place, batches[l := b], emitted, at)
  {
  }

  lemma EmitHow(place: map<Work, Place>, batches: map<Work, Batch>, emitted: seq<Emission>, at: map<Work, nat>,
                w: Work, how: How)
    requires HowSound(place, batches, emitted, at) && IndexSound(emitted, at) && w in place && w !in at
    requires how == Resolved <==> Handled(place, batches, w)
    ensures HowSound(place, batches, emitted + [Emission(w, how)], at[w := |emitted|])
  {
  }

  lemma SubmitHow(s: Sys, step: Step)
    requires Holds(s, HowPart) && Holds(s, PlacePart) && Holds(s, OutPart) && Enabled(s, step) && step.Submit?
    ensures Holds(Apply(s, step), HowPart)
  {
    match RoleOf(s.queue, step.pull)
    case Leads => LeaderHow(s.place, s.batches, s.emitted, s.at, step.w, NewBatch(step.pull));
    case Follows => FollowerHow(s.place, s.batches, s.emitted, s.at, step.w, s.owner[step.pull]);
    case Full => PlacedHow(s.place, s.batches, s.emitted, s.at, step.w, Direct(false));
  }

  /** The place of an event that is not out does not matter. */
  lemma PlacedHow(place: map<Work, Place>, batches: map<Work, Batch>, emitted: seq<Emission>, at: map<Work, nat>,
                  w: Work, p: Place)
    requires HowSound(place, batches, emitted, at) && w !in at
    ensures HowSound(place[w := p], batches, emitted, at)
  {
  }

  lemma LeaderHow(place: map<Work, Place>, batches: map<Work, Batch>, emitted: seq<Emission>, at: map<Work, nat>,
                  w: Work, b: Batch)
    requires HowSound(place, batches, emitted, at) && PlacesSound(place, batches) && OutSound(place, batches, at)
    requires w !in place
    ensures HowSound(place[w := Leader], batches[w := b], emitted, at)
  {
  }

  lemma FollowerHow(place: map<Work, Place>, batches: map<Work, Batch>, emitted: seq<Emission>, at: map<Work, nat>,
                    w: Work, l: Work)
    requires HowSound(place, batches, emitted, at) && OutSound(place, batches, at) && w !in place && l in batches
    ensures HowSound(place[w := Follower(l, |batches[l].followers|)], batches[l := Joined(batches[l], w)], emitted, at)
  {
  }

  lemma StepKeepsHow(s: Sys, step: Step)
    requires Holds(s, HowPart) && Holds(s, OutPart) && Holds(s, IndexPart) && Holds(s, PlacePart) && Holds(s, TodoPart)
    requires Holds(s, QueuePart) && Holds(s, OwnerPart)
    requires Enabled(s, step) && (EmittedBy(s, step).Some? ==> EmittedBy(s, step).value !in s.at)
    ensures Holds(Apply(s, step), HowPart)
  {
    if step.Submit? {
      SubmitHow(s, step);
    } else if step.EmitDirect? {
      DirectHow(s, step);
    } else if step.StartDM? || step.EndDM? {
      MessageHow(s, step);
    } else {
      BatchHow(s, step);
    }
  }

  lemma DirectHow(s: Sys, step: Step)
    requires Holds(s, HowPart) && Holds(s, OutPart) && Holds(s, IndexPart) && Holds(s, PlacePart)
    requires Enabled(s, step) && step.EmitDirect? && step.w !in s.at
    ensures Holds(Apply(s, step), HowPart)
  {
    EmitHow(s.place, s.batches, s.emitted, s.at, step.w, Placeholder);
  }

  lemma MessageHow(s: Sys, step: Step)
    requires Holds(s, HowPart) && Enabled(s, step) && (step.StartDM? || step.EndDM?)
    ensures Holds(Apply(s, step), HowPart)
  {
  }

  lemma BatchHow(s: Sys, step: Step)
    requires Holds(s, HowPart) && Holds(s, OutPart) && Holds(s, IndexPart) && Holds(s, PlacePart) && Holds(s, TodoPart)
    requires Holds(s, QueuePart) && Holds(s, OwnerPart)
    requires Enabled(s, step) && (EmittedBy(s, step).Some? ==> EmittedBy(s, step).value !in s.at)
    requires !step.Submit? && !step.EmitDirect? && !step.StartDM? && !step.EndDM?
    ensures Holds(Apply(s, step), HowPart)
  {
    var s' := Apply(s, step);
    BatchProgress(s, step);
    SwapHow(s.place, s.batches, s.emitted, s.at, step.l, s'.batches[step.l]);
    if EmittedBy(s, step).Some? {
      EmitterIsPlaced(s, step);
      EmitHow(s.place, s'.batches, s.emitted, s.at, EmittedBy(s, step).value, HowOf(s.batches[step.l]));
    }
  }

  lemma SwapWorkers(batches: map<Work, Batch>, l: Work, b: Batch)
    ensures Workers(batches[l := b]) == if Working(b.stage) then Workers(batches) + {l} else Workers(batches) - {l}
    ensures Working(b.stage) == (l in batches && Working(batches[l].stage)) ==>
              Workers(batches[l := b]) == Workers(batches)
  {
  }

  lemma SubmitKeepsWorkers(s: Sys, step: Step)
    requires Holds(s, PlacePart) && Enabled(s, step) && step.Submit?
    ensures Workers(Apply(s, step).batches) == Workers(s.batches)
  {
    match RoleOf(s.queue, step.pull)
    case Leads => SwapWorkers(s.batches, step.w, NewBatch(step.pull));
    case Follows => SwapWorkers(s.batches, s.owner[step.pull], Joined(s.batches[s.owner[step.pull]], step.w));
    case Full =>
  }

  lemma StepKeepsPermits(s: Sys, step: Step)
    requires Holds(s, PermitPart) && Holds(s, PlacePart) && Enabled(s, step)
    ensures Holds(Apply(s, step), PermitPart)
  {
    if step.Submit? {
      SubmitKeepsWorkers(s, step);
    } else if step.TryWorker? || step.EndDrain? {
      PermitTaken(s, step);
    } else if step.FinishPull? || step.EmitOwn? || step.EmitNext? {
      SwapWorkers(s.batches, step.l, Apply(s, step).batches[step.l]);
    }
  }

  lemma PermitTaken(s: Sys, step: Step)
    requires Holds(s, PermitPart) && Enabled(s, step) && (step.TryWorker? || step.EndDrain?)
    ensures Holds(Apply(s, step), PermitPart)
  {
    SwapWorkers(s.batches, step.l, Apply(s, step).batches[step.l]);
  }

  lemma StepKeepsInv(s: Sys, step: Step)
    requires Inv(s) && Enabled(s, step)
    ensures Inv(Apply(s, step))
  {
    forall part ensures Holds(Apply(s, step), part) {
      EmitsOnlyNew(s, step);
      match part
      case OwnerPart => StepKeepsOwners(s, step);
      case QueuePart => StepKeepsQueue(s, step);
      case TodoPart => StepKeepsTodos(s, step);
      case PlacePart => StepKeepsPlaces(s, step);
      case IndexPart => StepKeepsIndex(s, step);
      case OutPart => StepKeepsOut(s, step);
      case OrderPart => StepKeepsOrder(s, step);
      case HowPart => StepKeepsHow(s, step);
      case PermitPart => StepKeepsPermits(s, step);
    }
  }

  lemma {:induction false} RunKeepsInv(steps: seq<Step>)
    requires Execute(Start(), steps).Some?
    ensures Inv(Execute(Start(), steps).value)
    decreases |steps|
  {
    if steps == [] {
      forall part ensures Holds(Start(), part) {
        assert Workers(Start().batches) == {};
        match part case _ =>
      }
    } else {
      var front := steps[..|steps| - 1];
      RunKeepsInv(front);
      StepKeepsInv(Execute(Start(), front).value, steps[|steps| - 1]);
    }
  }

  // ---------------------------------------------------------------------------------------------
  // Main results

  function CountOf(emitted: seq<Emission>, w: Work): nat {
    if emitted == [] then 0
    else CountOf(emitted[..|emitted| - 1], w) + (if emitted[|emitted| - 1].work == w then 1 else 0)
  }

  lemma {:induction false} CountByIndex(emitted: seq<Emission>, at: map<Work, nat>, w: Work)
    requires forall k :: 0 <= k < |emitted| ==> emitted[k].work in at && at[emitted[k].work] == k
    ensures CountOf(emitted, w) == if w in at && at[w] < |emitted| && emitted[at[w]].work == w then 1 else 0
  {
    if emitted == [] {
    } else {
      CountByIndex(emitted[..|emitted| - 1], at, w);
    }
  }

  /** In every run an event is never emitted twice, and once emitted it was resolved from its own
      ciphertext exactly when a worker handled its pull, and shown as a placeholder otherwise. */
  lemma EmittedAtMostOnce(steps: seq<Step>, w: Work)
    requires Execute(Start(), steps).Some?
    ensures var s := Execute(Start(), steps).value;
            && CountOf(s.emitted, w) <= 1
            && (w in s.place ==> (CountOf(s.emitted, w) == 1 <==> Emitted(s.place, s.batches, w)))
            && (forall k :: 0 <= k < |s.emitted| && s.emitted[k].work == w ==>
                  w in s.place && (s.emitted[k].how == Resolved <==> Handled(s.place, s.batches, w)))
  {
    RunKeepsInv(steps);
    var s := Execute(Start(), steps).value;
    assert Holds(s, IndexPart);
    assert Holds(s, OutPart);
    assert Holds(s, HowPart);
    CountByIndex(s.emitted, s.at, w);
  }

  /** Nobody is left working: every leader is done and every direct caller has emitted. */
  predicate Quiet(s: Sys) {
    && (forall l :: l in s.batches ==> s.batches[l].stage.Over?)
    && (forall w :: w in s.place && s.place[w].Direct? ==> s.place[w].emitted)
  }

  /** When everybody is done, every event ever handed in was emitted exactly once and no pull is left
      in flight. */
  lemma QuietMeansAllEmitted(steps: seq<Step>, w: Work)
    requires Execute(Start(), steps).Some? && Quiet(Execute(Start(), steps).value)
    requires w in Execute(Start(), steps).value.place
    ensures CountOf(Execute(Start(), steps).value.emitted, w) == 1
    ensures Execute(Start(), steps).value.queue == Queue({}, map[])
  {
    RunKeepsInv(steps);
    EmittedAtMostOnce(steps, w);
    var s := Execute(Start(), steps).value;
    AllOut(s, w);
  }

  lemma AllOut(s: Sys, w: Work)
    requires Inv(s) && Quiet(s) && w in s.place
    ensures Emitted(s.place, s.batches, w) && s.queue == Queue({}, map[])
  {
    assert Holds(s, PlacePart);
    assert Holds(s, TodoPart);
    assert Holds(s, OwnerPart);
    assert Holds(s, QueuePart);
    match s.place[w]
    case Follower(l, i) => assert TodoSound(s.batches[l]);
    case _ =>
    assert forall p :: p !in s.owner;
  }

  /** In every run there are never more than 8 workers, 64 queued followers of a pull, or two leaders of
      the same generation. */
  lemma QueueBounds(steps: seq<Step>, l: Work, l2: Work)
    requires Execute(Start(), steps).Some?
    ensures var s := Execute(Start(), steps).value;
            && |Workers(s.batches)| <= s.permits <= MAX_WORKERS
            && (l in s.batches ==> |s.batches[l].followers| <= MAX_WAITERS)
            && (l in s.batches && l2 in s.batches && s.batches[l].pull == s.batches[l2].pull ==>
                  Owns(s.batches[l].stage) && Owns(s.batches[l2].stage) ==> l == l2)
  {
    RunKeepsInv(steps);
    var s := Execute(Start(), steps).value;
    assert Holds(s, OwnerPart);
    assert Holds(s, TodoPart);
    assert Holds(s, PermitPart);
  }

  /** In every run the followers of one pull come out in the order they queued. */
  lemma FollowersInOrder(steps: seq<Step>, l: Work, i: nat, j: nat)
    requires Execute(Start(), steps).Some? && l in Execute(Start(), steps).value.batches
    requires i < j < |Execute(Start(), steps).value.batches[l].followers|
    ensures var s := Execute(Start(), steps).value;
            var early, late := s.batches[l].followers[i], s.batches[l].followers[j];
            late in s.at ==>
              && early in s.at && s.at[early] < s.at[late] < |s.emitted|
              && s.emitted[s.at[early]].work == early && s.emitted[s.at[late]].work == late
  {
    RunKeepsInv(steps);
    var s := Execute(Start(), steps).value;
    assert Holds(s, OrderPart);
    assert Holds(s, IndexPart);
  }

  // ---------------------------------------------------------------------------------------------
  // Everybody does get done

  function RankOf(stage: Stage): nat {
    match stage
    case Deciding => 5
    case Fetching => 4
    case Refused => 4
    case OwnNext => 3
    case Flushing => 3
    case Draining => 2
    case OwnLast => 2
    case Over => 0
  }

  /** More than the steps still ahead of a pull. */
  function Weight(b: Batch): nat {
    (MAX_WAITERS + 1) * RankOf(b.stage) + |b.todo|
  }

  lemma WeightFalls(b: Batch, step: Step, accepted: bool, waiters: seq<Work>)
    requires OnBatch(step) && BatchEnabled(b, step) && TodoSound(b) && (step.FinishPull? ==> waiters == b.followers)
    ensures Weight(BatchAfter(b, step, accepted, waiters)) < Weight(b)
  {
    if !step.EmitNext? {
      RankFalls(b, step, accepted, waiters);
      LowerRankWeighsLess(b, BatchAfter(b, step, accepted, waiters));
    }
  }

  lemma RankFalls(b: Batch, step: Step, accepted: bool, waiters: seq<Work>)
    requires OnBatch(step) && BatchEnabled(b, step) && !step.EmitNext?
    ensures RankOf(BatchAfter(b, step, accepted, waiters).stage) < RankOf(b.stage)
  {
  }

  lemma LowerRankWeighsLess(b: Batch, b': Batch)
    requires RankOf(b'.stage) < RankOf(b.stage) && |b'.todo| <= MAX_WAITERS
    ensures Weight(b') < Weight(b)
  {
  }

  ghost function Total(batches: map<Work, Batch>): nat
    decreases |batches|
  {
    if batches == map[] then 0
    else
      var l :| l in batches;
      assert |batches - {l}| < |batches| by {
        assert (batches - {l}).Keys == batches.Keys - {l};
      }
      Weight(batches[l]) + Total(batches - {l})
  }

  lemma {:induction false} TotalWithout(batches: map<Work, Batch>, l: Work)
    requires l in batches
    ensures Total(batches) == Weight(batches[l]) + Total(batches - {l})
    decreases |batches|
  {
    var x :| x in batches && Total(batches) == Weight(batches[x]) + Total(batches - {x});
    if x != l {
      assert (batches - {x}).Keys == batches.Keys - {x};
      TotalWithout(batches - {x}, l);
      assert (batches - {l}).Keys == batches.Keys - {l};
      TotalWithout(batches - {l}, x);
      assert batches - {x} - {l} == batches - {l} - {x};
    }
  }

  lemma TotalSwapped(batches: map<Work, Batch>, l: Work, b: Batch)
    requires l in batches
    ensures Total(batches[l := b]) + Weight(batches[l]) == Total(batches) + Weight(b)
  {
    TotalWithout(batches, l);
    TotalWithout(batches[l := b], l);
    assert batches[l := b] - {l} == batches - {l};
  }

  function Unsent(place: map<Work, Place>): set<Work> {
    set w | w in place && place[w] == Direct(false)
  }

  ghost function Measure(s: Sys): nat {
    Total(s.batches) + |Unsent(s.place)|
  }

  /** The steps that finish what was handed in. */
  predicate Drains(step: Step) {
    OnBatch(step) || step.EmitDirect?
  }

  /** Each of them brings the end nearer. */
  lemma DrainingFalls(s: Sys, step: Step)
    requires Inv(s) && Enabled(s, step) && Drains(step)
    ensures Measure(Apply(s, step)) < Measure(s)
  {
    assert Holds(s, TodoPart) && Holds(s, QueuePart) && Holds(s, OwnerPart);
    var s' := Apply(s, step);
    if step.EmitDirect? {
      assert Unsent(s'.place) == Unsent(s.place) - {step.w};
    } else {
      var b := s.batches[step.l];
      assert TodoSound(b);
      WeightFalls(b, step, s.permits < MAX_WORKERS, Waiters(s.queue, b.pull));
      TotalSwapped(s.batches, step.l, Worked(s, step));
    }
  }

  /** The step a pull takes next. */
  function NextOf(l: Work, b: Batch): Step {
    match b.stage
    case Deciding => TryWorker(l)
    case Fetching => FinishPull(l)
    case Refused => FinishPull(l)
    case OwnNext => EmitOwn(l)
    case OwnLast => EmitOwn(l)
    case _ => if b.todo == [] then EndDrain(l) else EmitNext(l)
  }

  /** Until everybody is done, somebody can go on. */
  lemma SomebodyGoesOn(s: Sys) returns (step: Step)
    requires !Quiet(s)
    ensures Enabled(s, step) && Drains(step)
  {
    if l :| l in s.batches && !s.batches[l].stage.Over? {
      step := NextOf(l, s.batches[l]);
    } else {
      var w :| w in s.place && s.place[w].Direct? && !s.place[w].emitted;
      step := EmitDirect(w);
    }
  }

  /** One more step at the end of a run. */
  function Then(before: Option<Sys>, last: Step): Option<Sys> {
    if before.Some? && Enabled(before.value, last) then Some(Apply(before.value, last)) else None
  }

  lemma ExecuteLast(s: Sys, steps: seq<Step>, last: Step)
    ensures Execute(s, steps + [last]) == Then(Execute(s, steps), last)
  {
    assert (steps + [last])[..|steps|] == steps;
  }

  lemma {:induction false} ExecuteFirst(s: Sys, step: Step, rest: seq<Step>)
    requires Enabled(s, step)
    ensures Execute(s, [step] + rest) == Execute(Apply(s, step), rest)
    decreases |rest|
  {
    if rest == [] {
      ExecuteLast(s, [], step);
      assert [step] + rest == [] + [step];
    } else {
      var front, last := rest[..|rest| - 1], rest[|rest| - 1];
      ExecuteFirst(s, step, front);
      ExecuteLast(s, [step] + front, last);
      ExecuteLast(Apply(s, step), front, last);
      assert [step] + rest == ([step] + front) + [last] && rest == front + [last];
    }
  }

  /** From every reachable state the work in hand can be finished without anything new, and then everything
      handed in has been emitted. */
  lemma {:induction false} QuietIsReached(s: Sys) returns (steps: seq<Step>)
    requires Inv(s)
    ensures Execute(s, steps).Some? && Quiet(Execute(s, steps).value)
    ensures forall i :: 0 <= i < |steps| ==> Drains(steps[i])
    decreases Measure(s)
  {
    if Quiet(s) {
      steps := [];
    } else {
      var step := SomebodyGoesOn(s);
      DrainingFalls(s, step);
      StepKeepsInv(s, step);
      var rest := QuietIsReached(Apply(s, step));
      ExecuteFirst(s, step, rest);
      steps := [step] + rest;
    }
  }

  /** And however the steps are scheduled, there are only so many of them. */
  lemma {:induction false} DrainingEnds(s: Sys, steps: seq<Step>)
    requires Inv(s) && Execute(s, steps).Some? && forall i :: 0 <= i < |steps| ==> Drains(steps[i])
    ensures Inv(Execute(s, steps).value) && |steps| + Measure(Execute(s, steps).value) <= Measure(s)
    decreases |steps|
  {
    if steps == [] {
    } else {
      var front := steps[..|steps| - 1];
      DrainingEnds(s, front);
      DrainingFalls(Execute(s, front).value, steps[|steps| - 1]);
      StepKeepsInv(Execute(s, front).value, steps[|steps| - 1]);
    }
  }

  // ---------------------------------------------------------------------------------------------
  // When an event is shown as a placeholder, read off the run

  /** All eight slots are taken, by workers of pulls and by direct messages. */
  predicate AllSlotsBusy(s: Sys) {
    |Workers(s.batches)| + s.dms >= 8
  }

  /** How many have joined the leader of the pull. */
  function FollowersOf(s: Sys, pull: Pull): nat {
    if pull in s.owner && s.owner[pull] in s.batches then |s.batches[s.owner[pull]].followers| else 0
  }

  /** The pull has a leader with 64 followers already. */
  predicate FollowersFull(s: Sys, pull: Pull) {
    FollowersOf(s, pull) >= 64
  }

  /** In every run, a leader that tries gets a worker, and a direct message one, exactly when a slot is free. */
  lemma WorkerAcceptedIffSlotFree(steps: seq<Step>, l: Work)
    requires Execute(Start(), steps).Some? && Enabled(Execute(Start(), steps).value, TryWorker(l))
    ensures var s := Execute(Start(), steps).value;
            && (Apply(s, TryWorker(l)).batches[l].worker <==> !AllSlotsBusy(s))
            && (Enabled(s, StartDM) <==> !AllSlotsBusy(s))
  {
    RunKeepsInv(steps);
    assert Holds(Execute(Start(), steps).value, PermitPart);
    AcceptedIff(Execute(Start(), steps).value, l);
  }

  lemma AcceptedIff(s: Sys, l: Work)
    requires Inv(s) && Enabled(s, TryWorker(l))
    ensures Apply(s, TryWorker(l)).batches[l].worker <==> !AllSlotsBusy(s)
  {
    assert Holds(s, PermitPart);
    assert Holds(s, TodoPart);
    assert TodoSound(s.batches[l]);
  }

  /** What submitting an event makes of it: the first of its pull leads, up to 64 more follow, and a further one is left
      to its caller. */
  lemma SubmitIsExact(s: Sys, w: Work, pull: Pull)
    requires Inv(s) && Enabled(s, Submit(w, pull))
    ensures var place := Apply(s, Submit(w, pull)).place;
            w in place && place[w] ==
            if pull !in s.owner then Leader
            else if FollowersFull(s, pull) then Direct(false)
            else Follower(s.owner[pull], FollowersOf(s, pull))
  {
    assert Holds(s, OwnerPart);
    assert Holds(s, QueuePart);
  }

  /** The events that were submitted when their pull had 64 followers. */
  ghost function Overflowed(steps: seq<Step>): set<Work>
    decreases |steps|
  {
    if steps == [] then {}
    else
      var front, last := steps[..|steps| - 1], steps[|steps| - 1];
      var before := Execute(Start(), front);
      if last.Submit? && before.Some? && FollowersFull(before.value, last.pull) then Overflowed(front) + {last.w}
      else Overflowed(front)
  }

  /** The leaders that tried for a worker when all slots were busy. */
  ghost function TurnedAway(steps: seq<Step>): set<Work>
    decreases |steps|
  {
    if steps == [] then {}
    else
      var front, last := steps[..|steps| - 1], steps[|steps| - 1];
      var before := Execute(Start(), front);
      if last.TryWorker? && before.Some? && AllSlotsBusy(before.value) then TurnedAway(front) + {last.l}
      else TurnedAway(front)
  }

  /** The leader whose pull carries an event; itself for a leader. */
  function LeaderOf(place: map<Work, Place>, w: Work): Work
    requires w in place
  {
    if place[w].Follower? then place[w].leader else w
  }

  /** A leader without a worker was turned away, unless it has not tried yet. */
  predicate BatchFate(b: Batch, turnedAway: bool) {
    if b.stage.Deciding? then !b.worker && !turnedAway else b.worker <==> !turnedAway
  }

  ghost predicate PlacesRead(place: map<Work, Place>, overflowed: set<Work>) {
    && (forall w :: w in place ==> (place[w].Direct? <==> w in overflowed))
    && (forall w :: w in overflowed ==> w in place)
  }

  ghost predicate BatchesRead(batches: map<Work, Batch>, turnedAway: set<Work>) {
    && (forall l :: l in batches ==> BatchFate(batches[l], l in turnedAway))
    && (forall l :: l in turnedAway ==> l in batches)
  }

  ghost predicate FatesRead(s: Sys, steps: seq<Step>) {
    PlacesRead(s.place, Overflowed(steps)) && BatchesRead(s.batches, TurnedAway(steps))
  }

  lemma SubmitReads(steps: seq<Step>)
    requires steps != [] && Execute(Start(), steps).Some? && steps[|steps| - 1].Submit?
    requires var s := Execute(Start(), steps[..|steps| - 1]).value; Inv(s) && FatesRead(s, steps[..|steps| - 1])
    ensures FatesRead(Execute(Start(), steps).value, steps)
  {
    var front, step := steps[..|steps| - 1], steps[|steps| - 1];
    var s := Execute(Start(), front).value;
    SubmitIsExact(s, step.w, step.pull);
    SubmitPlaces(s, step.w, step.pull);
    SubmitBatches(s, step.w, step.pull, TurnedAway(front));
  }

  lemma SubmitPlaces(s: Sys, w: Work, pull: Pull)
    requires Enabled(s, Submit(w, pull))
    ensures var place := Apply(s, Submit(w, pull)).place; w in place && place == s.place[w := place[w]]
  {
  }

  lemma SubmitBatches(s: Sys, w: Work, pull: Pull, turnedAway: set<Work>)
    requires Inv(s) && Enabled(s, Submit(w, pull)) && BatchesRead(s.batches, turnedAway)
    ensures BatchesRead(Apply(s, Submit(w, pull)).batches, turnedAway)
  {
    assert Holds(s, PlacePart);
    assert w !in s.batches;
  }

  lemma BatchStepReads(b: Batch, step: Step, accepted: bool, waiters: seq<Work>, turnedAway: bool)
    requires OnBatch(step) && BatchEnabled(b, step) && BatchFate(b, turnedAway)
    ensures BatchFate(BatchAfter(b, step, accepted, waiters), if step.TryWorker? then !accepted else turnedAway)
  {
  }

  lemma WorkReads(steps: seq<Step>)
    requires steps != [] && Execute(Start(), steps).Some? && OnBatch(steps[|steps| - 1])
    requires var s := Execute(Start(), steps[..|steps| - 1]).value; Inv(s) && FatesRead(s, steps[..|steps| - 1])
    ensures FatesRead(Execute(Start(), steps).value, steps)
  {
    var front, step := steps[..|steps| - 1], steps[|steps| - 1];
    var s := Execute(Start(), front).value;
    var b := s.batches[step.l];
    assert Holds(s, PermitPart);
    BatchStepReads(b, step, s.permits < MAX_WORKERS, Waiters(s.queue, b.pull), step.l in TurnedAway(front));
    WorkedOnly(s, step);
  }

  /** A step on a pull changes that batch and no place. */
  lemma WorkedOnly(s: Sys, step: Step)
    requires Enabled(s, step) && OnBatch(step)
    ensures Apply(s, step).batches == s.batches[step.l := Worked(s, step)] && Apply(s, step).place == s.place
  {
  }

  lemma {:induction false} FatesAreRead(steps: seq<Step>)
    requires Execute(Start(), steps).Some?
    ensures FatesRead(Execute(Start(), steps).value, steps)
    decreases |steps|
  {
    if steps == [] {
    } else {
      var front, last := steps[..|steps| - 1], steps[|steps| - 1];
      FatesAreRead(front);
      RunKeepsInv(front);
      if last.Submit? {
        SubmitReads(steps);
      } else if OnBatch(last) {
        WorkReads(steps);
      } else {
        OthersRead(Execute(Start(), front).value, last);
      }
    }
  }

  lemma OthersRead(s: Sys, step: Step)
    requires Enabled(s, step) && !step.Submit? && !OnBatch(step)
    ensures var s' := Apply(s, step);
            && s'.batches == s.batches && s'.place.Keys == s.place.Keys
            && forall w :: w in s.place ==> (s'.place[w].Direct? <==> s.place[w].Direct?)
  {
  }

  /** What is out has left the deciding stage of its pull. */
  lemma OutIsDecided(s: Sys, w: Work)
    requires Inv(s) && w in s.at
    ensures w in s.place
    ensures !s.place[w].Direct? ==>
              LeaderOf(s.place, w) in s.batches && !s.batches[LeaderOf(s.place, w)].stage.Deciding?
  {
    assert Holds(s, OutPart);
    assert Holds(s, PlacePart);
    assert Emitted(s.place, s.batches, w);
  }

  /** In every run, an emitted event is a placeholder exactly when 64 followers were queued on its pull when it was
      submitted, or all eight slots were busy when the leader of its pull tried; otherwise it was resolved. */
  lemma PlaceholderIff(steps: seq<Step>, k: nat)
    requires Execute(Start(), steps).Some? && k < |Execute(Start(), steps).value.emitted|
    ensures var s := Execute(Start(), steps).value;
            var e := s.emitted[k];
            && e.work in s.place
            && (e.how == Placeholder <==>
                e.work in Overflowed(steps) || LeaderOf(s.place, e.work) in TurnedAway(steps))
  {
    RunKeepsInv(steps);
    FatesAreRead(steps);
    var s := Execute(Start(), steps).value;
    assert Holds(s, IndexPart);
    assert Holds(s, HowPart);
    OutIsDecided(s, s.emitted[k].work);
    HandledIff(s, steps, s.emitted[k].work);
  }

  lemma HandledIff(s: Sys, steps: seq<Step>, w: Work)
    requires FatesRead(s, steps) && w in s.place && Holds(s, PlacePart)
    requires !s.place[w].Direct? ==>
               LeaderOf(s.place, w) in s.batches && !s.batches[LeaderOf(s.place, w)].stage.Deciding?
    ensures Handled(s.place, s.batches, w) <==> w !in Overflowed(steps) && LeaderOf(s.place, w) !in TurnedAway(steps)
  {
  }
}
