/** The storage readiness probe: a single-flight cache with a time to live. Any number of callers, any
    interleaving of their steps, cancellations at any moment, and a clock that does not go back. A channel is
    named by its number; `closes` lists the close operations in the order they happen. */
module ReadinessProbe {
  import opened Basics

  /** A probe's result, together with the channel of the leadership that ran it. */
  datatype Outcome = Outcome(channel: nat, ok: bool)

  datatype Cache = Cache(
    hasCache: bool, cached: Outcome, expires: int, inFlight: Option<nat>, next: nat, closes: seq<nat>)

  datatype Lookup = Hit(outcome: Outcome) | Follow(channel: nat) | Lead(channel: nat)

  const EMPTY := Cache(false, Outcome(0, false), 0, None, 0, [])

  // ---------------------------------------------------------------------------------------------
  // The critical sections of Check

  predicate Live(p: Cache, now: int) {
    p.hasCache && now < p.expires
  }

  function LookupOf(p: Cache, now: int): Lookup {
    if Live(p, now) then Hit(p.cached)
    else if p.inFlight.Some? then Follow(p.inFlight.value)
    else Lead(p.next)
  }

  function LookedUp(p: Cache, now: int): Cache {
    if LookupOf(p, now).Lead? then p.(inFlight := Some(p.next), next := p.next + 1) else p
  }

  function Closed(p: Cache, channel: nat): Cache {
    p.(inFlight := None, closes := p.closes + [channel])
  }

  function Stored(p: Cache, o: Outcome, now: int, ttl: int): Cache {
    Closed(p, o.channel).(hasCache := true, cached := o, expires := now + ttl)
  }

  class CachedProbe {
    var hasCache: bool
    var cached: Outcome
    var expires: int
    var inFlight: Option<nat>
    var next: nat
    var closes: seq<nat>

    function View(): Cache
      reads this
    {
      Cache(hasCache, cached, expires, inFlight, next, closes)
    }

    constructor ()
      ensures View() == EMPTY
    {
      hasCache, cached, expires, inFlight, next, closes := false, Outcome(0, false), 0, None, 0, [];
    }

    /** The section that finds a cached outcome, a probe in flight, or makes the caller the leader. */
    method Lookup(now: int) returns (r: Lookup)
      modifies this
      ensures r == LookupOf(old(View()), now) && View() == LookedUp(old(View()), now)
    {
      if hasCache && now < expires {
        return Hit(cached);
      }
      if inFlight.Some? {
        return Follow(inFlight.value);
      }
      var done := next;
      next := next + 1;
      inFlight := Some(done);
      r := Lead(done);
    }

    /** The leader's context was cancelled before the probe. */
    method Abort(done: nat)
      modifies this
      ensures View() == Closed(old(View()), done)
    {
      inFlight := None;
      closes := closes + [done];
    }

    /** The probe has run. */
    method Store(done: nat, ok: bool, now: int, ttl: int)
      modifies this
      ensures View() == Stored(old(View()), Outcome(done, ok), now, ttl)
    {
      cached := Outcome(done, ok);
      hasCache := true;
      expires := now + ttl;
      inFlight := None;
      closes := closes + [done];
    }
  }

  // ---------------------------------------------------------------------------------------------
  // Runs

  datatype Result = Own(outcome: Outcome) | Cached(outcome: Outcome, at: int) | Cancelled

  datatype Phase =
    | Fresh                                 // about to check its context
    | Checked                               // about to take the lock
    | Waiting(channel: nat)
    | Leading(channel: nat)                 // owns the flight, has not started the probe
    | Probing(channel: nat)                 // inside check
    | Probed(channel: nat, ok: bool)        // check returned, not yet stored
    | Finished(outcome: Outcome)            // stored, about to look at its context once more
    | Returned(result: Result)

  datatype Caller = Caller(phase: Phase, retries: nat)

  /** A stored probe: when, with what result, and which caller ran it. */
  datatype Record = Record(at: int, ok: bool, runner: nat)

  /** Counters for the statement: leaderships given up, probes stored, and leaderships claimed over an expired
      outcome. */
  datatype Tally = Tally(aborts: nat, stores: nat, expired: nat)

  datatype Sys = Sys(
    ttl: int, now: int, cache: Cache, callers: map<nat, Caller>, cancelled: set<nat>,
    stored: map<nat, Record>, tally: Tally)

  datatype Step =
    | Arrive(caller: nat)
    | Cancel(caller: nat)
    | Tick(time: int)
    | CheckContext(caller: nat)
    | Lock(caller: nat)
    | Abort(caller: nat)
    | Launch(caller: nat)
    | ProbeEnds(caller: nat, ok: bool)
    | Store(caller: nat)
    | Return(caller: nat)
    | Wake(caller: nat)
    | Leave(caller: nat)

  function Start(ttl: int, now: int): Sys {
    Sys(ttl, now, EMPTY, map[], {}, map[], Tally(0, 0, 0))
  }

  function At(s: Sys, c: nat): Caller {
    if c in s.callers then s.callers[c] else Caller(Fresh, 0)
  }

  predicate Enabled(s: Sys, step: Step) {
    match step
    case Arrive(c) => c !in s.callers
    case Cancel(c) => c in s.callers
    case Tick(time) => s.now <= time
    case CheckContext(c) => c in s.callers && At(s, c).phase.Fresh?
    case Lock(c) => At(s, c).phase.Checked?
    case Abort(c) => At(s, c).phase.Leading? && c in s.cancelled
    case Launch(c) => At(s, c).phase.Leading? && c !in s.cancelled
    case ProbeEnds(c, _) => At(s, c).phase.Probing?
    case Store(c) => At(s, c).phase.Probed?
    case Return(c) => At(s, c).phase.Finished?
    case Wake(c) => At(s, c).phase.Waiting? && At(s, c).phase.channel in s.cache.closes
    case Leave(c) => At(s, c).phase.Waiting? && c in s.cancelled
  }

  function Moved(s: Sys, c: nat, phase: Phase): Sys {
    s.(callers := s.callers[c := At(s, c).(phase := phase)])
  }

  function Answer(l: Lookup, now: int): Phase {
    match l
    case Hit(o) => Returned(Cached(o, now))
    case Follow(ch) => Waiting(ch)
    case Lead(ch) => Leading(ch)
  }

  function Apply(s: Sys, step: Step): Sys
    requires Enabled(s, step)
  {
    match step
    case Arrive(c) => s.(callers := s.callers[c := Caller(Fresh, 0)])
    case Cancel(c) => s.(cancelled := s.cancelled + {c})
    case Tick(time) => s.(now := time)
    case CheckContext(c) => Moved(s, c, if c in s.cancelled then Returned(Cancelled) else Checked)
    case Lock(c) =>
      var l := LookupOf(s.cache, s.now);
      Moved(s, c, Answer(l, s.now)).(
        cache := LookedUp(s.cache, s.now),
        tally := if l.Lead? && s.cache.hasCache then s.tally.(expired := s.tally.expired + 1) else s.tally)
    case Abort(c) =>
      Moved(s, c, Returned(Cancelled)).(
        cache := Closed(s.cache, At(s, c).phase.channel),
        tally := s.tally.(aborts := s.tally.aborts + 1))
    case Launch(c) => Moved(s, c, Probing(At(s, c).phase.channel))
    case ProbeEnds(c, ok) => Moved(s, c, Probed(At(s, c).phase.channel, ok))
    case Store(c) =>
      var ch, ok := At(s, c).phase.channel, At(s, c).phase.ok;
      Moved(s, c, Finished(Outcome(ch, ok))).(
        cache := Stored(s.cache, Outcome(ch, ok), s.now, s.ttl),
        stored := s.stored[ch := Record(s.now, ok, c)],
        tally := s.tally.(stores := s.tally.stores + 1))
    case Return(c) =>
      Moved(s, c, Returned(if c in s.cancelled then Cancelled else Own(At(s, c).phase.outcome)))
    case Wake(c) => s.(callers := s.callers[c := Caller(Fresh, At(s, c).retries + 1)])
    case Leave(c) => Moved(s, c, Returned(Cancelled))
  }

  function Execute(s: Sys, steps: seq<Step>): Option<Sys> {
    if steps == [] then Some(s)
    else
      var before := Execute(s, steps[..|steps| - 1]);
      var last := steps[|steps| - 1];
      if before.None? || !Enabled(before.value, last) then None else Some(Apply(before.value, last))
  }

  // ---------------------------------------------------------------------------------------------
  // The invariant

  /** The caller owns the flight on `ch`. */
  predicate Leads(s: Sys, c: nat, ch: nat) {
    match At(s, c).phase
    case Leading(x) => x == ch
    case Probing(x) => x == ch
    case Probed(x, _) => x == ch
    case _ => false
  }

  predicate IsLeader(s: Sys, c: nat) {
    At(s, c).phase.Leading? || At(s, c).phase.Probing? || At(s, c).phase.Probed?
  }

  /** The flight and its leader are one to one. */
  ghost predicate OneLeader(s: Sys) {
    && (forall c :: IsLeader(s, c) ==> s.cache.inFlight.Some? && Leads(s, c, s.cache.inFlight.value))
    && (forall c, d :: IsLeader(s, c) && IsLeader(s, d) ==> c == d)
    && (s.cache.inFlight.Some? ==> exists c :: IsLeader(s, c))
  }

  /** Every channel made is in flight or has been closed, and none has been closed twice. */
  ghost predicate ClosedOnce(p: Cache, t: Tally) {
    && Distinct(p.closes)
    && (forall i :: 0 <= i < |p.closes| ==> p.closes[i] < p.next)
    && (forall ch: nat :: ch < p.next ==> (ch in p.closes <==> p.inFlight != Some(ch)))
    && (p.inFlight.Some? ==> p.inFlight.value < p.next)
    && |p.closes| == t.aborts + t.stores
  }

  predicate RecordOf(s: Sys, o: Outcome) {
    o.channel in s.stored && s.stored[o.channel].ok == o.ok
  }

  ghost predicate CacheIsRecord(s: Sys) {
    && (s.cache.hasCache ==>
          RecordOf(s, s.cache.cached) && s.cache.expires == s.stored[s.cache.cached.channel].at + s.ttl)
    && forall ch :: ch in s.stored ==> ch in s.cache.closes && s.stored[ch].at <= s.now
  }

  /** What a caller may hold or have returned. */
  predicate ResultOf(s: Sys, c: nat) {
    match At(s, c).phase
    case Waiting(ch) => ch < s.cache.next
    case Finished(o) => RecordOf(s, o) && s.stored[o.channel].runner == c
    case Returned(Own(o)) => RecordOf(s, o) && s.stored[o.channel].runner == c
    case Returned(Cached(o, at)) =>
      RecordOf(s, o) && s.stored[o.channel].at <= at < s.stored[o.channel].at + s.ttl && at <= s.now
    case Returned(Cancelled) => c in s.cancelled
    case _ => true
  }

  /** Every retry, done or due, was paid for by a close. */
  predicate RetriesPaid(s: Sys, c: nat) {
    var caller := At(s, c);
    var due := if caller.phase.Waiting? && caller.phase.channel in s.cache.closes then 1 else 0;
    caller.retries + due <= |s.cache.closes|
  }

  /** Every probe but the first was claimed over an expired outcome. */
  predicate StoresPaid(p: Cache, t: Tally) {
    if p.hasCache then t.stores + (if p.inFlight.Some? then 1 else 0) <= 1 + t.expired else t.stores == 0
  }

  datatype Part = LeaderPart | ClosePart | CachePart | ResultPart | RetryPart | StorePart

  ghost predicate Holds(s: Sys, part: Part) {
    match part
    case LeaderPart => OneLeader(s)
    case ClosePart => ClosedOnce(s.cache, s.tally)
    case CachePart => CacheIsRecord(s)
    case ResultPart => forall c :: ResultOf(s, c)
    case RetryPart => forall c :: RetriesPaid(s, c)
    case StorePart => StoresPaid(s.cache, s.tally)
  }

  ghost predicate Inv(s: Sys) {
    forall part: Part :: Holds(s, part)
  }

  lemma StepKeepsLeader(s: Sys, step: Step)
    requires Inv(s) && Enabled(s, step)
    ensures Holds(Apply(s, step), LeaderPart)
  {
    assert Holds(s, LeaderPart);
    var s' := Apply(s, step);
    forall c ensures IsLeader(s', c) ==> IsLeader(s, c) || (step == Lock(c) && LookupOf(s.cache, s.now).Lead?) {
    }
    if step.Abort? || step.Store? {
      assert IsLeader(s, step.caller);
    }
    if s'.cache.inFlight.Some? {
      if step.Lock? && LookupOf(s.cache, s.now).Lead? {
        assert IsLeader(s', step.caller);
      } else {
        var c :| IsLeader(s, c);
        assert IsLeader(s', c);
      }
    }
  }

  lemma CloseKeepsOnce(p: Cache, t: Tally, t': Tally, ch: nat)
    requires ClosedOnce(p, t) && p.inFlight == Some(ch) && t'.aborts + t'.stores == t.aborts + t.stores + 1
    ensures ClosedOnce(Closed(p, ch), t')
  {
    AppendKeepsDistinct(p.closes, ch);
  }

  lemma StepKeepsClosed(s: Sys, step: Step)
    requires Inv(s) && Enabled(s, step)
    ensures Holds(Apply(s, step), ClosePart)
  {
    assert Holds(s, ClosePart);
    if step.Abort? || step.Store? {
      assert Holds(s, LeaderPart);
      assert IsLeader(s, step.caller);
      CloseKeepsOnce(s.cache, s.tally, Apply(s, step).tally, At(s, step.caller).phase.channel);
    }
  }

  lemma StepKeepsCache(s: Sys, step: Step)
    requires Inv(s) && Enabled(s, step)
    ensures Holds(Apply(s, step), CachePart)
  {
    assert Holds(s, CachePart);
    if step.Store? {
      var p := s.cache;
      var ch := At(s, step.caller).phase.channel;
      assert ch in (p.closes + [ch]);
    }
  }

  /** A record is never overwritten: its channel is closed already. */
  lemma RecordStays(s: Sys, step: Step, o: Outcome)
    requires Inv(s) && Enabled(s, step) && RecordOf(s, o)
    ensures RecordOf(Apply(s, step), o) && Apply(s, step).stored[o.channel] == s.stored[o.channel]
  {
    assert Holds(s, CachePart);
    if step.Store? {
      assert Holds(s, LeaderPart) && Holds(s, ClosePart);
      assert IsLeader(s, step.caller);
    }
  }

  /** What the step's own caller comes to hold. */
  lemma MoverKeepsResult(s: Sys, step: Step)
    requires Inv(s) && Enabled(s, step) && !step.Tick?
    ensures ResultOf(Apply(s, step), step.caller)
  {
    assert Holds(s, ResultPart) && Holds(s, CachePart);
    assert ResultOf(s, step.caller);
    if step.Lock? {
      assert Holds(s, ClosePart);
    } else if step.Cancel? || step.Return? {
      ResultStays(s, step, step.caller);
    }
  }

  /** A result, once held, stays what it is. */
  lemma ResultStays(s: Sys, step: Step, c: nat)
    requires Inv(s) && Enabled(s, step)
    ensures At(Apply(s, step), c) == At(s, c) ==> ResultOf(Apply(s, step), c)
  {
    assert Holds(s, ResultPart);
    assert ResultOf(s, c);
    match At(s, c).phase {
      case Finished(o) => RecordStays(s, step, o);
      case Returned(Own(o)) => RecordStays(s, step, o);
      case Returned(Cached(o, _)) => RecordStays(s, step, o);
      case _ =>
    }
  }

  lemma StepKeepsResult(s: Sys, step: Step, c: nat)
    requires Inv(s) && Enabled(s, step)
    ensures ResultOf(Apply(s, step), c)
  {
    if !step.Tick? && step.caller == c {
      MoverKeepsResult(s, step);
    } else {
      ResultStays(s, step, c);
    }
  }

  lemma StepKeepsRetries(s: Sys, step: Step, c: nat)
    requires Inv(s) && Enabled(s, step)
    ensures RetriesPaid(Apply(s, step), c)
  {
    assert Holds(s, RetryPart) && Holds(s, ClosePart);
    assert RetriesPaid(s, c);
  }

  lemma StepKeepsStores(s: Sys, step: Step)
    requires Inv(s) && Enabled(s, step)
    ensures Holds(Apply(s, step), StorePart)
  {
    assert Holds(s, StorePart) && Holds(s, LeaderPart);
    if step.Abort? || step.Store? {
      assert IsLeader(s, step.caller);
    }
  }

  lemma StepKeepsInv(s: Sys, step: Step)
    requires Inv(s) && Enabled(s, step)
    ensures Inv(Apply(s, step))
  {
    var s' := Apply(s, step);
    forall part: Part ensures Holds(s', part) {
      match part
      case LeaderPart => StepKeepsLeader(s, step);
      case ClosePart => StepKeepsClosed(s, step);
      case CachePart => StepKeepsCache(s, step);
      case ResultPart =>
        forall c: nat ensures ResultOf(s', c) {
          StepKeepsResult(s, step, c);
        }
      case RetryPart =>
        forall c: nat ensures RetriesPaid(s', c) {
          StepKeepsRetries(s, step, c);
        }
      case StorePart => StepKeepsStores(s, step);
    }
  }

  lemma {:induction false} RunKeepsInv(ttl: int, now: int, steps: seq<Step>)
    requires Execute(Start(ttl, now), steps).Some?
    ensures Inv(Execute(Start(ttl, now), steps).value)
  {
    if steps == [] {
      var s := Start(ttl, now);
      forall part: Part ensures Holds(s, part) {
        match part
        case LeaderPart =>
        case ClosePart =>
        case CachePart =>
        case ResultPart =>
        case RetryPart =>
        case StorePart =>
      }
    } else {
      var front := steps[..|steps| - 1];
      RunKeepsInv(ttl, now, front);
      StepKeepsInv(Execute(Start(ttl, now), front).value, steps[|steps| - 1]);
    }
  }

  // ---------------------------------------------------------------------------------------------
  // Main results

  /** Probes never overlap. */
  lemma ProbesNeverOverlap(ttl: int, now: int, steps: seq<Step>, c: nat, d: nat)
    requires Execute(Start(ttl, now), steps).Some?
    requires var s := Execute(Start(ttl, now), steps).value; At(s, c).phase.Probing? && At(s, d).phase.Probing?
    ensures c == d
  {
    RunKeepsInv(ttl, now, steps);
    var s := Execute(Start(ttl, now), steps).value;
    assert Holds(s, LeaderPart);
    assert IsLeader(s, c) && IsLeader(s, d);
  }

  /** Each channel is closed exactly once unless it is still in flight, and then somebody is there to close it:
      no follower waits on a channel nobody will close. */
  lemma ChannelsCloseExactlyOnce(ttl: int, now: int, steps: seq<Step>, ch: nat)
    requires Execute(Start(ttl, now), steps).Some? && ch < Execute(Start(ttl, now), steps).value.cache.next
    ensures var s := Execute(Start(ttl, now), steps).value;
            if s.cache.inFlight == Some(ch) then ch !in s.cache.closes && exists c :: Leads(s, c, ch)
            else multiset(s.cache.closes)[ch] == 1
  {
    RunKeepsInv(ttl, now, steps);
    var s := Execute(Start(ttl, now), steps).value;
    assert Holds(s, LeaderPart) && Holds(s, ClosePart);
    DistinctCounts(s.cache.closes, ch);
    if s.cache.inFlight == Some(ch) {
      var c :| IsLeader(s, c);
      assert Leads(s, c, ch);
    }
  }

  /** What a caller is told: the outcome of the probe it ran itself, or one stored less than the time to live
      before it looked, or that its own context was cancelled. */
  lemma ResultsAreOwnFreshOrCancelled(ttl: int, now: int, steps: seq<Step>, c: nat)
    requires Execute(Start(ttl, now), steps).Some? && At(Execute(Start(ttl, now), steps).value, c).phase.Returned?
    ensures var s := Execute(Start(ttl, now), steps).value;
            match At(s, c).phase.result
            case Own(o) => o.channel in s.stored && s.stored[o.channel].ok == o.ok && s.stored[o.channel].runner == c
            case Cached(o, at) =>
              o.channel in s.stored && s.stored[o.channel].ok == o.ok && 0 <= at - s.stored[o.channel].at < ttl
            case Cancelled => c in s.cancelled
  {
    RunKeepsInv(ttl, now, steps);
    TtlIsConstant(ttl, now, steps);
    var s := Execute(Start(ttl, now), steps).value;
    assert Holds(s, ResultPart);
    assert ResultOf(s, c);
  }

  lemma {:induction false} TtlIsConstant(ttl: int, now: int, steps: seq<Step>)
    requires Execute(Start(ttl, now), steps).Some?
    ensures Execute(Start(ttl, now), steps).value.ttl == ttl
  {
    if steps == [] {
    } else {
      TtlIsConstant(ttl, now, steps[..|steps| - 1]);
    }
  }

  /** How often a caller was woken and went round again. */
  function WakesIn(steps: seq<Step>, c: nat): nat {
    if steps == [] then 0 else WakesIn(steps[..|steps| - 1], c) + if steps[|steps| - 1] == Wake(c) then 1 else 0
  }

  /** How many leaderships the steps of a run give up: each is the abort of one cancelled caller. */
  function AbortsIn(steps: seq<Step>): nat {
    if steps == [] then 0 else AbortsIn(steps[..|steps| - 1]) + if steps[|steps| - 1].Abort? then 1 else 0
  }

  /** How many lookups of a run find a stored outcome expired and nobody leading. */
  function ExpiredIn(s0: Sys, steps: seq<Step>): nat {
    if steps == [] then 0
    else
      var front := steps[..|steps| - 1];
      var before := Execute(s0, front);
      ExpiredIn(s0, front) + if before.Some? && steps[|steps| - 1].Lock? && FindsExpired(before.value) then 1 else 0
  }

  predicate FindsExpired(s: Sys) {
    s.cache.hasCache && s.cache.expires <= s.now && s.cache.inFlight.None?
  }

  /** The counters of the model are what the steps say. */
  lemma {:induction false} TalliesAreRead(ttl: int, now: int, steps: seq<Step>, c: nat)
    requires Execute(Start(ttl, now), steps).Some?
    ensures var s := Execute(Start(ttl, now), steps).value;
            && s.tally.aborts == AbortsIn(steps) && s.tally.expired == ExpiredIn(Start(ttl, now), steps)
            && At(s, c).retries == WakesIn(steps, c)
  {
    if steps == [] {
    } else {
      var front, last := steps[..|steps| - 1], steps[|steps| - 1];
      TalliesAreRead(ttl, now, front, c);
      StepTallies(Execute(Start(ttl, now), front).value, last, c);
    }
  }

  /** What a step adds to each counter. */
  lemma StepTallies(s: Sys, step: Step, c: nat)
    requires Enabled(s, step)
    ensures var s' := Apply(s, step);
            && s'.tally.aborts == s.tally.aborts + (if step.Abort? then 1 else 0)
            && s'.tally.expired == s.tally.expired + (if step.Lock? && FindsExpired(s) then 1 else 0)
            && At(s', c).retries == At(s, c).retries + (if step == Wake(c) then 1 else 0)
  {
  }

  /** A caller goes round again at most once for every leadership that was given up, once more, and once for
      every leadership claimed over an expired outcome. */
  lemma RetriesAreBounded(ttl: int, now: int, steps: seq<Step>, c: nat)
    requires Execute(Start(ttl, now), steps).Some?
    ensures WakesIn(steps, c) <= AbortsIn(steps) + 1 + ExpiredIn(Start(ttl, now), steps)
  {
    RunKeepsInv(ttl, now, steps);
    TalliesAreRead(ttl, now, steps, c);
    var s := Execute(Start(ttl, now), steps).value;
    assert Holds(s, RetryPart) && Holds(s, ClosePart) && Holds(s, StorePart);
    assert RetriesPaid(s, c);
  }

  /** In every state the run passes through, the clock has not reached the expiry of the stored outcome. */
  ghost predicate BeforeExpiry(s: Sys, steps: seq<Step>) {
    forall n :: 0 <= n <= |steps| && Execute(s, steps[..n]).Some? ==>
      var t := Execute(s, steps[..n]).value; t.cache.hasCache ==> t.now < t.cache.expires
  }

  lemma {:induction false} NothingClaimedOverExpired(ttl: int, now: int, steps: seq<Step>)
    requires Execute(Start(ttl, now), steps).Some? && BeforeExpiry(Start(ttl, now), steps)
    ensures ExpiredIn(Start(ttl, now), steps) == 0
  {
    var start := Start(ttl, now);
    if steps == [] {
    } else {
      var front := steps[..|steps| - 1];
      BeforeExpiryFront(start, steps);
      NothingClaimedOverExpired(ttl, now, front);
      var s := Execute(start, front).value;
      assert steps[..|steps| - 1] == front;
      assert s.cache.hasCache ==> s.now < s.cache.expires;
    }
  }

  lemma BeforeExpiryFront(s: Sys, steps: seq<Step>)
    requires steps != [] && BeforeExpiry(s, steps)
    ensures BeforeExpiry(s, steps[..|steps| - 1])
  {
    var front := steps[..|steps| - 1];
    forall n | 0 <= n <= |front| && Execute(s, front[..n]).Some?
      ensures var t := Execute(s, front[..n]).value; t.cache.hasCache ==> t.now < t.cache.expires
    {
      assert front[..n] == steps[..n];
    }
  }

  /** While the clock stays before expiry, a caller goes round again at most once for every leadership that was
      given up, and once more. */
  lemma RetriesBeforeExpiry(ttl: int, now: int, steps: seq<Step>, c: nat)
    requires Execute(Start(ttl, now), steps).Some? && BeforeExpiry(Start(ttl, now), steps)
    ensures WakesIn(steps, c) <= AbortsIn(steps) + 1
  {
    RetriesAreBounded(ttl, now, steps, c);
    NothingClaimedOverExpired(ttl, now, steps);
  }

  // ---------------------------------------------------------------------------------------------
  // What the probe itself reported, read off the steps

  /** Step `i` is the end of the probe that `c` ran on the channel, and it reported this outcome. */
  predicate ReportedAt(s0: Sys, steps: seq<Step>, i: nat, c: nat, o: Outcome)
    requires i < |steps|
  {
    && steps[i] == ProbeEnds(c, o.ok)
    && Execute(s0, steps[..i]).Some? && At(Execute(s0, steps[..i]).value, c).phase == Probing(o.channel)
  }

  predicate Reported(s0: Sys, steps: seq<Step>, c: nat, o: Outcome) {
    exists i :: 0 <= i < |steps| && ReportedAt(s0, steps, i, c, o)
  }

  datatype StoreEvent = StoreEvent(runner: nat, channel: nat, at: int)

  /** The latest store of the run: who, on which channel, and when. */
  function LatestStore(s0: Sys, steps: seq<Step>): Option<StoreEvent> {
    if steps == [] then None
    else
      var front, last := steps[..|steps| - 1], steps[|steps| - 1];
      var before := Execute(s0, front);
      if last.Store? && before.Some? && At(before.value, last.caller).phase.Probed?
      then Some(StoreEvent(last.caller, At(before.value, last.caller).phase.channel, before.value.now))
      else LatestStore(s0, front)
  }

  /** Step `k` is a lookup by `c` at time `at`, less than the time to live after the latest store before it, and that
      store's probe reported the outcome. */
  predicate ServedAt(s0: Sys, steps: seq<Step>, k: nat, c: nat, o: Outcome, at: int)
    requires k < |steps|
  {
    var front := steps[..k];
    && steps[k] == Lock(c) && Execute(s0, front).Some? && Execute(s0, front).value.now == at
    && var e := LatestStore(s0, front);
       && e.Some? && e.value.channel == o.channel && 0 <= at - e.value.at < s0.ttl
       && Reported(s0, front, e.value.runner, o)
  }

  predicate Served(s0: Sys, steps: seq<Step>, c: nat, o: Outcome, at: int) {
    exists k :: 0 <= k < |steps| && ServedAt(s0, steps, k, c, o, at)
  }

  lemma ReportedGrows(s0: Sys, steps: seq<Step>, c: nat, o: Outcome)
    requires steps != [] && Reported(s0, steps[..|steps| - 1], c, o)
    ensures Reported(s0, steps, c, o)
  {
    var front := steps[..|steps| - 1];
    var i :| 0 <= i < |front| && ReportedAt(s0, front, i, c, o);
    assert steps[..i] == front[..i];
    assert ReportedAt(s0, steps, i, c, o);
  }

  lemma ServedGrows(s0: Sys, steps: seq<Step>, c: nat, o: Outcome, at: int)
    requires steps != [] && Served(s0, steps[..|steps| - 1], c, o, at)
    ensures Served(s0, steps, c, o, at)
  {
    var front := steps[..|steps| - 1];
    var k :| 0 <= k < |front| && ServedAt(s0, front, k, c, o, at);
    assert steps[..k] == front[..k];
    assert ServedAt(s0, steps, k, c, o, at);
  }

  /** What a caller holds or was told is what a probe reported. */
  predicate Truthful(s0: Sys, steps: seq<Step>, s: Sys, c: nat) {
    match At(s, c).phase
    case Probed(ch, ok) => Reported(s0, steps, c, Outcome(ch, ok))
    case Finished(o) => Reported(s0, steps, c, o)
    case Returned(Own(o)) => Reported(s0, steps, c, o)
    case Returned(Cached(o, at)) => Served(s0, steps, c, o, at)
    case _ => true
  }

  ghost predicate AllTruthful(s0: Sys, steps: seq<Step>, s: Sys) {
    forall c :: Truthful(s0, steps, s, c)
  }

  predicate CacheTruthful(s0: Sys, steps: seq<Step>, s: Sys) {
    var e := LatestStore(s0, steps);
    && s.ttl == s0.ttl && (s.cache.hasCache <==> e.Some?)
    && (e.Some? ==>
          && e.value.channel == s.cache.cached.channel
          && e.value.at <= s.now && s.cache.expires == e.value.at + s0.ttl
          && Reported(s0, steps, e.value.runner, s.cache.cached))
  }

  lemma StepKeepsCacheTruthful(s0: Sys, steps: seq<Step>)
    requires steps != [] && Execute(s0, steps).Some?
    requires var s := Execute(s0, steps[..|steps| - 1]).value;
             CacheTruthful(s0, steps[..|steps| - 1], s) && AllTruthful(s0, steps[..|steps| - 1], s)
    ensures CacheTruthful(s0, steps, Execute(s0, steps).value)
  {
    var front, last := steps[..|steps| - 1], steps[|steps| - 1];
    var s := Execute(s0, front).value;
    if last.Store? {
      assert Truthful(s0, front, s, last.caller);
      ReportedGrows(s0, steps, last.caller, Outcome(At(s, last.caller).phase.channel, At(s, last.caller).phase.ok));
    } else if LatestStore(s0, front).Some? {
      ReportedGrows(s0, steps, LatestStore(s0, front).value.runner, s.cache.cached);
    }
  }

  /** What a caller already holds stays true. */
  lemma TruthStays(s0: Sys, steps: seq<Step>, s: Sys, c: nat)
    requires steps != [] && Truthful(s0, steps[..|steps| - 1], s, c)
    ensures Truthful(s0, steps, s, c)
  {
    match At(s, c).phase {
      case Probed(ch, ok) => ReportedGrows(s0, steps, c, Outcome(ch, ok));
      case Finished(o) => ReportedGrows(s0, steps, c, o);
      case Returned(Own(o)) => ReportedGrows(s0, steps, c, o);
      case Returned(Cached(o, at)) => ServedGrows(s0, steps, c, o, at);
      case _ =>
    }
  }

  lemma StepKeepsTruthful(s0: Sys, steps: seq<Step>, c: nat)
    requires steps != [] && Execute(s0, steps).Some?
    requires var s := Execute(s0, steps[..|steps| - 1]).value;
             CacheTruthful(s0, steps[..|steps| - 1], s) && Truthful(s0, steps[..|steps| - 1], s, c)
    ensures Truthful(s0, steps, Execute(s0, steps).value, c)
  {
    var front, last := steps[..|steps| - 1], steps[|steps| - 1];
    var s := Execute(s0, front).value;
    TruthStays(s0, steps, s, c);
    if last == Lock(c) {
      LookupIsTruthful(s0, steps);
    } else if last.ProbeEnds? && last.caller == c {
      assert ReportedAt(s0, steps, |front|, c, Outcome(At(s, c).phase.channel, last.ok));
    }
  }

  lemma LookupIsTruthful(s0: Sys, steps: seq<Step>)
    requires steps != [] && Execute(s0, steps).Some? && steps[|steps| - 1].Lock?
    requires CacheTruthful(s0, steps[..|steps| - 1], Execute(s0, steps[..|steps| - 1]).value)
    ensures Truthful(s0, steps, Execute(s0, steps).value, steps[|steps| - 1].caller)
  {
    var front, c := steps[..|steps| - 1], steps[|steps| - 1].caller;
    var s := Execute(s0, front).value;
    if Live(s.cache, s.now) {
      assert ServedAt(s0, steps, |front|, c, s.cache.cached, s.now);
    }
  }

  lemma {:induction false} RunIsTruthful(ttl: int, now: int, steps: seq<Step>)
    requires Execute(Start(ttl, now), steps).Some?
    ensures var s0, s := Start(ttl, now), Execute(Start(ttl, now), steps).value;
            CacheTruthful(s0, steps, s) && AllTruthful(s0, steps, s)
  {
    if steps == [] {
    } else {
      var s0 := Start(ttl, now);
      RunIsTruthful(ttl, now, steps[..|steps| - 1]);
      StepKeepsCacheTruthful(s0, steps);
      forall c: nat ensures Truthful(s0, steps, Execute(s0, steps).value, c) {
        StepKeepsTruthful(s0, steps, c);
      }
    }
  }

  predicate Justified(s0: Sys, steps: seq<Step>, s: Sys, c: nat, result: Result) {
    match result
    case Own(o) => Reported(s0, steps, c, o)
    case Cached(o, at) => Served(s0, steps, c, o, at)
    case Cancelled => c in s.cancelled
  }

  /** In every run, a caller told the outcome of its own probe is told what that probe reported. One served from the
      cache is told what the probe of the latest store before its lookup reported, less than the time to live ago. */
  lemma ResultsAreWhatProbesReported(ttl: int, now: int, steps: seq<Step>, c: nat)
    requires Execute(Start(ttl, now), steps).Some? && At(Execute(Start(ttl, now), steps).value, c).phase.Returned?
    ensures var s := Execute(Start(ttl, now), steps).value;
            Justified(Start(ttl, now), steps, s, c, At(s, c).phase.result)
  {
    RunIsTruthful(ttl, now, steps);
    ResultsAreOwnFreshOrCancelled(ttl, now, steps, c);
    assert Truthful(Start(ttl, now), steps, Execute(Start(ttl, now), steps).value, c);
  }

  ghost predicate SomebodyLeads(s: Sys) {
    exists d :: IsLeader(s, d)
  }

  /** In every run, a lookup is served exactly when the latest store is less than the time to live ago; otherwise it
      follows exactly when somebody leads, and leads when nobody does. */
  lemma LookupIsExact(ttl: int, now: int, steps: seq<Step>, c: nat)
    requires Execute(Start(ttl, now), steps).Some? && Enabled(Execute(Start(ttl, now), steps).value, Lock(c))
    ensures var s, e := Execute(Start(ttl, now), steps).value, LatestStore(Start(ttl, now), steps);
            var phase := At(Apply(s, Lock(c)), c).phase;
            if e.Some? && s.now < e.value.at + ttl then phase.Returned? && phase.result.Cached?
            else if SomebodyLeads(s) then phase.Waiting?
            else phase.Leading?
  {
    RunIsTruthful(ttl, now, steps);
    RunKeepsInv(ttl, now, steps);
    assert Holds(Execute(Start(ttl, now), steps).value, LeaderPart);
  }
}
