/** Publication of tab events to the single frontend (client/tabs.go): relays journal first and publish
    later, activations and closures publish a reset followed by a replay, and both share the publication
    lock. Every locked section and every publication is one step of a run. */
module TabPublication {
  import opened Basics
  import opened Tabs

  type EventId = nat

  /** A relay that saw its tab active when it journaled, and still has to publish. */
  datatype Relay = Relay(tab: TabId, gen: nat, e: TabEvent, cm: ManagerId)

  /** What the frontend receives. */
  datatype Pub = Reset(tab: Option<TabId>) | Show(e: TabEvent) | ReplayDone(tab: Option<TabId>)

  /** Who holds activationPublishMu, and how far it is. */
  datatype Publisher =
    | Free
    | Relaying(id: EventId)                 // before the revalidating section
    | Verified(id: EventId, ok: bool)       // after it
    | Batch(gen: nat, pos: nat, checked: bool)
    | Closing(tab: TabId, wasActive: bool)  // between the two sections of closeTab

  /** One activation: the tab, the journal it copied, how much of its script is out, and what its relays
      have published since. For the statements, `since` is how much of the tab's life had passed. */
  datatype Period = Period(
    gen: nat, tab: Option<TabId>, journal: seq<TabEvent>, since: nat, shown: nat, live: seq<TabEvent>)

  /** Where and when an event was journaled. */
  datatype Origin = Origin(tab: TabId, gen: nat)

  datatype Sys = Sys(
    app: Registry,
    publisher: Publisher,
    relays: map<EventId, Relay>,
    log: seq<Pub>,                        // everything the frontend received, in order
    // history
    periods: seq<Period>,
    origin: map<EventId, Origin>,
    dropped: set<EventId>,                // relays that found their period over
    lives: map<TabId, seq<Moment>>,
    drawn: set<TabId>)                    // identities drawn and not yet registered

  datatype Step =
    | DrawTab
    | OpenTab(id: TabId)
    | Journal(tab: TabId, e: TabEvent)
    | LockRelay(id: EventId)
    | Revalidate
    | Publish
    | Activate(target: Option<TabId>)
    | BatchCheck
    | BatchEmit
    | LockClose(tab: TabId)
    | CommitClose
    | RemoveFailed(tab: TabId)

  function Start(): Sys {
    Sys(NoTabs(), Free, map[], [], [], map[], {}, map[], {})
  }

  /** The reset, the journal in order, and the end marker. */
  function Script(p: Period): (s: seq<Pub>)
    ensures |s| == |p.journal| + 2
  {
    [Reset(p.tab)] + Shows(p.journal) + [ReplayDone(p.tab)]
  }

  function Shows(s: seq<TabEvent>): (r: seq<Pub>)
    ensures |r| == |s| && forall i :: 0 <= i < |s| ==> r[i] == Show(s[i])
  {
    seq(|s|, i requires 0 <= i < |s| => Show(s[i]))
  }

  predicate Whole(p: Period) {
    p.shown == |p.journal| + 2
  }

  function PeriodLog(p: Period): seq<Pub> {
    (if p.shown <= |p.journal| + 2 then Script(p)[..p.shown] else Script(p)) + Shows(p.live)
  }

  function FullLog(periods: seq<Period>): seq<Pub> {
    if periods == [] then [] else FullLog(periods[..|periods| - 1]) + PeriodLog(periods[|periods| - 1])
  }

  function Last(s: Sys): Period
    requires s.periods != []
  {
    s.periods[|s.periods| - 1]
  }

  function WithLast(s: Sys, p: Period): seq<Period>
    requires s.periods != []
  {
    s.periods[|s.periods| - 1 := p]
  }

  /** The revalidating section of relayTabEvent. */
  predicate StillActive(a: Registry, r: Relay) {
    a.active == Some(r.tab) && a.generation == r.gen && r.tab in a.tabs && a.tabs[r.tab].cm == r.cm
  }

  ghost predicate Enabled(s: Sys, step: Step) {
    match step
    case DrawTab => true
    case OpenTab(id) => id in s.drawn
    case Journal(t, e) => e.id !in s.origin
    case LockRelay(id) => s.publisher.Free? && id in s.relays
    case Revalidate => s.publisher.Relaying? && s.publisher.id in s.relays
    case Publish => s.publisher.Verified? && s.publisher.id in s.relays && s.periods != []
    case Activate(t) => s.publisher.Free?
    case BatchCheck => s.publisher.Batch? && !s.publisher.checked
    case BatchEmit =>
      s.publisher.Batch? && s.publisher.checked && s.periods != [] && s.publisher.pos < |Script(Last(s))|
    case LockClose(t) => s.publisher.Free?
    case CommitClose => s.publisher.Closing?
    case RemoveFailed(t) => s.app.active != Some(t)   // removeTab only hits a tab whose connect failed
  }

  function Lived(lives: map<TabId, seq<Moment>>, t: TabId, m: Moment): map<TabId, seq<Moment>> {
    lives[t := (if t in lives then lives[t] else []) + [m]]
  }

  function AgeOf(lives: map<TabId, seq<Moment>>, t: Option<TabId>): nat {
    if t.Some? && t.value in lives then |lives[t.value]| else 0
  }

  /** A committed activation and its new period; the caller goes on to publish the batch. */
  function Begin(s: Sys, app: Registry, t: Option<TabId>, journal: seq<TabEvent>): Sys {
    s.(app := app, publisher := Batch(app.generation, 0, false),
       periods := s.periods + [Period(app.generation, t, journal, AgeOf(s.lives, t), 0, [])],
       lives := if t.Some? then Lived(s.lives, t.value, Shown) else s.lives)
  }

  function JournalOf(a: Registry, t: Option<TabId>): seq<TabEvent> {
    if t.Some? && t.value in a.tabs then a.tabs[t.value].journal else []
  }

  ghost function Apply(s: Sys, step: Step): Sys
    requires Enabled(s, step)
  {
    match step
    case DrawTab => s.(app := WithDrawnId(s.app), drawn := s.drawn + {s.app.lastId + 1})
    case OpenTab(id) => s.(app := WithNewTab(s.app, id), lives := s.lives[id := []], drawn := s.drawn - {id})
    case Journal(t, e) =>
      if t !in s.app.tabs then s
      else
        s.(app := Relayed(s.app, t, e), origin := s.origin[e.id := Origin(t, s.app.generation)],
           relays := if s.app.active == Some(t)
                     then s.relays[e.id := Relay(t, s.app.generation, e, s.app.tabs[t].cm)] else s.relays,
           lives := Lived(s.lives, t, Got(e, s.app.active == Some(t))))
    case LockRelay(id) => s.(publisher := Relaying(id))
    case Revalidate =>
      s.(publisher := Verified(s.publisher.id, StillActive(s.app, s.relays[s.publisher.id])))
    case Publish =>
      var id, r := s.publisher.id, s.relays[s.publisher.id];
      if s.publisher.ok
      then s.(publisher := Free, relays := s.relays - {id}, log := s.log + [Show(r.e)],
              periods := WithLast(s, Last(s).(live := Last(s).live + [r.e])))
      else s.(publisher := Free, relays := s.relays - {id}, dropped := s.dropped + {id})
    case Activate(t) =>
      if CanActivate(s.app, t) then Begin(s, Activated(s.app, t), t, JournalOf(s.app, t)) else s
    case BatchCheck =>
      if s.app.generation == s.publisher.gen
      then s.(publisher := s.publisher.(checked := true))
      else s.(publisher := Free)
    case BatchEmit =>
      var p, pos := Last(s), s.publisher.pos;
      s.(log := s.log + [Script(p)[pos]], periods := WithLast(s, p.(shown := pos + 1)),
         publisher := if pos + 1 == |Script(p)| then Free else Batch(s.publisher.gen, pos + 1, false))
    case LockClose(t) =>
      if t in s.app.tabs then s.(publisher := Closing(t, s.app.active == Some(t))) else s
    case CommitClose =>
      var t, wasActive := s.publisher.tab, s.publisher.wasActive;
      if t !in s.app.tabs || (s.app.active == Some(t)) != wasActive then s.(publisher := Free)
      else if wasActive && CanActivate(Removed(s.app, t), Successor(s.app.order, t))
      then Begin(s, Closed(s.app, t), Successor(s.app.order, t), JournalOf(s.app, Successor(s.app.order, t)))
      else s.(app := Removed(s.app, t), publisher := Free)
    case RemoveFailed(t) => s.(app := Removed(s.app, t))
  }

  ghost function Execute(s: Sys, steps: seq<Step>): Option<Sys>
    decreases |steps|
  {
    if steps == [] then Some(s)
    else
      var before := Execute(s, steps[..|steps| - 1]);
      if before.Some? && Enabled(before.value, steps[|steps| - 1])
      then Some(Apply(before.value, steps[|steps| - 1]))
      else None
  }

  // ---------------------------------------------------------------------------------------------
  // What every step keeps

  ghost predicate RegistryPartOf(a: Registry) {
    RegistrySound(a) && BindingSound(a)
  }

  /** The n-th activation is the n-th period, and the last one is of the active tab. */
  ghost predicate PeriodsNumbered(app: Registry, periods: seq<Period>) {
    && |periods| == app.generation
    && (forall i :: 0 <= i < |periods| ==> periods[i].gen == i + 1)
    && app.active == (if periods == [] then None else periods[|periods| - 1].tab)
  }

  /** Only the batch that holds the lock may still be incomplete, and nothing is live before its end. */
  ghost predicate PeriodsWhole(app: Registry, publisher: Publisher, periods: seq<Period>) {
    && (forall i :: 0 <= i < |periods| - 1 ==> Whole(periods[i]))
    && (if publisher.Batch?
        then periods != [] && publisher.gen == app.generation && publisher.pos < |periods[|periods| - 1].journal| + 2 &&
             periods[|periods| - 1].shown == publisher.pos && periods[|periods| - 1].live == []
        else periods != [] ==> Whole(periods[|periods| - 1]))
  }

  /** A relay under the lock that was found active is still active. */
  ghost predicate HolderSound(app: Registry, publisher: Publisher, relays: map<EventId, Relay>) {
    && (publisher.Relaying? || publisher.Verified? ==> publisher.id in relays)
    && (publisher.Verified? ==> (publisher.ok <==> StillActive(app, relays[publisher.id])))
  }

  /** A pending relay knows when it journaled; while that activation lasts, its tab is the active one. */
  ghost predicate RelaysSound(app: Registry, relays: map<EventId, Relay>,
                              origin: map<EventId, Origin>, dropped: set<EventId>)
  {
    forall id :: id in relays ==>
      var r := relays[id];
      && r.e.id == id && id in origin && origin[id] == Origin(r.tab, r.gen) && id !in dropped && r.cm == r.tab
      && (r.gen == app.generation ==> app.active == Some(r.tab))
  }

  ghost predicate OriginsSound(app: Registry, origin: map<EventId, Origin>, dropped: set<EventId>) {
    && (forall id :: id in origin ==> origin[id].gen <= app.generation)
    && (forall id :: id in dropped ==> id in origin && origin[id].gen < app.generation)
  }

  /** The events belong to the tab, were journaled before `gen`, and are distinct. */
  ghost predicate EventsOf(s: seq<TabEvent>, t: TabId, gen: nat, origin: map<EventId, Origin>) {
    && (forall i :: 0 <= i < |s| ==> s[i].id in origin && origin[s[i].id].tab == t && origin[s[i].id].gen < gen)
    && (forall i, j :: 0 <= i < j < |s| ==> s[i].id != s[j].id)
  }

  ghost predicate JournalsSound(app: Registry, origin: map<EventId, Origin>) {
    forall t :: t in app.tabs ==> EventsOf(app.tabs[t].journal, t, app.generation + 1, origin)
  }

  /** A period replays events of its tab journaled before it, and publishes live events journaled in it. */
  ghost predicate PeriodSound(p: Period, relays: map<EventId, Relay>,
                              origin: map<EventId, Origin>, dropped: set<EventId>)
  {
    && (if p.tab.Some? then EventsOf(p.journal, p.tab.value, p.gen, origin) else p.journal == [])
    && (forall i :: 0 <= i < |p.live| ==>
          p.live[i].id in origin && p.tab == Some(origin[p.live[i].id].tab) && origin[p.live[i].id].gen == p.gen &&
          p.live[i].id !in relays && p.live[i].id !in dropped)
    && (forall i, j :: 0 <= i < j < |p.live| ==> p.live[i].id != p.live[j].id)
  }

  ghost predicate PeriodsSound(periods: seq<Period>, relays: map<EventId, Relay>,
                               origin: map<EventId, Origin>, dropped: set<EventId>)
  {
    forall i :: 0 <= i < |periods| ==> PeriodSound(periods[i], relays, origin, dropped)
  }

  ghost predicate PublishedLive(p: Period, id: EventId) {
    exists i :: 0 <= i < |p.live| && p.live[i].id == id
  }

  /** The event was journaled in a period of its own tab. */
  predicate OfItsPeriod(periods: seq<Period>, o: Origin) {
    0 < o.gen <= |periods| && periods[o.gen - 1].tab == Some(o.tab)
  }

  /** An event of the active tab is pending, published live, or found its period over. */
  ghost predicate FatesSound(periods: seq<Period>, relays: map<EventId, Relay>,
                             origin: map<EventId, Origin>, dropped: set<EventId>)
  {
    forall id :: id in origin && OfItsPeriod(periods, origin[id]) ==>
      id in relays || id in dropped || PublishedLive(periods[origin[id].gen - 1], id)
  }

  ghost predicate LivesSound(app: Registry, lives: map<TabId, seq<Moment>>) {
    forall t :: t in app.tabs ==> t in lives && app.tabs[t] == TabAfter(EmptyTab(t), lives[t])
  }

  /** A period's journal is its tab's journal at the activation: the journal the tab's life up to then gives.
      What was journaled before the activation is what that part of the life holds. */
  ghost predicate PeriodReplays(p: Period, lives: map<TabId, seq<Moment>>, origin: map<EventId, Origin>) {
    if p.tab.None? then p.journal == []
    else
      var t := p.tab.value;
      && t in lives && p.since < |lives[t]| && lives[t][p.since].Shown?
      && p.journal == TabAfter(EmptyTab(t), lives[t][..p.since]).journal
      && SplitsAt(lives[t], p.since, p.gen, origin)
  }

  /** The events before position `since` are the ones journaled before generation `gen`. */
  ghost predicate SplitsAt(life: seq<Moment>, since: nat, gen: nat, origin: map<EventId, Origin>) {
    forall k :: 0 <= k < |life| && life[k].Got? ==>
      life[k].e.id in origin && (k < since <==> origin[life[k].e.id].gen < gen)
  }

  ghost predicate LivesKnown(lastId: TabId, lives: map<TabId, seq<Moment>>, origin: map<EventId, Origin>) {
    forall t :: t in lives ==>
      t <= lastId && forall k :: 0 <= k < |lives[t]| && lives[t][k].Got? ==> lives[t][k].e.id in origin
  }

  /** A drawn identity has never been registered. */
  ghost predicate DrawnSound(drawn: set<TabId>, lastId: TabId, lives: map<TabId, seq<Moment>>) {
    forall t :: t in drawn ==> t <= lastId && t !in lives
  }

  ghost predicate ReplaysSound(periods: seq<Period>, lives: map<TabId, seq<Moment>>, origin: map<EventId, Origin>) {
    forall i :: 0 <= i < |periods| ==> PeriodReplays(periods[i], lives, origin)
  }

  datatype Part =
    | KnownPart | DrawnPart | ReplayPart
    | RegistryPart | NumberPart | WholePart | HolderPart | RelayPart | OriginPart
    | JournalPart | PeriodPart | FatePart | LogPart | LifePart

  ghost predicate Holds(s: Sys, part: Part) {
    match part
    case RegistryPart => RegistryPartOf(s.app)
    case NumberPart => PeriodsNumbered(s.app, s.periods)
    case WholePart => PeriodsWhole(s.app, s.publisher, s.periods)
    case HolderPart => HolderSound(s.app, s.publisher, s.relays)
    case RelayPart => RelaysSound(s.app, s.relays, s.origin, s.dropped)
    case OriginPart => OriginsSound(s.app, s.origin, s.dropped)
    case JournalPart => JournalsSound(s.app, s.origin)
    case PeriodPart => PeriodsSound(s.periods, s.relays, s.origin, s.dropped)
    case FatePart => FatesSound(s.periods, s.relays, s.origin, s.dropped)
    case LogPart => s.log == FullLog(s.periods)
    case LifePart => LivesSound(s.app, s.lives)
    case KnownPart => LivesKnown(s.app.lastId, s.lives, s.origin)
    case DrawnPart => DrawnSound(s.drawn, s.app.lastId, s.lives)
    case ReplayPart => ReplaysSound(s.periods, s.lives, s.origin)
  }

  ghost predicate Inv(s: Sys) {
    forall part :: Holds(s, part)
  }

  lemma StepKeepsRegistry(s: Sys, step: Step)
    requires Holds(s, RegistryPart) && Holds(s, LifePart) && Holds(s, DrawnPart) && Enabled(s, step)
    ensures Holds(Apply(s, step), RegistryPart)
  {
    if step.DrawTab? {
      NewTabKeepsRegistry(s.app, s.app.lastId);
    } else if step.OpenTab? {
      assert step.id !in s.app.tabs;
      NewTabKeepsRegistry(s.app, step.id);
    } else if step.Activate? && CanActivate(s.app, step.target) {
      ActivateKeepsRegistry(s.app, step.target);
    } else if step.CommitClose? {
      CommitKeepsRegistry(s);
    } else if step.RemoveFailed? {
      RemovedKeepsRegistry(s.app, step.tab);
    } else if step.Journal? && step.tab in s.app.tabs {
      JournalKeepsRegistry(s.app, step.tab, step.e);
    } else {
      assert Apply(s, step).app == s.app;
    }
  }

  lemma JournalKeepsRegistry(a: Registry, t: TabId, e: TabEvent)
    requires RegistryPartOf(a) && t in a.tabs
    ensures RegistryPartOf(Relayed(a, t, e))
  {
  }

  lemma CommitKeepsRegistry(s: Sys)
    requires Holds(s, RegistryPart) && Enabled(s, CommitClose)
    ensures Holds(Apply(s, CommitClose), RegistryPart)
  {
    var t := s.publisher.tab;
    if t in s.app.tabs {
      SuccessorRemains(s.app, t);
      ClosedKeepsRegistry(s.app, t);
      assert Apply(s, CommitClose).app == s.app || Apply(s, CommitClose).app == Closed(s.app, t);
    }
  }

  lemma ClosedKeepsRegistry(a: Registry, t: TabId)
    requires RegistryPartOf(a) && t in a.tabs
    ensures RegistryPartOf(Closed(a, t))
  {
    assert t in a.order;
    var i :| 0 <= i < |a.order| && a.order[i] == t;
    CloseKeepsRegistry(a, i);
  }

  lemma StepKeepsNumber(s: Sys, step: Step)
    requires Holds(s, NumberPart) && Holds(s, RegistryPart) && Enabled(s, step)
    ensures Holds(Apply(s, step), NumberPart)
  {
    if step.CommitClose? {
      CloseKeepsNumber(s);
    }
  }

  lemma NumberAppends(app: Registry, app': Registry, periods: seq<Period>, p: Period)
    requires PeriodsNumbered(app, periods) && app'.generation == app.generation + 1
    requires app'.active == p.tab && p.gen == app'.generation
    ensures PeriodsNumbered(app', periods + [p])
  {
  }

  lemma CloseCounts(a: Registry, t: TabId)
    requires RegistrySound(a) && t in a.tabs && a.active == Some(t)
    ensures CanActivate(Removed(a, t), Successor(a.order, t))
    ensures Closed(a, t).generation == a.generation + 1 && Closed(a, t).active == Successor(a.order, t)
  {
    SuccessorRemains(a, t);
  }

  lemma CloseKeepsNumber(s: Sys)
    requires Holds(s, NumberPart) && Holds(s, RegistryPart) && Enabled(s, CommitClose)
    ensures Holds(Apply(s, CommitClose), NumberPart)
  {
    var t := s.publisher.tab;
    if t in s.app.tabs && s.app.active == Some(t) && s.publisher.wasActive {
      CloseCounts(s.app, t);
      var next, app := Successor(s.app.order, t), Closed(s.app, t);
      var since := AgeOf(s.lives, next);
      NumberAppends(s.app, app, s.periods, Period(app.generation, next, JournalOf(s.app, next), since, 0, []));
    }
  }

  lemma StepKeepsWhole(s: Sys, step: Step)
    requires Holds(s, WholePart) && Enabled(s, step)
    ensures Holds(Apply(s, step), WholePart)
  {
    if step.BatchEmit? {
      EmitKeepsWhole(s);
    } else if step.CommitClose? {
      CloseKeepsWhole(s);
    }
  }

  lemma EmitKeepsWhole(s: Sys)
    requires Holds(s, WholePart) && Enabled(s, BatchEmit)
    ensures Holds(Apply(s, BatchEmit), WholePart)
  {
  }

  lemma CloseKeepsWhole(s: Sys)
    requires Holds(s, WholePart) && Enabled(s, CommitClose)
    ensures Holds(Apply(s, CommitClose), WholePart)
  {
  }

  lemma StepKeepsHolder(s: Sys, step: Step)
    requires Holds(s, HolderPart) && Holds(s, RelayPart) && Holds(s, RegistryPart) && Enabled(s, step)
    ensures Holds(Apply(s, step), HolderPart)
  {
  }

  lemma StepKeepsRelays(s: Sys, step: Step)
    requires Holds(s, RelayPart) && Holds(s, RegistryPart) && Holds(s, OriginPart) && Enabled(s, step)
    ensures Holds(Apply(s, step), RelayPart)
  {
    if step.CommitClose? {
      CloseKeepsRelays(s);
    }
  }

  lemma CloseKeepsRelays(s: Sys)
    requires Holds(s, RelayPart) && Holds(s, RegistryPart) && Holds(s, OriginPart) && Enabled(s, CommitClose)
    ensures Holds(Apply(s, CommitClose), RelayPart)
  {
    if s.publisher.tab in s.app.tabs {
      SuccessorRemains(s.app, s.publisher.tab);
    }
  }

  lemma StepKeepsOrigins(s: Sys, step: Step)
    requires Holds(s, OriginPart) && Holds(s, RegistryPart) && Holds(s, RelayPart) && Holds(s, HolderPart)
    requires Enabled(s, step)
    ensures Holds(Apply(s, step), OriginPart)
  {
    if step.CommitClose? {
      CloseKeepsOrigins(s);
    } else if step.Publish? {
      PublishKeepsOrigins(s);
    }
  }

  lemma CloseKeepsOrigins(s: Sys)
    requires Holds(s, OriginPart) && Enabled(s, CommitClose)
    ensures Holds(Apply(s, CommitClose), OriginPart)
  {
  }

  lemma PublishKeepsOrigins(s: Sys)
    requires Holds(s, OriginPart) && Holds(s, RegistryPart) && Holds(s, RelayPart) && Holds(s, HolderPart)
    requires Enabled(s, Publish)
    ensures Holds(Apply(s, Publish), OriginPart)
  {
  }

  lemma NotedJournalSound(t: Tab, e: TabEvent, active: bool, id: TabId, gen: nat, origin: map<EventId, Origin>)
    requires EventsOf(t.journal, id, gen + 1, origin) && e.id !in origin
    ensures EventsOf(Noted(t, e, active).journal, id, gen + 1, origin[e.id := Origin(id, gen)])
  {
  }

  /** Journals survive any change that edits none of them. */
  lemma JournalsFrame(a: Registry, a': Registry, origin: map<EventId, Origin>)
    requires JournalsSound(a, origin) && a.generation <= a'.generation
    requires forall t :: t in a'.tabs ==> t in a.tabs && a'.tabs[t].journal == a.tabs[t].journal
    ensures JournalsSound(a', origin)
  {
    forall t | t in a'.tabs ensures EventsOf(a'.tabs[t].journal, t, a'.generation + 1, origin) {
      assert EventsOf(a.tabs[t].journal, t, a.generation + 1, origin);
    }
  }

  lemma RelayKeepsJournals(a: Registry, t: TabId, e: TabEvent, origin: map<EventId, Origin>)
    requires JournalsSound(a, origin) && t in a.tabs && e.id !in origin
    ensures JournalsSound(Relayed(a, t, e), origin[e.id := Origin(t, a.generation)])
  {
    var origin' := origin[e.id := Origin(t, a.generation)];
    forall u | u in a.tabs ensures EventsOf(Relayed(a, t, e).tabs[u].journal, u, a.generation + 1, origin') {
      assert EventsOf(a.tabs[u].journal, u, a.generation + 1, origin);
      NotedJournalSound(a.tabs[t], e, a.active == Some(t), t, a.generation, origin);
    }
  }

  lemma NewTabKeepsJournals(a: Registry, id: TabId, origin: map<EventId, Origin>)
    requires JournalsSound(a, origin)
    ensures JournalsSound(WithNewTab(a, id), origin)
  {
    JournalsFrame(a, a.(tabs := a.tabs - {id}), origin);
  }

  lemma ActivateKeepsJournals(a: Registry, t: Option<TabId>, origin: map<EventId, Origin>)
    requires JournalsSound(a, origin) && CanActivate(a, t)
    ensures JournalsSound(Activated(a, t), origin)
  {
    JournalsFrame(a, Activated(a, t), origin);
  }

  lemma RemoveKeepsJournals(a: Registry, t: TabId, origin: map<EventId, Origin>)
    requires JournalsSound(a, origin)
    ensures JournalsSound(Removed(a, t), origin)
  {
    JournalsFrame(a, Removed(a, t), origin);
  }

  lemma StepKeepsJournals(s: Sys, step: Step)
    requires Holds(s, JournalPart) && Enabled(s, step)
    ensures Holds(Apply(s, step), JournalPart)
  {
    if step.Journal? && step.tab in s.app.tabs {
      RelayKeepsJournals(s.app, step.tab, step.e, s.origin);
    } else if step.OpenTab? {
      NewTabKeepsJournals(s.app, step.id, s.origin);
    } else if step.Activate? && CanActivate(s.app, step.target) {
      ActivateKeepsJournals(s.app, step.target, s.origin);
    } else if step.RemoveFailed? {
      RemoveKeepsJournals(s.app, step.tab, s.origin);
    } else if step.CommitClose? {
      var rest, next := Removed(s.app, s.publisher.tab), Successor(s.app.order, s.publisher.tab);
      RemoveKeepsJournals(s.app, s.publisher.tab, s.origin);
      if CanActivate(rest, next) {
        ActivateKeepsJournals(rest, next, s.origin);
      }
    }
  }

  /** Periods survive any change that journals only new events and revives none that was settled. */
  lemma PeriodsFrame(periods: seq<Period>, relays: map<EventId, Relay>,
                     origin: map<EventId, Origin>, dropped: set<EventId>,
                     relays': map<EventId, Relay>, origin': map<EventId, Origin>, dropped': set<EventId>)
    requires PeriodsSound(periods, relays, origin, dropped)
    requires forall id :: id in origin ==> id in origin' && origin'[id] == origin[id]
    requires forall id :: id in origin && id !in relays && id !in dropped ==> id !in relays' && id !in dropped'
    ensures PeriodsSound(periods, relays', origin', dropped')
  {
    forall i | 0 <= i < |periods| ensures PeriodSound(periods[i], relays', origin', dropped') {
      assert PeriodSound(periods[i], relays, origin, dropped);
    }
  }

  /** The period an activation of `t` opens. */
  function NextPeriod(s: Sys, t: Option<TabId>): Period {
    Period(s.app.generation + 1, t, JournalOf(s.app, t), AgeOf(s.lives, t), 0, [])
  }

  /** A new period replays the journal of its tab, all of it journaled before. */
  lemma BeginKeepsPeriods(s: Sys, t: Option<TabId>, p: Period)
    requires Holds(s, PeriodPart) && Holds(s, JournalPart) && CanActivate(s.app, t)
    requires p == NextPeriod(s, t)
    ensures PeriodsSound(s.periods + [p], s.relays, s.origin, s.dropped)
  {
    if t.Some? {
      assert EventsOf(s.app.tabs[t.value].journal, t.value, s.app.generation + 1, s.origin);
    }
    forall i | 0 <= i < |s.periods + [p]| ensures PeriodSound((s.periods + [p])[i], s.relays, s.origin, s.dropped) {
      if i < |s.periods| {
        assert PeriodSound(s.periods[i], s.relays, s.origin, s.dropped);
      }
    }
  }

  /** A relay that was found active publishes into the period it journaled in. */
  lemma PublishKeepsPeriods(s: Sys)
    requires Holds(s, PeriodPart) && Holds(s, NumberPart) && Holds(s, RelayPart) && Holds(s, HolderPart)
    requires Enabled(s, Publish)
    ensures Holds(Apply(s, Publish), PeriodPart)
  {
    var s' := Apply(s, Publish);
    PeriodsFrame(s.periods, s.relays, s.origin, s.dropped, s'.relays, s'.origin, s'.dropped);
    if s.publisher.ok {
      var p, r := Last(s), s.relays[s.publisher.id];
      assert PeriodSound(p, s.relays, s.origin, s.dropped);
      assert PeriodSound(p.(live := p.live + [r.e]), s'.relays, s'.origin, s'.dropped);
    }
  }

  lemma StepKeepsPeriods(s: Sys, step: Step)
    requires Holds(s, PeriodPart) && Holds(s, JournalPart) && Holds(s, NumberPart) && Holds(s, RelayPart)
    requires Holds(s, HolderPart)
    requires Enabled(s, step)
    ensures Holds(Apply(s, step), PeriodPart)
  {
    if step.Publish? {
      PublishKeepsPeriods(s);
    } else if step.Journal? {
      JournalKeepsPeriods(s, step.tab, step.e);
    } else if step.Activate? && CanActivate(s.app, step.target) {
      BeginKeepsPeriods(s, step.target, NextPeriod(s, step.target));
    } else if step.CommitClose? {
      CloseKeepsPeriods(s);
    } else if step.BatchEmit? {
      EmitKeepsPeriods(s);
    }
  }

  lemma EmitKeepsPeriods(s: Sys)
    requires Holds(s, PeriodPart) && Enabled(s, BatchEmit)
    ensures Holds(Apply(s, BatchEmit), PeriodPart)
  {
    assert PeriodSound(Last(s), s.relays, s.origin, s.dropped);
  }

  lemma JournalKeepsPeriods(s: Sys, t: TabId, e: TabEvent)
    requires Holds(s, PeriodPart) && Holds(s, NumberPart) && Enabled(s, Journal(t, e))
    ensures Holds(Apply(s, Journal(t, e)), PeriodPart)
  {
    if t in s.app.tabs {
      var s' := Apply(s, Journal(t, e));
      PeriodsFrame(s.periods, s.relays, s.origin, s.dropped, s'.relays, s'.origin, s'.dropped);
    }
  }

  lemma CloseKeepsPeriods(s: Sys)
    requires Holds(s, PeriodPart) && Holds(s, JournalPart) && Holds(s, NumberPart) && Enabled(s, CommitClose)
    ensures Holds(Apply(s, CommitClose), PeriodPart)
  {
    if ClosesActive(s) {
      var next := Successor(s.app.order, s.publisher.tab);
      BeginKeepsPeriods(s, next, NextPeriod(s, next));
      ClosedActive(s);
    } else {
      ClosedOther(s);
    }
  }

  /** The close takes effect on the active tab, so another activation begins. */
  predicate ClosesActive(s: Sys)
    requires s.publisher.Closing?
  {
    var t := s.publisher.tab;
    && t in s.app.tabs && s.app.active == Some(t) && s.publisher.wasActive
    && CanActivate(Removed(s.app, t), Successor(s.app.order, t))
  }

  lemma ClosedActive(s: Sys)
    requires Enabled(s, CommitClose) && ClosesActive(s)
    ensures Apply(s, CommitClose).periods == s.periods + [NextPeriod(s, Successor(s.app.order, s.publisher.tab))]
    ensures Apply(s, CommitClose).relays == s.relays && Apply(s, CommitClose).origin == s.origin
    ensures Apply(s, CommitClose).dropped == s.dropped && Apply(s, CommitClose).app == Closed(s.app, s.publisher.tab)
  {
  }

  lemma ClosedOther(s: Sys)
    requires Enabled(s, CommitClose) && !ClosesActive(s)
    ensures Apply(s, CommitClose).periods == s.periods && Apply(s, CommitClose).relays == s.relays
    ensures Apply(s, CommitClose).origin == s.origin && Apply(s, CommitClose).dropped == s.dropped
    ensures Apply(s, CommitClose).app.active == s.app.active
  {
  }

  lemma PublishKeepsFates(s: Sys)
    requires Holds(s, FatePart) && Holds(s, OriginPart) && Holds(s, NumberPart) && Holds(s, RelayPart)
    requires Holds(s, HolderPart)
    requires Enabled(s, Publish)
    ensures Holds(Apply(s, Publish), FatePart)
  {
    var s', r := Apply(s, Publish), s.relays[s.publisher.id];
    forall id | id in s.origin && OfItsPeriod(s'.periods, s.origin[id])
      ensures id in s'.relays || id in s'.dropped || PublishedLive(s'.periods[s.origin[id].gen - 1], id)
    {
      var p, p' := s.periods[s.origin[id].gen - 1], s'.periods[s.origin[id].gen - 1];
      if id == r.e.id && s.publisher.ok {
        assert p'.live[|p.live|].id == id;
      } else if PublishedLive(p, id) {
        var i :| 0 <= i < |p.live| && p.live[i].id == id;
        assert p'.live[i].id == id;
      }
    }
  }

  lemma StepKeepsFates(s: Sys, step: Step)
    requires Holds(s, FatePart) && Holds(s, OriginPart) && Holds(s, NumberPart) && Holds(s, RelayPart)
    requires Holds(s, HolderPart)
    requires Enabled(s, step)
    ensures Holds(Apply(s, step), FatePart)
  {
    if step.Publish? {
      PublishKeepsFates(s);
    } else {
      OtherStepsKeepLive(s, step);
      var s' := Apply(s, step);
      if step.Journal? && step.tab in s.app.tabs {
        JournalKeepsFates(s, step.tab, step.e);
      } else {
        FatesFrame(s.periods, s.relays, s.origin, s.dropped, s'.periods, s'.relays, s'.origin);
      }
    }
  }

  lemma FatesFrame(periods: seq<Period>, relays: map<EventId, Relay>,
                   origin: map<EventId, Origin>, dropped: set<EventId>,
                   periods': seq<Period>, relays': map<EventId, Relay>, origin': map<EventId, Origin>)
    requires FatesSound(periods, relays, origin, dropped) && |periods| <= |periods'| && relays.Keys <= relays'.Keys
    requires forall i :: 0 <= i < |periods| ==> periods'[i].tab == periods[i].tab && periods'[i].live == periods[i].live
    requires forall id :: id in origin ==> origin[id].gen <= |periods|
    requires forall id :: id in origin' ==>
               || id in relays'
               || (if id in origin then origin'[id] == origin[id] else !OfItsPeriod(periods', origin'[id]))
    ensures FatesSound(periods', relays', origin', dropped)
  {
    forall id | id in origin' && OfItsPeriod(periods', origin'[id])
      ensures id in relays' || id in dropped || PublishedLive(periods'[origin'[id].gen - 1], id)
    {
      if id !in relays' {
        assert id in relays || id in dropped || PublishedLive(periods[origin[id].gen - 1], id);
      }
    }
  }

  lemma JournalKeepsFates(s: Sys, t: TabId, e: TabEvent)
    requires Holds(s, FatePart) && Holds(s, OriginPart) && Holds(s, NumberPart)
    requires Enabled(s, Journal(t, e)) && t in s.app.tabs
    ensures Holds(Apply(s, Journal(t, e)), FatePart)
  {
    var s' := Apply(s, Journal(t, e));
    FatesFrame(s.periods, s.relays, s.origin, s.dropped, s'.periods, s'.relays, s'.origin);
  }

  /** Only a publishing relay adds to what a period has published live. */
  lemma OtherStepsKeepLive(s: Sys, step: Step)
    requires Enabled(s, step) && !step.Publish?
    ensures var s' := Apply(s, step);
            && |s.periods| <= |s'.periods| <= |s.periods| + 1 && s'.dropped == s.dropped
            && (forall i :: 0 <= i < |s.periods| ==>
                  s'.periods[i].tab == s.periods[i].tab && s'.periods[i].live == s.periods[i].live)
  {
  }

  lemma FullLogAppend(periods: seq<Period>, p: Period)
    ensures FullLog(periods + [p]) == FullLog(periods) + PeriodLog(p)
  {
    assert (periods + [p])[..|periods|] == periods;
  }

  lemma FullLogUpdate(periods: seq<Period>, p: Period, x: Pub)
    requires periods != [] && PeriodLog(p) == PeriodLog(periods[|periods| - 1]) + [x]
    ensures FullLog(periods[|periods| - 1 := p]) == FullLog(periods) + [x]
  {
    assert periods[|periods| - 1 := p][..|periods| - 1] == periods[..|periods| - 1];
  }

  lemma PublishGrowsLog(periods: seq<Period>, e: TabEvent)
    requires periods != []
    ensures var p := periods[|periods| - 1];
            FullLog(periods[|periods| - 1 := p.(live := p.live + [e])]) == FullLog(periods) + [Show(e)]
  {
    var p := periods[|periods| - 1];
    assert Shows(p.live + [e]) == Shows(p.live) + [Show(e)];
    assert Script(p.(live := p.live + [e])) == Script(p);
    FullLogUpdate(periods, p.(live := p.live + [e]), Show(e));
  }

  lemma EmitGrowsLog(periods: seq<Period>, pos: nat)
    requires periods != []
    requires var p := periods[|periods| - 1]; p.shown == pos < |p.journal| + 2 && p.live == []
    ensures var p := periods[|periods| - 1];
            FullLog(periods[|periods| - 1 := p.(shown := pos + 1)]) == FullLog(periods) + [Script(p)[pos]]
  {
    var p := periods[|periods| - 1];
    assert Script(p.(shown := pos + 1)) == Script(p);
    FullLogUpdate(periods, p.(shown := pos + 1), Script(p)[pos]);
  }

  /** Every other step publishes nothing, and at most opens a period that has shown nothing yet. */
  lemma OtherStepsPublishNothing(s: Sys, step: Step) returns (added: seq<Period>)
    requires Enabled(s, step) && !step.Publish? && !step.BatchEmit?
    ensures Apply(s, step).log == s.log && Apply(s, step).periods == s.periods + added
    ensures added == [] || (|added| == 1 && added[0].shown == 0 && added[0].live == [])
  {
    var after := Apply(s, step).periods;
    added := after[|s.periods|..];
  }

  lemma StepKeepsLog(s: Sys, step: Step)
    requires Holds(s, LogPart) && Holds(s, WholePart) && Enabled(s, step)
    ensures Holds(Apply(s, step), LogPart)
  {
    if step.Publish? {
      PublishKeepsLog(s);
    } else if step.BatchEmit? {
      EmitKeepsLog(s);
    } else {
      OpenedPeriodAddsNothing(s, step);
    }
  }

  lemma PublishKeepsLog(s: Sys)
    requires Holds(s, LogPart) && Holds(s, WholePart) && Enabled(s, Publish)
    ensures Holds(Apply(s, Publish), LogPart)
  {
    PublishGrowsLog(s.periods, s.relays[s.publisher.id].e);
  }

  lemma EmitKeepsLog(s: Sys)
    requires Holds(s, LogPart) && Holds(s, WholePart) && Enabled(s, BatchEmit)
    ensures Holds(Apply(s, BatchEmit), LogPart)
  {
    EmitGrowsLog(s.periods, s.publisher.pos);
  }

  lemma OpenedPeriodAddsNothing(s: Sys, step: Step)
    requires Enabled(s, step) && !step.Publish? && !step.BatchEmit?
    ensures Apply(s, step).log == s.log && FullLog(Apply(s, step).periods) == FullLog(s.periods)
  {
    var added := OtherStepsPublishNothing(s, step);
    if added != [] {
      assert added == [added[0]];
      FullLogAppend(s.periods, added[0]);
    } else {
      assert s.periods + added == s.periods;
    }
  }

  lemma ActivateKeepsLives(a: Registry, lives: map<TabId, seq<Moment>>, t: Option<TabId>)
    requires LivesSound(a, lives) && CanActivate(a, t)
    ensures LivesSound(Activated(a, t), if t.Some? then Lived(lives, t.value, Shown) else lives)
  {
    if t.Some? {
      TabAfterAppend(EmptyTab(t.value), lives[t.value], Shown);
    }
  }

  lemma RelayKeepsLives(a: Registry, lives: map<TabId, seq<Moment>>, t: TabId, e: TabEvent)
    requires LivesSound(a, lives) && t in a.tabs
    ensures LivesSound(Relayed(a, t, e), Lived(lives, t, Got(e, a.active == Some(t))))
  {
    TabAfterAppend(EmptyTab(t), lives[t], Got(e, a.active == Some(t)));
  }

  lemma RemoveKeepsLives(a: Registry, lives: map<TabId, seq<Moment>>, t: TabId)
    requires LivesSound(a, lives)
    ensures LivesSound(Removed(a, t), lives)
  {
  }

  lemma StepKeepsLives(s: Sys, step: Step)
    requires Holds(s, LifePart) && Enabled(s, step)
    ensures Holds(Apply(s, step), LifePart)
  {
    if step.Journal? && step.tab in s.app.tabs {
      RelayKeepsLives(s.app, s.lives, step.tab, step.e);
    } else if step.Activate? && CanActivate(s.app, step.target) {
      ActivateKeepsLives(s.app, s.lives, step.target);
    } else if step.RemoveFailed? {
      RemoveKeepsLives(s.app, s.lives, step.tab);
    } else if step.CommitClose? {
      var rest, next := Removed(s.app, s.publisher.tab), Successor(s.app.order, s.publisher.tab);
      RemoveKeepsLives(s.app, s.lives, s.publisher.tab);
      if CanActivate(rest, next) {
        ActivateKeepsLives(rest, s.lives, next);
      }
    }
  }

  lemma StepKeepsKnown(s: Sys, step: Step)
    requires Holds(s, KnownPart) && Holds(s, DrawnPart) && Holds(s, RegistryPart) && Enabled(s, step)
    ensures Holds(Apply(s, step), KnownPart)
  {
    if step.CommitClose? {
      CloseKeepsKnown(s);
    }
  }

  lemma StepKeepsDrawn(s: Sys, step: Step)
    requires Holds(s, DrawnPart) && Holds(s, KnownPart) && Holds(s, LifePart) && Enabled(s, step)
    ensures Holds(Apply(s, step), DrawnPart)
  {
    LivedStays(s, step);
  }

  /** Only a registration begins a life, and only drawing moves the last identity. */
  lemma LivedStays(s: Sys, step: Step)
    requires Holds(s, LifePart) && Enabled(s, step)
    ensures Apply(s, step).lives.Keys == if step.OpenTab? then s.lives.Keys + {step.id} else s.lives.Keys
    ensures Apply(s, step).app.lastId == if step.DrawTab? then s.app.lastId + 1 else s.app.lastId
  {
    if step.CommitClose? {
      CloseLeavesLived(s);
    }
  }

  lemma CloseLeavesLived(s: Sys)
    requires Holds(s, LifePart) && Enabled(s, CommitClose)
    ensures Apply(s, CommitClose).lives.Keys == s.lives.Keys && Apply(s, CommitClose).app.lastId == s.app.lastId
  {
  }

  lemma CloseKeepsKnown(s: Sys)
    requires Holds(s, KnownPart) && Holds(s, RegistryPart) && Enabled(s, CommitClose)
    ensures Holds(Apply(s, CommitClose), KnownPart)
  {
    var next := Successor(s.app.order, s.publisher.tab);
    if Apply(s, CommitClose).publisher.Batch? && next.Some? {
      ShownKeepsKnown(s.app.lastId, s.lives, s.origin, next.value);
    }
  }

  lemma ShownKeepsKnown(lastId: TabId, lives: map<TabId, seq<Moment>>, origin: map<EventId, Origin>, t: TabId)
    requires LivesKnown(lastId, lives, origin) && t <= lastId
    ensures LivesKnown(lastId, Lived(lives, t, Shown), origin)
  {
  }

  // Replays

  /** Every life goes on, and what is new in it was journaled in generation `gen` or later. */
  ghost predicate LivesGoOn(lives: map<TabId, seq<Moment>>, origin: map<EventId, Origin>,
                            lives': map<TabId, seq<Moment>>, origin': map<EventId, Origin>, gen: nat)
  {
    && (forall id :: id in origin ==> id in origin' && origin'[id] == origin[id])
    && (forall t :: t in lives ==> t in lives' && lives[t] <= lives'[t])
    && (forall t, k :: t in lives && |lives[t]| <= k < |lives'[t]| && lives'[t][k].Got? ==>
          lives'[t][k].e.id in origin' && gen <= origin'[lives'[t][k].e.id].gen)
  }

  lemma ReplayGoesOn(p: Period, lives: map<TabId, seq<Moment>>, origin: map<EventId, Origin>,
                     lives': map<TabId, seq<Moment>>, origin': map<EventId, Origin>, gen: nat)
    requires PeriodReplays(p, lives, origin) && LivesGoOn(lives, origin, lives', origin', gen) && p.gen <= gen
    ensures PeriodReplays(p, lives', origin')
  {
    if p.tab.Some? {
      var life, life' := lives[p.tab.value], lives'[p.tab.value];
      assert life'[..|life|] == life;
      assert life'[..p.since] == life[..p.since];
    }
  }

  lemma ReplaysGoOn(app: Registry, periods: seq<Period>, lives: map<TabId, seq<Moment>>, origin: map<EventId, Origin>,
                    lives': map<TabId, seq<Moment>>, origin': map<EventId, Origin>)
    requires ReplaysSound(periods, lives, origin) && PeriodsNumbered(app, periods)
    requires LivesGoOn(lives, origin, lives', origin', app.generation)
    ensures ReplaysSound(periods, lives', origin')
  {
    forall i | 0 <= i < |periods| ensures PeriodReplays(periods[i], lives', origin') {
      ReplayGoesOn(periods[i], lives, origin, lives', origin', app.generation);
    }
  }

  /** A new period replays the journal its tab has at that moment. */
  lemma BeginKeepsReplays(s: Sys, t: Option<TabId>)
    requires Holds(s, ReplayPart) && Holds(s, NumberPart) && Holds(s, LifePart) && Holds(s, KnownPart)
    requires Holds(s, OriginPart)
    requires CanActivate(s.app, t)
    ensures var lives := if t.Some? then Lived(s.lives, t.value, Shown) else s.lives;
            ReplaysSound(s.periods + [NextPeriod(s, t)], lives, s.origin)
  {
    var p := NextPeriod(s, t);
    var lives' := if t.Some? then Lived(s.lives, t.value, Shown) else s.lives;
    ReplaysGoOn(s.app, s.periods, s.lives, s.origin, lives', s.origin);
    if t.Some? {
      assert lives'[t.value][..p.since] == s.lives[t.value];
    }
    assert PeriodReplays(p, lives', s.origin);
  }

  lemma CloseKeepsReplays(s: Sys)
    requires Holds(s, ReplayPart) && Holds(s, NumberPart) && Holds(s, LifePart) && Holds(s, KnownPart)
    requires Holds(s, OriginPart)
    requires Enabled(s, CommitClose)
    ensures Holds(Apply(s, CommitClose), ReplayPart)
  {
    if Apply(s, CommitClose).publisher.Batch? {
      BeginKeepsReplays(s, Successor(s.app.order, s.publisher.tab));
    }
  }

  lemma LastKeepsReplays(s: Sys, p: Period)
    requires Holds(s, ReplayPart) && s.periods != []
    requires p.(shown := Last(s).shown, live := Last(s).live) == Last(s)
    ensures ReplaysSound(WithLast(s, p), s.lives, s.origin)
  {
    assert PeriodReplays(Last(s), s.lives, s.origin);
  }

  lemma ArrivalKeepsReplays(s: Sys, step: Step)
    requires Holds(s, ReplayPart) && Holds(s, NumberPart) && Holds(s, LifePart) && Holds(s, KnownPart)
    requires Holds(s, DrawnPart) && Enabled(s, step) && (step.OpenTab? || step.Journal?)
    ensures Holds(Apply(s, step), ReplayPart)
  {
    if step.OpenTab? {
      var lives := s.lives[step.id := []];
      ReplaysGoOn(s.app, s.periods, s.lives, s.origin, lives, s.origin);
    } else if step.tab in s.app.tabs {
      var m, o := Got(step.e, s.app.active == Some(step.tab)), Origin(step.tab, s.app.generation);
      EventGoesOn(s.lives, s.origin, step.tab, m, o);
      ReplaysGoOn(s.app, s.periods, s.lives, s.origin, Lived(s.lives, step.tab, m), s.origin[step.e.id := o]);
    }
  }

  lemma EventGoesOn(lives: map<TabId, seq<Moment>>, origin: map<EventId, Origin>, t: TabId, m: Moment, o: Origin)
    requires t in lives && m.Got? && m.e.id !in origin
    ensures LivesGoOn(lives, origin, Lived(lives, t, m), origin[m.e.id := o], o.gen)
  {
  }

  lemma StepKeepsReplays(s: Sys, step: Step)
    requires Holds(s, ReplayPart) && Holds(s, NumberPart) && Holds(s, LifePart) && Holds(s, KnownPart)
    requires Holds(s, OriginPart)
    requires Holds(s, DrawnPart)
    requires Enabled(s, step)
    ensures Holds(Apply(s, step), ReplayPart)
  {
    if step.OpenTab? || step.Journal? {
      ArrivalKeepsReplays(s, step);
    } else if step.Activate? && CanActivate(s.app, step.target) {
      BeginKeepsReplays(s, step.target);
    } else if step.CommitClose? {
      CloseKeepsReplays(s);
    } else if step.Publish? || step.BatchEmit? {
      EmissionKeepsReplays(s, step);
    }
  }

  lemma EmissionKeepsReplays(s: Sys, step: Step)
    requires Holds(s, ReplayPart) && Enabled(s, step) && (step.Publish? || step.BatchEmit?)
    ensures Holds(Apply(s, step), ReplayPart)
  {
    if step.BatchEmit? {
      LastKeepsReplays(s, Last(s).(shown := s.publisher.pos + 1));
    } else if s.publisher.ok {
      LastKeepsReplays(s, Last(s).(live := Last(s).live + [s.relays[s.publisher.id].e]));
    }
  }

  lemma StepKeepsInv(s: Sys, step: Step)
    requires Inv(s) && Enabled(s, step)
    ensures Inv(Apply(s, step))
  {
    forall part ensures Holds(Apply(s, step), part) {
      match part
      case RegistryPart => StepKeepsRegistry(s, step);
      case NumberPart => StepKeepsNumber(s, step);
      case WholePart => StepKeepsWhole(s, step);
      case HolderPart => StepKeepsHolder(s, step);
      case RelayPart => StepKeepsRelays(s, step);
      case OriginPart => StepKeepsOrigins(s, step);
      case JournalPart => StepKeepsJournals(s, step);
      case PeriodPart => StepKeepsPeriods(s, step);
      case FatePart => StepKeepsFates(s, step);
      case LogPart => StepKeepsLog(s, step);
      case LifePart => StepKeepsLives(s, step);
      case KnownPart => StepKeepsKnown(s, step);
      case DrawnPart => StepKeepsDrawn(s, step);
      case ReplayPart => StepKeepsReplays(s, step);
    }
  }

  lemma {:induction false} RunKeepsInv(steps: seq<Step>)
    requires Execute(Start(), steps).Some?
    ensures Inv(Execute(Start(), steps).value)
    decreases |steps|
  {
    if steps == [] {
      forall part ensures Holds(Start(), part) {
        match part case _ =>
      }
    } else {
      var front := steps[..|steps| - 1];
      RunKeepsInv(front);
      StepKeepsInv(Execute(Start(), front).value, steps[|steps| - 1]);
    }
  }

  // ---------------------------------------------------------------------------------------------
  // Main results

  /** The journal entries a period has replayed so far. */
  function Replayed(p: Period): (r: seq<TabEvent>)
    ensures Whole(p) ==> r == p.journal
  {
    if p.shown == 0 then [] else if p.shown <= |p.journal| then p.journal[..p.shown - 1] else p.journal
  }

  lemma CountShows(s: seq<TabEvent>, e: TabEvent)
    requires forall i, j :: 0 <= i < j < |s| ==> s[i].id != s[j].id
    ensures multiset(Shows(s))[Show(e)] == if e in s then 1 else 0
  {
    DistinctCounts(Shows(s), Show(e));
    if e in s {
      var i :| 0 <= i < |s| && s[i] == e;
      assert Shows(s)[i] == Show(e);
    }
  }

  /** What a period has published, counted event by event. */
  lemma CountPeriodLog(p: Period, e: TabEvent)
    requires p.shown <= |p.journal| + 2
    requires forall i, j :: 0 <= i < j < |p.journal| ==> p.journal[i].id != p.journal[j].id
    requires forall i, j :: 0 <= i < j < |p.live| ==> p.live[i].id != p.live[j].id
    ensures multiset(PeriodLog(p))[Show(e)] == (if e in Replayed(p) then 1 else 0) + (if e in p.live then 1 else 0)
  {
    CountShows(Replayed(p), e);
    CountShows(p.live, e);
    var head, tail := PeriodLogParts(p);
    CountParts(head, Shows(Replayed(p)), tail, Shows(p.live), Show(e));
  }

  lemma PeriodLogParts(p: Period) returns (head: seq<Pub>, tail: seq<Pub>)
    requires p.shown <= |p.journal| + 2
    ensures PeriodLog(p) == head + Shows(Replayed(p)) + tail + Shows(p.live)
    ensures (forall x :: x in head ==> x.Reset?) && (forall x :: x in tail ==> x.ReplayDone?)
  {
    head := if p.shown == 0 then [] else [Reset(p.tab)];
    tail := if Whole(p) then [ReplayDone(p.tab)] else [];
    assert Script(p)[..p.shown] == head + Shows(Replayed(p)) + tail;
  }

  lemma CountParts(head: seq<Pub>, shows: seq<Pub>, tail: seq<Pub>, live: seq<Pub>, x: Pub)
    requires x !in head && x !in tail
    ensures multiset(head + shows + tail + live)[x] == multiset(shows)[x] + multiset(live)[x]
  {
    assert multiset(head + shows + tail + live) == multiset(head) + multiset(shows) + multiset(tail) + multiset(live);
  }

  lemma WholePeriodLog(p: Period)
    requires Whole(p)
    ensures PeriodLog(p) == Script(p) + Shows(p.live)
  {
    assert Script(p)[..p.shown] == Script(p);
  }

  /** The last 2000 state events of a life since its latest snapshot. */
  function Recent(life: seq<Moment>): seq<TabEvent> {
    var all := StateEvents(life);
    LastOf(all[SnapshotAt(all)..], JOURNAL_CAP)
  }

  /** What the activation of a period has to replay, read off the life of its tab. */
  function ReplayDue(lives: map<TabId, seq<Moment>>, p: Period): seq<TabEvent> {
    if p.tab.Some? && p.tab.value in lives && p.since <= |lives[p.tab.value]|
    then Recent(lives[p.tab.value][..p.since]) else []
  }

  /** `since` is the activation of the period in the life of its tab: the events before it are the ones journaled
      in earlier periods. */
  ghost predicate ActivatedAt(p: Period, lives: map<TabId, seq<Moment>>, origin: map<EventId, Origin>) {
    p.tab.Some? ==>
      && p.tab.value in lives && p.since < |lives[p.tab.value]| && lives[p.tab.value][p.since].Shown?
      && SplitsAt(lives[p.tab.value], p.since, p.gen, origin)
  }

  lemma JournalIsDue(s: Sys, g: nat)
    requires Inv(s) && 0 < g <= |s.periods|
    ensures s.periods[g - 1].journal == ReplayDue(s.lives, s.periods[g - 1])
    ensures ActivatedAt(s.periods[g - 1], s.lives, s.origin)
  {
    assert Holds(s, ReplayPart);
    var p := s.periods[g - 1];
    assert PeriodReplays(p, s.lives, s.origin);
    if p.tab.Some? {
      JournalIsRecentState(p.tab.value, s.lives[p.tab.value][..p.since]);
    }
  }

  /** The period is out: the reset, what was due, the end marker, and live events. */
  ghost predicate OutInFull(p: Period, lives: map<TabId, seq<Moment>>) {
    PeriodLog(p) == [Reset(p.tab)] + Shows(ReplayDue(lives, p)) + [ReplayDone(p.tab)] + Shows(p.live)
  }

  lemma PeriodIsOut(s: Sys, i: nat)
    requires Inv(s) && i < |s.periods| && (i + 1 < |s.periods| || !s.publisher.Batch?)
    ensures OutInFull(s.periods[i], s.lives)
  {
    assert Holds(s, WholePart);
    WholePeriodLog(s.periods[i]);
    JournalIsDue(s, i + 1);
  }

  /** The period was opened by an activation of its tab and, unless it is the one under way, is out in full. */
  ghost predicate PeriodOut(s: Sys, i: nat)
    requires i < |s.periods|
  {
    && s.periods[i].gen == i + 1 && ActivatedAt(s.periods[i], s.lives, s.origin)
    && (i + 1 < |s.periods| || !s.publisher.Batch? ==> OutInFull(s.periods[i], s.lives))
  }

  ghost predicate AllPeriodsOut(s: Sys) {
    forall i :: 0 <= i < |s.periods| ==> PeriodOut(s, i)
  }

  lemma OnePeriodIsOut(s: Sys, i: nat)
    requires Inv(s) && i < |s.periods|
    ensures PeriodOut(s, i)
  {
    assert Holds(s, NumberPart);
    JournalIsDue(s, i + 1);
    if i + 1 < |s.periods| || !s.publisher.Batch? {
      PeriodIsOut(s, i);
    }
  }

  lemma PeriodsAreOut(s: Sys)
    requires Inv(s)
    ensures s.log == FullLog(s.periods) && AllPeriodsOut(s)
  {
    assert Holds(s, LogPart);
    forall i | 0 <= i < |s.periods| ensures PeriodOut(s, i) {
      OnePeriodIsOut(s, i);
    }
  }

  /** In every run, what the frontend received is a sequence of periods, each a reset, the whole journal its
      tab had at the activation in order, the end marker, and then live events; only the last batch may still
      be under way. */
  lemma FrontendSeesWholePeriods(steps: seq<Step>)
    requires Execute(Start(), steps).Some?
    ensures var s := Execute(Start(), steps).value; s.log == FullLog(s.periods) && AllPeriodsOut(s)
  {
    RunKeepsInv(steps);
    PeriodsAreOut(Execute(Start(), steps).value);
  }

  /** The close of the active tab at position `i` goes on with a period of its neighbour. */
  ghost predicate GoesToNeighbour(s: Sys, s': Sys, i: nat)
    requires i < |s.app.order|
  {
    s'.app.active == Neighbour(s.app.order, i) && |s'.periods| == |s.periods| + 1 && Last(s').tab == s'.app.active
  }

  /** In every run, committing the close of the active tab, wherever it stands in the order, goes on with a period of
      its right neighbour, or its left one at the right end; committing any other close opens no period. */
  lemma ClosingShowsNeighbour(steps: seq<Step>, i: nat)
    requires Execute(Start(), steps).Some? && Enabled(Execute(Start(), steps).value, CommitClose)
    requires var s := Execute(Start(), steps).value; i < |s.app.order| && s.app.order[i] == s.publisher.tab
    ensures var s, s' := Execute(Start(), steps).value, Apply(Execute(Start(), steps).value, CommitClose);
            if s.app.active == Some(s.publisher.tab) && s.publisher.wasActive then GoesToNeighbour(s, s', i)
            else s'.app.active == s.app.active && s'.periods == s.periods
  {
    RunKeepsInv(steps);
    var s := Execute(Start(), steps).value;
    assert Holds(s, RegistryPart);
    if s.app.active == Some(s.publisher.tab) && s.publisher.wasActive {
      NeighbourIsShown(s, i);
    } else {
      ClosedOther(s);
    }
  }

  lemma NeighbourIsShown(s: Sys, i: nat)
    requires Holds(s, RegistryPart) && Enabled(s, CommitClose) && i < |s.app.order| && s.app.order[i] == s.publisher.tab
    requires s.app.active == Some(s.publisher.tab) && s.publisher.wasActive
    ensures GoesToNeighbour(s, Apply(s, CommitClose), i)
  {
    CloseKeepsRegistry(s.app, i);
    SuccessorRemains(s.app, s.publisher.tab);
    SuccessorIsNeighbour(s.app.order, i);
    ClosedActive(s);
  }

  /** A replay batch is never cut short: its revalidation always succeeds. */
  lemma ReplayIsNeverCut(steps: seq<Step>)
    requires Execute(Start(), steps).Some? && Enabled(Execute(Start(), steps).value, BatchCheck)
    ensures var s := Execute(Start(), steps).value;
            Apply(s, BatchCheck).publisher == s.publisher.(checked := true)
  {
    RunKeepsInv(steps);
    assert Holds(Execute(Start(), steps).value, WholePart);
  }

  /** The period has published the event at most once, and only if it belongs to the tab of its reset:
      replayed when journaled before the activation, live when journaled after it, never both. */
  ghost predicate OncePerPeriod(p: Period, origin: map<EventId, Origin>, e: TabEvent) {
    var count := multiset(PeriodLog(p))[Show(e)];
    && count == (if e in Replayed(p) || e in p.live then 1 else 0)
    && (count == 1 ==> e.id in origin && p.tab == Some(origin[e.id].tab))
    && (e in p.journal ==> e.id in origin && origin[e.id].gen < p.gen)
    && (e in p.live ==> e.id in origin && origin[e.id].gen == p.gen && e !in p.journal)
  }

  lemma PeriodPublishesOnce(p: Period, s: Sys, e: TabEvent)
    requires PeriodSound(p, s.relays, s.origin, s.dropped) && p.shown <= |p.journal| + 2
    ensures OncePerPeriod(p, s.origin, e)
  {
    CountPeriodLog(p, e);
    assert forall x :: x in Replayed(p) ==> x in p.journal;
  }

  lemma PeriodShape(s: Sys, g: nat)
    requires Inv(s) && 0 < g <= |s.periods|
    ensures s.periods[g - 1].gen == g && s.periods[g - 1].shown <= |s.periods[g - 1].journal| + 2
    ensures PeriodSound(s.periods[g - 1], s.relays, s.origin, s.dropped)
  {
    assert Holds(s, NumberPart);
    assert Holds(s, WholePart);
    assert Holds(s, PeriodPart);
  }

  /** In every run and every period, each event is published at most once; once the replay is out, exactly
      the events that were in the tab's journal at the activation and those published live have been. */
  lemma PublishedAtMostOncePerPeriod(steps: seq<Step>, g: nat, e: TabEvent)
    requires Execute(Start(), steps).Some? && 0 < g <= |Execute(Start(), steps).value.periods|
    ensures var s := Execute(Start(), steps).value;
            s.periods[g - 1].gen == g && OncePerPeriod(s.periods[g - 1], s.origin, e)
    ensures var s := Execute(Start(), steps).value;
            var p := s.periods[g - 1];
            Whole(p) ==> (multiset(PeriodLog(p))[Show(e)] == 1 <==> e in ReplayDue(s.lives, p) || e in p.live)
  {
    RunKeepsInv(steps);
    var s := Execute(Start(), steps).value;
    PeriodShape(s, g);
    PeriodPublishesOnce(s.periods[g - 1], s, e);
    JournalIsDue(s, g);
  }

  lemma LiveOnce(s: Sys, id: EventId)
    requires Inv(s) && id in s.origin && 0 < s.origin[id].gen <= |s.periods|
    requires s.periods[s.origin[id].gen - 1].tab == Some(s.origin[id].tab)
    ensures var live := PublishedLive(s.periods[s.origin[id].gen - 1], id);
            && (live || id in s.relays || id in s.dropped)
            && (live ==> id !in s.relays && id !in s.dropped)
            && (id in s.relays ==> id !in s.dropped)
            && (id in s.dropped ==> s.origin[id].gen < |s.periods|)
  {
    assert Holds(s, FatePart);
    assert Holds(s, PeriodPart);
    assert Holds(s, RelayPart);
    assert Holds(s, OriginPart);
    assert Holds(s, NumberPart);
    assert PeriodSound(s.periods[s.origin[id].gen - 1], s.relays, s.origin, s.dropped);
  }

  /** An event journaled while its tab was active is published live once in that period, unless its relay
      is still pending, or ran only after the period was over. */
  lemma ActiveEventGoesLiveOnce(steps: seq<Step>, id: EventId)
    requires Execute(Start(), steps).Some? && id in Execute(Start(), steps).value.origin
    requires var s := Execute(Start(), steps).value;
             0 < s.origin[id].gen <= |s.periods| && s.periods[s.origin[id].gen - 1].tab == Some(s.origin[id].tab)
    ensures var s := Execute(Start(), steps).value;
            var live := PublishedLive(s.periods[s.origin[id].gen - 1], id);
            && (live || id in s.relays || id in s.dropped)
            && (live ==> id !in s.relays && id !in s.dropped)
            && (id in s.relays ==> id !in s.dropped)
            && (id in s.dropped ==> s.origin[id].gen < |s.periods|)
  {
    RunKeepsInv(steps);
    var s := Execute(Start(), steps).value;
    LiveOnce(s, id);
  }

  /** In every run, the order lists each registered tab once, the bindings talk to the active registered
      tab, and each tab's journal and badges are what its own history says. */
  lemma TabsFollowTheirHistory(steps: seq<Step>, t: TabId)
    requires Execute(Start(), steps).Some? && t in Execute(Start(), steps).value.app.tabs
    ensures var s := Execute(Start(), steps).value;
            var all := if t in s.lives then StateEvents(s.lives[t]) else [];
            && RegistrySound(s.app) && BindingSound(s.app) && t in s.lives
            && s.app.tabs[t].journal == LastOf(all[SnapshotAt(all)..], JOURNAL_CAP)
            && s.app.tabs[t].unread == |UnseenChats(s.lives[t])|
            && s.app.tabs[t].mentions == Mentioning(UnseenChats(s.lives[t])) <= s.app.tabs[t].unread
  {
    RunKeepsInv(steps);
    var s := Execute(Start(), steps).value;
    assert Holds(s, RegistryPart);
    assert Holds(s, LifePart);
    JournalIsRecentState(t, s.lives[t]);
    BadgesCountUnseenChats(t, s.lives[t]);
  }

  // ---------------------------------------------------------------------------------------------
  // The events are those that were journaled, read off the steps

  /** The step opened a period of the tab. */
  ghost predicate Opens(s: Sys, s': Sys, t: TabId) {
    |s'.periods| == |s.periods| + 1 && Last(s').tab == Some(t)
  }

  /** The life of a tab since its registration: the events journaled for it while it was registered, with whether it was
      active then, and its activations. */
  ghost function LifeOf(steps: seq<Step>, t: TabId): seq<Moment>
    decreases |steps|
  {
    if steps == [] then []
    else
      var front, last := steps[..|steps| - 1], steps[|steps| - 1];
      var before, after := Execute(Start(), front), Execute(Start(), steps);
      if before.None? || after.None? then []
      else if last == OpenTab(t) then []
      else if last.Journal? && last.tab == t && t in before.value.app.tabs
      then LifeOf(front, t) + [Got(last.e, before.value.app.active == Some(t))]
      else if Opens(before.value, after.value, t) then LifeOf(front, t) + [Shown]
      else LifeOf(front, t)
  }

  lemma StepOnLife(s: Sys, step: Step, t: TabId)
    requires Holds(s, LifePart) && Enabled(s, step) && t in s.lives
    ensures var s' := Apply(s, step);
            t in s'.lives && s'.lives[t] ==
            if step == OpenTab(t) then []
            else if step.Journal? && step.tab == t && t in s.app.tabs
            then s.lives[t] + [Got(step.e, s.app.active == Some(t))]
            else if Opens(s, s', t) then s.lives[t] + [Shown]
            else s.lives[t]
  {
    if step.CommitClose? {
      CloseOnLife(s, t);
    }
  }

  lemma CloseOnLife(s: Sys, t: TabId)
    requires Holds(s, LifePart) && Enabled(s, CommitClose) && t in s.lives
    ensures var s' := Apply(s, CommitClose);
            t in s'.lives && s'.lives[t] == if Opens(s, s', t) then s.lives[t] + [Shown] else s.lives[t]
  {
    var closed := s.publisher.tab;
    var next := Successor(s.app.order, closed);
    if s.publisher.wasActive && closed in s.app.tabs && CanActivate(Removed(s.app, closed), next) {
      BeginOnLife(s, Closed(s.app, closed), next, JournalOf(s.app, next), t);
    }
  }

  lemma BeginOnLife(s: Sys, app: Registry, next: Option<TabId>, journal: seq<TabEvent>, t: TabId)
    requires t in s.lives
    ensures var s' := Begin(s, app, next, journal);
            && t in s'.lives && s'.lives[t] == (if next == Some(t) then s.lives[t] + [Shown] else s.lives[t])
            && (Opens(s, s', t) <==> next == Some(t))
  {
  }

  /** In every run, the life each tab's journal and badges follow, and that periods replay, is made of exactly the
      events journaled for it and its activations, in order. */
  lemma {:induction false} LivesAreRead(steps: seq<Step>, t: TabId)
    requires Execute(Start(), steps).Some? && t in Execute(Start(), steps).value.lives
    ensures Execute(Start(), steps).value.lives[t] == LifeOf(steps, t)
    decreases |steps|
  {
    if steps == [] {
    } else {
      var front, last := steps[..|steps| - 1], steps[|steps| - 1];
      RunKeepsInv(front);
      var s := Execute(Start(), front).value;
      assert Holds(s, LifePart);
      if t in s.lives {
        LivesAreRead(front, t);
        StepOnLife(s, last, t);
      } else {
        LivedStays(s, last);
      }
    }
  }

  // Live events

  ghost predicate RelaysJournaled(relays: map<EventId, Relay>, steps: seq<Step>) {
    forall id :: id in relays ==> Journal(relays[id].tab, relays[id].e) in steps
  }

  predicate JournaledFor(tab: Option<TabId>, e: TabEvent, steps: seq<Step>) {
    tab.Some? && Journal(tab.value, e) in steps
  }

  ghost predicate PeriodJournaled(p: Period, steps: seq<Step>) {
    forall e :: e in p.live ==> JournaledFor(p.tab, e, steps)
  }

  ghost predicate LiveJournaled(periods: seq<Period>, steps: seq<Step>) {
    forall i :: 0 <= i < |periods| ==> PeriodJournaled(periods[i], steps)
  }

  lemma JournaledGrows(relays: map<EventId, Relay>, periods: seq<Period>, front: seq<Step>, last: Step)
    requires RelaysJournaled(relays, front) && LiveJournaled(periods, front)
    ensures RelaysJournaled(relays, front + [last]) && LiveJournaled(periods, front + [last])
  {
    forall i | 0 <= i < |periods| ensures PeriodJournaled(periods[i], front + [last]) {
      assert PeriodJournaled(periods[i], front);
      forall e | e in periods[i].live ensures JournaledFor(periods[i].tab, e, front + [last]) {
        assert JournaledFor(periods[i].tab, e, front);
      }
    }
  }

  lemma SamePeriod(p: Period, p': Period, steps: seq<Step>)
    requires PeriodJournaled(p, steps) && p'.tab == p.tab && p'.live == p.live
    ensures PeriodJournaled(p', steps)
  {
    forall e | e in p'.live ensures JournaledFor(p'.tab, e, steps) {
      assert JournaledFor(p.tab, e, steps);
    }
  }

  lemma OneMoreLive(p: Period, e: TabEvent, steps: seq<Step>)
    requires PeriodJournaled(p, steps) && JournaledFor(p.tab, e, steps)
    ensures PeriodJournaled(p.(live := p.live + [e]), steps)
  {
    forall x | x in p.live + [e] ensures JournaledFor(p.tab, x, steps) {
      assert x in p.live ==> JournaledFor(p.tab, x, steps);
    }
  }

  lemma PublishKeepsJournaled(s: Sys, steps: seq<Step>)
    requires Inv(s) && Enabled(s, Publish) && RelaysJournaled(s.relays, steps) && LiveJournaled(s.periods, steps)
    ensures LiveJournaled(Apply(s, Publish).periods, steps)
  {
    var s' := Apply(s, Publish);
    if s.publisher.ok {
      assert Holds(s, HolderPart);
      assert Holds(s, NumberPart);
      var r := s.relays[s.publisher.id];
      assert PeriodJournaled(Last(s), steps) && Last(s).tab == Some(r.tab) && Journal(r.tab, r.e) in steps;
      OneMoreLive(Last(s), r.e, steps);
    }
  }

  lemma {:induction false} LiveIsJournaled(steps: seq<Step>)
    requires Execute(Start(), steps).Some?
    ensures var s := Execute(Start(), steps).value; RelaysJournaled(s.relays, steps) && LiveJournaled(s.periods, steps)
    decreases |steps|
  {
    if steps == [] {
    } else {
      var front, last := steps[..|steps| - 1], steps[|steps| - 1];
      LiveIsJournaled(front);
      RunKeepsInv(front);
      var s := Execute(Start(), front).value;
      assert steps == front + [last];
      JournaledGrows(s.relays, s.periods, front, last);
      RelaysStayJournaled(s, last, steps);
      if last.Publish? {
        PublishKeepsJournaled(s, steps);
      } else {
        OtherStepsKeepLive(s, last);
        if |Apply(s, last).periods| > |s.periods| {
          NewPeriodIsEmpty(s, last);
        }
        LiveStaysJournaled(s.periods, Apply(s, last).periods, steps);
      }
    }
  }

  lemma RelaysStayJournaled(s: Sys, step: Step, steps: seq<Step>)
    requires Enabled(s, step) && RelaysJournaled(s.relays, steps) && step in steps
    ensures RelaysJournaled(Apply(s, step).relays, steps)
  {
    if step.CommitClose? {
      CloseLeavesRelays(s);
    }
  }

  lemma CloseLeavesRelays(s: Sys)
    requires Enabled(s, CommitClose)
    ensures Apply(s, CommitClose).relays == s.relays
  {
  }

  lemma LiveStaysJournaled(periods: seq<Period>, periods': seq<Period>, steps: seq<Step>)
    requires LiveJournaled(periods, steps) && |periods| <= |periods'| <= |periods| + 1
    requires forall i :: 0 <= i < |periods| ==> periods'[i].tab == periods[i].tab && periods'[i].live == periods[i].live
    requires |periods'| > |periods| ==> periods'[|periods|].live == []
    ensures LiveJournaled(periods', steps)
  {
    forall i | 0 <= i < |periods'| ensures PeriodJournaled(periods'[i], steps) {
      if i < |periods| {
        SamePeriod(periods[i], periods'[i], steps);
      }
    }
  }

  lemma NewPeriodIsEmpty(s: Sys, step: Step)
    requires Enabled(s, step) && !step.Publish? && |Apply(s, step).periods| > |s.periods|
    ensures Last(Apply(s, step)).live == []
  {
    if step.BatchEmit? {
    } else {
      var added := OtherStepsPublishNothing(s, step);
    }
  }

  /** In every run, what a period publishes live is, whole and unchanged, what was journaled for its tab. */
  lemma LiveEventsAreJournaled(steps: seq<Step>, g: nat, e: TabEvent)
    requires Execute(Start(), steps).Some? && 0 < g <= |Execute(Start(), steps).value.periods|
    requires e in Execute(Start(), steps).value.periods[g - 1].live
    ensures var p := Execute(Start(), steps).value.periods[g - 1]; p.tab.Some? && Journal(p.tab.value, e) in steps
  {
    LiveIsJournaled(steps);
    var p := Execute(Start(), steps).value.periods[g - 1];
    assert PeriodJournaled(p, steps);
    assert JournaledFor(p.tab, e, steps);
  }

  // A relay can always be settled

  /** Whenever the publication lock is free, a pending relay can take it, and then goes out live in the current period
      or finds its own period over; either way it is settled and the lock is free again. */
  lemma RelayCanSettle(steps: seq<Step>, id: EventId)
    requires Execute(Start(), steps).Some?
    requires var s := Execute(Start(), steps).value; s.publisher.Free? && id in s.relays
    ensures var s := Execute(Start(), steps).value;
            && Enabled(s, LockRelay(id)) && Enabled(Apply(s, LockRelay(id)), Revalidate)
            && Enabled(Apply(Apply(s, LockRelay(id)), Revalidate), Publish)
            && var t := Apply(Apply(Apply(s, LockRelay(id)), Revalidate), Publish);
               t.publisher.Free? && id !in t.relays &&
               if StillActive(s.app, s.relays[id]) then t.log == s.log + [Show(s.relays[id].e)]
               else id in t.dropped && t.log == s.log
  {
    RunKeepsInv(steps);
    Settles(Execute(Start(), steps).value, id);
  }

  lemma Settles(s: Sys, id: EventId)
    requires Inv(s) && s.publisher.Free? && id in s.relays
    ensures && Enabled(s, LockRelay(id)) && Enabled(Apply(s, LockRelay(id)), Revalidate)
            && Enabled(Apply(Apply(s, LockRelay(id)), Revalidate), Publish)
            && var t := Apply(Apply(Apply(s, LockRelay(id)), Revalidate), Publish);
               t.publisher.Free? && id !in t.relays &&
               if StillActive(s.app, s.relays[id]) then t.log == s.log + [Show(s.relays[id].e)]
               else id in t.dropped && t.log == s.log
  {
    assert Holds(s, RelayPart);
    assert Holds(s, NumberPart);
    assert Holds(s, OriginPart);
  }

  // The order of the tabs

  /** The tabs in the order of their registration. */
  function Registered(steps: seq<Step>): seq<TabId> {
    if steps == [] then []
    else
      var front, last := steps[..|steps| - 1], steps[|steps| - 1];
      if last.OpenTab? then Registered(front) + [last.id] else Registered(front)
  }

  function Only(s: seq<TabId>, keep: set<TabId>): seq<TabId> {
    if s == [] then []
    else
      var front, last := s[..|s| - 1], s[|s| - 1];
      if last in keep then Only(front, keep) + [last] else Only(front, keep)
  }

  lemma {:induction false} OnlyMembers(s: seq<TabId>, keep: set<TabId>)
    ensures forall x :: x in Only(s, keep) <==> x in s && x in keep
  {
    if s == [] {
    } else {
      OnlyMembers(s[..|s| - 1], keep);
      assert s == s[..|s| - 1] + [s[|s| - 1]];
    }
  }

  lemma {:induction false} OnlySame(s: seq<TabId>, a: set<TabId>, b: set<TabId>)
    requires forall x :: x in s ==> (x in a <==> x in b)
    ensures Only(s, a) == Only(s, b)
  {
    if s == [] {
    } else {
      OnlySame(s[..|s| - 1], a, b);
    }
  }

  lemma {:induction false} IndexBeforeLast(order: seq<TabId>, last: TabId, t: TabId)
    requires last !in order
    ensures IndexOf(order + [last], t) == IndexOf(order, t) + if t != last && t !in order then 1 else 0
    ensures t in order <==> IndexOf(order, t) < |order|
  {
    if order == [] {
      assert IndexOf([last][1..], t) == 0;
    } else {
      IndexBeforeLast(order[1..], last, t);
      assert (order + [last])[1..] == order[1..] + [last];
    }
  }

  lemma WithoutLast(order: seq<TabId>, last: TabId, t: TabId)
    requires last !in order
    ensures Without(order + [last], t) == if last == t then order else Without(order, t) + [last]
  {
    var all, i := order + [last], IndexOf(order, t);
    IndexBeforeLast(order, last, t);
    if t in order {
      assert all[..i] == order[..i] && all[i + 1..] == order[i + 1..] + [last];
    } else if t == last {
      assert i == |order| && all[..i] == order;
    }
  }

  /** Taking a tab out of the registry takes it out of the order. */
  lemma {:induction false} OnlyWithout(s: seq<TabId>, keep: set<TabId>, t: TabId)
    requires Distinct(s)
    ensures Distinct(Only(s, keep)) && Only(s, keep - {t}) == Without(Only(s, keep), t)
  {
    if s == [] {
    } else {
      var front, last := s[..|s| - 1], s[|s| - 1];
      OnlyWithout(front, keep, t);
      OnlyMembers(front, keep);
      assert last !in front;
      if last in keep {
        AppendKeepsDistinct(Only(front, keep), last);
        WithoutLast(Only(front, keep), last, t);
        if last == t {
          OnlySame(front, keep, keep - {t});
        }
      }
    }
  }

  /** What a step does to the tabs and their order. */
  lemma StepOnOrder(s: Sys, step: Step)
    requires Enabled(s, step)
    ensures var s' := Apply(s, step);
            if step.OpenTab?
            then s'.app.order == s.app.order + [step.id] && s'.app.tabs.Keys == s.app.tabs.Keys + {step.id}
            else exists t :: Takes(s.app, s'.app, t)
  {
    if step.CommitClose? {
      CloseOnOrder(s);
    } else if step.RemoveFailed? {
      assert Takes(s.app, Apply(s, step).app, step.tab);
    } else if !step.OpenTab? {
      assert Takes(s.app, Apply(s, step).app, 0);
    }
  }

  predicate SameTabs(a: Registry, a': Registry) {
    a'.order == a.order && a'.tabs.Keys == a.tabs.Keys
  }

  /** At most the tab `t` has gone. */
  predicate Takes(a: Registry, a': Registry, t: TabId) {
    || SameTabs(a, a')
    || (a'.order == Without(a.order, t) && a'.tabs.Keys == a.tabs.Keys - {t})
  }

  lemma CloseOnOrder(s: Sys)
    requires Enabled(s, CommitClose)
    ensures Takes(s.app, Apply(s, CommitClose).app, s.publisher.tab)
  {
    var t := s.publisher.tab;
    var next := Successor(s.app.order, t);
    if t in s.app.tabs && CanActivate(Removed(s.app, t), next) {
      ClosedOnOrder(s.app, t);
    }
  }

  lemma ClosedOnOrder(a: Registry, t: TabId)
    requires t in a.tabs && CanActivate(Removed(a, t), Successor(a.order, t))
    ensures Takes(a, Closed(a, t), t)
  {
  }

  ghost predicate RegisteredOnce(s: Sys, steps: seq<Step>) {
    Distinct(Registered(steps)) && forall t :: t in Registered(steps) ==> t in s.lives
  }

  lemma {:induction false} RegistrationsAreOnce(steps: seq<Step>)
    requires Execute(Start(), steps).Some?
    ensures RegisteredOnce(Execute(Start(), steps).value, steps)
    decreases |steps|
  {
    if steps == [] {
    } else {
      var front, last := steps[..|steps| - 1], steps[|steps| - 1];
      RegistrationsAreOnce(front);
      RunKeepsInv(front);
      var s := Execute(Start(), front).value;
      assert Holds(s, LifePart) && Holds(s, DrawnPart);
      LivedStays(s, last);
      if last.OpenTab? {
        AppendKeepsDistinct(Registered(front), last.id);
      }
    }
  }

  /** In every run, the tabs stand in the order of their registration, those that were closed or removed left out. */
  lemma {:induction false} OrderIsOfRegistration(steps: seq<Step>)
    requires Execute(Start(), steps).Some?
    ensures var s := Execute(Start(), steps).value; s.app.order == Only(Registered(steps), s.app.tabs.Keys)
    decreases |steps|
  {
    if steps == [] {
    } else {
      var front, last := steps[..|steps| - 1], steps[|steps| - 1];
      OrderIsOfRegistration(front);
      RunKeepsInv(front);
      RegistrationsAreOnce(front);
      var s := Execute(Start(), front).value;
      var s' := Apply(s, last);
      assert Holds(s, LifePart) && Holds(s, DrawnPart);
      StepOnOrder(s, last);
      if last.OpenTab? {
        OnlySame(Registered(front), s.app.tabs.Keys, s'.app.tabs.Keys);
      } else {
        var t :| Takes(s.app, s'.app, t);
        OnlyWithout(Registered(front), s.app.tabs.Keys, t);
      }
    }
  }
}
