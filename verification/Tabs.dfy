/** Server tabs (client/tabs.go): the per-tab replay journal and badges, the tab registry with its active
    binding, and the locked sections that change them. */
module Tabs {
  import opened Basics

  type TabId = nat
  type ManagerId = nat   // identity of a tab's connection manager

  datatype Kind = Snapshot | ChannelList | Subscriptions | ServerRules | Event | Disconnected | Other

  /** One event of a tab. `chat` says whether its payload decodes as a chat message and `mention` whether
      that message names the tab's nickname: the two findings countBadge acts on. */
  datatype TabEvent = TabEvent(id: nat, kind: Kind, chat: bool, mention: bool)

  const JOURNAL_CAP := 2000

  datatype Tab = Tab(cm: ManagerId, journal: seq<TabEvent>, unread: nat, mentions: nat, connected: bool)

  // ---------------------------------------------------------------------------------------------
  // One tab: journal and badges

  predicate CarriesState(k: Kind) {
    k.Snapshot? || k.ChannelList? || k.Subscriptions? || k.ServerRules? || k.Event?
  }

  function LastOf<T>(s: seq<T>, n: nat): seq<T> {
    if |s| > n then s[|s| - n..] else s
  }

  /** What the journaling section of relayTabEvent does to the tab. */
  function Noted(t: Tab, e: TabEvent, active: bool): Tab {
    var journal :=
      if e.kind.Snapshot? then [e]
      else if CarriesState(e.kind) then LastOf(t.journal + [e], JOURNAL_CAP)
      else t.journal;
    var counts := !active && e.kind.Event? && e.chat;
    t.(journal := journal,
       unread := t.unread + (if counts then 1 else 0),
       mentions := t.mentions + (if counts && e.mention then 1 else 0),
       connected := t.connected && !e.kind.Disconnected?)
  }

  /** What activating the tab does to it. */
  function Seen(t: Tab): Tab {
    t.(unread := 0, mentions := 0)
  }

  /** The life of a tab: an event, journaled while the tab was active or not, or an activation. */
  datatype Moment = Got(e: TabEvent, active: bool) | Shown

  function TabAfter(t: Tab, life: seq<Moment>): Tab
    decreases |life|
  {
    if life == [] then t
    else
      var before := TabAfter(t, life[..|life| - 1]);
      match life[|life| - 1]
      case Got(e, active) => Noted(before, e, active)
      case Shown => Seen(before)
  }

  lemma TabAfterAppend(t: Tab, life: seq<Moment>, m: Moment)
    ensures TabAfter(t, life + [m]) ==
            match m { case Got(e, active) => Noted(TabAfter(t, life), e, active) case Shown => Seen(TabAfter(t, life)) }
  {
    assert (life + [m])[..|life|] == life;
  }

  /** The state-carrying events of a life, in order. */
  function StateEvents(life: seq<Moment>): seq<TabEvent> {
    if life == [] then []
    else
      var before := StateEvents(life[..|life| - 1]);
      var last := life[|life| - 1];
      if last.Got? && CarriesState(last.e.kind) then before + [last.e] else before
  }

  /** Position of the latest snapshot, or 0 when there is none. */
  function SnapshotAt(s: seq<TabEvent>): (i: nat)
    ensures i <= |s| && (s != [] ==> i < |s|)
    ensures forall k :: i < k < |s| ==> !s[k].kind.Snapshot?
    ensures i > 0 ==> s[i].kind.Snapshot?
  {
    if s == [] then 0
    else if s[|s| - 1].kind.Snapshot? then |s| - 1
    else SnapshotAt(s[..|s| - 1])
  }

  /** The chat events that arrived in the background since the tab was last shown. */
  function UnseenChats(life: seq<Moment>): seq<TabEvent> {
    if life == [] then []
    else
      var last := life[|life| - 1];
      match last
      case Shown => []
      case Got(e, active) =>
        UnseenChats(life[..|life| - 1]) + (if !active && e.kind.Event? && e.chat then [e] else [])
  }

  function Mentioning(s: seq<TabEvent>): (n: nat)
    ensures n <= |s|
  {
    if s == [] then 0 else Mentioning(s[..|s| - 1]) + (if s[|s| - 1].mention then 1 else 0)
  }

  function EmptyTab(cm: ManagerId): Tab {
    Tab(cm, [], 0, 0, false)
  }

  /** For every life of a tab, its journal is the last 2000 state events counted from its most recent
      snapshot. */
  lemma {:induction false} JournalIsRecentState(cm: ManagerId, life: seq<Moment>)
    ensures var all := StateEvents(life);
            TabAfter(EmptyTab(cm), life).journal == LastOf(all[SnapshotAt(all)..], JOURNAL_CAP)
    decreases |life|
  {
    if life == [] {
    } else {
      JournalIsRecentState(cm, life[..|life| - 1]);
      var before := StateEvents(life[..|life| - 1]);
      var last := life[|life| - 1];
      if last.Got? && CarriesState(last.e.kind) {
        var all := before + [last.e];
        assert all[..|all| - 1] == before;
        if last.e.kind.Snapshot? {
          assert all[|before|..] == [last.e];
        } else {
          var i := SnapshotAt(before);
          assert SnapshotAt(all) == i;
          assert all[i..] == before[i..] + [last.e];
          LastOfAppend(before[i..], last.e, JOURNAL_CAP);
        }
      }
    }
  }

  lemma LastOfAppend<T>(s: seq<T>, x: T, n: nat)
    requires 0 < n
    ensures LastOf(LastOf(s, n) + [x], n) == LastOf(s + [x], n)
  {
  }

  /** Unread is exactly the number of background chat events since the last activation, and mentions the
      number of those that name the user. */
  lemma {:induction false} BadgesCountUnseenChats(cm: ManagerId, life: seq<Moment>)
    ensures var t := TabAfter(EmptyTab(cm), life);
            t.unread == |UnseenChats(life)| && t.mentions == Mentioning(UnseenChats(life)) <= t.unread
    decreases |life|
  {
    if life == [] {
    } else {
      BadgesCountUnseenChats(cm, life[..|life| - 1]);
      var last := life[|life| - 1];
      var before := UnseenChats(life[..|life| - 1]);
      if last.Got? && !last.active && last.e.kind.Event? && last.e.chat {
        assert (before + [last.e])[..|before|] == before;
      } else if last.Got? {
        assert before + [] == before;
      }
    }
  }

  // ---------------------------------------------------------------------------------------------
  // The registry

  datatype Registry = Registry(
    tabs: map<TabId, Tab>,
    order: seq<TabId>,
    active: Option<TabId>,        // None: no tab is active
    binding: Option<ManagerId>,   // the manager all bindings talk to
    generation: nat,
    lastId: TabId)

  function NoTabs(): Registry {
    Registry(map[], [], None, None, 0, 0)
  }

  /** newTab draws the identity of a tab before it takes the lock. */
  function WithDrawnId(a: Registry): Registry {
    a.(lastId := a.lastId + 1)
  }

  /** Its locked section then registers the tab, maybe after tabs whose identity was drawn later. */
  function WithNewTab(a: Registry, id: TabId): Registry {
    a.(tabs := a.tabs[id := EmptyTab(id)], order := a.order + [id])
  }

  function Relayed(a: Registry, t: TabId, e: TabEvent): Registry {
    if t in a.tabs then a.(tabs := a.tabs[t := Noted(a.tabs[t], e, a.active == Some(t))]) else a
  }

  /** activateLocked on a registered tab, or on no tab. */
  function Activated(a: Registry, t: Option<TabId>): Registry
    requires CanActivate(a, t)
  {
    if t.None? then a.(active := None, binding := None, generation := a.generation + 1)
    else a.(active := t, binding := Some(a.tabs[t.value].cm), generation := a.generation + 1,
            tabs := a.tabs[t.value := Seen(a.tabs[t.value])])
  }

  function IndexOf<T(==)>(s: seq<T>, x: T): (i: nat)
    ensures i <= |s| && (i < |s| ==> s[i] == x) && x !in s[..i]
  {
    if s == [] || s[0] == x then 0 else 1 + IndexOf(s[1..], x)
  }

  function Without<T(==)>(s: seq<T>, x: T): seq<T> {
    var i := IndexOf(s, x);
    if i < |s| then s[..i] + s[i + 1..] else s
  }

  function Removed(a: Registry, t: TabId): Registry {
    a.(tabs := a.tabs - {t}, order := Without(a.order, t))
  }

  /** The tab that replaces a closed active tab: its right neighbour, else its left one, else none. */
  function Successor(order: seq<TabId>, t: TabId): Option<TabId> {
    var i := IndexOf(order, t);
    if i + 1 < |order| then Some(order[i + 1])
    else if Without(order, t) != [] then Some(Without(order, t)[|Without(order, t)| - 1])
    else None
  }

  predicate CanActivate(a: Registry, t: Option<TabId>) {
    t.Some? ==> t.value in a.tabs
  }

  function Closed(a: Registry, t: TabId): Registry {
    var rest := Removed(a, t);
    var next := Successor(a.order, t);
    if a.active == Some(t) && CanActivate(rest, next) then Activated(rest, next) else rest
  }

  /** Order and registry list the same tabs, each once; identities are never reused. */
  ghost predicate RegistrySound(a: Registry) {
    && Distinct(a.order)
    && (forall t :: t in a.order <==> t in a.tabs)
    && (forall t :: t in a.tabs ==> t <= a.lastId && a.tabs[t].cm == t)
  }

  /** The active binding is empty, or the manager of a registered tab. */
  ghost predicate BindingSound(a: Registry) {
    if a.active.None? then a.binding.None? else a.active.value in a.tabs && a.binding == Some(a.tabs[a.active.value].cm)
  }

  lemma WithoutRemovesOnly(s: seq<TabId>, x: TabId)
    requires Distinct(s)
    ensures Distinct(Without(s, x)) && forall y :: y in Without(s, x) <==> y in s && y != x
  {
    var i := IndexOf(s, x);
    if i < |s| {
      assert s == s[..i] + [x] + s[i + 1..];
    } else {
      assert s[..i] == s;
    }
  }

  lemma SuccessorRemains(a: Registry, t: TabId)
    requires RegistrySound(a) && t in a.tabs
    ensures CanActivate(Removed(a, t), Successor(a.order, t))
  {
    assert a.order[..|a.order|] == a.order;
    assert t in a.order;
  }

  lemma RemovedKeepsRegistry(a: Registry, t: TabId)
    requires RegistrySound(a)
    ensures RegistrySound(Removed(a, t))
    ensures Removed(a, t).tabs.Keys == a.tabs.Keys - {t}
    ensures forall i :: 0 <= i < |a.order| && a.order[i] == t ==> Removed(a, t).order == a.order[..i] + a.order[i + 1..]
  {
    WithoutRemovesOnly(a.order, t);
    forall i | 0 <= i < |a.order| && a.order[i] == t ensures Removed(a, t).order == a.order[..i] + a.order[i + 1..] {
      IndexIsPosition(a.order, i);
    }
  }

  /** A drawn identity is new, and registering it keeps the registry whatever was registered since. */
  lemma NewTabKeepsRegistry(a: Registry, id: TabId)
    requires RegistrySound(a) && BindingSound(a)
    ensures RegistrySound(WithDrawnId(a)) && BindingSound(WithDrawnId(a)) && WithDrawnId(a).lastId !in a.tabs
    ensures id <= a.lastId && id !in a.tabs ==> RegistrySound(WithNewTab(a, id)) && BindingSound(WithNewTab(a, id))
  {
    if id !in a.tabs {
      AppendKeepsDistinct(a.order, id);
    }
  }

  lemma ActivateKeepsRegistry(a: Registry, t: Option<TabId>)
    requires RegistrySound(a) && CanActivate(a, t)
    ensures RegistrySound(Activated(a, t)) && BindingSound(Activated(a, t))
    ensures Activated(a, t).active == t && Activated(a, t).order == a.order && Activated(a, t).tabs.Keys == a.tabs.Keys
  {
  }

  /** The position of a tab that is listed once. */
  lemma IndexIsPosition(order: seq<TabId>, i: nat)
    requires Distinct(order) && i < |order|
    ensures IndexOf(order, order[i]) == i && Without(order, order[i]) == order[..i] + order[i + 1..]
  {
    var k := IndexOf(order, order[i]);
    assert order[i] in order[..i + 1];
    assert k <= i && order[k] == order[i];
  }

  /** The tab that follows the one at position `i` when that one is closed while active: the right neighbour, the left
      one at the right end, and none for the last tab. */
  function Neighbour(order: seq<TabId>, i: nat): Option<TabId>
    requires i < |order|
  {
    if i + 1 < |order| then Some(order[i + 1]) else if i > 0 then Some(order[i - 1]) else None
  }

  lemma SuccessorIsNeighbour(order: seq<TabId>, i: nat)
    requires Distinct(order) && i < |order|
    ensures Successor(order, order[i]) == Neighbour(order, i)
  {
    IndexIsPosition(order, i);
  }

  /** Closing a tab removes it and no other, and leaves the others in their order. A closed active tab hands the
      binding to its right neighbour, or its left one at the right end; closing any other tab leaves it alone. */
  lemma CloseKeepsRegistry(a: Registry, i: nat)
    requires RegistrySound(a) && BindingSound(a) && i < |a.order|
    ensures var t, closed := a.order[i], Closed(a, a.order[i]);
            && RegistrySound(closed) && BindingSound(closed)
            && closed.tabs.Keys == a.tabs.Keys - {t}
            && closed.order == a.order[..i] + a.order[i + 1..]
            && closed.active == (if a.active == Some(t) then Neighbour(a.order, i) else a.active)
  {
    var t := a.order[i];
    RemovedKeepsRegistry(a, t);
    IndexIsPosition(a.order, i);
    if a.active == Some(t) {
      SuccessorRemains(a, t);
      SuccessorIsNeighbour(a.order, i);
      ActivateKeepsRegistry(Removed(a, t), Successor(a.order, t));
    }
  }

  /** No event and no activation ever sets the connected flag kept with a tab; what the tab bar shows is asked of the
      manager. */
  lemma {:induction false} StoredFlagIsNeverSet(cm: ManagerId, life: seq<Moment>)
    ensures !TabAfter(EmptyTab(cm), life).connected
    decreases |life|
  {
    if life == [] {
    } else {
      StoredFlagIsNeverSet(cm, life[..|life| - 1]);
    }
  }

  /** removeTab does not look at the active tab. It keeps the binding on a registered tab exactly when the
      tab it removes is not the active one. */
  lemma RemoveIsSafeIffInactive(a: Registry, t: TabId)
    requires RegistrySound(a) && BindingSound(a)
    ensures BindingSound(Removed(a, t)) <==> a.active != Some(t)
  {
  }

  /** Running removeTab on an active tab leaves the bindings on a tab that no longer exists. */
  lemma RemovingActiveTabDangles()
    ensures var a := Activated(WithNewTab(WithDrawnId(NoTabs()), 1), Some(1));
            BindingSound(a) && Removed(a, 1).active == Some(1) && 1 !in Removed(a, 1).tabs
  {
  }

  class App {
    var tabs: map<TabId, Tab>
    var order: seq<TabId>
    var active: Option<TabId>
    var binding: Option<ManagerId>
    var generation: nat
    var lastId: TabId

    ghost function View(): Registry
      reads this
    {
      Registry(tabs, order, active, binding, generation, lastId)
    }

    constructor ()
      ensures View() == NoTabs()
    {
      tabs, order, active, binding, generation, lastId := map[], [], None, None, 0, 0;
    }

    /** The atomic counter that names tabs; it is not under the lock. */
    method DrawId() returns (id: TabId)
      modifies this`lastId
      ensures View() == WithDrawnId(old(View())) && id == lastId
    {
      lastId := lastId + 1;
      id := lastId;
    }

    /** The locked section of newTab. */
    method RegisterTab(id: TabId)
      modifies this`tabs, this`order
      ensures View() == WithNewTab(old(View()), id)
    {
      tabs := tabs[id := EmptyTab(id)];
      order := order + [id];
    }

    /** The journaling section of relayTabEvent: it also decides whether the event may go out live. */
    method JournalSection(t: TabId, e: TabEvent) returns (known: bool, live: bool, gen: nat)
      modifies this`tabs
      ensures View() == Relayed(old(View()), t, e)
      ensures known == (t in old(tabs)) && live == (known && active == Some(t)) && gen == generation
    {
      gen := generation;
      live := active == Some(t);
      known := t in tabs;
      if !known {
        live := false;
        return;
      }
      var ts := tabs[t];
      if e.kind.Disconnected? {
        ts := ts.(connected := false);
      }
      if e.kind.Snapshot? {
        ts := ts.(journal := [e]);
      } else if CarriesState(e.kind) {
        ts := ts.(journal := ts.journal + [e]);
        if |ts.journal| > JOURNAL_CAP {
          ts := ts.(journal := ts.journal[|ts.journal| - JOURNAL_CAP..]);
        }
        if !live && e.kind.Event? && e.chat {
          ts := ts.(unread := ts.unread + 1);
          if e.mention {
            ts := ts.(mentions := ts.mentions + 1);
          }
        }
      }
      tabs := tabs[t := ts];
    }

    /** activateLocked: commits the binding and copies the journal to replay. */
    method ActivateLocked(t: Option<TabId>) returns (ok: bool, journal: seq<TabEvent>)
      modifies this
      ensures ok == CanActivate(old(View()), t)
      ensures ok ==> View() == Activated(old(View()), t)
      ensures ok ==> journal == if t.Some? then old(tabs)[t.value].journal else []
      ensures !ok ==> View() == old(View())
    {
      ok, journal := true, [];
      if t.Some? && t.value !in tabs {
        ok := false;
        return;
      }
      generation := generation + 1;
      active := t;
      if t.Some? {
        binding := Some(tabs[t.value].cm);
        journal := tabs[t.value].journal;
        tabs := tabs[t.value := Seen(tabs[t.value])];
      } else {
        binding := None;
      }
    }

    /** Linear search for a tab in the order, as closeTab and removeTab do it. */
    method Find(t: TabId) returns (idx: nat)
      ensures idx == IndexOf(order, t)
    {
      idx := 0;
      while idx < |order| && order[idx] != t
        invariant idx <= |order| && IndexOf(order, t) == idx + IndexOf(order[idx..], t)
      {
        assert order[idx..][1..] == order[idx + 1..];
        idx := idx + 1;
      }
    }

    method RemoveTab(t: TabId)
      modifies this`tabs, this`order
      ensures View() == Removed(old(View()), t)
    {
      tabs := tabs - {t};
      var idx := Find(t);
      if idx < |order| {
        order := order[..idx] + order[idx + 1..];
      }
    }

    /** The committing section of closeTab: removal, replacement and binding are one transaction. It does
        nothing when the tab is gone, or is active now and was not in the first section, or the other way
        round. */
    method CloseSection(t: TabId, wasActive: bool) returns (done: bool, next: Option<TabId>, journal: seq<TabEvent>)
      modifies this
      ensures done == (t in old(tabs) && (old(active) == Some(t)) == wasActive)
      ensures View() == if done then Closed(old(View()), t) else old(View())
      ensures done && wasActive ==> next == Successor(old(order), t)
      ensures done && wasActive && Distinct(old(order)) ==>
                forall i :: 0 <= i < |old(order)| && old(order)[i] == t ==> next == Neighbour(old(order), i)
      ensures done && wasActive && next.Some? && next.value in tabs ==> journal == old(tabs)[next.value].journal
    {
      done, next, journal := true, None, [];
      if t !in tabs || (active == Some(t)) != wasActive {
        done := false;
        return;
      }
      ghost var before := View();
      var idx := Find(t);
      tabs := tabs - {t};
      if idx < |order| {
        order := order[..idx] + order[idx + 1..];
      }
      assert View() == Removed(before, t);
      if wasActive {
        if idx < |order| {
          next := Some(order[idx]);
        } else if |order| > 0 {
          next := Some(order[|order| - 1]);
        }
        assert next == Successor(before.order, t);
        if Distinct(before.order) {
          forall i | 0 <= i < |before.order| && before.order[i] == t ensures next == Neighbour(before.order, i) {
            SuccessorIsNeighbour(before.order, i);
          }
        }
        var ok;
        ok, journal := ActivateLocked(next);
      }
    }
  }
}
