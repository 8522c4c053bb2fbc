/** The public-key cache of client/e2e.go: bounded, least-recently-used, expiring, and cleared by epoch,
    with one directory fetch at a time per user. */
module PubKeyCache {
  import opened Basics

  type Uid = string
  type Key = nat      // identity of a 32-byte public key
  type Time = int     // nanoseconds
  type Channel = nat  // identity of a flight's done channel

  const CAPACITY := 1024
  const TTL: Time := 15 * 60 * 1_000_000_000

  datatype Entry = Entry(key: Key, expiresAt: Time, used: nat)

  datatype Flight = Flight(done: Channel, epoch: nat)

  datatype Cache = Cache(keys: map<Uid, Entry>, inFlight: map<Uid, Flight>, sequence: nat, epoch: nat, channels: nat)

  function EmptyCache(): Cache {
    Cache(map[], map[], 0, 0, 0)
  }

  predicate Fresh(keys: map<Uid, Entry>, uid: Uid, now: Time) {
    uid in keys && keys[uid].expiresAt > now
  }

  /** What getLocked leaves behind: a hit is marked as used, an expired entry is dropped. */
  function Looked(c: Cache, uid: Uid, now: Time): Cache {
    if uid !in c.keys then c
    else if !Fresh(c.keys, uid, now) then c.(keys := c.keys - {uid})
    else c.(keys := c.keys[uid := c.keys[uid].(used := c.sequence + 1)], sequence := c.sequence + 1)
  }

  function Hit(c: Cache, uid: Uid, now: Time): Option<Key> {
    if Fresh(c.keys, uid, now) then Some(c.keys[uid].key) else None
  }

  function Unexpired(keys: map<Uid, Entry>, now: Time): map<Uid, Entry> {
    map u | u in keys && keys[u].expiresAt > now :: keys[u]
  }

  /** The eviction scan of putLocked over the entries in iteration order, with the best use so far: the
      empty string marks that no candidate has been chosen yet. */
  function Scan(order: seq<Uid>, keys: map<Uid, Entry>): (Uid, nat) {
    if order == [] then ("", 0)
    else
      var best, u := Scan(order[..|order| - 1], keys), order[|order| - 1];
      if u in keys && (best.0 == "" || keys[u].used < best.1) then (u, keys[u].used) else best
  }

  function Victim(order: seq<Uid>, keys: map<Uid, Entry>): Uid {
    Scan(order, keys).0
  }

  predicate MustEvict(keys: map<Uid, Entry>, uid: Uid) {
    uid !in keys && |keys| >= CAPACITY
  }

  /** What putLocked leaves behind, for one iteration order over the unexpired entries. */
  function Stored(c: Cache, uid: Uid, key: Key, now: Time, later: Time, order: seq<Uid>): Cache {
    var live := Unexpired(c.keys, now);
    var kept := if MustEvict(live, uid) then live - {Victim(order, live)} else live;
    c.(keys := kept[uid := Entry(key, later + TTL, c.sequence + 1)], sequence := c.sequence + 1)
  }

  function Cleared(c: Cache): Cache {
    c.(keys := map[], epoch := c.epoch + 1, inFlight := map[])
  }

  /** What getOrClaimFetch leaves behind. */
  function Asked(c: Cache, uid: Uid, now: Time): Cache {
    var d := Looked(c, uid, now);
    if Hit(c, uid, now).Some? || uid in d.inFlight then d
    else d.(inFlight := d.inFlight[uid := Flight(d.channels, d.epoch)], channels := d.channels + 1)
  }

  /** What finishFetch leaves behind. */
  function Landed(c: Cache, uid: Uid, epoch: nat): Cache {
    if uid in c.inFlight && c.inFlight[uid].epoch == epoch then c.(inFlight := c.inFlight - {uid}) else c
  }

  class PubKeyCache {
    var keys: map<Uid, Entry>
    var inFlight: map<Uid, Flight>
    var sequence: nat
    var epoch: nat
    var channels: nat

    ghost function View(): Cache
      reads this
    {
      Cache(keys, inFlight, sequence, epoch, channels)
    }

    constructor ()
      ensures View() == EmptyCache()
    {
      keys, inFlight, sequence, epoch, channels := map[], map[], 0, 0, 0;
    }

    method GetLocked(uid: Uid, now: Time) returns (r: Option<Key>)
      modifies this`keys, this`sequence
      ensures View() == Looked(old(View()), uid, now) && r == Hit(old(View()), uid, now)
    {
      if uid !in keys {
        return None;
      }
      var entry := keys[uid];
      if entry.expiresAt <= now {
        keys := keys - {uid};
        return None;
      }
      sequence := sequence + 1;
      keys := keys[uid := entry.(used := sequence)];
      return Some(entry.key);
    }

    method EvictExpiredLocked(now: Time)
      modifies this`keys
      ensures keys == Unexpired(old(keys), now)
    {
      var rest := keys.Keys;
      while rest != {}
        invariant rest <= keys.Keys <= old(keys).Keys
        invariant forall u :: u in keys ==> keys[u] == old(keys)[u]
        invariant forall u :: u in old(keys) && u !in rest ==> (u in keys <==> old(keys)[u].expiresAt > now)
      {
        var u :| u in rest;
        if keys[u].expiresAt <= now {
          keys := keys - {u};
        }
        rest := rest - {u};
      }
    }

    /** `order` is the order in which the eviction scan happened to visit the entries. */
    method PutLocked(uid: Uid, key: Key, now: Time, later: Time) returns (ghost order: seq<Uid>)
      modifies this`keys, this`sequence
      ensures MustEvict(Unexpired(old(keys), now), uid) ==> IsListing(order, Unexpired(old(keys), now).Keys)
      ensures View() == Stored(old(View()), uid, key, now, later, order)
    {
      order := [];
      EvictExpiredLocked(now);
      if uid !in keys && |keys| >= CAPACITY {
        var oldestUid, oldest := "", 0;
        var rest := keys.Keys;
        while rest != {}
          invariant rest <= keys.Keys && Distinct(order)
          invariant forall u :: u in keys.Keys ==> (u in rest <==> u !in order)
          invariant forall i :: 0 <= i < |order| ==> order[i] in keys
          invariant (oldestUid, oldest) == Scan(order, keys)
        {
          var candidate :| candidate in rest;
          assert (order + [candidate])[..|order|] == order;
          if oldestUid == "" || keys[candidate].used < oldest {
            oldestUid, oldest := candidate, keys[candidate].used;
          }
          order := order + [candidate];
          rest := rest - {candidate};
        }
        keys := keys - {oldestUid};
      }
      sequence := sequence + 1;
      keys := keys[uid := Entry(key, later + TTL, sequence)];
    }

    /** putAt: a result fetched in an earlier epoch is not admitted. */
    method PutAt(uid: Uid, key: Key, at: nat, now: Time, later: Time) returns (ok: bool, ghost order: seq<Uid>)
      modifies this`keys, this`sequence
      ensures ok == (old(epoch) == at)
      ensures ok ==> View() == Stored(old(View()), uid, key, now, later, order)
      ensures ok && MustEvict(Unexpired(old(keys), now), uid) ==> IsListing(order, Unexpired(old(keys), now).Keys)
      ensures !ok ==> View() == old(View())
    {
      order := [];
      if epoch != at {
        return false, order;
      }
      order := PutLocked(uid, key, now, later);
      ok := true;
    }

    method GetOrClaimFetch(uid: Uid, now: Time) returns (key: Option<Key>, leader: bool, flight: Flight)
      modifies this
      ensures View() == Asked(old(View()), uid, now)
      ensures key == Hit(old(View()), uid, now)
      ensures leader <==> key.None? && uid !in old(inFlight)
      ensures key.None? ==> uid in inFlight && flight == inFlight[uid]
    {
      flight := Flight(0, epoch);
      leader := false;
      key := GetLocked(uid, now);
      if key.Some? {
        return;
      }
      if uid in inFlight {
        flight := inFlight[uid];
        return;
      }
      flight := Flight(channels, epoch);
      channels := channels + 1;
      inFlight := inFlight[uid := flight];
      leader := true;
    }

    /** The section of finishFetch; the channel to close is returned, and closed after the unlock. */
    method FinishFetch(uid: Uid, at: nat) returns (toClose: Option<Channel>)
      modifies this`inFlight
      ensures View() == Landed(old(View()), uid, at)
      ensures toClose ==
              if uid in old(inFlight) && old(inFlight)[uid].epoch == at then Some(old(inFlight)[uid].done) else None
    {
      if uid in inFlight && inFlight[uid].epoch == at {
        toClose := Some(inFlight[uid].done);
        inFlight := inFlight - {uid};
      } else {
        toClose := None;
      }
    }

    method Clear() returns (flights: map<Uid, Flight>)
      modifies this
      ensures View() == Cleared(old(View())) && flights == old(inFlight)
    {
      keys := map[];
      epoch := epoch + 1;
      flights := inFlight;
      inFlight := map[];
    }
  }

  // ---------------------------------------------------------------------------------------------
  // The eviction scan

  ghost predicate Oldest(keys: map<Uid, Entry>, v: Uid) {
    v in keys && forall u :: u in keys ==> keys[v].used <= keys[u].used
  }

  ghost predicate UsesDistinct(keys: map<Uid, Entry>) {
    forall u, v :: u in keys && v in keys && u != v ==> keys[u].used != keys[v].used
  }

  /** The scan is on the oldest entry as soon as it has passed it, if that entry has a name. */
  lemma {:induction false} ScanFindsOldest(order: seq<Uid>, keys: map<Uid, Entry>, v: Uid)
    requires Oldest(keys, v) && v != "" && UsesDistinct(keys)
    ensures var best := Scan(order, keys);
            if v in order then best == (v, keys[v].used)
            else best.0 == "" || (best.0 in keys && best.1 == keys[best.0].used)
  {
    if order == [] {
    } else {
      ScanFindsOldest(order[..|order| - 1], keys, v);
    }
  }

  /** After the empty name, the scan takes whatever comes next and never comes back. */
  lemma {:induction false} ScanLosesEmpty(order: seq<Uid>, keys: map<Uid, Entry>)
    requires |order| > 1 && order[0] == "" && Distinct(order) && forall i :: 0 <= i < |order| ==> order[i] in keys
    ensures Victim(order, keys) != ""
  {
    var front := order[..|order| - 1];
    if |order| > 2 {
      ScanLosesEmpty(front, keys);
    } else {
      assert front[..|front| - 1] == [];
    }
  }

  lemma OldestExists(keys: map<Uid, Entry>) returns (v: Uid)
    requires keys != map[]
    ensures Oldest(keys, v)
    decreases |keys|
  {
    v :| v in keys;
    var rest := keys - {v};
    assert forall u :: u in keys && u != v ==> u in rest;
    if rest != map[] {
      var w := OldestExists(rest);
      if keys[w].used < keys[v].used {
        v := w;
      }
    }
  }

  lemma ListingExists(s: set<Uid>) returns (order: seq<Uid>)
    ensures IsListing(order, s)
    decreases |s|
  {
    if s == {} {
      order := [];
    } else {
      var x :| x in s;
      var rest := ListingExists(s - {x});
      order := rest + [x];
    }
  }

  ghost predicate AlwaysEvictsOldest(keys: map<Uid, Entry>) {
    forall order :: IsListing(order, keys.Keys) ==> Oldest(keys, Victim(order, keys))
  }

  /** The victim is the least recently used entry for every iteration order, unless the entry with the
      empty user name is itself the least recently used of several: its name is the scan's marker for "no
      candidate yet". */
  lemma EvictsOldestIff(keys: map<Uid, Entry>)
    requires keys != map[] && UsesDistinct(keys)
    ensures AlwaysEvictsOldest(keys) <==> !(Oldest(keys, "") && |keys| > 1)
  {
    var v := OldestExists(keys);
    if v != "" {
      forall order | IsListing(order, keys.Keys) ensures Oldest(keys, Victim(order, keys)) {
        ScanFindsOldest(order, keys, v);
      }
    } else if |keys| > 1 {
      MissesEmptyOldest(keys);
    } else {
      forall order | IsListing(order, keys.Keys) ensures Oldest(keys, Victim(order, keys)) {
        SingleScan(order, keys);
      }
    }
  }

  lemma MissesEmptyOldest(keys: map<Uid, Entry>)
    requires Oldest(keys, "") && |keys| > 1 && UsesDistinct(keys)
    ensures !AlwaysEvictsOldest(keys)
  {
    var rest := ListingExists(keys.Keys - {""});
    var order := [""] + rest;
    assert |keys.Keys - {""}| == |keys| - 1;
    assert rest != [] by {
      var u :| u in keys.Keys - {""};
      assert u in rest;
    }
    ScanLosesEmpty(order, keys);
    assert IsListing(order, keys.Keys);
  }

  lemma SingleScan(order: seq<Uid>, keys: map<Uid, Entry>)
    requires |keys| == 1 && "" in keys && IsListing(order, keys.Keys)
    ensures Victim(order, keys) == ""
  {
    assert |keys.Keys - {""}| == 0;
    assert keys.Keys == {""} + (keys.Keys - {""});
    ScanPicksEntry(order, keys);
  }

  /** Whatever the order, the victim is one of the entries. */
  lemma {:induction false} ScanPicksEntry(order: seq<Uid>, keys: map<Uid, Entry>)
    requires order != [] && forall i :: 0 <= i < |order| ==> order[i] in keys
    ensures Victim(order, keys) in keys
  {
    if |order| > 1 {
      ScanPicksEntry(order[..|order| - 1], keys);
    } else {
      assert Scan(order[..|order| - 1], keys) == ("", 0);
    }
  }

  // ---------------------------------------------------------------------------------------------
  // Runs

  /** One fetch: who it is for, in which epoch its leader claimed it, and what the leader still has to do. */
  datatype Fetch = Fetch(uid: Uid, epoch: nat, stored: bool, done: bool)

  /** The latest key stored for a user. */
  datatype Record = Record(key: Key, epoch: nat, at: Time)

  datatype Sys = Sys(
    c: Cache,
    closing: set<Channel>,            // taken out of the cache, still to be closed
    closed: multiset<Channel>,
    // history
    fetches: map<Channel, Fetch>,
    stores: map<Uid, Record>,
    uses: seq<Uid>)                   // every hit and every store, in order

  datatype Step =
    | Ask(uid: Uid, now: Time)        // getOrClaimFetch
    | Get(uid: Uid, now: Time)        // get, by a follower that has been woken
    | Admit(ch: Channel, key: Key, now: Time, later: Time, order: seq<Uid>)   // putAt, by a leader
    | Finish(ch: Channel)             // the section of finishFetch, by a leader
    | Clear
    | Close(ch: Channel)

  function Start(): Sys {
    Sys(EmptyCache(), {}, multiset{}, map[], map[], [])
  }

  ghost predicate Enabled(s: Sys, step: Step) {
    match step
    case Admit(ch, _, now, _, order) =>
      && ch in s.fetches && !s.fetches[ch].stored && !s.fetches[ch].done
      && (MustEvict(Unexpired(s.c.keys, now), s.fetches[ch].uid) ==> IsListing(order, Unexpired(s.c.keys, now).Keys))
    case Finish(ch) => ch in s.fetches && !s.fetches[ch].done
    case Close(ch) => ch in s.closing
    case _ => true
  }

  function Used(s: Sys, uid: Uid, now: Time): seq<Uid> {
    if Hit(s.c, uid, now).Some? then s.uses + [uid] else s.uses
  }

  function Flights(c: Cache): set<Channel> {
    set u | u in c.inFlight :: c.inFlight[u].done
  }

  ghost function Apply(s: Sys, step: Step): Sys
    requires Enabled(s, step)
  {
    match step
    case Ask(uid, now) =>
      var c' := Asked(s.c, uid, now);
      s.(c := c', uses := Used(s, uid, now),
         fetches := if c'.channels > s.c.channels then s.fetches[s.c.channels := Fetch(uid, s.c.epoch, false, false)]
                    else s.fetches)
    case Get(uid, now) => s.(c := Looked(s.c, uid, now), uses := Used(s, uid, now))
    case Admit(ch, key, now, later, order) =>
      var f := s.fetches[ch];
      if f.epoch != s.c.epoch then s.(fetches := s.fetches[ch := f.(stored := true)])
      else s.(c := Stored(s.c, f.uid, key, now, later, order), uses := s.uses + [f.uid],
              fetches := s.fetches[ch := f.(stored := true)],
              stores := s.stores[f.uid := Record(key, s.c.epoch, later)])
    case Finish(ch) =>
      var f := s.fetches[ch];
      s.(c := Landed(s.c, f.uid, f.epoch), fetches := s.fetches[ch := f.(done := true)],
         closing := if f.uid in s.c.inFlight && s.c.inFlight[f.uid].epoch == f.epoch
                    then s.closing + {s.c.inFlight[f.uid].done} else s.closing)
    case Clear => s.(c := Cleared(s.c), closing := s.closing + Flights(s.c))
    case Close(ch) => s.(closing := s.closing - {ch}, closed := s.closed + multiset{ch})
  }

  ghost function Execute(s: Sys, steps: seq<Step>): Option<Sys>
    decreases |steps|
  {
    if steps == [] then Some(s)
    else
      var before := Execute(s, steps[..|steps| - 1]);
      if before.Some? && Enabled(before.value, steps[|steps| - 1])
      then Some(Apply(before.value, steps[|steps| - 1]))
      else None
  }

  /** Every flight is of the current epoch and belongs to the one leader that has not finished. */
  ghost predicate FlightsSound(c: Cache, fetches: map<Channel, Fetch>) {
    && (forall u :: u in c.inFlight ==>
          c.inFlight[u].epoch == c.epoch && c.inFlight[u].done in fetches &&
          fetches[c.inFlight[u].done].uid == u && fetches[c.inFlight[u].done].epoch == c.epoch &&
          !fetches[c.inFlight[u].done].done)
    && (forall ch :: ch in fetches ==> ch < c.channels && fetches[ch].epoch <= c.epoch)
    && (forall ch :: ch in fetches && fetches[ch].epoch == c.epoch && !fetches[ch].done ==>
          fetches[ch].uid in c.inFlight && c.inFlight[fetches[ch].uid].done == ch)
  }

  /** The channel's fetch is the flight of its user. */
  predicate InAir(c: Cache, fetches: map<Channel, Fetch>, ch: Channel) {
    ch in fetches && fetches[ch].uid in c.inFlight && c.inFlight[fetches[ch].uid].done == ch
  }

  /** Every channel is in flight, about to be closed, or closed once. */
  ghost predicate ChannelsSound(c: Cache, fetches: map<Channel, Fetch>,
                                closing: set<Channel>, closed: multiset<Channel>)
  {
    && (forall ch :: ch in closing ==> ch in fetches && ch !in closed && !InAir(c, fetches, ch))
    && (forall ch :: ch in closed ==> ch in fetches && closed[ch] == 1 && !InAir(c, fetches, ch))
    && (forall ch :: ch in fetches ==> InAir(c, fetches, ch) || ch in closing || ch in closed)
  }

  /** A cached key is the last one stored for its user, in this epoch, with its full lifetime. */
  ghost predicate KeysSound(c: Cache, stores: map<Uid, Record>) {
    forall u :: u in c.keys ==>
      && u in stores && stores[u].epoch == c.epoch
      && c.keys[u].key == stores[u].key && c.keys[u].expiresAt == stores[u].at + TTL
  }

  /** `used` is the position of the entry's latest use. */
  ghost predicate UsesSound(c: Cache, uses: seq<Uid>) {
    && c.sequence == |uses|
    && (forall u :: u in c.keys ==>
          0 < c.keys[u].used <= |uses| && uses[c.keys[u].used - 1] == u &&
          forall k :: c.keys[u].used <= k < |uses| ==> uses[k] != u)
  }

  datatype Part = FlightPart | ChannelPart | KeyPart | UsePart | SizePart

  ghost predicate Holds(s: Sys, part: Part) {
    match part
    case FlightPart => FlightsSound(s.c, s.fetches)
    case ChannelPart => ChannelsSound(s.c, s.fetches, s.closing, s.closed)
    case KeyPart => KeysSound(s.c, s.stores)
    case UsePart => UsesSound(s.c, s.uses)
    case SizePart => |s.c.keys| <= CAPACITY
  }

  ghost predicate Inv(s: Sys) {
    forall part :: Holds(s, part)
  }

  lemma AskKeepsFlights(s: Sys, uid: Uid, now: Time)
    requires Holds(s, FlightPart)
    ensures Holds(Apply(s, Ask(uid, now)), FlightPart)
  {
  }

  lemma FinishKeepsFlights(s: Sys, ch: Channel)
    requires Holds(s, FlightPart) && Enabled(s, Finish(ch))
    ensures Holds(Apply(s, Finish(ch)), FlightPart)
  {
  }

  lemma StepKeepsFlights(s: Sys, step: Step)
    requires Holds(s, FlightPart) && Enabled(s, step)
    ensures Holds(Apply(s, step), FlightPart)
  {
    if step.Ask? {
      AskKeepsFlights(s, step.uid, step.now);
    } else if step.Finish? {
      FinishKeepsFlights(s, step.ch);
    }
  }

  lemma AskKeepsChannels(s: Sys, uid: Uid, now: Time)
    requires Holds(s, ChannelPart) && Holds(s, FlightPart)
    ensures Holds(Apply(s, Ask(uid, now)), ChannelPart)
  {
    var s' := Apply(s, Ask(uid, now));
    assert s.c.channels !in s.fetches;
    if s'.c.channels > s.c.channels {
      LeadKeepsChannels(s.c, s'.c, s.fetches, s.closing, s.closed, uid);
    } else {
      assert forall ch :: InAir(s'.c, s'.fetches, ch) <==> InAir(s.c, s.fetches, ch);
    }
  }

  lemma LeadKeepsChannels(c: Cache, c': Cache, fetches: map<Channel, Fetch>,
                          closing: set<Channel>, closed: multiset<Channel>, uid: Uid)
    requires ChannelsSound(c, fetches, closing, closed) && c.channels !in fetches && uid !in c.inFlight
    requires c'.inFlight == c.inFlight[uid := Flight(c.channels, c.epoch)]
    ensures ChannelsSound(c', fetches[c.channels := Fetch(uid, c.epoch, false, false)], closing, closed)
  {
    var fetches' := fetches[c.channels := Fetch(uid, c.epoch, false, false)];
    assert InAir(c', fetches', c.channels);
    forall ch | ch in fetches ensures InAir(c', fetches', ch) <==> InAir(c, fetches, ch) {
    }
  }

  /** A leader's finish closes its own channel, or none if a clear has taken it. */
  lemma FinishClosesOwn(s: Sys, ch: Channel)
    requires Holds(s, FlightPart) && Enabled(s, Finish(ch))
    ensures var f := s.fetches[ch];
            f.uid in s.c.inFlight && s.c.inFlight[f.uid].epoch == f.epoch ==> s.c.inFlight[f.uid].done == ch
  {
  }

  lemma FinishKeepsChannels(s: Sys, ch: Channel)
    requires Holds(s, ChannelPart) && Holds(s, FlightPart) && Enabled(s, Finish(ch))
    ensures Holds(Apply(s, Finish(ch)), ChannelPart)
  {
    FinishClosesOwn(s, ch);
    FinishLeavesOthers(s, ch);
  }

  lemma FinishLeavesOthers(s: Sys, ch: Channel)
    requires Holds(s, FlightPart) && Enabled(s, Finish(ch))
    ensures var s' := Apply(s, Finish(ch));
            forall x :: x in s.fetches && x != ch ==> (InAir(s'.c, s'.fetches, x) <==> InAir(s.c, s.fetches, x))
  {
  }

  lemma ClearKeepsChannels(s: Sys)
    requires Holds(s, ChannelPart) && Holds(s, FlightPart)
    ensures Holds(Apply(s, Clear), ChannelPart)
  {
    forall ch ensures ch in Flights(s.c) <==> InAir(s.c, s.fetches, ch) {
    }
  }

  lemma AdmitKeepsChannels(s: Sys, step: Step)
    requires Holds(s, ChannelPart) && Enabled(s, step) && step.Admit?
    ensures Holds(Apply(s, step), ChannelPart)
  {
    var s' := Apply(s, step);
    forall x | x in s.fetches ensures InAir(s'.c, s'.fetches, x) <==> InAir(s.c, s.fetches, x) {
    }
  }

  lemma StepKeepsChannels(s: Sys, step: Step)
    requires Holds(s, ChannelPart) && Holds(s, FlightPart) && Enabled(s, step)
    ensures Holds(Apply(s, step), ChannelPart)
  {
    if step.Ask? {
      AskKeepsChannels(s, step.uid, step.now);
    } else if step.Finish? {
      FinishKeepsChannels(s, step.ch);
    } else if step.Clear? {
      ClearKeepsChannels(s);
    } else if step.Admit? {
      AdmitKeepsChannels(s, step);
    }
  }

  lemma StepKeepsKeys(s: Sys, step: Step)
    requires Holds(s, KeyPart) && Enabled(s, step)
    ensures Holds(Apply(s, step), KeyPart)
  {
  }

  lemma LookedKeepsUses(c: Cache, uses: seq<Uid>, uid: Uid, now: Time)
    requires UsesSound(c, uses)
    ensures UsesSound(Looked(c, uid, now), if Hit(c, uid, now).Some? then uses + [uid] else uses)
  {
  }

  lemma StoredKeepsUses(c: Cache, uses: seq<Uid>, uid: Uid, key: Key, now: Time, later: Time, order: seq<Uid>)
    requires UsesSound(c, uses)
    ensures UsesSound(Stored(c, uid, key, now, later, order), uses + [uid])
  {
  }

  lemma StepKeepsUses(s: Sys, step: Step)
    requires Holds(s, UsePart) && Enabled(s, step)
    ensures Holds(Apply(s, step), UsePart)
  {
    match step
    case Ask(uid, now) => LookedKeepsUses(s.c, s.uses, uid, now);
    case Get(uid, now) => LookedKeepsUses(s.c, s.uses, uid, now);
    case Admit(ch, key, now, later, order) => StoredKeepsUses(s.c, s.uses, s.fetches[ch].uid, key, now, later, order);
    case _ =>
  }

  lemma SubmapSize(small: map<Uid, Entry>, big: map<Uid, Entry>)
    requires small.Keys <= big.Keys
    ensures |small| <= |big|
  {
    assert |big.Keys| == |small.Keys| + |big.Keys - small.Keys|;
  }

  lemma StoredSize(c: Cache, uid: Uid, key: Key, now: Time, later: Time, order: seq<Uid>)
    requires |c.keys| <= CAPACITY
    requires MustEvict(Unexpired(c.keys, now), uid) ==> IsListing(order, Unexpired(c.keys, now).Keys)
    ensures |Stored(c, uid, key, now, later, order).keys| <= CAPACITY
  {
    var live := Unexpired(c.keys, now);
    SubmapSize(live, c.keys);
    var kept := live;
    if MustEvict(live, uid) {
      var u :| u in live;
      assert u in order;
      ScanPicksEntry(order, live);
      kept := live - {Victim(order, live)};
      assert kept.Keys == live.Keys - {Victim(order, live)};
    }
    var c' := Stored(c, uid, key, now, later, order);
    assert c'.keys.Keys == kept.Keys + {uid};
  }

  lemma StepKeepsSize(s: Sys, step: Step)
    requires Holds(s, SizePart) && Enabled(s, step)
    ensures Holds(Apply(s, step), SizePart)
  {
    match step
    case Ask(uid, now) => SubmapSize(Looked(s.c, uid, now).keys, s.c.keys);
    case Get(uid, now) => SubmapSize(Looked(s.c, uid, now).keys, s.c.keys);
    case Admit(ch, key, now, later, order) => StoredSize(s.c, s.fetches[ch].uid, key, now, later, order);
    case _ =>
  }

  lemma StepKeepsInv(s: Sys, step: Step)
    requires Inv(s) && Enabled(s, step)
    ensures Inv(Apply(s, step))
  {
    forall part ensures Holds(Apply(s, step), part) {
      match part
      case FlightPart => StepKeepsFlights(s, step);
      case ChannelPart => StepKeepsChannels(s, step);
      case KeyPart => StepKeepsKeys(s, step);
      case UsePart => StepKeepsUses(s, step);
      case SizePart => StepKeepsSize(s, step);
    }
  }

  predicate SameFetch(s: Sys, s': Sys, ch: Channel) {
    && ch in s.fetches && ch in s'.fetches
    && s'.fetches[ch].uid == s.fetches[ch].uid && s'.fetches[ch].epoch == s.fetches[ch].epoch
  }

  lemma {:induction false} RunKeepsInv(s: Sys, steps: seq<Step>)
    requires Inv(s) && Execute(s, steps).Some?
    ensures Inv(Execute(s, steps).value)
    ensures s.c.epoch <= Execute(s, steps).value.c.epoch
    ensures forall ch :: ch in s.fetches ==> SameFetch(s, Execute(s, steps).value, ch)
    decreases |steps|
  {
    if steps == [] {
    } else {
      var front := steps[..|steps| - 1];
      RunKeepsInv(s, front);
      StepKeepsInv(Execute(s, front).value, steps[|steps| - 1]);
      StepKeepsFetches(Execute(s, front).value, steps[|steps| - 1]);
    }
  }

  lemma StepKeepsFetches(s: Sys, step: Step)
    requires Holds(s, FlightPart) && Enabled(s, step)
    ensures s.c.epoch <= Apply(s, step).c.epoch
    ensures forall ch :: ch in s.fetches ==> SameFetch(s, Apply(s, step), ch)
  {
  }

  lemma StartHasInv()
    ensures Inv(Start())
  {
    forall part ensures Holds(Start(), part) {
      match part case _ =>
    }
  }

  // ---------------------------------------------------------------------------------------------
  // Main results

  /** In every run the cache holds at most 1024 keys, and a hit is the last key stored for that user since
      the last clear, stored less than 15 minutes ago. */
  lemma HitIsLatestStore(steps: seq<Step>, uid: Uid, now: Time)
    requires Execute(Start(), steps).Some?
    ensures var s := Execute(Start(), steps).value;
            && |s.c.keys| <= CAPACITY
            && (Hit(s.c, uid, now).Some? ==>
                  uid in s.stores && Hit(s.c, uid, now).value == s.stores[uid].key &&
                  s.stores[uid].epoch == s.c.epoch && now < s.stores[uid].at + TTL)
  {
    StartHasInv();
    RunKeepsInv(Start(), steps);
    assert Holds(Execute(Start(), steps).value, KeyPart);
    assert Holds(Execute(Start(), steps).value, SizePart);
  }

  // When a key is hit, read off the run

  /** The step admits a key for the user. */
  predicate AdmitsFor(s: Sys, step: Step, uid: Uid) {
    && step.Admit? && step.ch in s.fetches
    && s.fetches[step.ch].uid == uid && s.fetches[step.ch].epoch == s.c.epoch
  }

  /** The latest key admitted for a user: which, in which epoch, and when. */
  ghost function LastAdmitted(steps: seq<Step>, uid: Uid): Option<Record>
    decreases |steps|
  {
    if steps == [] then None
    else
      var front, last := steps[..|steps| - 1], steps[|steps| - 1];
      var before := Execute(Start(), front);
      if before.Some? && AdmitsFor(before.value, last, uid)
      then Some(Record(last.key, before.value.c.epoch, last.later))
      else LastAdmitted(front, uid)
  }

  /** The step takes the user's key, admitted at time `at`, out of the cache: a clear, a lookup of it or an admission of
      another when its 15 minutes are over, or an admission that has to evict and picks it. */
  predicate TakesOut(s: Sys, step: Step, uid: Uid, at: Time) {
    || step.Clear?
    || ((step.Ask? || step.Get?) && step.uid == uid && at + TTL <= step.now)
    || (&& step.Admit? && step.ch in s.fetches && s.fetches[step.ch].epoch == s.c.epoch
        && (|| at + TTL <= step.now
            || (&& MustEvict(Unexpired(s.c.keys, step.now), s.fetches[step.ch].uid)
                && Victim(step.order, Unexpired(s.c.keys, step.now)) == uid)))
  }

  /** No step since the latest admission has taken it out. */
  ghost predicate StillIn(steps: seq<Step>, uid: Uid)
    decreases |steps|
  {
    if steps == [] then false
    else
      var front, last := steps[..|steps| - 1], steps[|steps| - 1];
      var before := Execute(Start(), front);
      if before.Some? && AdmitsFor(before.value, last, uid) then true
      else
        && StillIn(front, uid) && before.Some? && LastAdmitted(front, uid).Some?
        && !TakesOut(before.value, last, uid, LastAdmitted(front, uid).value.at)
  }

  ghost predicate KeysRead(s: Sys, steps: seq<Step>, uid: Uid) {
    && (uid in s.c.keys <==> StillIn(steps, uid))
    && (if uid in s.stores then LastAdmitted(steps, uid) == Some(s.stores[uid]) else LastAdmitted(steps, uid).None?)
  }

  /** What a step does to the presence of one key. */
  lemma StepOnKey(s: Sys, step: Step, uid: Uid)
    requires Holds(s, KeyPart) && Enabled(s, step)
    ensures var s' := Apply(s, step);
            if AdmitsFor(s, step, uid)
            then uid in s'.c.keys && uid in s'.stores && s'.stores[uid] == Record(step.key, s.c.epoch, step.later)
            else && (uid in s'.stores <==> uid in s.stores) && (uid in s.stores ==> s'.stores[uid] == s.stores[uid])
                 && (uid in s'.c.keys <==> uid in s.c.keys && !TakesOut(s, step, uid, s.stores[uid].at))
  {
    if step.Admit? {
      AdmitOnKey(s, step, uid);
    }
  }

  lemma AdmitOnKey(s: Sys, step: Step, uid: Uid)
    requires Holds(s, KeyPart) && Enabled(s, step) && step.Admit?
    ensures var s' := Apply(s, step);
            if AdmitsFor(s, step, uid)
            then uid in s'.c.keys && uid in s'.stores && s'.stores[uid] == Record(step.key, s.c.epoch, step.later)
            else && (uid in s'.stores <==> uid in s.stores) && (uid in s.stores ==> s'.stores[uid] == s.stores[uid])
                 && (uid in s'.c.keys <==> uid in s.c.keys && !TakesOut(s, step, uid, s.stores[uid].at))
  {
  }

  lemma {:induction false} KeysAreRead(steps: seq<Step>, uid: Uid)
    requires Execute(Start(), steps).Some?
    ensures KeysRead(Execute(Start(), steps).value, steps, uid)
    decreases |steps|
  {
    if steps == [] {
    } else {
      var front := steps[..|steps| - 1];
      KeysAreRead(front, uid);
      StartHasInv();
      RunKeepsInv(Start(), front);
      assert Holds(Execute(Start(), front).value, KeyPart);
      StepOnKey(Execute(Start(), front).value, steps[|steps| - 1], uid);
    }
  }

  /** In every run, a lookup hits exactly when the latest key admitted for the user is less than 15 minutes old and has
      not been taken out since, and then it gives that key. */
  lemma HitIff(steps: seq<Step>, uid: Uid, now: Time)
    requires Execute(Start(), steps).Some?
    ensures var s, last := Execute(Start(), steps).value, LastAdmitted(steps, uid);
            Hit(s.c, uid, now) ==
            if StillIn(steps, uid) && last.Some? && now < last.value.at + TTL then Some(last.value.key) else None
  {
    StartHasInv();
    RunKeepsInv(Start(), steps);
    KeysAreRead(steps, uid);
    assert Holds(Execute(Start(), steps).value, KeyPart);
  }

  /** Somebody fetches the user's key in the current epoch. */
  ghost predicate Fetching(s: Sys, uid: Uid) {
    exists ch :: InAir(s.c, s.fetches, ch) && s.fetches[ch].uid == uid
  }

  /** The caller leads, on a new channel, exactly when there is no hit and nobody fetches; without a hit somebody
      fetches afterwards. */
  ghost predicate LeadsIffNobodyFetches(s: Sys, s': Sys, uid: Uid, now: Time) {
    var ch := s.c.channels;
    && (ch < s'.c.channels <==> Hit(s.c, uid, now).None? && !Fetching(s, uid))
    && (Hit(s.c, uid, now).None? ==> Fetching(s', uid))
    && (ch < s'.c.channels ==> ch !in s.fetches)
    && s'.fetches == if ch < s'.c.channels then s.fetches[ch := Fetch(uid, s.c.epoch, false, false)] else s.fetches
  }

  /** In every run, asking for a key that is not hit makes the caller the leader exactly when nobody fetches it, and
      afterwards somebody does; asking for one that is hit starts nothing. */
  lemma AskLeadsIffNobodyFetches(steps: seq<Step>, uid: Uid, now: Time)
    requires Execute(Start(), steps).Some?
    ensures var s := Execute(Start(), steps).value; LeadsIffNobodyFetches(s, Apply(s, Ask(uid, now)), uid, now)
  {
    StartHasInv();
    RunKeepsInv(Start(), steps);
    AskLeads(Execute(Start(), steps).value, uid, now);
  }

  lemma AskLeads(s: Sys, uid: Uid, now: Time)
    requires Inv(s)
    ensures LeadsIffNobodyFetches(s, Apply(s, Ask(uid, now)), uid, now)
  {
    assert Holds(s, FlightPart);
    var s' := Apply(s, Ask(uid, now));
    if uid in s.c.inFlight {
      assert InAir(s.c, s.fetches, s.c.inFlight[uid].done);
    }
    if uid in s'.c.inFlight {
      StepKeepsFlights(s, Ask(uid, now));
      assert InAir(s'.c, s'.fetches, s'.c.inFlight[uid].done);
    }
  }

  /** The position of the user's latest use, counted from 1. */
  function LastUse(uses: seq<Uid>, u: Uid): (n: nat)
    ensures n <= |uses| && (n > 0 ==> uses[n - 1] == u) && forall k :: n <= k < |uses| ==> uses[k] != u
  {
    if uses == [] then 0 else if uses[|uses| - 1] == u then |uses| else LastUse(uses[..|uses| - 1], u)
  }

  /** The key a step uses: one a lookup hits, or one an answer of this session brings. */
  ghost function UseAt(s: Sys, step: Step): seq<Uid> {
    match step
    case Ask(uid, now) => if Hit(s.c, uid, now).Some? then [uid] else []
    case Get(uid, now) => if Hit(s.c, uid, now).Some? then [uid] else []
    case Admit(ch, _, _, _, _) =>
      if ch in s.fetches && s.fetches[ch].epoch == s.c.epoch then [s.fetches[ch].uid] else []
    case _ => []
  }

  /** The uses of keys in a run: every lookup that hit and every admission, in order. */
  ghost function UsesOf(steps: seq<Step>): seq<Uid>
    decreases |steps|
  {
    if steps == [] then []
    else
      var front, last := steps[..|steps| - 1], steps[|steps| - 1];
      var before := Execute(Start(), front);
      if before.None? then [] else UsesOf(front) + UseAt(before.value, last)
  }

  lemma {:induction false} UsesAreRead(steps: seq<Step>)
    requires Execute(Start(), steps).Some?
    ensures Execute(Start(), steps).value.uses == UsesOf(steps)
    decreases |steps|
  {
    if steps == [] {
    } else {
      UsesAreRead(steps[..|steps| - 1]);
    }
  }

  /** In every run, when the unexpired entries are full and the least recently used one has a name, that
      one is evicted, whatever the iteration order. */
  lemma VictimIsLeastRecentlyUsed(steps: seq<Step>, now: Time, order: seq<Uid>)
    requires Execute(Start(), steps).Some?
    requires var live := Unexpired(Execute(Start(), steps).value.c.keys, now);
             live != map[] && IsListing(order, live.Keys) && (!Oldest(live, "") || |live| == 1)
    ensures var s := Execute(Start(), steps).value;
            var live := Unexpired(s.c.keys, now);
            var v := Victim(order, live);
            v in live && forall u :: u in live ==> LastUse(UsesOf(steps), v) <= LastUse(UsesOf(steps), u)
  {
    UsesAreRead(steps);
    StartHasInv();
    RunKeepsInv(Start(), steps);
    var s := Execute(Start(), steps).value;
    LiveUses(s, now);
    EvictsOldestIff(Unexpired(s.c.keys, now));
  }

  lemma LiveUses(s: Sys, now: Time)
    requires Inv(s)
    ensures var live := Unexpired(s.c.keys, now);
            UsesDistinct(live) && forall u :: u in live ==> live[u].used == LastUse(s.uses, u)
  {
    assert Holds(s, UsePart);
  }

  /** A result fetched before a clear is never admitted after it. */
  lemma StaleFetchIsNotAdmitted(
      before: seq<Step>, ch: Channel, after: seq<Step>, key: Key, now: Time, later: Time, order: seq<Uid>)
    requires Execute(Start(), before).Some? && ch in Execute(Start(), before).value.fetches
    requires Execute(Apply(Execute(Start(), before).value, Clear), after).Some?
    requires var s := Execute(Apply(Execute(Start(), before).value, Clear), after).value;
             Enabled(s, Admit(ch, key, now, later, order))
    ensures var s := Execute(Apply(Execute(Start(), before).value, Clear), after).value;
            Apply(s, Admit(ch, key, now, later, order)).c == s.c
  {
    StartHasInv();
    RunKeepsInv(Start(), before);
    var s := Execute(Start(), before).value;
    assert Holds(s, FlightPart);
    StepKeepsInv(s, Clear);
    RunKeepsInv(Apply(s, Clear), after);
  }

  /** In every run no channel is closed twice, and none is closed while a follower may still join it. A flight
      that is no longer in the cache, whether its leader finished or a clear took it, has its channel closed or
      about to be. One that is still there has an unfinished leader of the current epoch, and a user has at most
      one of those. */
  lemma FlightsCloseOnce(steps: seq<Step>, ch: Channel, ch2: Channel)
    requires Execute(Start(), steps).Some?
    ensures var s := Execute(Start(), steps).value;
            && s.closed[ch] <= 1
            && (ch in s.closed ==> !InAir(s.c, s.fetches, ch) && ch !in s.closing)
            && (ch in s.fetches && s.fetches[ch].done && ch !in s.closing ==> s.closed[ch] == 1)
            && (ch in s.fetches && !InAir(s.c, s.fetches, ch) && ch !in s.closing ==> s.closed[ch] == 1)
            && (InAir(s.c, s.fetches, ch) ==> s.fetches[ch].epoch == s.c.epoch && !s.fetches[ch].done)
            && (ch in s.fetches && ch2 in s.fetches && s.fetches[ch].uid == s.fetches[ch2].uid ==>
                  s.fetches[ch].epoch == s.fetches[ch2].epoch == s.c.epoch ==>
                    !s.fetches[ch].done && !s.fetches[ch2].done ==> ch == ch2)
  {
    StartHasInv();
    RunKeepsInv(Start(), steps);
    assert Holds(Execute(Start(), steps).value, FlightPart);
    assert Holds(Execute(Start(), steps).value, ChannelPart);
  }

  // ---------------------------------------------------------------------------------------------
  // A run in which the least recently used entry survives

  /** Different names for different users; the first is empty. */
  function Name(k: nat): (u: Uid)
    ensures |u| == k
  {
    seq(k, _ => 'a')
  }

  /** The first `n` of them have been fetched and stored, one after another, at time zero. */
  ghost predicate FilledTo(s: Sys, n: nat) {
    && |s.c.keys| == n && s.c.sequence == n && s.c.channels == n && s.c.epoch == 0
    && (forall u :: u in s.c.keys <==> |u| < n && u == Name(|u|))
    && (forall u :: u in s.c.keys ==> s.c.keys[u] == Entry(0, TTL, |u| + 1))
    && (forall u :: u in s.c.inFlight ==> u in s.c.keys)
  }

  lemma ExecuteAppend(steps: seq<Step>, step: Step)
    requires Execute(Start(), steps).Some? && Enabled(Execute(Start(), steps).value, step)
    ensures Execute(Start(), steps + [step]) == Some(Apply(Execute(Start(), steps).value, step))
  {
    assert (steps + [step])[..|steps|] == steps;
  }

  lemma AllUnexpired(s: Sys, n: nat)
    requires FilledTo(s, n)
    ensures Unexpired(s.c.keys, 0) == s.c.keys
  {
  }

  /** One more user asks and is stored. */
  lemma FillOne(s: Sys, n: nat)
    requires FilledTo(s, n) && n < CAPACITY
    ensures var asked := Apply(s, Ask(Name(n), 0));
            Enabled(asked, Admit(n, 0, 0, 0, [])) && FilledTo(Apply(asked, Admit(n, 0, 0, 0, [])), n + 1)
  {
    var asked := Apply(s, Ask(Name(n), 0));
    assert Name(n) !in s.c.keys;
    assert asked.c.keys == s.c.keys;
    AllUnexpired(s, n);
    var filled := Apply(asked, Admit(n, 0, 0, 0, []));
    assert filled.c.keys == s.c.keys[Name(n) := Entry(0, TTL, n + 1)];
  }

  ghost predicate Fills(steps: seq<Step>, n: nat) {
    Execute(Start(), steps).Some? && FilledTo(Execute(Start(), steps).value, n)
  }

  lemma NothingFills()
    ensures Fills([], 0)
  {
  }

  lemma FillMore(steps: seq<Step>, n: nat) returns (more: seq<Step>)
    requires Fills(steps, n) && n < CAPACITY
    ensures Fills(more, n + 1)
  {
    FillOne(Execute(Start(), steps).value, n);
    ExecuteAppend(steps, Ask(Name(n), 0));
    ExecuteAppend(steps + [Ask(Name(n), 0)], Admit(n, 0, 0, 0, []));
    more := steps + [Ask(Name(n), 0)] + [Admit(n, 0, 0, 0, [])];
  }

  lemma {:induction false} Fill(n: nat) returns (steps: seq<Step>)
    requires n <= CAPACITY
    ensures Fills(steps, n)
  {
    if n == 0 {
      NothingFills();
      steps := [];
    } else {
      steps := Fill(n - 1);
      steps := FillMore(steps, n - 1);
    }
  }

  lemma EmptyIsOldest(s: Sys)
    requires FilledTo(s, CAPACITY)
    ensures "" in s.c.keys && Oldest(s.c.keys, "") && UsesDistinct(s.c.keys)
  {
    assert Name(0) == "";
  }

  /** The next key to be admitted makes the cache evict, and in some iteration order not the oldest entry. */
  ghost predicate OldestSurvives(s: Sys, admit: Step) {
    && admit.Admit? && Enabled(s, admit)
    && |s.c.keys| == CAPACITY && Oldest(s.c.keys, "") && s.fetches[admit.ch].uid !in s.c.keys
    && "" in Apply(s, admit).c.keys && Apply(s, admit).c.keys.Keys != s.c.keys.Keys
  }

  lemma FullCacheKeepsEmpty(s: Sys) returns (order: seq<Uid>)
    requires FilledTo(s, CAPACITY)
    ensures OldestSurvives(Apply(s, Ask(Name(CAPACITY), 0)), Admit(CAPACITY, 0, 0, 0, order))
  {
    var asked := Apply(s, Ask(Name(CAPACITY), 0));
    assert Name(CAPACITY) !in s.c.keys;
    assert asked.c.keys == s.c.keys;
    AllUnexpired(s, CAPACITY);
    EmptyIsOldest(s);
    MissesEmptyOldest(s.c.keys);
    order :| IsListing(order, s.c.keys.Keys) && !Oldest(s.c.keys, Victim(order, s.c.keys));
    assert Name(CAPACITY) in Apply(asked, Admit(CAPACITY, 0, 0, 0, order)).c.keys;
  }

  /** A run from the empty cache: a full cache whose least recently used entry has the empty uid, and a key for
      another user that makes some other entry go. */
  lemma EmptyUidSurvives() returns (steps: seq<Step>, order: seq<Uid>)
    ensures Execute(Start(), steps).Some?
    ensures OldestSurvives(Execute(Start(), steps).value, Admit(CAPACITY, 0, 0, 0, order))
  {
    var filled := Fill(CAPACITY);
    order := FullCacheKeepsEmpty(Execute(Start(), filled).value);
    ExecuteAppend(filled, Ask(Name(CAPACITY), 0));
    steps := filled + [Ask(Name(CAPACITY), 0)];
  }
}
