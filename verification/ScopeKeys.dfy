/** The chat key generations of client/e2e.go: which generations are held, which one is sent under, which
    ones the server refused, and what a ciphertext resolves to while all of that changes. */
module ScopeKeys {
  import opened Basics

  type Key = nat   // identity of 32 bytes of key material

  /** A key generation of a scope (a channel, or 0 for the global chat). */
  datatype Gen = Gen(scope: int, id: nat)

  /** The number of the wake channel: channels below it have been closed. */
  datatype Store = Store(keys: map<Gen, Key>, latest: map<int, nat>, refused: set<Gen>, updated: nat)

  /** What the client shows for a ciphertext it can decide on. */
  datatype Text = Plain(text: string) | NoAccess | Undecryptable

  datatype Op =
    | Push(gen: Gen, key: Key)                // put: the scope's current generation
    | Archive(gen: Gen, key: Key)             // putGen: a generation from history, pins or a bundle
    | Refuse(scope: int, ids: seq<nat>)       // markRefused
    | Land(gen: Gen)                          // finishQueuedPull: a pull is over, with or without its key

  function EmptyStore(): Store {
    Store(map[], map[], {}, 0)
  }

  function Put(s: Store, g: Gen, key: Key): Store {
    s.(keys := s.keys[g := key], refused := s.refused - {g},
       latest := if g.scope !in s.latest || g.id > s.latest[g.scope] then s.latest[g.scope := g.id] else s.latest,
       updated := s.updated + 1)
  }

  function PutGen(s: Store, g: Gen, key: Key): Store {
    s.(keys := s.keys[g := key], refused := s.refused - {g}, updated := s.updated + 1)
  }

  function MarkRefused(s: Store, scope: int, ids: seq<nat>): Store {
    if ids == [] then s
    else s.(refused := s.refused + set id | id in ids && Gen(scope, id) !in s.keys :: Gen(scope, id),
            updated := s.updated + 1)
  }

  /** The wake channel is closed and replaced. */
  function Woken(s: Store): Store {
    s.(updated := s.updated + 1)
  }

  function After(s: Store, ops: seq<Op>): Store
    decreases |ops|
  {
    if ops == [] then s
    else
      var before := After(s, ops[..|ops| - 1]);
      match ops[|ops| - 1]
      case Push(g, key) => Put(before, g, key)
      case Archive(g, key) => PutGen(before, g, key)
      case Refuse(scope, ids) => MarkRefused(before, scope, ids)
      case Land(_) => Woken(before)
  }

  function CurrentOf(s: Store, scope: int): Option<(nat, Key)> {
    if scope in s.latest && Gen(scope, s.latest[scope]) in s.keys
    then Some((s.latest[scope], s.keys[Gen(scope, s.latest[scope])])) else None
  }

  class ScopeKeyStore {
    var keys: map<Gen, Key>
    var latest: map<int, nat>
    var refused: set<Gen>
    var updated: nat

    ghost function View(): Store
      reads this
    {
      Store(keys, latest, refused, updated)
    }

    constructor ()
      ensures View() == EmptyStore()
    {
      keys, latest, refused, updated := map[], map[], {}, 0;
    }

    method StoreKey(g: Gen, key: Key)
      modifies this`keys, this`refused
      ensures keys == old(keys)[g := key] && refused == old(refused) - {g}
    {
      keys := keys[g := key];
      refused := refused - {g};
    }

    method Wake()
      modifies this`updated
      ensures View() == Woken(old(View()))
    {
      updated := updated + 1;
    }

    method PutCurrent(g: Gen, key: Key)
      modifies this
      ensures View() == Put(old(View()), g, key)
    {
      StoreKey(g, key);
      if g.scope !in latest || g.id > latest[g.scope] {
        latest := latest[g.scope := g.id];
      }
      Wake();
    }

    method PutArchival(g: Gen, key: Key)
      modifies this
      ensures View() == PutGen(old(View()), g, key)
    {
      StoreKey(g, key);
      Wake();
    }

    method Mark(scope: int, ids: seq<nat>)
      modifies this`refused, this`updated
      ensures View() == MarkRefused(old(View()), scope, ids)
    {
      if |ids| == 0 {
        return;
      }
      for i := 0 to |ids|
        invariant refused == old(refused) + set id | id in ids[..i] && Gen(scope, id) !in keys :: Gen(scope, id)
        invariant updated == old(updated)
      {
        assert ids[..i + 1] == ids[..i] + [ids[i]];
        if Gen(scope, ids[i]) !in keys {
          refused := refused + {Gen(scope, ids[i])};
        }
      }
      assert ids[..|ids|] == ids;
      Wake();
    }

    /** The generation to send under, with its key. Whatever history led here, it is the largest generation ever
        pushed for the scope, with the key last installed for it; there is none only if nothing was pushed. */
    method Current(scope: int) returns (r: Option<(nat, Key)>)
      ensures forall ops :: View() == After(EmptyStore(), ops) ==> LargestPushed(ops, scope, r)
    {
      forall ops: seq<Op> | View() == After(EmptyStore(), ops)
        ensures LargestPushed(ops, scope, CurrentOf(View(), scope))
      {
        CurrentIsLargestPushed(ops, scope);
      }
      if scope !in latest || Gen(scope, latest[scope]) !in keys {
        return None;
      }
      return Some((latest[scope], keys[Gen(scope, latest[scope])]));
    }
  }

  // ---------------------------------------------------------------------------------------------
  // The store is what its history says, in any order

  predicate Installs(op: Op, g: Gen) {
    (op.Push? || op.Archive?) && op.gen == g
  }

  predicate Pushes(op: Op, g: Gen) {
    op.Push? && op.gen == g
  }

  predicate Withholds(op: Op, g: Gen) {
    op.Refuse? && op.scope == g.scope && g.id in op.ids
  }

  predicate Happened(ops: seq<Op>, p: Op -> bool) {
    exists i :: 0 <= i < |ops| && p(ops[i])
  }

  lemma HappenedLast(ops: seq<Op>, p: Op -> bool)
    requires ops != []
    ensures Happened(ops, p) <==> Happened(ops[..|ops| - 1], p) || p(ops[|ops| - 1])
  {
    var front := ops[..|ops| - 1];
    if Happened(front, p) {
      var i :| 0 <= i < |front| && p(front[i]);
      assert p(ops[i]);
    }
    if Happened(ops, p) && !p(ops[|ops| - 1]) {
      var i :| 0 <= i < |ops| && p(ops[i]);
      assert p(front[i]);
    }
  }

  /** A generation is held exactly when it was ever installed, and refused exactly when it was ever
      refused and never installed: a refusal cannot revoke, and an install lifts it. */
  lemma {:induction false} HeldAndRefused(ops: seq<Op>, g: Gen)
    ensures g in After(EmptyStore(), ops).keys <==> Happened(ops, (op: Op) => Installs(op, g))
    ensures g in After(EmptyStore(), ops).refused <==>
            Happened(ops, (op: Op) => Withholds(op, g)) && !Happened(ops, (op: Op) => Installs(op, g))
    decreases |ops|
  {
    if ops == [] {
    } else {
      HeldAndRefused(ops[..|ops| - 1], g);
      HappenedLast(ops, (op: Op) => Installs(op, g));
      HappenedLast(ops, (op: Op) => Withholds(op, g));
      var before := After(EmptyStore(), ops[..|ops| - 1]);
      match ops[|ops| - 1]
      case Refuse(scope, ids) =>
        assert g in MarkRefused(before, scope, ids).refused <==>
               g in before.refused || (g.scope == scope && g.id in ids && g !in before.keys);
      case _ =>
    }
  }

  /** A scope is sent under the largest generation ever pushed for it, and that generation's key is held. */
  lemma {:induction false} SendsUnderLargestPushed(ops: seq<Op>, scope: int, id: nat)
    ensures var s := After(EmptyStore(), ops);
            && (Happened(ops, (op: Op) => Pushes(op, Gen(scope, id))) ==> scope in s.latest && id <= s.latest[scope])
            && (scope in s.latest ==> Happened(ops, (op: Op) => Pushes(op, Gen(scope, s.latest[scope]))))
            && (scope in s.latest ==> Gen(scope, s.latest[scope]) in s.keys)
    decreases |ops|
  {
    if ops == [] {
    } else {
      var s := After(EmptyStore(), ops);
      SendsUnderLargestPushed(ops[..|ops| - 1], scope, id);
      HappenedLast(ops, (op: Op) => Pushes(op, Gen(scope, id)));
      if scope in s.latest {
        HappenedLast(ops, (op: Op) => Pushes(op, Gen(scope, s.latest[scope])));
      }
    }
  }

  /** The key last installed for a generation. */
  function LastKey(ops: seq<Op>, g: Gen): Option<Key> {
    if ops == [] then None
    else if Installs(ops[|ops| - 1], g) then Some(ops[|ops| - 1].key)
    else LastKey(ops[..|ops| - 1], g)
  }

  lemma {:induction false} HeldKeyIsLast(ops: seq<Op>, g: Gen)
    ensures var s := After(EmptyStore(), ops); LastKey(ops, g) == if g in s.keys then Some(s.keys[g]) else None
    decreases |ops|
  {
    if ops == [] {
    } else {
      HeldKeyIsLast(ops[..|ops| - 1], g);
    }
  }

  /** `r` is the largest generation pushed for the scope, with the key last installed for it. */
  ghost predicate LargestPushed(ops: seq<Op>, scope: int, r: Option<(nat, Key)>) {
    match r
    case None => forall id: nat :: !Happened(ops, (op: Op) => Pushes(op, Gen(scope, id)))
    case Some((id, key)) =>
      && Happened(ops, (op: Op) => Pushes(op, Gen(scope, id)))
      && (forall other: nat :: Happened(ops, (op: Op) => Pushes(op, Gen(scope, other))) ==> other <= id)
      && LastKey(ops, Gen(scope, id)) == Some(key)
  }

  lemma CurrentIsLargestPushed(ops: seq<Op>, scope: int)
    ensures LargestPushed(ops, scope, CurrentOf(After(EmptyStore(), ops), scope))
  {
    var s := After(EmptyStore(), ops);
    forall id: nat
      ensures Happened(ops, (op: Op) => Pushes(op, Gen(scope, id))) ==> scope in s.latest && id <= s.latest[scope]
    {
      SendsUnderLargestPushed(ops, scope, id);
    }
    SendsUnderLargestPushed(ops, scope, 0);
    if scope in s.latest {
      HeldKeyIsLast(ops, Gen(scope, s.latest[scope]));
    }
  }

  lemma {:induction false} AfterAppend(s: Store, first: seq<Op>, then_: seq<Op>)
    ensures After(s, first + then_) == After(After(s, first), then_)
    decreases |then_|
  {
    if then_ == [] {
      assert first + then_ == first;
    } else {
      AfterAppend(s, first, then_[..|then_| - 1]);
      assert (first + then_)[..|first + then_| - 1] == first + then_[..|then_| - 1];
    }
  }

  /** The send generation never decreases, and no generation is ever forgotten. */
  lemma {:induction false} SendGenerationNeverDecreases(s: Store, ops: seq<Op>, scope: int)
    ensures scope in s.latest ==> scope in After(s, ops).latest && s.latest[scope] <= After(s, ops).latest[scope]
    ensures s.keys.Keys <= After(s, ops).keys.Keys
    decreases |ops|
  {
    if ops == [] {
    } else {
      SendGenerationNeverDecreases(s, ops[..|ops| - 1], scope);
    }
  }

  lemma SameHappened(a: seq<Op>, b: seq<Op>, p: Op -> bool)
    requires multiset(a) == multiset(b)
    ensures Happened(a, p) <==> Happened(b, p)
  {
    if Happened(a, p) {
      var i :| 0 <= i < |a| && p(a[i]);
      assert a[i] in multiset(a);
      assert a[i] in b;
    }
    if Happened(b, p) {
      var i :| 0 <= i < |b| && p(b[i]);
      assert b[i] in multiset(b);
      assert b[i] in a;
    }
  }

  /** Deliveries in any other order hold, refuse and send under the same generations. */
  lemma DeliveryOrderDoesNotMatter(a: seq<Op>, b: seq<Op>, g: Gen)
    requires multiset(a) == multiset(b)
    ensures var s, t := After(EmptyStore(), a), After(EmptyStore(), b);
            && (g in s.keys <==> g in t.keys) && (g in s.refused <==> g in t.refused)
            && (g.scope in s.latest <==> g.scope in t.latest)
            && (g.scope in s.latest ==> s.latest[g.scope] == t.latest[g.scope])
  {
    var s, t := After(EmptyStore(), a), After(EmptyStore(), b);
    HeldAndRefused(a, g);
    HeldAndRefused(b, g);
    SameHappened(a, b, (op: Op) => Installs(op, g));
    SameHappened(a, b, (op: Op) => Withholds(op, g));
    SendsUnderLargestPushed(a, g.scope, g.id);
    SendsUnderLargestPushed(b, g.scope, g.id);
    if g.scope in s.latest {
      SameHappened(a, b, (op: Op) => Pushes(op, Gen(g.scope, s.latest[g.scope])));
      SendsUnderLargestPushed(b, g.scope, s.latest[g.scope]);
    }
    if g.scope in t.latest {
      SameHappened(a, b, (op: Op) => Pushes(op, Gen(g.scope, t.latest[g.scope])));
      SendsUnderLargestPushed(a, g.scope, t.latest[g.scope]);
    }
  }

  // ---------------------------------------------------------------------------------------------
  // Resolving a ciphertext

  /** What the ciphertext resolves to in one state of the store; None means the generation is unknown and
      worth pulling. */
  function Resolve(s: Store, g: Gen, open: Key -> Option<string>): Option<Text> {
    if g in s.refused then Some(NoAccess)
    else if g !in s.keys then None
    else if open(s.keys[g]).Some? then Some(Plain(open(s.keys[g]).value))
    else Some(Undecryptable)
  }

  /** After every history of the store: a generation that was ever installed resolves under the key last installed for
      it, to its plaintext exactly when that key opens the ciphertext; one that was only ever refused is shown as no
      access; one the store never heard of is worth pulling. */
  lemma ResolveIsExact(ops: seq<Op>, g: Gen, open: Key -> Option<string>)
    ensures var r, key := Resolve(After(EmptyStore(), ops), g, open), LastKey(ops, g);
            if key.Some? then
              r == Some(if open(key.value).Some? then Plain(open(key.value).value) else Undecryptable)
            else if Happened(ops, (op: Op) => Withholds(op, g)) then r == Some(NoAccess)
            else r == None
  {
    HeldAndRefused(ops, g);
    HeldKeyIsLast(ops, g);
  }

  /** resolveScopeText takes the store's lock twice: the refusal is read in one state and the key in a
      later one. */
  function ResolveScopeText(first: Store, second: Store, g: Gen, open: Key -> Option<string>): Option<Text> {
    if g in first.refused then Some(NoAccess)
    else if g !in second.keys then None
    else if open(second.keys[g]).Some? then Some(Plain(open(second.keys[g]).value))
    else Some(Undecryptable)
  }

  /** The two sections together still read one state of the store: the first or the second. */
  lemma ResolveIsAtomic(ops: seq<Op>, meanwhile: seq<Op>, g: Gen, open: Key -> Option<string>)
    ensures var first := After(EmptyStore(), ops);
            var second := After(first, meanwhile);
            var r := ResolveScopeText(first, second, g, open);
            r == Resolve(first, g, open) || r == Resolve(second, g, open)
  {
    var first := After(EmptyStore(), ops);
    AfterAppend(EmptyStore(), ops, meanwhile);
    HeldAndRefused(ops + meanwhile, g);
    SendGenerationNeverDecreases(first, meanwhile, g.scope);
  }

  lemma {:induction false} SameKey(ops: seq<Op>, later: seq<Op>, g: Gen)
    requires g in After(EmptyStore(), ops).keys
    requires forall i :: 0 <= i < |later| && Installs(later[i], g) ==> later[i].key == After(EmptyStore(), ops).keys[g]
    ensures g in After(EmptyStore(), ops + later).keys
    ensures After(EmptyStore(), ops + later).keys[g] == After(EmptyStore(), ops).keys[g]
    decreases |later|
  {
    if later == [] {
      assert ops + later == ops;
    } else {
      SameKey(ops, later[..|later| - 1], g);
      assert (ops + later)[..|ops + later| - 1] == ops + later[..|later| - 1];
    }
  }

  /** Once a ciphertext resolves under a held key, no later push, archival install or refusal changes the
      result, unless the key of that same generation is replaced. */
  lemma ResolvedTextStays(ops: seq<Op>, later: seq<Op>, g: Gen, open: Key -> Option<string>)
    requires g in After(EmptyStore(), ops).keys
    requires forall i :: 0 <= i < |later| && Installs(later[i], g) ==> later[i].key == After(EmptyStore(), ops).keys[g]
    ensures var s, t := After(EmptyStore(), ops), After(EmptyStore(), ops + later);
            && Resolve(s, g, open) == Resolve(t, g, open)
            && Resolve(t, g, open).Some? && Resolve(t, g, open) != Some(NoAccess)
  {
    HeldAndRefused(ops, g);
    HeldAndRefused(ops + later, g);
    SameKey(ops, later, g);
  }

  /** The operation closes the wake channel: every install does, every refusal of something, and the end of
      every pull. */
  predicate Wakes(op: Op) {
    op.Refuse? ==> op.ids != []
  }

  /** A wake channel taken before a pull is closed exactly when an install, a refusal or the end of a pull follows,
      whether or not it changes anything, so the answer cannot land unnoticed between asking and waiting. */
  lemma {:induction false} WakeIsNotLost(s: Store, ops: seq<Op>)
    ensures s.updated <= After(s, ops).updated
    ensures s.updated < After(s, ops).updated <==> Happened(ops, (op: Op) => Wakes(op))
    decreases |ops|
  {
    if ops == [] {
    } else {
      WakeIsNotLost(s, ops[..|ops| - 1]);
      HappenedLast(ops, (op: Op) => Wakes(op));
    }
  }
}
