/** Block leases (src/cluster.rs, `start`, `verify_leases`, `ensure_local_sender`, `shutdown`): which node may write a
    block's objects is decided by numbered lease keys that are created if absent and never removed.

    Each event is one step of one node; a node is known by its address and has one incarnation at a time. */
module Leases {
  import opened Bytes

  type Block = nat
  type Addr = nat

  /** `_lease/b<block>/e<epoch>.json`, holding an address, and `_lease/b<block>/e<epoch>.released`. */
  datatype Store = Store(leases: map<(Block, nat), Addr>, tombs: set<(Block, nat)>)

  datatype LeaseState = LeaseState(epoch: nat, addr: Addr, released: bool)

  datatype Phase = Down | Releasing | Serving

  /** `seen` is what the node read of the leases at boot, `found` what it has read since, and not yet acted on, of a
      lease it might have forgotten. */
  datatype Node = Node(phase: Phase, epochs: map<Block, nat>,
                       seen: map<Block, LeaseState>, found: map<Block, LeaseState>)

  datatype World = World(store: Store, nodes: map<Addr, Node>)

  const OFF := Node(Down, map[], map[], map[])

  function At(w: World, a: Addr): Node {
    if a in w.nodes then w.nodes[a] else OFF
  }

  ghost predicate IsMax(s: Store, b: Block, e: nat) {
    (b, e) in s.leases && forall f: nat :: (b, f) in s.leases ==> f <= e
  }

  /** What one listing says of a block's current lease. */
  ghost predicate Reads(s: Store, b: Block, l: LeaseState) {
    IsMax(s, b, l.epoch) && s.leases[(b, l.epoch)] == l.addr && (l.released <==> (b, l.epoch) in s.tombs)
  }

  ghost predicate ReadsAll(s: Store, seen: map<Block, LeaseState>) {
    forall b: Block :: if b in seen then Reads(s, b, seen[b]) else forall e: nat :: (b, e) !in s.leases
  }

  /** No lease of a held block is newer than the one held. */
  ghost predicate Passes(s: Store, n: Node) {
    forall b, e: nat :: b in n.epochs && (b, e) in s.leases ==> e <= n.epochs[b]
  }

  /** A block is up for the taking: nobody has it, it was released, it is under this address, or its holder is dead. */
  predicate Claimable(a: Addr, seen: map<Block, LeaseState>, b: Block, holderAlive: bool) {
    b in seen ==> seen[b].released || seen[b].addr == a || !holderAlive
  }

  function NextEpoch(seen: map<Block, LeaseState>, b: Block): nat {
    if b in seen then seen[b].epoch + 1 else 1
  }

  datatype Event =
    | Boot(a: Addr, seen: map<Block, LeaseState>)
    | BootRelease(a: Addr, b: Block, landed: bool)
    | Serve(a: Addr)
    | Claim(a: Addr, b: Block, holderAlive: bool)
    | Look(a: Addr, b: Block, l: LeaseState)
    | Readopt(a: Addr, b: Block)
    | Verify(a: Addr)
    | Shutdown(a: Addr, marked: set<Block>)
    | Crash(a: Addr)

  ghost predicate Can(w: World, e: Event) {
    var n := At(w, e.a);
    match e
    case Boot(a, seen) => n.phase.Down? && ReadsAll(w.store, seen)
    case BootRelease(a, b, landed) => n.phase.Releasing? && b in n.seen && n.seen[b].addr == a && !n.seen[b].released
    case Serve(a) => n.phase.Releasing?
    case Claim(a, b, holderAlive) => n.phase.Serving? && Claimable(a, n.seen, b, holderAlive)
    case Look(a, b, l) => n.phase.Serving? && b !in n.epochs && Reads(w.store, b, l)
    case Readopt(a, b) => n.phase.Serving? && b in n.found && n.found[b].addr == a && !n.found[b].released
    case Verify(a) => n.phase.Serving?
    case Shutdown(a, marked) => !n.phase.Down?
    case Crash(a) => true
  }

  function Create(s: Store, b: Block, e: nat, a: Addr): Store {
    if (b, e) in s.leases then s else s.(leases := s.leases[(b, e) := a])
  }

  function Held(n: Node, bs: set<Block>): set<(Block, nat)> {
    set b | b in bs && b in n.epochs :: (b, n.epochs[b])
  }

  ghost function Do(w: World, e: Event): World {
    var a, n := e.a, At(w, e.a);
    match e
    case Boot(_, seen) => w.(nodes := w.nodes[a := Node(Releasing, map[], seen, map[])])
    case BootRelease(_, b, landed) =>
      if b !in n.seen then w else
      w.(store := w.store.(tombs := w.store.tombs + if landed then {(b, n.seen[b].epoch)} else {}),
         nodes := w.nodes[a := n.(seen := n.seen[b := n.seen[b].(released := true)])])
    case Serve(_) => w.(nodes := w.nodes[a := n.(phase := Serving)])
    case Claim(_, b, _) =>
      var epoch := NextEpoch(n.seen, b);
      w.(store := Create(w.store, b, epoch, a),
         nodes := if (b, epoch) in w.store.leases then w.nodes else w.nodes[a := n.(epochs := n.epochs[b := epoch])])
    case Look(_, b, l) => w.(nodes := w.nodes[a := n.(found := n.found[b := l])])
    case Readopt(_, b) =>
      if b !in n.found then w else w.(nodes := w.nodes[a := n.(epochs := n.epochs[b := n.found[b].epoch])])
    case Verify(_) => if Passes(w.store, n) then w else w.(nodes := w.nodes[a := OFF])
    case Shutdown(_, marked) =>
      w.(store := w.store.(tombs := w.store.tombs + Held(n, marked)), nodes := w.nodes[a := OFF])
    case Crash(_) => w.(nodes := w.nodes[a := OFF])
  }

  // ----- the invariant

  /** The epochs of a block are exactly 1, 2, ... up to the latest. */
  ghost predicate Contiguous(s: Store) {
    forall b, e: nat :: (b, e) in s.leases ==> e >= 1 && (e > 1 ==> (b, e - 1) in s.leases)
  }

  /** Whatever was read of a lease still stands: leases are never changed. */
  ghost predicate StillThere(s: Store, b: Block, l: LeaseState) {
    (b, l.epoch) in s.leases && s.leases[(b, l.epoch)] == l.addr
  }

  ghost predicate SeenOk(s: Store, a: Addr, n: Node) {
    && (forall b :: b in n.seen ==> StillThere(s, b, n.seen[b]))
    && (forall b :: b in n.seen && n.seen[b].released && n.seen[b].addr != a ==> (b, n.seen[b].epoch) in s.tombs)
  }

  ghost predicate FoundOk(s: Store, a: Addr, n: Node) {
    && (forall b :: b in n.found ==> StillThere(s, b, n.found[b]))
    && (forall b :: b in n.found && n.found[b].addr == a && !n.found[b].released ==> (b, n.found[b].epoch) !in s.tombs)
  }

  /** A node holds only leases that were created in its name and that have not been released. */
  ghost predicate HeldOk(s: Store, a: Addr, n: Node) {
    forall b :: b in n.epochs ==>
      (b, n.epochs[b]) in s.leases && s.leases[(b, n.epochs[b])] == a && (b, n.epochs[b]) !in s.tombs
  }

  ghost predicate NodeOk(s: Store, a: Addr, n: Node) {
    && SeenOk(s, a, n) && FoundOk(s, a, n) && HeldOk(s, a, n)
    && (!n.phase.Serving? ==> n.epochs == map[] && n.found == map[])
  }

  ghost predicate TombsOk(s: Store) {
    forall k :: k in s.tombs ==> k in s.leases
  }

  ghost predicate Inv(w: World) {
    Contiguous(w.store) && TombsOk(w.store) && forall a: Addr :: NodeOk(w.store, a, At(w, a))
  }

  // ----- every event keeps it

  /** A lease is only ever added, and a tombstone only for a lease of `a`. */
  ghost predicate GrowsBy(s: Store, s': Store, a: Addr) {
    && s.leases.Keys <= s'.leases.Keys && (forall k :: k in s.leases ==> s'.leases[k] == s.leases[k])
    && s.tombs <= s'.tombs && (forall k :: k in s'.tombs && k !in s.tombs ==> k in s.leases && s.leases[k] == a)
  }

  lemma OthersOk(s: Store, s': Store, a: Addr, c: Addr, n: Node)
    requires GrowsBy(s, s', a) && NodeOk(s, c, n) && c != a
    ensures NodeOk(s', c, n)
  {
  }

  /** New leases with no new tombstones disturb nobody. */
  lemma LeasesOnly(s: Store, s': Store, c: Addr, n: Node)
    requires NodeOk(s, c, n) && s'.tombs == s.tombs && TombsOk(s)
    requires s.leases.Keys <= s'.leases.Keys && forall k :: k in s.leases ==> s'.leases[k] == s.leases[k]
    ensures NodeOk(s', c, n)
  {
  }

  lemma ClaimKeeps(w: World, a: Addr, b: Block)
    requires Inv(w) && At(w, a).phase.Serving?
    ensures Inv(Do(w, Claim(a, b, false)))
  {
    var n, s := At(w, a), w.store;
    assert NodeOk(s, a, n);
    var epoch := NextEpoch(n.seen, b);
    var w' := Do(w, Claim(a, b, false));
    if (b, epoch) !in s.leases {
      assert b in n.seen ==> StillThere(s, b, n.seen[b]);
      forall c: Addr ensures NodeOk(w'.store, c, At(w', c)) {
        LeasesOnly(s, w'.store, c, At(w, c));
      }
    } else {
      assert w' == w;
    }
  }

  lemma ReleaseKeeps(w: World, a: Addr, b: Block, landed: bool)
    requires Inv(w) && Can(w, BootRelease(a, b, landed))
    ensures Inv(Do(w, BootRelease(a, b, landed)))
  {
    var w', n := Do(w, BootRelease(a, b, landed)), At(w, a);
    assert NodeOk(w.store, a, n);
    assert StillThere(w.store, b, n.seen[b]);
    forall c: Addr ensures NodeOk(w'.store, c, At(w', c)) {
      assert NodeOk(w.store, c, At(w, c));
      if c != a { OthersOk(w.store, w'.store, a, c, At(w, c)); }
    }
  }

  lemma ShutdownKeeps(w: World, a: Addr, landed: set<Block>)
    requires Inv(w)
    ensures Inv(Do(w, Shutdown(a, landed)))
  {
    var w', n := Do(w, Shutdown(a, landed)), At(w, a);
    assert NodeOk(w.store, a, n);
    forall k | k in Held(n, landed) ensures k in w.store.leases && w.store.leases[k] == a {}
    forall c: Addr ensures NodeOk(w'.store, c, At(w', c)) {
      assert NodeOk(w.store, c, At(w, c));
      if c != a { OthersOk(w.store, w'.store, a, c, At(w, c)); }
    }
  }

  lemma OneNodeChanges(w: World, a: Addr, n: Node)
    requires Inv(w) && NodeOk(w.store, a, n)
    ensures Inv(w.(nodes := w.nodes[a := n]))
  {
    var w' := w.(nodes := w.nodes[a := n]);
    forall c: Addr ensures NodeOk(w'.store, c, At(w', c)) { assert NodeOk(w.store, c, At(w, c)); }
  }

  lemma EventKeepsInv(w: World, e: Event)
    requires Inv(w) && Can(w, e)
    ensures Inv(Do(w, e))
  {
    var a, n := e.a, At(w, e.a);
    assert NodeOk(w.store, a, n);
    match e
    case Boot(_, seen) => OneNodeChanges(w, a, Node(Releasing, map[], seen, map[]));
    case BootRelease(_, b, landed) => ReleaseKeeps(w, a, b, landed);
    case Serve(_) => OneNodeChanges(w, a, n.(phase := Serving));
    case Claim(_, b, alive) => ClaimKeeps(w, a, b);
    case Look(_, b, l) => OneNodeChanges(w, a, n.(found := n.found[b := l]));
    case Readopt(_, b) => OneNodeChanges(w, a, n.(epochs := n.epochs[b := n.found[b].epoch]));
    case Verify(_) => OneNodeChanges(w, a, OFF);
    case Shutdown(_, marked) => ShutdownKeeps(w, a, marked);
    case Crash(_) => OneNodeChanges(w, a, OFF);
  }

  // ----- whole runs

  ghost predicate Run(ws: seq<World>, es: seq<Event>) {
    && |ws| == |es| + 1 && ws[0] == World(Store(map[], {}), map[])
    && forall i :: 0 <= i < |es| ==> Can(ws[i], es[i]) && ws[i + 1] == Do(ws[i], es[i])
  }

  lemma {:induction false} RunInv(ws: seq<World>, es: seq<Event>, k: nat)
    requires Run(ws, es) && k < |ws|
    ensures Inv(ws[k])
  {
    if k > 0 {
      RunInv(ws, es, k - 1);
      EventKeepsInv(ws[k - 1], es[k - 1]);
    }
  }

  lemma {:induction false} Downward(s: Store, b: Block, e: nat, f: nat)
    requires Contiguous(s) && (b, e) in s.leases && 1 <= f <= e
    ensures (b, f) in s.leases
    decreases e - f
  {
    if f < e { Downward(s, b, e, f + 1); }
  }

  /** In every reachable state a block's lease epochs are exactly 1 to the latest, and a held epoch was created by its
      holder and has not been released. */
  lemma EpochsAreExact(ws: seq<World>, es: seq<Event>, k: nat, b: Block, e: nat, f: nat)
    requires Run(ws, es) && k < |ws| && IsMax(ws[k].store, b, e)
    ensures (b, f) in ws[k].store.leases <==> 1 <= f <= e
  {
    RunInv(ws, es, k);
    if 1 <= f <= e { Downward(ws[k].store, b, e, f); }
  }

  lemma HeldWasCreated(ws: seq<World>, es: seq<Event>, k: nat, a: Addr, b: Block)
    requires Run(ws, es) && k < |ws| && b in At(ws[k], a).epochs
    ensures HeldOk(ws[k].store, a, At(ws[k], a))
  {
    RunInv(ws, es, k);
    assert NodeOk(ws[k].store, a, At(ws[k], a));
  }

  /** At most one address that holds a block passes verification, and it is the creator of the block's latest lease. */
  lemma OnePasses(ws: seq<World>, es: seq<Event>, k: nat, a: Addr, c: Addr, b: Block)
    requires Run(ws, es) && k < |ws|
    requires b in At(ws[k], a).epochs && Passes(ws[k].store, At(ws[k], a))
    ensures IsMax(ws[k].store, b, At(ws[k], a).epochs[b])
    ensures b in At(ws[k], c).epochs && Passes(ws[k].store, At(ws[k], c)) ==> a == c
  {
    RunInv(ws, es, k);
    assert NodeOk(ws[k].store, a, At(ws[k], a)) && NodeOk(ws[k].store, c, At(ws[k], c));
    if b in At(ws[k], c).epochs && Passes(ws[k].store, At(ws[k], c)) {
      assert At(ws[k], c).epochs[b] == At(ws[k], a).epochs[b];
    }
  }

  // ----- whose blocks are taken

  /** The health check tells the truth: a holder that serves answers it. */
  ghost predicate Truthful(w: World, e: Event) {
    e.Claim? && e.b in At(w, e.a).seen && At(w, At(w, e.a).seen[e.b].addr).phase.Serving? ==> e.holderAlive
  }

  /** The attempt creates the next lease. */
  ghost predicate Wins(w: World, a: Addr, b: Block) {
    var seen := At(w, a).seen;
    (b, if b in seen then seen[b].epoch + 1 else 1) !in w.store.leases
  }

  /** A claim that wins costs every other node that holds the block its lease, and nobody else anything. */
  lemma ClaimCosts(w: World, a: Addr, b: Block, alive: bool, c: Addr)
    requires Inv(w) && Can(w, Claim(a, b, alive)) && c != a && Passes(w.store, At(w, c))
    ensures var w' := Do(w, Claim(a, b, alive));
            At(w', c) == At(w, c) && (Passes(w'.store, At(w', c)) <==> !(Wins(w, a, b) && b in At(w, c).epochs))
  {
    var s, n := w.store, At(w, a);
    assert NodeOk(s, a, n) && NodeOk(s, c, At(w, c));
    var epoch := NextEpoch(n.seen, b);
    if Wins(w, a, b) && b in At(w, c).epochs {
      var mine := At(w, c).epochs[b];
      assert b in n.seen ==> StillThere(s, b, n.seen[b]);
      if epoch <= mine { Downward(s, b, mine, epoch); }
      assert (b, epoch) in Do(w, Claim(a, b, alive)).store.leases;
    }
  }

  /** With a truthful health check no claim takes a block from a node that serves it: whoever serves, is not superseded
      and is not the claimer passes its next verification as before. */
  lemma NoTheft(ws: seq<World>, es: seq<Event>, k: nat, c: Addr)
    requires Run(ws, es) && k < |es| && es[k].Claim? && Truthful(ws[k], es[k])
    requires c != es[k].a && At(ws[k], c).phase.Serving? && Passes(ws[k].store, At(ws[k], c))
    ensures Passes(ws[k + 1].store, At(ws[k + 1], c))
  {
    RunInv(ws, es, k);
    var w, a, b := ws[k], es[k].a, es[k].b;
    ClaimCosts(w, a, b, es[k].holderAlive, c);
    if Wins(w, a, b) && b in At(w, c).epochs { HolderIsSeen(w, a, b, c); }
  }

  /** A claim that wins while another node holds the latest lease has seen that lease, unreleased. */
  lemma HolderIsSeen(w: World, a: Addr, b: Block, c: Addr)
    requires Inv(w) && c != a && Wins(w, a, b) && b in At(w, c).epochs && Passes(w.store, At(w, c))
    ensures var seen := At(w, a).seen; b in seen && seen[b].addr == c && !seen[b].released
  {
    var s, n, mine := w.store, At(w, a), At(w, c).epochs[b];
    assert NodeOk(s, a, n) && NodeOk(s, c, At(w, c));
    Downward(s, b, mine, 1);
    assert StillThere(s, b, n.seen[b]);
    if n.seen[b].epoch < mine { Downward(s, b, mine, n.seen[b].epoch + 1); }
  }

  /** A block that nobody has, that was released, that is under this address or whose holder is found dead can be
      claimed, and no other; as long as its lease is still the one seen, the claimer has it then. */
  lemma OrphanIsTaken(w: World, a: Addr, b: Block, alive: bool)
    requires Inv(w) && At(w, a).phase.Serving?
    ensures var seen := At(w, a).seen;
            Can(w, Claim(a, b, alive)) <==>
              (b in seen && !seen[b].released && seen[b].addr != a ==> !alive)
    ensures Can(w, Claim(a, b, alive)) ==>
              var w', seen := Do(w, Claim(a, b, alive)), At(w, a).seen;
              && (b in seen && IsMax(w.store, b, seen[b].epoch) ==>
                    b in At(w', a).epochs && IsMax(w'.store, b, At(w', a).epochs[b]))
              && (b !in seen && (forall e: nat :: (b, e) !in w.store.leases) ==>
                    b in At(w', a).epochs && IsMax(w'.store, b, At(w', a).epochs[b]))
  {
  }

  /** A node that shuts down hands over what it marks: whoever reads such a lease while it is the latest finds it
      released, and can claim the block whatever the health check says. */
  lemma MarkedIsHandedOver(w: World, a: Addr, marked: set<Block>, b: Block, l: LeaseState, c: Addr,
                           seen: map<Block, LeaseState>, alive: bool)
    requires Inv(w) && Can(w, Shutdown(a, marked)) && b in marked && b in At(w, a).epochs
    requires var w' := Do(w, Shutdown(a, marked));
             Reads(w'.store, b, l) && l.epoch == At(w, a).epochs[b] && b in seen && seen[b] == l
    ensures l.released && l.addr == a
    ensures var v := Do(w, Shutdown(a, marked)).(nodes := map[c := Node(Serving, map[], seen, map[])]);
            Can(v, Claim(c, b, alive))
  {
    assert NodeOk(w.store, a, At(w, a));
    assert (b, At(w, a).epochs[b]) in Held(At(w, a), marked);
  }

  /** At boot a node marks the leases of an earlier incarnation: released for itself, and for all if the mark landed. */
  lemma BootMarks(w: World, a: Addr, b: Block, landed: bool)
    requires Can(w, BootRelease(a, b, landed))
    ensures var w', l := Do(w, BootRelease(a, b, landed)), At(w, a).seen[b];
            && At(w', a).seen[b] == LeaseState(l.epoch, a, true)
            && w'.store.tombs == w.store.tombs + (if landed then {(b, l.epoch)} else {})
            && w'.store.leases == w.store.leases
  {
  }

  // ----- what is superseded

  lemma LeasesStay(w: World, e: Event)
    ensures w.store.leases.Keys <= Do(w, e).store.leases.Keys
    ensures forall k :: k in w.store.leases ==> Do(w, e).store.leases[k] == w.store.leases[k]
  {
  }

  /** Once another lease supersedes an epoch, a node that still holds that epoch never passes again. */
  lemma {:induction false} SupersededForever(ws: seq<World>, es: seq<Event>, j: nat, k: nat, a: Addr, b: Block, e: nat)
    requires Run(ws, es) && j <= k < |ws| && (b, e) in ws[j].store.leases
    requires b in At(ws[k], a).epochs && At(ws[k], a).epochs[b] < e
    ensures !Passes(ws[k].store, At(ws[k], a))
  {
    LeaseLasts(ws, es, j, k, b, e);
  }

  lemma {:induction false} LeaseLasts(ws: seq<World>, es: seq<Event>, j: nat, k: nat, b: Block, e: nat)
    requires Run(ws, es) && j <= k < |ws| && (b, e) in ws[j].store.leases
    ensures (b, e) in ws[k].store.leases && ws[k].store.leases[(b, e)] == ws[j].store.leases[(b, e)]
    decreases k
  {
    if j < k {
      LeaseLasts(ws, es, j, k - 1, b, e);
      LeasesStay(ws[k - 1], es[k - 1]);
    }
  }

  // ----- the readers and the claim loop

  datatype Key = LeaseKey(b: Block, epoch: nat) | TombKey(b: Block, epoch: nat)

  ghost predicate Lists(s: Store, keys: seq<Key>) {
    && (forall b: Block, e: nat :: LeaseKey(b, e) in keys <==> (b, e) in s.leases)
    && (forall b: Block, e: nat :: TombKey(b, e) in keys <==> (b, e) in s.tombs)
  }

  /** `lease_from_keys`: the highest epoch among the listed keys of a block, whether it is released, and, read
      separately, its address. */
  method LeaseFromKeys(s: Store, keys: seq<Key>, b: Block) returns (l: Option<LeaseState>)
    requires Lists(s, keys)
    ensures l.Some? ==> Reads(s, b, l.value)
    ensures l.None? ==> forall e: nat :: (b, e) !in s.leases
  {
    var best: Option<nat> := None;
    for i := 0 to |keys|
      invariant best.Some? ==> LeaseKey(b, best.value) in keys
      invariant forall j :: 0 <= j < i && keys[j].LeaseKey? && keys[j].b == b ==>
              best.Some? && keys[j].epoch <= best.value
    {
      if keys[i].LeaseKey? && keys[i].b == b && (best.None? || keys[i].epoch > best.value) {
        best := Some(keys[i].epoch);
        assert keys[i] == LeaseKey(b, keys[i].epoch);
      }
    }
    forall e: nat | (b, e) in s.leases ensures best.Some? && e <= best.value {
      assert LeaseKey(b, e) in keys;
    }
    if best.None? { return None; }
    assert LeaseKey(b, best.value) in keys;
    l := Some(LeaseState(best.value, s.leases[(b, best.value)], TombKey(b, best.value) in keys));
  }

  /** The latest epoch of each block in one listing. */
  method MaxEpochs(keys: seq<Key>) returns (latest: map<Block, nat>)
    ensures forall k :: k in keys && k.LeaseKey? ==> k.b in latest && k.epoch <= latest[k.b]
    ensures forall b :: b in latest ==> LeaseKey(b, latest[b]) in keys
  {
    latest := map[];
    for i := 0 to |keys|
      invariant forall j :: 0 <= j < i && keys[j].LeaseKey? ==>
              keys[j].b in latest && keys[j].epoch <= latest[keys[j].b]
      invariant forall b :: b in latest ==> LeaseKey(b, latest[b]) in keys
    {
      if keys[i].LeaseKey? {
        var b, e := keys[i].b, keys[i].epoch;
        assert keys[i] == LeaseKey(b, e);
        if b !in latest || latest[b] < e { latest := latest[b := e]; }
      }
    }
  }

  class NodeProcess {
    const addr: Addr
    var epochs: map<Block, nat>
    var stopped: bool
    var verified: nat

    constructor (addr: Addr)
      ensures this.addr == addr && epochs == map[] && !stopped && verified == 0
    {
      this.addr := addr;
      epochs, stopped, verified := map[], false, 0;
    }

    /** The node as the world of the events has it. */
    ghost predicate IsIn(w: World, s: Store, seen: map<Block, LeaseState>)
      reads this
    {
      w.store == s && At(w, addr).phase.Serving? && At(w, addr).epochs == epochs && At(w, addr).seen == seen
    }

    /** A failed listing passes and leaves the old stamp.  With a listing, the node passes and is stamped exactly when
        no held block has a newer lease, and stops otherwise: the event `Verify`. */
    method VerifyLeases(s: Store, listing: Option<seq<Key>>, now: nat, ghost w: World) returns (ok: bool)
      requires (listing.Some? ==> Lists(s, listing.value)) && IsIn(w, s, At(w, addr).seen)
      modifies `stopped, `verified
      ensures ok == (listing.None? || forall b, e: nat :: b in epochs && (b, e) in s.leases ==> e <= epochs[b])
      ensures stopped == (old(stopped) || !ok) && verified == if ok && listing.Some? then now else old(verified)
      ensures listing.Some? ==> Do(w, Verify(addr)) == if ok then w else w.(nodes := w.nodes[addr := OFF])
    {
      if listing.None? { return true; }
      var keys := listing.value;
      ok := NothingNewer(s, keys);
      if ok { verified := now; } else { stopped := true; }
      assert ok == Passes(s, At(w, addr));
    }

    method NothingNewer(s: Store, keys: seq<Key>) returns (ok: bool)
      requires Lists(s, keys)
      ensures ok == forall b, e: nat :: b in epochs && (b, e) in s.leases ==> e <= epochs[b]
    {
      var latest := MaxEpochs(keys);
      var todo := epochs.Keys;
      while todo != {}
        invariant todo <= epochs.Keys
        invariant forall b, e: nat :: b in epochs && b !in todo && (b, e) in s.leases ==> e <= epochs[b]
        decreases |todo|
      {
        var b :| b in todo;
        todo := todo - {b};
        var top := if b in latest then latest[b] else 0;
        if top > epochs[b] {
          assert LeaseKey(b, latest[b]) in keys;
          assert (b, latest[b]) in s.leases;
          return false;
        }
        forall e: nat | (b, e) in s.leases ensures e <= epochs[b] { assert LeaseKey(b, e) in keys; }
      }
      ok := true;
    }

    /** The block is released, under this address, or its holder is not among the living. */
    predicate Orphaned(l: LeaseState, alive: set<Addr>) {
      l.released || l.addr == addr || l.addr !in alive
    }

    /** Everything held is a candidate that nobody had or that was orphaned, at the epoch after the one seen. */
    ghost predicate Rightful(seen: map<Block, LeaseState>, candidates: seq<Block>, alive: set<Addr>)
      reads this
    {
      forall b :: b in epochs ==>
        && b in candidates
        && if b in seen then epochs[b] == seen[b].epoch + 1 && Orphaned(seen[b], alive) else epochs[b] == 1
    }

    /** Everything held was created by this node in the meantime. */
    ghost predicate Stamped(before: Store, after: Store)
      reads this
    {
      forall b :: b in epochs ==>
        && (b, epochs[b]) in after.leases && after.leases[(b, epochs[b])] == addr
        && (b, epochs[b]) !in before.leases
    }

    /** Claim one block if it may be claimed, and if no other node was faster: the event `Claim`. */
    method TryClaim(b: Block, seen: map<Block, LeaseState>, holderAlive: bool, s: Store, ghost w: World)
      returns (t: Store, won: bool)
      requires IsIn(w, s, seen)
      modifies `epochs
      ensures IsIn(if Claimable(addr, seen, b, holderAlive) then Do(w, Claim(addr, b, holderAlive)) else w, t, seen)
      ensures won == if b in seen then
                       (seen[b].released || seen[b].addr == addr || !holderAlive)
                       && (b, seen[b].epoch + 1) !in s.leases
                     else (b, 1) !in s.leases
      ensures var next := if b in seen then seen[b].epoch + 1 else 1;
              if won then t == s.(leases := s.leases[(b, next) := addr]) && epochs == old(epochs)[b := next]
              else t == s && epochs == old(epochs)
    {
      t, won := s, false;
      if Claimable(addr, seen, b, holderAlive) {
        var epoch := NextEpoch(seen, b);
        if (b, epoch) !in s.leases {
          t, won := Create(s, b, epoch, addr), true;
          epochs := epochs[b := epoch];
        }
      }
    }

    /** The claim loop of `start`.  Before every step of it the store may have grown by the doing of others.  Orphaned
        blocks are taken whatever the quota, fresh ones up to it; every epoch held was created by this node. */
    method ClaimBlocks(candidates: seq<Block>, seen: map<Block, LeaseState>, alive: set<Addr>, quota: nat,
                       before: Store)
      returns (after: Store, claimed: nat)
      requires epochs == map[]
      modifies `epochs
      ensures Extends(before, after) && Rightful(seen, candidates, alive) && Stamped(before, after)
      ensures claimed == |FreshBlocks(epochs, seen)| <= quota
      ensures forall b :: b in candidates ==> SeenTo(seen, alive, b, after, claimed == quota)
    {
      after, claimed := before, 0;
      assert FreshBlocks(epochs, seen) == {};
      for i := 0 to |candidates|
        invariant Extends(before, after) && Rightful(seen, candidates, alive) && Stamped(before, after)
        invariant claimed == |FreshBlocks(epochs, seen)| <= quota
        invariant forall b :: b in candidates[..i] ==> SeenTo(seen, alive, b, after, claimed == quota)
      {
        var current := Others(after);
        assert candidates[..i + 1] == candidates[..i] + [candidates[i]];
        after, claimed := ClaimNext(candidates[i], seen, alive, quota, current, claimed, before);
        assert Rightful(seen, candidates, alive);
        assert SeenTo(seen, alive, candidates[i], after, claimed == quota);
      }
      assert candidates[..|candidates|] == candidates;
    }

    /** An orphaned block has been claimed, by this node or by a faster one, and so has a block nobody had unless the
        quota is exhausted. */
    ghost predicate SeenTo(seen: map<Block, LeaseState>, alive: set<Addr>, b: Block, s: Store, full: bool) {
      if b in seen then Orphaned(seen[b], alive) ==> (b, seen[b].epoch + 1) in s.leases
      else (b, 1) in s.leases || full
    }

    /** One turn of the claim loop. */
    method ClaimNext(b: Block, seen: map<Block, LeaseState>, alive: set<Addr>, quota: nat, s: Store, claimed: nat,
                     ghost before: Store)
      returns (t: Store, claimed': nat)
      requires Stamped(before, s) && Extends(before, s) && claimed == |FreshBlocks(epochs, seen)| <= quota
      requires forall c :: c in epochs ==> epochs[c] == if c in seen then seen[c].epoch + 1 else 1
      modifies `epochs
      ensures Stamped(before, t) && claimed <= claimed' == |FreshBlocks(epochs, seen)| <= quota
      ensures var next := if b in seen then seen[b].epoch + 1 else 1;
              var won := (if b in seen then Orphaned(seen[b], alive) else claimed < quota) && (b, next) !in s.leases;
              && epochs == (if won then old(epochs)[b := next] else old(epochs))
              && t == (if won then s.(leases := s.leases[(b, next) := addr]) else s)
    {
      var orphan := b in seen;
      t, claimed' := s, claimed;
      if orphan || claimed < quota {
        ghost var held := epochs;
        var won;
        ghost var w := World(s, map[addr := Node(Serving, epochs, seen, map[])]);
        t, won := TryClaim(b, seen, b in seen && seen[b].addr in alive, s, w);
        if won {
          assert b !in held;
          assert FreshBlocks(epochs, seen) == if orphan then FreshBlocks(held, seen) else FreshBlocks(held, seen) + {b};
          if !orphan { claimed' := claimed + 1; }
        }
      }
    }

    /** Other nodes at work: leases and tombstones may appear, none changes. */
    method Others(s: Store) returns (t: Store)
      ensures Extends(s, t)
    {
      var leases: map<(Block, nat), Addr> := *;
      var tombs: set<(Block, nat)> := *;
      t := Store(leases + s.leases, tombs + s.tombs);
    }
  }

  ghost function FreshBlocks(epochs: map<Block, nat>, seen: map<Block, LeaseState>): set<Block> {
    set b | b in epochs && b !in seen
  }

  ghost predicate Extends(s: Store, t: Store) {
    s.tombs <= t.tombs && s.leases.Keys <= t.leases.Keys && forall k :: k in s.leases ==> t.leases[k] == s.leases[k]
  }
}
