/** The worker's side of ownership (src/worker.rs) and the readers of the checkpoints (src/cluster.rs), updating their
    maps in place; each method is one of the transitions of `Ownership`. */
module OwnershipWorker {
  import opened Bytes
  import opened Ownership

  /** The checkpoints as one reader sees them: those it could not read are missing. */
  function Readable(m: map<Wid, Ledger>, workers: nat, lost: set<Wid>): (v: View)
    ensures |v| == workers
  {
    seq(workers, (w: nat) requires w < workers => if w in m && w !in lost then Some(m[w]) else None)
  }

  /** The best claim among the checkpoints of the workers in `read`. */
  ghost predicate BestAmong(view: View, read: set<Wid>, o: Obj, best: Option<Claim>) {
    && (best.Some? ==> IsClaim(view, o, best.value) && !best.value.Unclaimed?)
    && (forall w :: w in read && w < |view| && view[w].Some? && o in view[w].value.owned ==>
          best.Some? && !Below(Rank(best.value), (view[w].value.owned[o], 1)))
    && (forall w :: w in read && w < |view| && view[w].Some? && o in view[w].value.transit ==>
          best.Some? && !Below(Rank(best.value), (view[w].value.transit[o].gen, 0)))
  }

  function Consider(best: Option<Claim>, c: Claim): Option<Claim> {
    if best.None? || Below(Rank(best.value), Rank(c)) then Some(c) else best
  }

  lemma BestIsBest(view: View, read: set<Wid>, o: Obj, best: Option<Claim>)
    requires BestAmong(view, read, o, best) && forall w :: 0 <= w < |view| && view[w].Some? ==> w in read
    ensures IsBest(view, o, if best.Some? then best.value else Unclaimed)
  {
    var c := if best.Some? then best.value else Unclaimed;
    forall d | IsClaim(view, o, d) ensures !Below(Rank(c), Rank(d)) {
      match d
      case Unclaimed =>
      case Owned(w, g) => assert w in read;
      case InTransit(to, g) =>
        var w :| 0 <= w < |view| && view[w].Some? && o in view[w].value.transit
            && view[w].value.transit[o] == Marker(to, g);
        assert w in read;
    }
  }

  /** Read the checkpoints in whatever order they are listed and return a claim that no other outranks. */
  method DurableClaim(m: map<Wid, Ledger>, workers: nat, lost: set<Wid>, o: Obj) returns (claim: Claim)
    requires forall w :: w in m ==> w < workers
    ensures IsBest(Readable(m, workers, lost), o, claim)
  {
    var best: Option<Claim> := None;
    var keys := m.Keys;
    ghost var view := Readable(m, workers, lost);
    while keys != {}
      invariant keys <= m.Keys && BestAmong(view, m.Keys - keys, o, best)
      decreases |keys|
    {
      var w :| w in keys;
      keys := keys - {w};
      if w !in lost {
        best := ConsiderLedger(m, workers, lost, o, w, best, m.Keys - keys - {w});
      }
      assert m.Keys - keys == (m.Keys - keys - {w}) + {w};
    }
    BestIsBest(view, m.Keys, o, best);
    claim := if best.Some? then best.value else Unclaimed;
  }

  /** Both claims a checkpoint can make about an object. */
  method ConsiderLedger(m: map<Wid, Ledger>, workers: nat, lost: set<Wid>, o: Obj, w: Wid, best: Option<Claim>,
                        ghost read: set<Wid>)
    returns (best': Option<Claim>)
    requires w in m && w < workers && w !in lost && BestAmong(Readable(m, workers, lost), read, o, best)
    ensures BestAmong(Readable(m, workers, lost), read + {w}, o, best')
  {
    var l := m[w];
    ghost var view := Readable(m, workers, lost);
    assert view[w] == Some(l);
    best' := best;
    if o in l.owned {
      best' := Consider(best', Owned(w, l.owned[o]));
    }
    if o in l.transit {
      assert IsClaim(view, o, InTransit(l.transit[o].to, l.transit[o].gen)) by {
        assert view[w].value.transit[o] == Marker(l.transit[o].to, l.transit[o].gen);
      }
      best' := Consider(best', InTransit(l.transit[o].to, l.transit[o].gen));
    }
  }

  // ----- reconciliation at boot

  /** `(w, g)` wins object `o` among the checkpoints of `read`. */
  ghost predicate Wins(view: View, read: set<Wid>, o: Obj, w: Wid, g: nat) {
    && w in read && w < |view| && view[w].Some? && o in view[w].value.owned && view[w].value.owned[o] == g
    && forall v :: v in read && v < |view| && v != w && view[v].Some? && o in view[v].value.owned ==>
         view[v].value.owned[o] < g || (view[v].value.owned[o] == g && w < v)
  }

  ghost predicate Claimed(view: View, read: set<Wid>, o: Obj) {
    exists w :: w in read && w < |view| && view[w].Some? && o in view[w].value.owned
  }

  ghost predicate Settled(view: View, read: set<Wid>, o: Obj, claims: map<Obj, (Wid, nat)>) {
    (o in claims <==> Claimed(view, read, o)) && (o in claims ==> Wins(view, read, o, claims[o].0, claims[o].1))
  }

  /** One object of one checkpoint against the claim kept so far. */
  function Contend(claims: map<Obj, (Wid, nat)>, o: Obj, w: Wid, g: nat): map<Obj, (Wid, nat)> {
    if o in claims && !(g > claims[o].1 || (g == claims[o].1 && w < claims[o].0)) then claims else claims[o := (w, g)]
  }

  lemma ContendSettles(view: View, read: set<Wid>, o: Obj, w: Wid, claims: map<Obj, (Wid, nat)>)
    requires w < |view| && w !in read && view[w].Some? && Settled(view, read, o, claims)
    requires o in view[w].value.owned
    ensures Settled(view, read + {w}, o, Contend(claims, o, w, view[w].value.owned[o]))
  {
  }

  lemma UnclaimedSettles(view: View, read: set<Wid>, o: Obj, w: Wid, claims: map<Obj, (Wid, nat)>)
    requires Settled(view, read, o, claims) && (w < |view| && view[w].Some? ==> o !in view[w].value.owned)
    ensures Settled(view, read + {w}, o, claims)
  {
    if Claimed(view, read + {w}, o) {
      var v :| v in read + {w} && v < |view| && view[v].Some? && o in view[v].value.owned;
      assert v in read;
    }
  }

  ghost function Upto(n: nat): (r: set<Wid>)
    ensures forall v: Wid :: v in r <==> v < n
  {
    if n == 0 then {} else Upto(n - 1) + {n - 1}
  }

  method ContendAll(view: View, ghost read: set<Wid>, w: Wid, claims: map<Obj, (Wid, nat)>)
    returns (claims': map<Obj, (Wid, nat)>)
    requires w < |view| && w !in read && view[w].Some?
    requires forall o :: Settled(view, read, o, claims)
    ensures forall o :: Settled(view, read + {w}, o, claims')
  {
    var owned := view[w].value.owned;
    var todo := owned.Keys;
    claims' := claims;
    while todo != {}
      invariant todo <= owned.Keys
      invariant forall o :: o in owned && o !in todo ==> Settled(view, read + {w}, o, claims')
      invariant forall o :: o in todo || o !in owned ==> Settled(view, read, o, claims')
      decreases |todo|
    {
      var o :| o in todo;
      ContendSettles(view, read, o, w, claims');
      ghost var before := claims';
      claims' := Contend(claims', o, w, owned[o]);
      todo := todo - {o};
      forall p | p != o && Settled(view, read, p, before) ensures Settled(view, read, p, claims') {}
      forall p | p != o && Settled(view, read + {w}, p, before) ensures Settled(view, read + {w}, p, claims') {}
    }
    forall o ensures Settled(view, read + {w}, o, claims') {
      if o !in owned { UnclaimedSettles(view, read, o, w, claims'); }
    }
  }

  /** The checkpoint that wins an object: no readable one owns it at a higher generation, or at the same one under a
      lower number.  Every object that a readable checkpoint owns is won by exactly one worker. */
  ghost predicate Winner(view: View, o: Obj, w: Wid) {
    && w < |view| && view[w].Some? && o in view[w].value.owned
    && forall v :: 0 <= v < |view| && view[v].Some? && o in view[v].value.owned ==>
         && view[v].value.owned[o] <= view[w].value.owned[o]
         && (v < w ==> view[v].value.owned[o] < view[w].value.owned[o])
  }

  lemma BootGivesToWinner(view: View, o: Obj, w: Wid)
    requires w < |view|
    ensures o in Booted(view, w).owned <==> Winner(view, o, w)
    ensures o in Booted(view, w).owned ==> Booted(view, w).owned[o] == view[w].value.owned[o]
    ensures view[w].Some? ==> Booted(view, w).transit == view[w].value.transit
  {
    if Winner(view, o, w) { assert Keeps(view, w, o, view[w].value.owned[o]); }
  }

  lemma {:induction false} OneWinner(view: View, o: Obj, v: Wid)
    requires v < |view| && view[v].Some? && o in view[v].value.owned
    ensures exists w :: Winner(view, o, w) && forall x :: Winner(view, o, x) ==> x == w
  {
    var w := BestUpto(view, o, |view|, v);
    assert Winner(view, o, w);
  }

  lemma {:induction false} BestUpto(view: View, o: Obj, n: nat, v: Wid) returns (w: Wid)
    requires v < n <= |view| && view[v].Some? && o in view[v].value.owned
    ensures w < n && Winner(view[..n], o, w)
  {
    w := v;
    if x :| 0 <= x < n - 1 && view[x].Some? && o in view[x].value.owned {
      w := BestUpto(view, o, n - 1, x);
      assert view[..n - 1][w] == view[..n][w];
      var last := view[n - 1];
      forall y | 0 <= y < n - 1 && view[y].Some? && o in view[y].value.owned
        ensures view[y].value.owned[o] <= view[w].value.owned[o]
        ensures y < w ==> view[y].value.owned[o] < view[w].value.owned[o]
      {
        assert view[..n - 1][y] == view[y];
      }
      if last.Some? && o in last.value.owned && last.value.owned[o] > view[w].value.owned[o] { w := n - 1; }
    }
  }

  /** What worker `me` owns after reconciling all the checkpoints that could be read. */
  method Boot(view: View, me: Wid) returns (l: Ledger)
    requires me < |view|
    ensures l == Booted(view, me)
  {
    var claims: map<Obj, (Wid, nat)> := map[];
    for w := 0 to |view|
      invariant forall o :: Settled(view, Upto(w), o, claims)
    {
      ghost var read := Upto(w);
      assert read + {w} == Upto(w + 1);
      if view[w].Some? {
        claims := ContendAll(view, read, w, claims);
      } else {
        forall o ensures Settled(view, read + {w}, o, claims) { UnclaimedSettles(view, read, o, w, claims); }
      }
    }
    if view[me].None? { return EMPTY; }
    var owned := map o | o in claims && claims[o].0 == me :: claims[o].1;
    l := Ledger(owned, view[me].value.transit);
    ghost var all := Upto(|view|);
    forall o ensures o in owned <==> o in Booted(view, me).owned {
      assert Settled(view, all, o, claims);
      WinnerKeeps(view, me, o, claims);
    }
    forall o | o in owned ensures owned[o] == view[me].value.owned[o] {
      assert Settled(view, all, o, claims);
    }
    assert owned == Booted(view, me).owned;
  }

  lemma WinnerKeeps(view: View, me: Wid, o: Obj, claims: map<Obj, (Wid, nat)>)
    requires me < |view| && view[me].Some? && Settled(view, Upto(|view|), o, claims)
    ensures o in claims && claims[o].0 == me <==>
            o in view[me].value.owned && Keeps(view, me, o, view[me].value.owned[o])
  {
    var all := Upto(|view|);
    if o in view[me].value.owned {
      assert me in all && Claimed(view, all, o);
      var w := claims[o].0;
      assert w in all;
    }
  }

  // ----- the worker

  /** The checkpoints in the store. */
  class Checkpoints {
    var m: map<Wid, Ledger>

    constructor ()
      ensures m == map[]
    {
      m := map[];
    }
  }

  class Worker {
    const id: Wid
    const workers: nat
    const store: Checkpoints
    var owned: map<Obj, nat>
    var transit: map<Obj, Marker>

    ghost function Mem(): Ledger
      reads this
    {
      Ledger(owned, transit)
    }

    /** The event `Heal`, as far as this worker's memory goes. */
    ghost predicate Healed(before: Ledger, o: Obj, claim: Claim, after: Ledger)
      requires workers > 0
    {
      match Adoptable(id, workers, o, claim)
      case Some(gen) => after == if Accepts(before, o, gen) then Admitted(before, o, gen) else before
      case None => after == before
    }

    /** Start with what the checkpoints say at boot. */
    constructor (id: Wid, workers: nat, store: Checkpoints, view: View)
      requires id < workers == |view|
      ensures this.id == id && this.workers == workers && this.store == store && Mem() == Booted(view, id)
    {
      this.id, this.workers, this.store := id, workers, store;
      owned, transit := map[], map[];
      new;
      var l := Boot(view, id);
      owned, transit := l.owned, l.transit;
    }

    /** Write both maps to the checkpoint; with the store down nothing is written. */
    method Checkpoint(up: bool) returns (ok: bool)
      modifies store
      ensures ok == up && store.m == if up then old(store.m)[id := Mem()] else old(store.m)
    {
      ok := up;
      if up { store.m := store.m[id := Ledger(owned, transit)]; }
    }

    /** Give an object away.  The checkpoint must have it before the deed exists; otherwise everything is as before. */
    method Release(o: Obj, newOwner: Option<Wid>, up: bool) returns (gen: Option<nat>)
      modifies this, store
      ensures var dest := if newOwner.Some? then newOwner.value else id;
              if up then gen == Some(Minting(old(Mem()), o)) && Mem() == Released(old(Mem()), o, dest)
                         && store.m == old(store.m)[id := Mem()]
              else gen == None && Mem() == old(Mem()) && store.m == old(store.m)
      ensures gen.Some? ==>
                && owned == old(owned) - {o} && transit.Keys == old(transit).Keys + {o}
                && transit[o] == Marker(if newOwner.Some? then newOwner.value else id, gen.value)
                && (o in old(owned) ==> old(owned)[o] < gen.value)
                && (o in old(transit) ==> old(transit)[o].gen < gen.value)
                && (gen.value == 1 || (o in old(owned) && old(owned)[o] == gen.value - 1)
                    || (o in old(transit) && old(transit)[o].gen == gen.value - 1))
    {
      var held := if o in owned then Some(owned[o]) else None;
      var sent := if o in transit then Some(transit[o]) else None;
      owned := owned - {o};
      var top := 0;
      if held.Some? { top := held.value; }
      if sent.Some? && sent.value.gen > top { top := sent.value.gen; }
      var dest := if newOwner.Some? then newOwner.value else id;
      transit := transit[o := Marker(dest, top + 1)];
      var ok := Checkpoint(up);
      if ok { return Some(top + 1); }
      if held.Some? { owned := owned[o := held.value]; } else { owned := owned - {o}; }
      if sent.Some? { transit := transit[o := sent.value]; } else { transit := transit - {o}; }
      gen := None;
    }

    /** Take an object in, unless the deed is no newer than what is known.  The checkpoint may fail. */
    method Admit(o: Obj, gen: nat, up: bool) returns (ok: bool)
      modifies this, store
      ensures ok == !((o in old(owned) && gen <= old(owned)[o]) || (o in old(transit) && gen <= old(transit)[o].gen))
      ensures ok == Accepts(old(Mem()), o, gen)
      ensures ok ==> owned == old(owned)[o := gen] && transit == old(transit) - {o}
      ensures Mem() == if ok then Admitted(old(Mem()), o, gen) else old(Mem())
      ensures store.m == if ok && up then old(store.m)[id := Mem()] else old(store.m)
    {
      if (o in owned && gen <= owned[o]) || (o in transit && gen <= transit[o].gen) {
        return false;
      }
      owned := owned[o := gen];
      transit := transit - {o};
      var stored := Checkpoint(up);
      ok := true;
    }

    /** A deed arrives in answer to this worker's own take: a duplicate of what it already owns is harmless. */
    method OnTaken(o: Obj, gen: nat, up: bool) returns (ok: bool)
      modifies this, store
      ensures ok == (o in old(owned) || Accepts(old(Mem()), o, gen))
      ensures Mem() == if o !in old(owned) && ok then Admitted(old(Mem()), o, gen) else old(Mem())
      ensures store.m == if o !in old(owned) && ok && up then old(store.m)[id := Mem()] else old(store.m)
    {
      if o in owned { return true; }
      ok := Admit(o, gen, up);
    }

    /** Another worker asks for an object this one does not hold.  While a transaction of this worker is taking the
        object (`taking`), the other is turned away; otherwise the object is adopted only where the checkpoints say that
        it is this worker's own. */
    method AdoptFromLedger(o: Obj, taking: set<Obj>, lost: set<Wid>, up: bool)
      returns (adopted: bool, ghost claim: Claim)
      requires workers > 0 && o !in owned && forall w :: w in store.m ==> w < workers
      modifies this, store
      ensures IsBest(Readable(old(store.m), workers, lost), o, claim)
      ensures var mine := if claim.Unclaimed? then o % workers == id else claim.w == id;
              var gen := if claim.Unclaimed? then 1 else claim.gen;
              && adopted == (o !in taking && mine && (o in old(transit) ==> old(transit)[o].gen < gen))
              && owned == (if adopted then old(owned)[o := gen] else old(owned))
              && transit == (if adopted then old(transit) - {o} else old(transit))
              && store.m == if adopted && up then old(store.m)[id := Mem()] else old(store.m)
      ensures o !in taking ==> Healed(old(Mem()), o, claim, Mem())
    {
      var c := DurableClaim(store.m, workers, lost, o);
      claim := c;
      if o in taking { return false, c; }
      match Adoptable(id, workers, o, c)
      case Some(gen) => adopted := Admit(o, gen, up);
      case None => adopted := false;
    }
  }
}
