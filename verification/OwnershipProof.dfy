/** One renunciation is spent once: at most one worker owns an object, at the latest generation ever minted for it. */
module OwnershipProof {
  import opened Bytes
  import opened Ownership

  // ----- the invariant, object by object

  /** A claim on generation `g` is made only by or for the worker the generation was minted for. */
  ghost predicate Honest(mints: seq<Wid>, w: Wid, g: int) {
    1 <= g <= |mints| && mints[g - 1] == w
  }

  ghost predicate HonestLedger(mints: seq<Wid>, w: Wid, l: Ledger, o: Obj) {
    && (o in l.owned ==> Honest(mints, w, l.owned[o]))
    && (o in l.transit ==> Honest(mints, l.transit[o].to, l.transit[o].gen) && l.transit[o].gen >= 2)
  }

  /** What a ledger owns is the latest generation. */
  ghost predicate Latest(mints: seq<Wid>, w: Wid, l: Ledger, o: Obj) {
    o in l.owned ==> l.owned[o] == |mints|
  }

  ghost predicate MemOk(s: State, o: Obj)
    requires Shaped(s)
  {
    forall w :: 0 <= w < |s.mem| ==>
      HonestLedger(Mints(s, o), w, s.mem[w], o) && Latest(Mints(s, o), w, s.mem[w], o)
  }

  ghost predicate DurOk(s: State, o: Obj)
    requires Shaped(s)
  {
    forall w :: 0 <= w < |s.mem| ==>
      && HonestLedger(Mints(s, o), w, s.dur[w], o) && Latest(Mints(s, o), w, s.dur[w], o)
      && Known(s.dur[w], o) <= Known(s.mem[w], o)
  }

  ghost predicate PastOk(s: State, o: Obj)
    requires Shaped(s)
  {
    forall w, l :: 0 <= w < |s.mem| && l in s.past[w] ==> HonestLedger(Mints(s, o), w, l, o)
  }

  ghost predicate DeedsOk(s: State, o: Obj) {
    forall d :: d in s.deeds && d.o == o ==> Honest(Mints(s, o), d.to, d.gen)
  }

  /** Whoever gave a generation away remembers durably that there is a later one. */
  ghost predicate Remembered(s: State, o: Obj)
    requires Shaped(s)
  {
    var m := Mints(s, o);
    forall i :: 0 <= i < |m| - 1 ==> m[i] < |s.dur| && i + 1 < Known(s.dur[m[i]], o)
  }

  ghost predicate MintsOk(s: State, o: Obj)
    requires Shaped(s)
  {
    var m := Mints(s, o);
    (m != [] ==> m[0] == Home(o, |s.mem|)) && forall i :: 0 <= i < |m| ==> m[i] < |s.mem|
  }

  ghost predicate ObjOk(s: State, o: Obj)
    requires Shaped(s)
  {
    MemOk(s, o) && DurOk(s, o) && PastOk(s, o) && DeedsOk(s, o) && Remembered(s, o) && MintsOk(s, o)
  }

  ghost predicate Inv(s: State) {
    && Shaped(s) && (forall w :: 0 <= w < |s.mem| ==> s.dur[w] in s.past[w])
    && forall o :: ObjOk(s, o)
  }

  // ----- every event keeps it

  lemma WriteOk(s: State, w: Wid, o: Obj)
    requires Shaped(s) && w < |s.mem|
    requires ObjOk(s, o)
    ensures ObjOk(Write(s, w), o)
  {
    var s' := Write(s, w);
    assert s'.mem == s.mem && Mints(s', o) == Mints(s, o);
  }

  lemma HonestGrows(m: seq<Wid>, w: Wid, l: Ledger, o: Obj, dest: Wid)
    requires HonestLedger(m, w, l, o)
    ensures HonestLedger(m + [dest], w, l, o)
  {
  }

  /** The releasing worker holds the latest generation, so the one it mints is the next. */
  lemma MintsNext(s: State, w: Wid, o: Obj)
    requires Shaped(s) && w < |s.mem| && MemOk(s, o) && o in s.mem[w].owned
    ensures Minting(s.mem[w], o) == |Mints(s, o)| + 1 && Mints(s, o)[|Mints(s, o)| - 1] == w && |Mints(s, o)| >= 1
  {
    assert HonestLedger(Mints(s, o), w, s.mem[w], o);
  }

  lemma ReleaseMem(s: State, w: Wid, o: Obj, dest: Wid)
    requires Inv(s) && w < |s.mem| && dest < |s.mem| && o in s.mem[w].owned
    ensures MemOk(DoRelease(s, w, o, dest), o)
  {
    assert ObjOk(s, o);
    MintsNext(s, w, o);
    var s', m := DoRelease(s, w, o, dest), Mints(s, o);
    forall v | 0 <= v < |s.mem|
      ensures HonestLedger(m + [dest], v, s'.mem[v], o) && Latest(m + [dest], v, s'.mem[v], o)
    {
      HonestGrows(m, v, s.mem[v], o, dest);
      assert HonestLedger(m, v, s.mem[v], o) && Latest(m, v, s.mem[v], o);
    }
  }

  lemma ReleaseDur(s: State, w: Wid, o: Obj, dest: Wid)
    requires Inv(s) && w < |s.mem| && dest < |s.mem| && o in s.mem[w].owned
    ensures DurOk(DoRelease(s, w, o, dest), o)
  {
    assert ObjOk(s, o);
    MintsNext(s, w, o);
    var s', m := DoRelease(s, w, o, dest), Mints(s, o);
    forall v | 0 <= v < |s.mem|
      ensures HonestLedger(m + [dest], v, s'.dur[v], o) && Latest(m + [dest], v, s'.dur[v], o)
      ensures Known(s'.dur[v], o) <= Known(s'.mem[v], o)
    {
      HonestGrows(m, v, s.dur[v], o, dest);
      assert HonestLedger(m, v, s.dur[v], o) && Latest(m, v, s.dur[v], o);
    }
  }

  lemma ReleasePast(s: State, w: Wid, o: Obj, dest: Wid)
    requires Inv(s) && w < |s.mem| && dest < |s.mem| && o in s.mem[w].owned
    ensures PastOk(DoRelease(s, w, o, dest), o) && DeedsOk(DoRelease(s, w, o, dest), o)
  {
    assert ObjOk(s, o);
    MintsNext(s, w, o);
    var s', m := DoRelease(s, w, o, dest), Mints(s, o);
    ReleaseMem(s, w, o, dest);
    assert HonestLedger(m + [dest], w, s'.mem[w], o);
    forall v, l | 0 <= v < |s.mem| && l in s'.past[v] ensures HonestLedger(m + [dest], v, l, o) {
      if l in s.past[v] { HonestGrows(m, v, l, o, dest); }
    }
  }

  lemma ReleaseRemembered(s: State, w: Wid, o: Obj, dest: Wid)
    requires Inv(s) && w < |s.mem| && dest < |s.mem| && o in s.mem[w].owned
    ensures Remembered(DoRelease(s, w, o, dest), o) && MintsOk(DoRelease(s, w, o, dest), o)
  {
    assert ObjOk(s, o);
    MintsNext(s, w, o);
    var s', m := DoRelease(s, w, o, dest), Mints(s, o);
    forall i | 0 <= i < |m| ensures i + 1 < Known(s'.dur[m[i]], o) {
      if i < |m| - 1 {
        assert i + 1 < Known(s.dur[m[i]], o);
        assert Known(s.dur[w], o) <= Known(s.mem[w], o);
      }
    }
  }

  /** What an event does to one object does not touch the others, except that a checkpoint writes them all. */
  lemma OthersOk(s: State, t: State, w: Wid, p: Obj)
    requires Shaped(s) && ObjOk(s, p) && w < |s.mem| && Shaped(t) && |t.mem| == |s.mem|
    requires Mints(t, p) == Mints(s, p)
    requires forall v :: 0 <= v < |s.mem| ==> Agree(s.mem[v], t.mem[v], p)
    requires t.dur == s.dur && t.past == s.past
    requires forall d :: d in t.deeds && d.o == p ==> d in s.deeds
    ensures ObjOk(t, p)
  {
  }

  predicate Agree(a: Ledger, b: Ledger, o: Obj) {
    && (o in a.owned <==> o in b.owned) && (o in a.owned ==> a.owned[o] == b.owned[o])
    && (o in a.transit <==> o in b.transit) && (o in a.transit ==> a.transit[o] == b.transit[o])
  }

  lemma ReleaseKeeps(s: State, w: Wid, o: Obj, dest: Wid)
    requires Inv(s) && w < |s.mem| && dest < |s.mem| && o in s.mem[w].owned
    ensures Inv(DoRelease(s, w, o, dest))
  {
    var s' := DoRelease(s, w, o, dest);
    forall p ensures ObjOk(s', p) {
      if p == o {
        ReleaseMem(s, w, o, dest);
        ReleaseDur(s, w, o, dest);
        ReleasePast(s, w, o, dest);
        ReleaseRemembered(s, w, o, dest);
      } else {
        var t := s'.(dur := s.dur, past := s.past);
        OthersOk(s, t, w, p);
        WriteOk(t, w, p);
        assert Write(t, w) == s';
      }
    }
  }

  /** The gate: a generation minted for the worker passes only if it is the latest, and then nobody owns the object. */
  lemma GateMeansLatest(s: State, w: Wid, o: Obj, gen: nat)
    requires Shaped(s) && ObjOk(s, o) && w < |s.mem| && Honest(Mints(s, o), w, gen) && Accepts(s.mem[w], o, gen)
    ensures gen == |Mints(s, o)| && forall v :: 0 <= v < |s.mem| ==> o !in s.mem[v].owned
  {
    var m := Mints(s, o);
    assert Known(s.dur[w], o) <= Known(s.mem[w], o) < gen;
    NotGivenAway(s, w, o, gen);
    forall v | 0 <= v < |s.mem| ensures o !in s.mem[v].owned {
      assert HonestLedger(m, v, s.mem[v], o) && Latest(m, v, s.mem[v], o);
      NotOwned(m, v, s.mem[v], w, s.mem[w], o);
    }
  }

  /** A generation that its worker's checkpoint does not know to be given away is the latest. */
  lemma NotGivenAway(s: State, w: Wid, o: Obj, gen: nat)
    requires Shaped(s) && Remembered(s, o) && w < |s.dur| && Honest(Mints(s, o), w, gen) && Known(s.dur[w], o) < gen
    ensures gen == |Mints(s, o)|
  {
    var i: nat := gen - 1;
    assert Mints(s, o)[i] == w;
  }

  /** Whoever lets the latest generation pass is the only one who could own the object, and does not. */
  lemma NotOwned(m: seq<Wid>, v: Wid, l: Ledger, w: Wid, k: Ledger, o: Obj)
    requires HonestLedger(m, v, l, o) && Latest(m, v, l, o) && Honest(m, w, |m|) && Accepts(k, o, |m|)
    requires v == w ==> l == k
    ensures o !in l.owned
  {
  }

  lemma AdmitObj(s: State, w: Wid, o: Obj, gen: nat)
    requires Shaped(s) && ObjOk(s, o) && w < |s.mem| && Honest(Mints(s, o), w, gen) && Accepts(s.mem[w], o, gen)
    ensures ObjOk(s.(mem := s.mem[w := Admitted(s.mem[w], o, gen)]), o)
  {
    GateMeansLatest(s, w, o, gen);
    var s' := s.(mem := s.mem[w := Admitted(s.mem[w], o, gen)]);
    assert Mints(s', o) == Mints(s, o);
    assert MemOk(s', o) by {
      forall v | 0 <= v < |s.mem|
        ensures HonestLedger(Mints(s, o), v, s'.mem[v], o) && Latest(Mints(s, o), v, s'.mem[v], o)
      {
        assert HonestLedger(Mints(s, o), v, s.mem[v], o);
      }
    }
  }

  lemma AdmitKeeps(s: State, w: Wid, o: Obj, gen: nat, stored: bool)
    requires Inv(s) && w < |s.mem| && Honest(Mints(s, o), w, gen)
    ensures Inv(DoAdmit(s, w, o, gen, stored))
  {
    if Accepts(s.mem[w], o, gen) {
      var t := s.(mem := s.mem[w := Admitted(s.mem[w], o, gen)]);
      forall p ensures ObjOk(t, p) {
        if p == o { AdmitObj(s, w, o, gen); } else { OthersOk(s, t, w, p); }
      }
      forall p ensures ObjOk(Write(t, w), p) { WriteOk(t, w, p); }
    }
  }

  /** A claim read from checkpoints, however stale, is honest. */
  lemma SeenHonest(s: State, view: View, o: Obj, c: Claim)
    requires Inv(s) && Seen(s, view) && IsClaim(view, o, c) && !c.Unclaimed?
    ensures Honest(Mints(s, o), c.w, c.gen)
  {
    assert ObjOk(s, o);
    match c
    case Owned(w, g) => assert HonestLedger(Mints(s, o), w, view[w].value, o);
    case InTransit(to, g) =>
      var w :| 0 <= w < |view| && view[w].Some? && o in view[w].value.transit
          && view[w].value.transit[o] == Marker(to, g);
      assert HonestLedger(Mints(s, o), w, view[w].value, o);
  }

  lemma EnteredKeeps(s: State, w: Wid, o: Obj, claim: Claim)
    requires Inv(s) && w < |s.mem| && (claim.Unclaimed? ==> Home(o, |s.mem|) == w)
    ensures Inv(Entered(s, w, o, claim))
    ensures claim.Unclaimed? ==> Honest(Mints(Entered(s, w, o, claim), o), w, 1)
  {
    assert ObjOk(s, o);
    if claim.Unclaimed? && Mints(s, o) == [] {
      var s' := Entered(s, w, o, claim);
      forall p ensures ObjOk(s', p) {
        assert ObjOk(s, p);
        if p == o { EnteredObj(s, w, o); } else { OthersOk(s, s', w, p); }
      }
    }
  }

  lemma EnteredObj(s: State, w: Wid, o: Obj)
    requires Shaped(s) && ObjOk(s, o) && w < |s.mem| && Mints(s, o) == [] && Home(o, |s.mem|) == w
    ensures ObjOk(s.(minted := s.minted[o := [w]]), o)
  {
    var s' := s.(minted := s.minted[o := [w]]);
    forall v | 0 <= v < |s.mem| ensures o !in s.mem[v].owned && o !in s.dur[v].owned {
      assert HonestLedger([], v, s.mem[v], o) && HonestLedger([], v, s.dur[v], o);
    }
    forall v, l | 0 <= v < |s.mem| && l in s.past[v] ensures HonestLedger([w], v, l, o) {
      assert HonestLedger([], v, l, o);
    }
  }

  lemma OthersOlder(s: State, w: Wid, view: View, o: Obj, v: Wid)
    requires Inv(s) && w < |s.mem| && Seen(s, view) && o in s.dur[w].owned
    requires v < |view| && v != w && view[v].Some? && o in view[v].value.owned
    ensures view[v].value.owned[o] < s.dur[w].owned[o]
  {
    var gen := view[v].value.owned[o];
    assert Honest(Mints(s, o), v, gen) by { SeenHonest(s, view, o, Owned(v, gen)); }
    assert DurOk(s, o) by { assert ObjOk(s, o); }
    DurableLatest(s, w, o);
    HonestOlder(Mints(s, o), w, v, gen);
  }

  /** A generation that is not the worker's, who holds the latest, is older. */
  lemma HonestOlder(mints: seq<Wid>, w: Wid, v: Wid, gen: nat)
    requires v != w && Honest(mints, w, |mints|) && Honest(mints, v, gen)
    ensures gen < |mints|
  {
  }

  lemma DurableLatest(s: State, w: Wid, o: Obj)
    requires Shaped(s) && w < |s.mem| && DurOk(s, o) && o in s.dur[w].owned
    ensures s.dur[w].owned[o] == |Mints(s, o)| && Honest(Mints(s, o), w, |Mints(s, o)|)
  {
    assert HonestLedger(Mints(s, o), w, s.dur[w], o) && Latest(Mints(s, o), w, s.dur[w], o);
  }

  /** A worker that restarts finds in its checkpoint exactly what it had: the reconciliation drops nothing. */
  lemma BootKeepsAll(s: State, w: Wid, view: View)
    requires Inv(s) && w < |s.mem| && Seen(s, view) && view[w] == Some(s.dur[w])
    ensures Booted(view, w) == s.dur[w]
  {
    var l := s.dur[w];
    forall o | o in l.owned ensures Keeps(view, w, o, l.owned[o]) {
      forall v | 0 <= v < |view| && v != w && view[v].Some? && o in view[v].value.owned
        ensures view[v].value.owned[o] < l.owned[o]
      {
        OthersOlder(s, w, view, o, v);
      }
    }
  }

  lemma RestartKeeps(s: State, w: Wid, view: View)
    requires Inv(s) && w < |s.mem| && Seen(s, view) && view[w] == Some(s.dur[w])
    ensures Inv(s.(mem := s.mem[w := Booted(view, w)]))
  {
    BootKeepsAll(s, w, view);
    var s' := s.(mem := s.mem[w := s.dur[w]]);
    forall o ensures ObjOk(s', o) { assert ObjOk(s, o); RestartObj(s, w, o); }
  }

  lemma RestartObj(s: State, w: Wid, o: Obj)
    requires Shaped(s) && w < |s.mem| && ObjOk(s, o)
    ensures ObjOk(s.(mem := s.mem[w := s.dur[w]]), o)
  {
  }

  lemma EventKeepsInv(s: State, e: Event)
    requires Inv(s) && Can(s, e)
    ensures Inv(Do(s, e))
  {
    match e
    case Release(w, o, dest, stored) => ReleaseKeeps(s, w, o, dest);
    case Receive(w, deed, byTake, stored) =>
      assert ObjOk(s, deed.o);
      AdmitKeeps(s, w, deed.o, deed.gen, stored);
    case Heal(w, o, view, claim, stored) =>
      HealKeeps(s, w, o, view, claim, stored);
    case Rediscover(w, o, view, claim) =>
      SeenHonest(s, view, o, claim);
      var s' := Do(s, e);
      forall p ensures ObjOk(s', p) { assert ObjOk(s, p); }
    case Checkpoint(w) =>
      forall p ensures ObjOk(Write(s, w), p) { assert ObjOk(s, p); WriteOk(s, w, p); }
    case Restart(w, view) => RestartKeeps(s, w, view);
  }

  lemma HealKeeps(s: State, w: Wid, o: Obj, view: View, claim: Claim, stored: bool)
    requires Inv(s) && Can(s, Heal(w, o, view, claim, stored))
    ensures Inv(Do(s, Heal(w, o, view, claim, stored)))
  {
    if Adoptable(w, |s.mem|, o, claim).Some? {
      EnteredKeeps(s, w, o, claim);
      if !claim.Unclaimed? { SeenHonest(s, view, o, claim); }
      AdmitKeeps(Entered(s, w, o, claim), w, o, Adoptable(w, |s.mem|, o, claim).value, stored);
    }
  }

  lemma InitialInv(s: State)
    requires Initial(s)
    ensures Inv(s)
  {
  }

  lemma {:induction false} RunInv(ss: seq<State>, es: seq<Event>, k: nat)
    requires Run(ss, es) && k < |ss|
    ensures Inv(ss[k])
  {
    if k == 0 {
      InitialInv(ss[0]);
    } else {
      RunInv(ss, es, k - 1);
      EventKeepsInv(ss[k - 1], es[k - 1]);
    }
  }

  // ----- main results

  /** In every reachable state at most one worker owns an object, and it owns it at the latest generation ever minted,
      which was minted for it. */
  lemma SoleOwner(ss: seq<State>, es: seq<Event>, k: nat, o: Obj, v: Wid, w: Wid)
    requires Run(ss, es) && k < |ss|
    requires v < |ss[k].mem| && w < |ss[k].mem| && o in ss[k].mem[v].owned && o in ss[k].mem[w].owned
    ensures v == w && ss[k].mem[v].owned[o] == |Mints(ss[k], o)| && Honest(Mints(ss[k], o), v, |Mints(ss[k], o)|)
  {
    RunInv(ss, es, k);
    assert ObjOk(ss[k], o);
    assert HonestLedger(Mints(ss[k], o), v, ss[k].mem[v], o) && HonestLedger(Mints(ss[k], o), w, ss[k].mem[w], o);
    assert Latest(Mints(ss[k], o), v, ss[k].mem[v], o) && Latest(Mints(ss[k], o), w, ss[k].mem[w], o);
  }

  ghost function Checkpoints(s: State): View
    requires Shaped(s)
  {
    seq(|s.dur|, (w: nat) requires w < |s.dur| => Some(s.dur[w]))
  }

  /** The claim that the checkpoints record for the giver of the latest generation. */
  lemma LatestRecorded(s: State, o: Obj)
    requires Inv(s) && |Mints(s, o)| >= 2
    ensures exists c :: IsClaim(Checkpoints(s), o, c) && !c.Unclaimed? && c.gen == |Mints(s, o)|
  {
    assert ObjOk(s, o);
    var m := Mints(s, o);
    var giver := m[|m| - 2];
    assert Known(s.dur[giver], o) > |m| - 1;
    assert HonestLedger(m, giver, s.dur[giver], o);
    if o in s.dur[giver].owned && s.dur[giver].owned[o] == |m| {
      assert IsClaim(Checkpoints(s), o, Owned(giver, |m|));
    } else {
      assert Checkpoints(s)[giver].Some?
          && Checkpoints(s)[giver].value.transit[o] == Marker(s.dur[giver].transit[o].to, |m|);
      assert IsClaim(Checkpoints(s), o, InTransit(s.dur[giver].transit[o].to, |m|));
    }
  }

  lemma ClaimedOnceSent(s: State, o: Obj, c: Claim)
    requires Inv(s) && IsBest(Checkpoints(s), o, c) && |Mints(s, o)| >= 2
    ensures !c.Unclaimed? && c.gen >= |Mints(s, o)|
  {
    LatestRecorded(s, o);
    var d :| IsClaim(Checkpoints(s), o, d) && !d.Unclaimed? && d.gen == |Mints(s, o)|;
    assert !Below(Rank(c), Rank(d));
  }

  lemma ClaimIsLatest(s: State, o: Obj, c: Claim)
    requires Inv(s) && IsBest(Checkpoints(s), o, c) && !c.Unclaimed?
    ensures c.gen == |Mints(s, o)| && Honest(Mints(s, o), c.w, c.gen)
  {
    assert Seen(s, Checkpoints(s));
    SeenHonest(s, Checkpoints(s), o, c);
    if |Mints(s, o)| >= 2 { ClaimedOnceSent(s, o, c); }
  }

  /** The highest-ranked durable claim names the worker the latest generation was minted for: the owner, or the
      addressee of the deed under way.  Nothing is claimed only before the first handoff, when the home alone may own
      it. */
  lemma TruthNamesOwner(s: State, o: Obj, c: Claim)
    requires Inv(s) && IsBest(Checkpoints(s), o, c)
    ensures !c.Unclaimed? ==> c.gen == |Mints(s, o)| && Honest(Mints(s, o), c.w, c.gen)
    ensures c.Unclaimed? ==> |Mints(s, o)| <= 1 && (Mints(s, o) != [] ==> Mints(s, o)[0] == Home(o, |s.mem|))
    ensures forall w :: 0 <= w < |s.mem| && o in s.mem[w].owned ==>
              w == if c.Unclaimed? then Home(o, |s.mem|) else c.w
  {
    assert ObjOk(s, o);
    if !c.Unclaimed? { ClaimIsLatest(s, o, c); }
    if |Mints(s, o)| >= 2 { ClaimedOnceSent(s, o, c); }
    forall w | 0 <= w < |s.mem| && o in s.mem[w].owned ensures w == if c.Unclaimed? then Home(o, |s.mem|) else c.w {
      assert HonestLedger(Mints(s, o), w, s.mem[w], o) && Latest(Mints(s, o), w, s.mem[w], o);
    }
  }

  // ----- nothing stays lost

  /** The worker that may take an object over from the checkpoints. */
  function Heir(c: Claim, o: Obj, workers: nat): Wid
    requires workers > 0
  {
    if c.Unclaimed? then Home(o, workers) else c.w
  }

  /** The worker gave the object away last, to itself. */
  predicate GaveToItself(l: Ledger, w: Wid, o: Obj, gen: nat) {
    o in l.transit && l.transit[o] == Marker(w, gen)
  }

  /** What a worker that does not own an object knows of it is older than the latest generation minted for that worker,
      unless it gave the object to itself. */
  lemma KnowsLess(s: State, w: Wid, o: Obj)
    requires Inv(s) && w < |s.mem| && o !in s.mem[w].owned && Honest(Mints(s, o), w, |Mints(s, o)|)
    ensures Accepts(s.mem[w], o, |Mints(s, o)|) <==> !GaveToItself(s.mem[w], w, o, |Mints(s, o)|)
  {
    assert MemOk(s, o) by { assert ObjOk(s, o); }
    LedgerKnowsLess(Mints(s, o), w, s.mem[w], o);
  }

  lemma LedgerKnowsLess(mints: seq<Wid>, w: Wid, l: Ledger, o: Obj)
    requires HonestLedger(mints, w, l, o) && o !in l.owned && Honest(mints, w, |mints|)
    ensures Accepts(l, o, |mints|) <==> !GaveToItself(l, w, o, |mints|)
  {
  }

  /** When nobody owns an object, the worker that the best claim in the checkpoints names comes to own it, at the latest
      generation, by the next take that reaches it, unless it gave the object to itself; where nothing is claimed the
      home does, at generation 1.  At any other worker the take changes nothing. */
  lemma HealsTheLost(s: State, o: Obj, c: Claim, w: Wid, stored: bool)
    requires Inv(s) && IsBest(Checkpoints(s), o, c) && w < |s.mem|
    requires forall v :: 0 <= v < |s.mem| ==> o !in s.mem[v].owned
    ensures Can(s, Heal(w, o, Checkpoints(s), c, stored))
    ensures var t := Do(s, Heal(w, o, Checkpoints(s), c, stored));
            && (w != Heir(c, o, |s.mem|) ==> t == s)
            && (w == Heir(c, o, |s.mem|) ==>
                  && (o in t.mem[w].owned <==> !GaveToItself(s.mem[w], w, o, |Mints(s, o)|))
                  && (o in t.mem[w].owned ==>
                        t.mem[w].owned[o] == |Mints(t, o)| == if c.Unclaimed? then 1 else |Mints(s, o)|))
            && (c.Unclaimed? ==> !GaveToItself(s.mem[w], w, o, |Mints(s, o)|))
  {
    TruthNamesOwner(s, o, c);
    var t := Entered(s, w, o, c);
    if w == Heir(c, o, |s.mem|) {
      EnteredKeeps(s, w, o, c);
      KnowsLess(t, w, o);
    }
    assert ObjOk(s, o);
    assert HonestLedger(Mints(s, o), w, s.mem[w], o);
  }

  /** A deed of the latest generation makes its addressee the owner while nobody owns the object, unless it comes from
      the addressee itself. */
  lemma DeedArrives(s: State, d: Deed, byTake: bool, stored: bool)
    requires Inv(s) && d in s.deeds && d.gen == |Mints(s, d.o)|
    requires forall v :: 0 <= v < |s.mem| ==> d.o !in s.mem[v].owned
    ensures Can(s, Receive(d.to, d, byTake, stored))
    ensures var t := Do(s, Receive(d.to, d, byTake, stored));
            && (d.o in t.mem[d.to].owned <==> !GaveToItself(s.mem[d.to], d.to, d.o, d.gen))
            && (d.o in t.mem[d.to].owned ==> t.mem[d.to].owned[d.o] == d.gen)
  {
    assert ObjOk(s, d.o);
    KnowsLess(s, d.to, d.o);
  }

  // One worker, alone: nothing yet, the object taken over from the checkpoints, and given to itself.
  const NOTHING: State := State([EMPTY], [EMPTY], [{EMPTY}], {}, map[])
  const HELD: Ledger := Ledger(map[0 := 1], map[])
  const TAKEN: State := State([HELD], [HELD], [{EMPTY, HELD}], {}, map[0 := [0]])
  const GIVEN: Ledger := Ledger(map[], map[0 := Marker(0, 2)])
  const LOST: State :=
    State([GIVEN], [GIVEN], [{EMPTY, HELD, GIVEN}], {Deed(0, 0, 2)}, map[0 := [0, 0]])

  lemma TakesFirst()
    ensures var e := Heal(0, 0, Checkpoints(NOTHING), Unclaimed, true); Can(NOTHING, e) && Do(NOTHING, e) == TAKEN
  {
    var s := Entered(NOTHING, 0, 0, Unclaimed);
    assert Admitted(s.mem[0], 0, 1) == HELD;
    assert {EMPTY} + {HELD} == {EMPTY, HELD};
    assert s.mem[0 := HELD] == [HELD];
  }

  lemma GivesToItself()
    ensures Can(TAKEN, Release(0, 0, 0, true)) && Do(TAKEN, Release(0, 0, 0, true)) == LOST
  {
    assert Released(HELD, 0, 0) == GIVEN;
    assert {EMPTY, HELD} + {GIVEN} == {EMPTY, HELD, GIVEN} && {} + {Deed(0, 0, 2)} == {Deed(0, 0, 2)};
    assert TAKEN.mem[0 := GIVEN] == [GIVEN] && [0] + [0] == [0, 0];
    assert map[0 := [0]][0 := [0, 0]] == map[0 := [0, 0]];
  }

  lemma StaysLost()
    ensures IsBest(Checkpoints(LOST), 0, InTransit(0, 2)) && 0 !in LOST.mem[0].owned
    ensures Can(LOST, Receive(0, Deed(0, 0, 2), true, true)) && Do(LOST, Receive(0, Deed(0, 0, 2), true, true)) == LOST
    ensures var e := Heal(0, 0, Checkpoints(LOST), InTransit(0, 2), true); Can(LOST, e) && Do(LOST, e) == LOST
  {
    assert Checkpoints(LOST)[0].value.transit[0] == Marker(0, 2);
    assert IsClaim(Checkpoints(LOST), 0, InTransit(0, 2));
  }

  /** An object that its owner gives to itself is lost: the owner owns it at generation 1, its checkpoint says that
      generation 2 is on its way to it, and neither the deed nor a take makes it the owner again. */
  lemma GivenToItself() returns (ss: seq<State>, es: seq<Event>)
    ensures Run(ss, es) && |es| == 2 && Shaped(ss[1]) && Shaped(ss[2]) && 0 in ss[1].mem[0].owned
    ensures IsBest(Checkpoints(ss[2]), 0, InTransit(0, 2)) && 0 !in ss[2].mem[0].owned
    ensures Can(ss[2], Receive(0, Deed(0, 0, 2), true, true))
    ensures Do(ss[2], Receive(0, Deed(0, 0, 2), true, true)) == ss[2]
    ensures Can(ss[2], Heal(0, 0, Checkpoints(ss[2]), InTransit(0, 2), true))
    ensures Do(ss[2], Heal(0, 0, Checkpoints(ss[2]), InTransit(0, 2), true)) == ss[2]
  {
    TakesFirst();
    GivesToItself();
    StaysLost();
    ss := [NOTHING, TAKEN, LOST];
    es := [Heal(0, 0, Checkpoints(NOTHING), Unclaimed, true), Release(0, 0, 0, true)];
  }

  // ----- nobody is given an object twice

  lemma ReceiveSpends(s: State, w: Wid, deed: Deed, stored: bool)
    requires Inv(s) && w < |s.mem| && deed in s.deeds && deed.to == w
    requires deed.o !in s.mem[w].owned && deed.o in DoAdmit(s, w, deed.o, deed.gen, stored).mem[w].owned
    ensures forall v :: 0 <= v < |s.mem| ==> deed.o !in s.mem[v].owned
    ensures Known(s.mem[w], deed.o) < deed.gen
  {
    assert ObjOk(s, deed.o);
    GateMeansLatest(s, w, deed.o, deed.gen);
  }

  lemma HealSpends(s: State, w: Wid, o: Obj, view: View, claim: Claim, stored: bool)
    requires Inv(s) && Can(s, Heal(w, o, view, claim, stored)) && Adoptable(w, |s.mem|, o, claim).Some?
    requires Accepts(s.mem[w], o, Adoptable(w, |s.mem|, o, claim).value)
    ensures forall v :: 0 <= v < |s.mem| ==> o !in s.mem[v].owned
  {
    EnteredKeeps(s, w, o, claim);
    var t := Entered(s, w, o, claim);
    assert ObjOk(t, o);
    if !claim.Unclaimed? { SeenHonest(s, view, o, claim); }
    GateMeansLatest(t, w, o, Adoptable(w, |s.mem|, o, claim).value);
    forall v | 0 <= v < |s.mem| ensures o !in s.mem[v].owned { assert t.mem[v] == s.mem[v]; }
  }

  /** A worker comes to own an object only at the latest generation, which was minted for it, and only when nobody,
      itself included, owned the object: through whatever channel it arrives, a renunciation is spent once. */
  lemma SpentOnce(s: State, e: Event, w: Wid, o: Obj)
    requires Inv(s) && Can(s, e) && w < |s.mem| && !e.Restart?
    requires o !in s.mem[w].owned && o in Do(s, e).mem[w].owned
    ensures forall v :: 0 <= v < |s.mem| ==> o !in s.mem[v].owned
    ensures Known(s.mem[w], o) < Do(s, e).mem[w].owned[o]
    ensures Do(s, e).mem[w].owned[o] == |Mints(Do(s, e), o)| && Honest(Mints(Do(s, e), o), w, |Mints(Do(s, e), o)|)
  {
    OwnedLatest(s, e, w, o);
    match e
    case Receive(x, deed, byTake, stored) => ReceiveSpends(s, w, deed, stored);
    case Heal(x, p, view, claim, stored) => HealSpends(s, w, o, view, claim, stored);
    case _ =>
  }

  lemma OwnedLatest(s: State, e: Event, w: Wid, o: Obj)
    requires Inv(s) && Can(s, e) && w < |s.mem| && o in Do(s, e).mem[w].owned
    ensures Do(s, e).mem[w].owned[o] == |Mints(Do(s, e), o)| && Honest(Mints(Do(s, e), o), w, |Mints(Do(s, e), o)|)
  {
    EventKeepsInv(s, e);
    var t := Do(s, e);
    assert ObjOk(t, o);
    assert HonestLedger(Mints(t, o), w, t.mem[w], o) && Latest(Mints(t, o), w, t.mem[w], o);
  }

  /** The generations of an object only ever grow, and a spent generation is never owned again. */
  lemma NeverAgain(s: State, e: Event, o: Obj, w: Wid)
    requires Inv(s) && Can(s, e) && w < |s.mem|
    ensures Mints(s, o) <= Mints(Do(s, e), o)
    ensures o in Do(s, e).mem[w].owned ==> |Mints(s, o)| <= Do(s, e).mem[w].owned[o]
  {
    if o in Do(s, e).mem[w].owned { OwnedLatest(s, e, w, o); }
  }
}
