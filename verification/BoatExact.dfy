/** The guard of `BoatSerial` is exact: a state from which the program can never leave a transaction behind that was
    computed from a reverted one, nor make it durable first, is precisely a safe one, and a new transaction keeps it so
    precisely when its guard holds. */
module BoatExact {
  import opened Bytes
  import opened Sums
  import opened TxnComponents
  import opened Boats
  import opened BoatSteps
  import opened BoatCut
  import opened BoatRun
  import opened BoatSerial
  import opened BoatFutures
  import opened BoatParting

  // ----- from an unsafe state something can go wrong

  /** A computed transaction that a sunk boat would leave behind. */
  lemma SinksAway(w: W, e: nat, i: nat, all: bool, cap: nat) returns (r: set<Obj>)
    requires Suspect(w, e, i, all) && w.history[e] in Afloat(w) && w.history[i] in w.pending
    requires !Caught(w.inflight.value, w.pending, w.history[i]) && w.inflight.value.phase.Failed?
    ensures Can(w, Revert(r)) && Fair(w, Revert(r), cap, all) && !Grounded(Reverts(w, r), all)
  {
    var seed := w.inflight.value.images.Keys;
    r := Radius(w.pending, seed);
    RadiusIsLeast(w.pending, seed);
    TiedIsReached(w.pending, w.inflight.value, w.history[e], w.history[i]);
    SurvivesRevert(w, e, i, all, r);
  }

  lemma SinksFirst(w: W, e: nat, i: nat, all: bool, cap: nat) returns (steps: seq<Step>, w': W)
    requires Suspect(w, e, i, all) && w.history[e] in Afloat(w) && w.history[i] in w.pending && AtSea(w)
    requires !Caught(w.inflight.value, w.pending, w.history[i])
    ensures Future(w, steps, w', cap, all) && !Grounded(w', all)
  {
    var v := Sinking(w);
    StillSuspect(w, Sink, e, i, all);
    SunkIsSame(w, e, i);
    var xs;
    xs, w' := AwayNow(v, e, i, all, cap);
    StepThen(w, Sink, xs, w', cap, all);
    steps := [Sink] + xs;
  }

  lemma SunkIsSame(w: W, e: nat, i: nat)
    requires AtSea(w) && i < |w.history| && e < |w.history| && w.history[e] in Afloat(w) && w.history[i] in w.pending
    requires !Caught(w.inflight.value, w.pending, w.history[i])
    ensures var v := Sinking(w);
            && v.history == w.history && v.history[e] in Afloat(v) && v.history[i] in v.pending
            && v.inflight.Some? && v.inflight.value.phase.Failed? && !Caught(v.inflight.value, v.pending, v.history[i])
  {
  }

  lemma AwayNow(w: W, e: nat, i: nat, all: bool, cap: nat) returns (steps: seq<Step>, w': W)
    requires Suspect(w, e, i, all) && w.history[e] in Afloat(w) && w.history[i] in w.pending
    requires !Caught(w.inflight.value, w.pending, w.history[i]) && w.inflight.value.phase.Failed?
    ensures Future(w, steps, w', cap, all) && !Grounded(w', all)
  {
    var r := SinksAway(w, e, i, all, cap);
    w' := Reverts(w, r);
    Just(w, Revert(r), cap, all);
    steps := [Revert(r)];
  }

  /** What the radius of the one transaction leaves out, and with it what the radius of a sunk boat leaves out. */
  lemma BacklogSides(pending: seq<Applied>, s: set<Obj>, r: set<Obj>)
    requires Closed(pending, s) && Closed(pending, r)
    ensures forall t :: t in pending && !Meets(t, s) && !Meets(t, r) ==> t.writes.Keys <= Touched(pending) - s - r
  {
    forall t | t in pending && !Meets(t, s) && !Meets(t, r) ensures t.writes.Keys <= Touched(pending) - s - r {
      MemberTouched(pending, t);
      forall o | o in t.writes ensures o !in s && o !in r {
        if o in s { MeetsAt(t, s, o); }
        if o in r { MeetsAt(t, r, o); }
      }
    }
  }

  lemma PendingAllWf(w: W)
    requires Accounted(w)
    ensures AllWf(w.pending)
  {
    forall i | 0 <= i < |w.pending| ensures Wf(w.pending[i]) {
      assert w.pending[i] in w.pending;
      StandingKnown(w, w.pending[i]);
    }
  }

  /** The radius of a pending transaction, all of it live. */
  lemma RadiusLives(w: W, a: Applied)
    requires LiveOk(w) && a in w.pending
    ensures Radius(w.pending, a.writes.Keys) <= Touched(w.pending) <= w.live.Keys
  {
    MemberTouched(w.pending, a);
  }

  /** Burdened, with no boat that failed: whatever boat there is lands, and the two part. */
  lemma PartsAfterLanding(w: W, e: nat, i: nat, all: bool, cap: nat, s: set<Obj>, hub: Applied, z: Obj,
                          s': set<Obj>, hub': Applied, z': Obj) returns (steps: seq<Step>, w': W)
    requires Suspect(w, e, i, all) && (w.inflight.Some? ==> !w.inflight.value.phase.Failed?)
    requires Parted(w.(inflight := None), cap, w.history[e], s, hub, z, w.history[i], s', hub', z')
    ensures Future(w, steps, w', cap, all) && !Grounded(w', all)
  {
    if w.inflight.None? {
      assert w.(inflight := None) == w;
      steps, w' := Part(w, e, i, all, cap, s, hub, z, s', hub', z');
      return;
    }
    if w.inflight.value.phase.Sailing? {
      var v := Landing(w);
      StillSuspect(w, Land, e, i, all);
      steps, w' := ClearAndPart(v, e, i, all, cap, s, hub, z, s', hub', z');
      StepThen(w, Land, steps, w', cap, all);
      steps := [Land] + steps;
    } else {
      steps, w' := ClearAndPart(w, e, i, all, cap, s, hub, z, s', hub', z');
    }
  }

  lemma ClearAndPart(w: W, e: nat, i: nat, all: bool, cap: nat, s: set<Obj>, hub: Applied, z: Obj,
                     s': set<Obj>, hub': Applied, z': Obj) returns (steps: seq<Step>, w': W)
    requires Suspect(w, e, i, all) && w.inflight.Some? && w.inflight.value.phase.Committed?
    requires Parted(w.(inflight := None), cap, w.history[e], s, hub, z, w.history[i], s', hub', z')
    ensures Future(w, steps, w', cap, all) && !Grounded(w', all)
  {
    StillSuspect(w, Clear, e, i, all);
    steps, w' := Part(w.(inflight := None), e, i, all, cap, s, hub, z, s', hub', z');
    StepThen(w, Clear, steps, w', cap, all);
    steps := [Clear] + steps;
  }

  /** The backlog without the two radii. */
  ghost function Others(pending: seq<Applied>, s: set<Obj>, r: set<Obj>): set<Obj> {
    Touched(pending) - s - r
  }

  lemma OnASide(pending: seq<Applied>, s: set<Obj>, r: set<Obj>, z: Obj, z': Obj, hub: Applied, hub': Applied,
                t: Applied)
    requires Closed(pending, s) && Closed(pending, r) && t in pending + [hub, hub'] && (t in pending ==> !Meets(t, r))
    requires hub.writes.Keys == s + {z} && hub'.writes.Keys == Others(pending, s, r) + {z'}
    ensures t.writes.Keys <= s + {z} || t.writes.Keys <= Others(pending, s, r) + {z'}
  {
    BacklogSides(pending, s, r);
    if t in pending && Meets(t, s) { assert t.writes.Keys <= s; }
  }

  lemma SidesApart(pending: seq<Applied>, s: set<Obj>, r: set<Obj>, z: Obj, z': Obj)
    requires s <= Touched(pending) && z !in Touched(pending) && z' !in Touched(pending) && z != z'
    ensures s + {z} !! Others(pending, s, r) + {z'}
  {
  }

  /** With the two loads, the backlog falls into two sides. */
  lemma TwoSidesNow(w: W, v: W, s: set<Obj>, z: Obj, z': Obj, hub: Applied, hub': Applied)
    requires Accounted(v) && Closed(w.pending, s) && s <= Touched(w.pending) <= w.live.Keys
    requires v.pending == w.pending + [hub, hub'] && z != z' && z !in w.live && z' !in w.live
    requires hub.writes.Keys == s + {z} && hub'.writes.Keys == Others(w.pending, s, {}) + {z'}
    ensures TwoSides(v.pending, s + {z}, Others(w.pending, s, {}) + {z'})
  {
    PendingAllWf(v);
    SidesApart(w.pending, s, {}, z, z');
    assert Closed(w.pending, {});
    forall t | t in v.pending ensures t.writes.Keys <= s + {z} || t.writes.Keys <= Others(w.pending, s, {}) + {z'} {
      OnASide(w.pending, s, {}, z, z', hub, hub', t);
    }
  }

  lemma TiedOnlyIfMet(pending: seq<Applied>, a: Applied, b: Applied)
    requires !Tied(pending, a, b)
    ensures !Meets(b, Radius(pending, a.writes.Keys))
  {
    RadiusIsLeast(pending, a.writes.Keys);
  }

  lemma OnTheOtherSide(pending: seq<Applied>, s: set<Obj>, r: set<Obj>, b: Applied)
    requires Closed(pending, s) && Closed(pending, r) && b in pending && !Meets(b, s) && !Meets(b, r)
    ensures b.writes.Keys <= Others(pending, s, r)
  {
    BacklogSides(pending, s, r);
  }

  /** Two pending transactions, one computed from the other, which nothing ties; no boat has failed. */
  lemma PartsWays(w: W, e: nat, i: nat, all: bool, cap: nat) returns (steps: seq<Step>, w': W)
    requires Suspect(w, e, i, all) && w.history[e] in w.pending && w.history[i] in w.pending
    requires !Tied(w.pending, w.history[e], w.history[i]) && (w.inflight.Some? ==> !w.inflight.value.phase.Failed?)
    ensures Future(w, steps, w', cap, all) && !Grounded(w', all)
  {
    var a, b := w.history[e], w.history[i];
    var s := Radius(w.pending, a.writes.Keys);
    RadiusIsLeast(w.pending, a.writes.Keys);
    RadiusLives(w, a);
    TiedOnlyIfMet(w.pending, a, b);
    assert b.writes.Keys <= Others(w.pending, s, {}) by {
      assert Closed(w.pending, {}) && !Meets(b, {});
      OnTheOtherSide(w.pending, s, {}, b);
    }
    var xs, v, hub, z, hub', z' := Burden(w, e, i, all, cap, s, Others(w.pending, s, {}));
    TwoSidesNow(w, v, s, z, z', hub, hub');
    assert Parted(v.(inflight := None), cap, a, s + {z}, hub, z, b, Others(w.pending, s, {}) + {z'}, hub', z');
    var ys;
    ys, w' := PartsAfterLanding(v, e, i, all, cap, s + {z}, hub, z, Others(w.pending, s, {}) + {z'}, hub', z');
    FutureOn(w, xs, v, ys, w', cap, all);
    steps := xs + ys;
  }

  // ----- when a boat has failed

  lemma UnionClosed(pending: seq<Applied>, s: set<Obj>, r: set<Obj>, z: Obj)
    requires Closed(pending, s) && Closed(pending, r) && z !in Touched(pending)
    ensures Closed(pending, r + s + {z})
  {
    forall t | t in pending && Meets(t, r + s + {z}) ensures t.writes.Keys <= r + s + {z} {
      MemberTouched(pending, t);
      var o :| o in t.writes && o in r + s + {z};
      if o in r { MeetsAt(t, r, o); } else { MeetsAt(t, s, o); }
    }
  }

  lemma LoadsClosed(pending: seq<Applied>, big: set<Obj>, hub: Applied, hub': Applied)
    requires Closed(pending, big) && hub.writes.Keys <= big && hub'.writes.Keys !! big
    ensures Closed(pending + [hub, hub'], big)
  {
    AwayFrom(hub', big);
  }

  lemma FewerClosed(pending: seq<Applied>, more: seq<Applied>, r: set<Obj>)
    requires Closed(pending + more, r)
    ensures Closed(pending, r)
  {
    forall t | t in pending && Meets(t, r) ensures t.writes.Keys <= r { assert t in pending + more; }
  }

  /** What a revert reaches once the two loads are there: at most what it reached before, and the first side. */
  lemma RadiusWithLoads(pending: seq<Applied>, images: set<Obj>, s: set<Obj>, z: Obj, z': Obj, hub: Applied,
                        hub': Applied)
    requires Closed(pending, s) && s <= Touched(pending)
    requires z !in Touched(pending) + images && z' !in Touched(pending) + images && z != z'
    requires hub.writes.Keys == s + {z} && hub'.writes.Keys == Others(pending, s, Radius(pending, images)) + {z'}
    ensures Radius(pending, images) <= Radius(pending + [hub, hub'], images) <= Radius(pending, images) + s + {z}
  {
    var all, r := pending + [hub, hub'], Radius(pending, images);
    RadiusCovers(all, images);
    RadiusCovers(pending, images);
    FewerClosed(pending, [hub, hub'], Radius(all, images));
    RadiusWithin(pending, images, Radius(all, images));
    SecondApart(pending, images, s, z, z');
    UnionClosed(pending, s, r, z);
    LoadsClosed(pending, r + s + {z}, hub, hub');
    RadiusWithin(all, images, r + s + {z});
  }

  lemma SecondApart(pending: seq<Applied>, images: set<Obj>, s: set<Obj>, z: Obj, z': Obj)
    requires s <= Touched(pending) && z !in Touched(pending) + images && z' !in Touched(pending) + images && z != z'
    ensures var r := Radius(pending, images); Others(pending, s, r) + {z'} !! r + s + {z}
  {
    assert Radius(pending, images) <= images + Touched(pending);
  }

  lemma AwayFrom(t: Applied, r: set<Obj>)
    requires t.writes.Keys !! r
    ensures !Meets(t, r)
  {
  }

  /** After the revert both loads are still there, on two sides. */
  lemma SidesAfterRevert(w: W, v: W, s: set<Obj>, r: set<Obj>, big: set<Obj>, z: Obj, z': Obj, hub: Applied,
                         hub': Applied, a: Applied, b: Applied, cap: nat)
    requires Accounted(Reverts(v, big)) && CanRevert(v, big)
    requires Closed(w.pending, s) && Closed(w.pending, r) && s <= Touched(w.pending)
    requires z !in Touched(w.pending) && z' !in Touched(w.pending) && z != z' && z' !in r
    requires v.pending == w.pending + [hub, hub'] && hub.writes.Keys == s + {z}
        && hub'.writes.Keys == Others(w.pending, s, r) + {z'}
    requires Heavy(v.pending, v.dirty, cap, s + {z}, hub, z)
        && Heavy(v.pending, v.dirty, cap, Others(w.pending, s, r) + {z'}, hub', z')
    requires r <= big <= r + s + {z} && a in v.pending && b in v.pending && a.writes.Keys <= s
        && b.writes.Keys <= Others(w.pending, s, r)
    requires !Meets(a, big) && a.writes != map[]
    ensures Parted(Reverts(v, big), cap, a, s + {z}, hub, z, b, Others(w.pending, s, r) + {z'}, hub', z')
  {
    var u := Reverts(v, big);
    var o :| o in a.writes;
    if Meets(hub, big) { MeetsAt(a, big, o); }
    assert z !in big by { if z in big { MeetsAt(hub, big, z); } }
    AwayFrom(hub', big);
    AwayFrom(b, big);
    DoomedMember(v.pending, big, a);
    DoomedMember(v.pending, big, b);
    DoomedMember(v.pending, big, hub);
    DoomedMember(v.pending, big, hub');
    assert Heavy(u.pending, u.dirty, cap, s + {z}, hub, z);
    assert Heavy(u.pending, u.dirty, cap, Others(w.pending, s, r) + {z'}, hub', z');
    TwoSidesLeft(w, v, s, r, big, z, z', hub, hub');
  }

  lemma TwoSidesLeft(w: W, v: W, s: set<Obj>, r: set<Obj>, big: set<Obj>, z: Obj, z': Obj, hub: Applied, hub': Applied)
    requires Accounted(Reverts(v, big)) && Closed(w.pending, s) && Closed(w.pending, r) && s <= Touched(w.pending)
        && r <= big
    requires z !in Touched(w.pending) && z' !in Touched(w.pending) && z != z'
    requires v.pending == w.pending + [hub, hub'] && hub.writes.Keys == s + {z}
        && hub'.writes.Keys == Others(w.pending, s, r) + {z'}
    ensures TwoSides(Reverts(v, big).pending, s + {z}, Others(w.pending, s, r) + {z'})
  {
    var u := Reverts(v, big);
    PendingAllWf(u);
    SidesApart(w.pending, s, r, z, z');
    forall t | t in u.pending ensures t.writes.Keys <= s + {z} || t.writes.Keys <= Others(w.pending, s, r) + {z'} {
      DoomedMember(v.pending, big, t);
      OnASide(w.pending, s, r, z, z', hub, hub', t);
    }
  }

  /** The objects aboard are live, so a new one is not among them. */
  lemma AboardLives(w: W, z: Obj)
    requires Inv(w) && z !in w.live
    ensures z !in Touched(w.pending)
    ensures w.inflight.Some? && w.inflight.value.phase.Failed? ==> z !in w.inflight.value.images
  {
  }

  /** Burdened, with a boat that failed: either the revert takes the one and leaves the other, or it leaves both, and
      they part. */
  lemma PartsAfterSinking(w: W, e: nat, i: nat, all: bool, cap: nat) returns (steps: seq<Step>, w': W)
    requires Suspect(w, e, i, all) && w.history[e] in w.pending && w.history[i] in w.pending
    requires !Tied(w.pending, w.history[e], w.history[i]) && w.inflight.Some? && w.inflight.value.phase.Failed?
    requires !Caught(w.inflight.value, w.pending, w.history[i])
    ensures Future(w, steps, w', cap, all) && !Grounded(w', all)
  {
    var a, b, images := w.history[e], w.history[i], w.inflight.value.images.Keys;
    var s, r := Radius(w.pending, a.writes.Keys), Radius(w.pending, images);
    RadiusIsLeast(w.pending, a.writes.Keys);
    RadiusIsLeast(w.pending, images);
    RadiusLives(w, a);
    TiedOnlyIfMet(w.pending, a, b);
    assert !Meets(b, r) by { TiedIsReached(w.pending, w.inflight.value, a, b); }
    OnTheOtherSide(w.pending, s, r, b);
    var xs, v, hub, z, hub', z' := Burden(w, e, i, all, cap, s, Others(w.pending, s, r));
    AboardLives(w, z);
    AboardLives(w, z');
    RadiusWithLoads(w.pending, images, s, z, z', hub, hub');
    var ys;
    assert a.writes != map[] by { StandingKnown(w, a); }
    ys, w' := RevertAndPart(w, v, e, i, all, cap, s, r, z, z', hub, hub', Radius(v.pending, images));
    FutureOn(w, xs, v, ys, w', cap, all);
    steps := xs + ys;
  }

  /** What `RevertAndPart` knows of the state `v` reached from `w` by the two loads. */
  ghost predicate Burdened(w: W, v: W, a: Applied, b: Applied, cap: nat, s: set<Obj>, r: set<Obj>, z: Obj, z': Obj,
                          hub: Applied, hub': Applied) {
    && Closed(w.pending, s) && Closed(w.pending, r) && s <= Touched(w.pending)
    && z !in Touched(w.pending) && z' !in Touched(w.pending) && z != z' && z' !in r
    && v.pending == w.pending + [hub, hub'] && a in w.pending && b in w.pending && a.writes != map[]
    && Heavy(v.pending, v.dirty, cap, s + {z}, hub, z)
    && Heavy(v.pending, v.dirty, cap, Others(w.pending, s, r) + {z'}, hub', z')
    && a.writes.Keys <= s && b.writes.Keys <= Others(w.pending, s, r)
  }

  lemma MissesSecond(w: W, v: W, a: Applied, b: Applied, cap: nat, s: set<Obj>, r: set<Obj>, z: Obj, z': Obj,
                     hub: Applied, hub': Applied, big: set<Obj>)
    requires Burdened(w, v, a, b, cap, s, r, z, z', hub, hub') && big <= r + s + {z}
    ensures !Meets(b, big)
  {
    MemberTouched(w.pending, b);
    AwayFrom(b, big);
  }

  /** Nothing parts the loaded sides by the revert: a boat will. */
  lemma RevertThenPart(w: W, v: W, e: nat, i: nat, all: bool, cap: nat, s: set<Obj>, r: set<Obj>, z: Obj, z': Obj,
                       hub: Applied, hub': Applied, big: set<Obj>) returns (steps: seq<Step>, w': W)
    requires Suspect(v, e, i, all) && Can(v, Revert(big)) && Fair(v, Revert(big), cap, all) && r <= big <= r + s + {z}
    requires Burdened(w, v, v.history[e], v.history[i], cap, s, r, z, z', hub, hub') && !Meets(v.history[e], big)
    ensures Future(v, steps, w', cap, all) && !Grounded(w', all)
  {
    var a, b, u := v.history[e], v.history[i], Reverts(v, big);
    StillSuspect(v, Revert(big), e, i, all);
    SidesAfterRevert(w, v, s, r, big, z, z', hub, hub', a, b, cap);
    steps, w' := Part(u, e, i, all, cap, s + {z}, hub, z, Others(w.pending, s, r) + {z'}, hub', z');
    StepThen(v, Revert(big), steps, w', cap, all);
    steps := [Revert(big)] + steps;
  }

  lemma RevertAndPart(w: W, v: W, e: nat, i: nat, all: bool, cap: nat, s: set<Obj>, r: set<Obj>, z: Obj, z': Obj,
                      hub: Applied, hub': Applied, big: set<Obj>) returns (steps: seq<Step>, w': W)
    requires Suspect(v, e, i, all) && v.inflight.Some? && v.inflight.value.phase.Failed?
    requires big == Radius(v.pending, v.inflight.value.images.Keys) && r <= big <= r + s + {z}
    requires Burdened(w, v, v.history[e], v.history[i], cap, s, r, z, z', hub, hub')
    ensures Future(v, steps, w', cap, all) && !Grounded(w', all)
  {
    RadiusCovers(v.pending, v.inflight.value.images.Keys);
    MissesSecond(w, v, v.history[e], v.history[i], cap, s, r, z, z', hub, hub', big);
    if Meets(v.history[e], big) {
      SurvivesRevert(v, e, i, all, big);
      Just(v, Revert(big), cap, all);
      steps, w' := [Revert(big)], Reverts(v, big);
    } else {
      steps, w' := RevertThenPart(w, v, e, i, all, cap, s, r, z, z', hub, hub', big);
    }
  }

  lemma Escapes(w: W, all: bool, cap: nat) returns (steps: seq<Step>, w': W)
    requires Inv(w) && Recorded(w) && !Safe(w, all)
    ensures Future(w, steps, w', cap, all) && !Grounded(w', all)
  {
    if !Grounded(w, all) {
      return [], w;
    }
    var e: nat, i: nat :| RanOn(w, e, i, all) && !Bound(w.inflight, w.pending, w.history[e], w.history[i]);
    var a, b := w.history[e], w.history[i];
    if b in Afloat(w) && a in w.pending && AtSea(w) {
      LandsAhead(w, e, i, all);
      Just(w, Land, cap, all);
      return [Land], Landing(w);
    }
    if b in w.pending && a in Afloat(w) && !Caught(w.inflight.value, w.pending, b) {
      steps, w' := EscapesAtSea(w, e, i, all, cap);
    } else if w.inflight.Some? && w.inflight.value.phase.Failed? {
      steps, w' := PartsAfterSinking(w, e, i, all, cap);
    } else {
      steps, w' := PartsWays(w, e, i, all, cap);
    }
  }

  lemma EscapesAtSea(w: W, e: nat, i: nat, all: bool, cap: nat) returns (steps: seq<Step>, w': W)
    requires Suspect(w, e, i, all) && w.history[e] in Afloat(w) && w.history[i] in w.pending
    requires !Caught(w.inflight.value, w.pending, w.history[i])
    ensures Future(w, steps, w', cap, all) && !Grounded(w', all)
  {
    if AtSea(w) {
      steps, w' := SinksFirst(w, e, i, all, cap);
    } else {
      steps, w' := AwayNow(w, e, i, all, cap);
    }
  }

  // ----- main results

  lemma {:induction false} SafeStays(w: W, steps: seq<Step>, w': W, cap: nat, all: bool)
    requires Inv(w) && Recorded(w) && Safe(w, all) && Future(w, steps, w', cap, all)
    ensures Inv(w') && Recorded(w') && Safe(w', all)
    decreases |steps|
  {
    if steps != [] {
      StepKeepsInv(w, steps[0]);
      StepKeepsRecorded(w, steps[0]);
      StepKeepsSafe(w, steps[0], all);
      SafeStays(Do(w, steps[0]), steps[1..], w', cap, all);
    }
  }

  /** Whatever becomes of what is there, with boats of at most `cap` bytes or a single component and with new
      transactions that keep the guard: what stands was computed from what stands, and what has landed from what has
      landed. */
  ghost predicate GroundedForever(w: W, cap: nat, all: bool) {
    forall steps, w' :: Future(w, steps, w', cap, all) ==> Grounded(w', all)
  }

  /** The bonds are exactly what it takes, whatever the cap. */
  lemma SafeIffForever(w: W, cap: nat, all: bool)
    requires Inv(w) && Recorded(w)
    ensures Safe(w, all) <==> GroundedForever(w, cap, all)
  {
    if Safe(w, all) {
      forall steps, w' | Future(w, steps, w', cap, all) ensures Grounded(w', all) { SafeStays(w, steps, w', cap, all); }
    } else {
      var steps, w' := Escapes(w, all, cap);
    }
  }

  lemma UnboundIsUnsafe(w: W, t: Applied, all: bool)
    requires |w.gone| == |w.history| && !Binds(w, t, all)
    ensures !AllBound(Ran(w, t), all)
  {
    var n := |w.history|;
    var e: nat :| e < n && e !in w.reverted && Under(w.history[e], t, all)
        && !Bound(w.inflight, w.pending + [t], w.history[e], t);
    assert RanOn(Ran(w, t), e, n, all);
  }

  /** A new transaction leaves everything grounded forever if and only if its guard holds when it runs. */
  lemma RunGroundedIffBinds(w: W, t: Applied, cap: nat, all: bool)
    requires Inv(w) && Recorded(w) && GroundedForever(w, cap, all) && CanRun(w, t)
    ensures GroundedForever(Ran(w, t), cap, all) <==> Binds(w, t, all)
  {
    var w' := Ran(w, t);
    assert Safe(w, all) by { SafeIffForever(w, cap, all); }
    assert Inv(w') by { RanInv(w, t); }
    assert Recorded(w') by { RanRecorded(w, t); }
    SafeIffForever(w', cap, all);
    if Binds(w, t, all) { RanSafe(w, t, all); } else { UnboundIsUnsafe(w, t, all); }
  }
}
