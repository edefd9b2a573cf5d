/** Which transactions were computed from which, and when that survives a revert.

    A boat binds transactions by the objects they changed (src/worker.rs:1969-1974).  A transaction may also hold
    objects that it only reads.  Here is what the pipeline guarantees of both kinds: nothing that stands was ever
    computed, on an object it changed, from something that was reverted; on the objects it only read, exactly when the
    transactions it read from would be reverted together with it. */
module BoatSerial {
  import opened Bytes
  import opened Sums
  import opened TxnComponents
  import opened Boats
  import opened BoatSteps
  import opened BoatRun

  // ----- what a transaction was computed from

  /** `e` changed an object that `t` held; or, unless `all`, that `t` changed too. */
  ghost predicate Under(e: Applied, t: Applied, all: bool) {
    exists o :: o in e.writes && o in (if all then t.held else t.writes.Keys)
  }

  /** Transaction `i` found what `e` had left. */
  ghost predicate RanOn(w: W, e: nat, i: nat, all: bool) {
    e < i < |w.history| && i < |w.gone| && e !in w.gone[i] && Under(w.history[e], w.history[i], all)
  }

  /** What stands was computed from what stands, and what has landed from what has landed. */
  ghost predicate Grounded(w: W, all: bool) {
    forall e: nat, i: nat :: RanOn(w, e, i, all) && i !in w.reverted ==>
      e !in w.reverted && (w.history[i] in w.landed ==> w.history[e] in w.landed)
  }

  /** Reverting the boat would take the pending transaction `b` along. */
  ghost predicate Caught(boat: Boat, pending: seq<Applied>, b: Applied) {
    forall r :: Closed(pending, r) && boat.images.Keys <= r ==> Meets(b, r)
  }

  /** Pending transactions connect the two: no closed set of objects contains those of `a` and misses `b`. */
  ghost predicate Tied(pending: seq<Applied>, a: Applied, b: Applied) {
    forall r :: Closed(pending, r) && a.writes.Keys <= r ==> Meets(b, r)
  }

  /** Whether `b`, computed from `a`, shares its fate. */
  ghost predicate Bound(boat: Option<Boat>, pending: seq<Applied>, a: Applied, b: Applied) {
    var afloat := if boat.Some? && !boat.value.phase.Committed? then boat.value.txns else [];
    var sunk := boat.Some? && boat.value.phase.Failed?;
    && (b in afloat && a in pending ==> sunk)
    && (b in pending && a in afloat ==> Caught(boat.value, pending, b))
    && (b in pending && a in pending ==> Tied(pending, a, b) || (sunk && Caught(boat.value, pending, b)))
  }

  ghost predicate AllBound(w: W, all: bool) {
    forall e: nat, i: nat :: RanOn(w, e, i, all) ==> Bound(w.inflight, w.pending, w.history[e], w.history[i])
  }

  ghost predicate Safe(w: W, all: bool) {
    Grounded(w, all) && AllBound(w, all)
  }

  /** The guard of a new transaction: whoever changed an object it holds and is not yet durable either shares a boat
      with it in any case, because pending transactions connect them, or takes it along when reverted. */
  ghost predicate Binds(w: W, t: Applied, all: bool) {
    forall e: nat :: e < |w.history| && e !in w.reverted && Under(w.history[e], t, all) ==>
      Bound(w.inflight, w.pending + [t], w.history[e], t)
  }

  /** One may look back: `gone` has an entry for each transaction, and what was gone stays gone. */
  ghost predicate Recorded(w: W) {
    Logged(w) && forall i :: 0 <= i < |w.history| ==> Computed(w, i)
  }

  ghost predicate Logged(w: W) {
    |w.gone| == |w.history| && forall i :: 0 <= i < |w.gone| ==> w.gone[i] <= w.reverted
  }

  /** The transactions whose number is not in `out`. */
  function Without(txns: seq<Applied>, out: set<nat>): seq<Applied> {
    if txns == [] then []
    else
      var last := txns[|txns| - 1];
      Without(txns[..|txns| - 1], out) + if last.id in out then [] else [last]
  }

  /** An image after the first `i` transactions, leaving out those in `out`. */
  ghost function Behind(w: W, i: nat, out: set<nat>, o: Obj): Image
    requires i <= |w.history|
  {
    After(Of(w.genesis, o), Without(w.history[..i], out), o)
  }

  /** The images the i-th transaction found. */
  ghost function Found(w: W, i: nat): map<Obj, Image>
    requires i < |w.history|
  {
    map o | o in w.history[i].held :: Behind(w, i, if i < |w.gone| then w.gone[i] else {}, o)
  }

  /** The i-th transaction did what its program makes of what the transactions that stood before it had left. */
  ghost predicate Computed(w: W, i: nat)
    requires i < |w.history|
  {
    w.history[i].writes == Effect(w.history[i].program, w.history[i].held, Found(w, i))
  }

  // ----- closed sets and cuts

  lemma MemberTouched(txns: seq<Applied>, t: Applied)
    requires t in txns
    ensures t.writes.Keys <= Touched(txns)
  {
    var i :| 0 <= i < |txns| && txns[i] == t;
    forall o | o in t.writes ensures o in Touched(txns) {
      TouchedMember(txns, o);
      assert Touches(txns[i], o);
    }
  }

  /** The objects of one side of a cut that splits nothing are a closed set. */
  lemma SideClosed(txns: seq<Applied>, flags: seq<bool>, v: bool)
    requires |flags| == |txns| && NeverSplits(txns, flags)
    ensures Closed(txns, Touched(Filter(txns, flags, v)))
    ensures forall t :: t in txns && t !in Filter(txns, flags, v) ==> !Meets(t, Touched(Filter(txns, flags, v)))
  {
    var side, other := Filter(txns, flags, v), Filter(txns, flags, !v);
    CutDisjoint(txns, flags);
    forall t | t in txns && t !in side ensures !Meets(t, Touched(side)) {
      FilterSubset(txns, flags, t);
      MemberTouched(other, t);
    }
    forall t | t in txns && Meets(t, Touched(side)) ensures t.writes.Keys <= Touched(side) {
      MemberTouched(side, t);
    }
  }

  /** What pending transactions connect is on one side of the cut. */
  lemma TiedSameSide(txns: seq<Applied>, flags: seq<bool>, v: bool, a: Applied, b: Applied)
    requires |flags| == |txns| && NeverSplits(txns, flags) && Tied(txns, a, b)
    requires a in Filter(txns, flags, v) && b in txns
    ensures b in Filter(txns, flags, v) && b !in Filter(txns, flags, !v)
  {
    SideClosed(txns, flags, v);
    MemberTouched(Filter(txns, flags, v), a);
    assert Meets(b, Touched(Filter(txns, flags, v)));
    CutDisjoint(txns, flags);
    if b in Filter(txns, flags, !v) { MemberTouched(Filter(txns, flags, !v), b); }
  }

  lemma SideShrinks(txns: seq<Applied>, flags: seq<bool>, v: bool, r: set<Obj>)
    requires |flags| == |txns| && NeverSplits(txns, flags) && Closed(Filter(txns, flags, v), r)
    ensures Closed(txns, r * Touched(Filter(txns, flags, v)))
  {
    var side := Filter(txns, flags, v);
    SideClosed(txns, flags, v);
    forall t | t in txns && Meets(t, r * Touched(side)) ensures t.writes.Keys <= r * Touched(side) {
      assert Meets(t, Touched(side)) && Meets(t, r);
      MemberTouched(side, t);
    }
  }

  /** And stays connected there. */
  lemma TiedOnSide(txns: seq<Applied>, flags: seq<bool>, v: bool, a: Applied, b: Applied)
    requires |flags| == |txns| && NeverSplits(txns, flags) && Tied(txns, a, b) && a in Filter(txns, flags, v)
    ensures Tied(Filter(txns, flags, v), a, b)
  {
    var side := Filter(txns, flags, v);
    forall r | Closed(side, r) && a.writes.Keys <= r ensures Meets(b, r) {
      SideShrinks(txns, flags, v, r);
      MemberTouched(side, a);
      assert Meets(b, r * Touched(side));
    }
  }

  lemma ClosedPrefix(txns: seq<Applied>, t: Applied, r: set<Obj>)
    requires Closed(txns + [t], r)
    ensures Closed(txns, r)
  {
    forall x | x in txns && Meets(x, r) ensures x.writes.Keys <= r { assert x in txns + [t]; }
  }

  /** More transactions only connect more. */
  lemma StillTied(pending: seq<Applied>, t: Applied, a: Applied, b: Applied)
    requires Tied(pending, a, b)
    ensures Tied(pending + [t], a, b)
  {
    forall r | Closed(pending + [t], r) && a.writes.Keys <= r ensures Meets(b, r) { ClosedPrefix(pending, t, r); }
  }

  lemma StillCaught(boat: Boat, pending: seq<Applied>, t: Applied, b: Applied)
    requires Caught(boat, pending, b)
    ensures Caught(boat, pending + [t], b)
  {
    forall r | Closed(pending + [t], r) && boat.images.Keys <= r ensures Meets(b, r) { ClosedPrefix(pending, t, r); }
  }

  lemma DoomedMember(txns: seq<Applied>, r: set<Obj>, t: Applied)
    ensures t in Filter(txns, Doomed(txns, r), true) <==> t in txns && Meets(t, r)
    ensures t in Filter(txns, Doomed(txns, r), false) <==> t in txns && !Meets(t, r)
  {
    FilterMember(txns, Doomed(txns, r), true, t);
    FilterMember(txns, Doomed(txns, r), false, t);
    if t in txns {
      var i :| 0 <= i < |txns| && txns[i] == t;
      assert Doomed(txns, r)[i] == Meets(t, r);
    }
  }

  lemma KeptStands(w: W, e: nat)
    requires Accounted(w) && e < |w.history| && e !in w.reverted
    ensures w.history[e] in w.landed || w.history[e] in Afloat(w) || w.history[e] in w.pending
    ensures w.history[e].id == e
  {
    assert w.history[e] in Standing(w);
  }

  // ----- every step keeps transactions safe

  /** Only what is live or answered has changed. */
  lemma SameFate(w: W, w': W, all: bool)
    requires Safe(w, all) && w'.history == w.history && w'.gone == w.gone && w'.reverted == w.reverted
    requires w'.landed == w.landed && w'.pending == w.pending
    requires w'.inflight == w.inflight || (w'.inflight.None? && w.inflight.Some? && w.inflight.value.phase.Committed?)
    ensures Safe(w', all)
  {
    forall e: nat, i: nat | RanOn(w', e, i, all) ensures Bound(w'.inflight, w'.pending, w.history[e], w.history[i]) {
      assert RanOn(w, e, i, all);
    }
    forall e: nat, i: nat | RanOn(w', e, i, all) && i !in w.reverted
      ensures e !in w.reverted && (w.history[i] in w.landed ==> w.history[e] in w.landed)
    {
      assert RanOn(w, e, i, all);
    }
  }

  lemma LandingSafe(w: W, all: bool)
    requires Accounted(w) && AtSea(w) && Safe(w, all)
    ensures Safe(Landing(w), all)
  {
    var w', h := Landing(w), w.history;
    forall e: nat, i: nat | RanOn(w', e, i, all) && i !in w'.reverted
      ensures e !in w'.reverted && (h[i] in w'.landed ==> h[e] in w'.landed)
    {
      assert RanOn(w, e, i, all);
      KeptStands(w, e);
    }
    forall e: nat, i: nat | RanOn(w', e, i, all) ensures Bound(w'.inflight, w'.pending, h[e], h[i]) {
      assert RanOn(w, e, i, all);
    }
  }

  lemma SinkingSafe(w: W, all: bool)
    requires AtSea(w) && Safe(w, all)
    ensures Safe(Sinking(w), all)
  {
    var w', h := Sinking(w), w.history;
    assert w'.reverted == w.reverted && w'.landed == w.landed;
    forall e: nat, i: nat | RanOn(w', e, i, all) && i !in w'.reverted
      ensures e !in w'.reverted && (h[i] in w'.landed ==> h[e] in w'.landed)
    {
      assert RanOn(w, e, i, all);
    }
    forall e: nat, i: nat | RanOn(w', e, i, all) ensures Bound(w'.inflight, w'.pending, h[e], h[i]) {
      assert RanOn(w, e, i, all);
    }
  }

  lemma LaunchedBound(w: W, flags: seq<bool>, a: Applied, b: Applied)
    requires CanLaunch(w, flags) && LiveOk(w) && Bound(None, w.pending, a, b)
    ensures Bound(Launched(w, flags).inflight, Launched(w, flags).pending, a, b)
  {
    FilterSubset(w.pending, flags, a);
    FilterSubset(w.pending, flags, b);
    if a in w.pending && b in w.pending {
      if a in Filter(w.pending, flags, true) {
        TiedSameSide(w.pending, flags, true, a, b);
      }
      if a in Filter(w.pending, flags, false) {
        TiedSameSide(w.pending, flags, false, a, b);
        TiedOnSide(w.pending, flags, false, a, b);
      }
    }
  }

  lemma LaunchedSafe(w: W, flags: seq<bool>, all: bool)
    requires CanLaunch(w, flags) && LiveOk(w) && Safe(w, all)
    ensures Safe(Launched(w, flags), all)
  {
    var w', h := Launched(w, flags), w.history;
    assert w'.reverted == w.reverted && w'.landed == w.landed;
    forall e: nat, i: nat | RanOn(w', e, i, all) && i !in w'.reverted
      ensures e !in w'.reverted && (h[i] in w'.landed ==> h[e] in w'.landed)
    {
      assert RanOn(w, e, i, all);
    }
    forall e: nat, i: nat | RanOn(w', e, i, all) ensures Bound(w'.inflight, w'.pending, h[e], h[i]) {
      assert RanOn(w, e, i, all);
      LaunchedBound(w, flags, h[e], h[i]);
    }
  }

  /** What survives a revert was computed from survivors. */
  lemma RevertSpares(w: W, r: set<Obj>, a: Applied, b: Applied)
    requires CanRevert(w, r) && Bound(w.inflight, w.pending, a, b) && b in w.pending && !Meets(b, r)
    ensures a !in Afloat(w) && (a in w.pending ==> !Meets(a, r))
  {
  }

  lemma RevertsBound(w: W, r: set<Obj>, a: Applied, b: Applied)
    requires CanRevert(w, r) && Bound(w.inflight, w.pending, a, b)
    ensures Bound(Reverts(w, r).inflight, Reverts(w, r).pending, a, b)
  {
    var kept := Reverts(w, r).pending;
    if a in kept && b in kept {
      DoomedMember(w.pending, r, a);
      DoomedMember(w.pending, r, b);
      ClosedNeverSplits(w.pending, r);
      TiedOnSide(w.pending, Doomed(w.pending, r), false, a, b);
    }
  }

  lemma RevertsGrounded(w: W, r: set<Obj>, all: bool, e: nat, i: nat)
    requires Accounted(w) && Accounted(Reverts(w, r)) && CanRevert(w, r) && Safe(w, all)
    requires RanOn(w, e, i, all) && i !in Reverts(w, r).reverted
    ensures e !in Reverts(w, r).reverted && (w.history[i] in w.landed ==> w.history[e] in w.landed)
  {
    var w', a, b := Reverts(w, r), w.history[e], w.history[i];
    KeptStands(w, i);
    KeptStands(w, e);
    DoomedMember(w.pending, r, a);
    DoomedMember(w.pending, r, b);
    if b in w.landed {
      StandingKnown(w', a);
    } else {
      assert b in w.pending && !Meets(b, r);
      RevertSpares(w, r, a, b);
      assert a in w'.landed || a in w'.pending;
      StandingKnown(w', a);
    }
  }

  lemma RevertsSafe(w: W, r: set<Obj>, all: bool)
    requires Accounted(w) && Accounted(Reverts(w, r)) && CanRevert(w, r) && Safe(w, all)
    ensures Safe(Reverts(w, r), all)
  {
    var w', h := Reverts(w, r), w.history;
    forall e: nat, i: nat | RanOn(w', e, i, all) && i !in w'.reverted
      ensures e !in w'.reverted && (h[i] in w'.landed ==> h[e] in w'.landed)
    {
      assert RanOn(w, e, i, all);
      RevertsGrounded(w, r, all, e, i);
    }
    forall e: nat, i: nat | RanOn(w', e, i, all) ensures Bound(w'.inflight, w'.pending, h[e], h[i]) {
      assert RanOn(w, e, i, all);
      RevertsBound(w, r, h[e], h[i]);
    }
  }

  lemma CrashedSafe(w: W, all: bool)
    requires Accounted(w) && Accounted(Crashed(w)) && Safe(w, all)
    ensures Safe(Crashed(w), all)
  {
    var w', h := Crashed(w), w.history;
    forall e: nat, i: nat | RanOn(w', e, i, all) && i !in w'.reverted
      ensures e !in w'.reverted && (h[i] in w'.landed ==> h[e] in w'.landed)
    {
      assert RanOn(w, e, i, all);
      KeptStands(w', i);
      StandingKnown(w', h[e]);
    }
  }

  lemma RanBound(w: W, t: Applied, a: Applied, b: Applied)
    requires Bound(w.inflight, w.pending, a, b) && a != t && b != t
    ensures Bound(w.inflight, w.pending + [t], a, b)
  {
    if b in w.pending && a in Afloat(w) && Caught(w.inflight.value, w.pending, b) {
      StillCaught(w.inflight.value, w.pending, t, b);
    }
    if b in w.pending && a in w.pending {
      if Tied(w.pending, a, b) {
        StillTied(w.pending, t, a, b);
      } else {
        StillCaught(w.inflight.value, w.pending, t, b);
      }
    }
  }

  lemma RanSafe(w: W, t: Applied, all: bool)
    requires Accounted(w) && Recorded(w) && CanRun(w, t) && Safe(w, all) && Binds(w, t, all)
    ensures Safe(Ran(w, t), all)
  {
    var w', n := Ran(w, t), |w.history|;
    forall e: nat, i: nat | RanOn(w', e, i, all) && i !in w'.reverted
      ensures e !in w'.reverted && (w'.history[i] in w'.landed ==> w'.history[e] in w'.landed)
    {
      if i == n {
        if t in w.landed { StandingKnown(w, t); }
      } else {
        assert RanOn(w, e, i, all);
      }
    }
    forall e: nat, i: nat | RanOn(w', e, i, all)
      ensures Bound(w'.inflight, w'.pending, w'.history[e], w'.history[i])
    {
      if i < n {
        assert RanOn(w, e, i, all);
        RanBound(w, t, w.history[e], w.history[i]);
      }
    }
  }

  /** Every step keeps transactions safe; only running a new one has a condition. */
  lemma StepKeepsSafe(w: W, s: Step, all: bool)
    requires Inv(w) && Recorded(w) && Can(w, s) && Safe(w, all) && (s.Run? ==> Binds(w, s.t, all))
    ensures Safe(Do(w, s), all)
  {
    StepKeepsInv(w, s);
    match s
    case Run(t) => RanSafe(w, t, all);
    case Launch(flags) => LaunchedSafe(w, flags, all);
    case FailLaunch(flags) => LaunchFailedSafe(w, flags, all);
    case Land => LandingSafe(w, all);
    case Sink => SinkingSafe(w, all);
    case Revert(r) => RevertsSafe(w, r, all);
    case Crash => CrashedSafe(w, all);
    case _ => SameFate(w, Do(w, s), all);
  }

  lemma LaunchFailedSafe(w: W, flags: seq<bool>, all: bool)
    requires Inv(w) && CanLaunch(w, flags) && Safe(w, all)
    ensures Safe(LaunchFailed(w, flags), all)
  {
    LaunchedSafe(w, flags, all);
    LaunchedInv(w, flags);
    SinkingSafe(Launched(w, flags), all);
    SinkingInv(Launched(w, flags));
    FailedLaunchSinks(w, flags);
    LaunchFailedInv(w, flags);
    RevertsSafe(Sinking(Launched(w, flags)), Touched(Filter(w.pending, flags, true)), all);
  }

  // ----- when the guard holds

  lemma MeetsAt(t: Applied, r: set<Obj>, o: Obj)
    requires o in t.writes && o in r
    ensures Meets(t, r)
  {
  }

  /** A transaction on the same object shares the fate of whoever changed it before. */
  lemma SharerBound(w: W, a: Applied, t: Applied, o: Obj)
    requires BoatOk(w) && o in a.writes && o in t.writes && t !in Afloat(w) && a != t
    ensures Bound(w.inflight, w.pending + [t], a, t)
  {
    forall r | Closed(w.pending + [t], r) && a.writes.Keys <= r ensures Meets(t, r) { MeetsAt(t, r, o); }
    if a in Afloat(w) {
      MemberTouched(Afloat(w), a);
      forall r | Closed(w.pending + [t], r) && w.inflight.value.images.Keys <= r ensures Meets(t, r) {
        MeetsAt(t, r, o);
      }
    }
  }

  /** On the objects it changes, the guard of a transaction always holds; on all it holds, at least when it finds
      nothing unshipped in an object that it only reads. */
  lemma CleanReadsBind(w: W, t: Applied, all: bool)
    requires Inv(w) && CanRun(w, t)
    requires all ==> forall o :: o in t.held && o !in t.writes ==> !Unshipped(w, o)
    ensures Binds(w, t, all)
  {
    forall e: nat | e < |w.history| && e !in w.reverted && Under(w.history[e], t, all)
      ensures Bound(w.inflight, w.pending + [t], w.history[e], t)
    {
      var a := w.history[e];
      var o :| o in a.writes && o in (if all then t.held else t.writes.Keys);
      NewcomerAshore(w, t, a);
      if o in t.writes {
        SharerBound(w, a, t, o);
      } else {
        if a in w.pending { MemberTouched(w.pending, a); }
        if a in Afloat(w) { MemberTouched(Afloat(w), a); }
      }
    }
  }

  lemma NewcomerAshore(w: W, t: Applied, a: Applied)
    requires Accounted(w) && t.id == |w.history| && a in w.history
    ensures t !in Afloat(w) && t !in w.pending && a != t
  {
    if t in Afloat(w) || t in w.pending { StandingKnown(w, t); }
  }
}
