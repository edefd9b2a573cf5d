/** The past and the futures of a state of the boat pipeline: what its transactions found when they ran, and what a
    revert would take along. */
module BoatFutures {
  import opened Bytes
  import opened Sums
  import opened TxnComponents
  import opened Boats
  import opened BoatSteps
  import opened BoatRun
  import opened BoatSerial

  // ----- the record of the past

  lemma SameRecord(w: W, w': W)
    requires Recorded(w) && w'.history == w.history && w'.gone == w.gone && w'.genesis == w.genesis
        && w.reverted <= w'.reverted
    ensures Recorded(w')
  {
    forall i | 0 <= i < |w'.history| ensures Computed(w', i) {
      assert Computed(w, i);
      assert Found(w', i) == Found(w, i);
    }
  }

  /** Two sequences whose transactions follow each other in the order of their numbers, and in which the same ones touch
      the object, leave the same image. */
  lemma SameAfter(base: Image, xs: seq<Applied>, ys: seq<Applied>, o: Obj)
    requires Ordered(xs) && Ordered(ys) && forall t: Applied :: o in t.writes ==> (t in xs <==> t in ys)
    ensures After(base, xs, o) == After(base, ys, o)
  {
    TouchedMember(xs, o);
    TouchedMember(ys, o);
    if o in Touched(xs) {
      var i := Latest(xs, o);
      var j := Latest(ys, o);
      assert xs[i] in ys && ys[j] in xs;
      LatestOfAll(xs, i, ys[j], o);
      LatestOfAll(ys, j, xs[i], o);
      LastWriterWins(base, xs, i, o);
      LastWriterWins(base, ys, j, o);
      SameLatest(xs, i, ys, j, o);
    } else {
      forall j | 0 <= j < |ys| ensures !Touches(ys[j], o) { assert ys[j] in ys; }
      AfterUntouched(base, xs, o);
      AfterUntouched(base, ys, o);
    }
  }

  ghost function Latest(txns: seq<Applied>, o: Obj): (i: nat)
    requires exists i :: 0 <= i < |txns| && Touches(txns[i], o)
    ensures i < |txns| && o in txns[i].writes && forall j :: i < j < |txns| ==> o !in txns[j].writes
  {
    var n := |txns| - 1;
    if Touches(txns[n], o) then n
    else
      assert exists i :: 0 <= i < |txns[..n]| && Touches(txns[..n][i], o) by {
        var i :| 0 <= i < |txns| && Touches(txns[i], o);
        assert Touches(txns[..n][i], o);
      }
      Latest(txns[..n], o)
  }

  lemma LatestOfAll(txns: seq<Applied>, i: nat, t: Applied, o: Obj)
    requires Ordered(txns) && i < |txns| && o in txns[i].writes && forall j :: i < j < |txns| ==> o !in txns[j].writes
    requires t in txns && o in t.writes
    ensures t.id <= txns[i].id && (t.id == txns[i].id ==> t == txns[i])
  {
    var k :| 0 <= k < |txns| && txns[k] == t;
    if k < i { assert Share(txns[k], txns[i]); }
  }

  lemma SameLatest(xs: seq<Applied>, i: nat, ys: seq<Applied>, j: nat, o: Obj)
    requires Ordered(xs) && Ordered(ys) && i < |xs| && j < |ys| && o in xs[i].writes && o in ys[j].writes
    requires (forall k :: i < k < |xs| ==> o !in xs[k].writes) && ys[j] in xs && xs[i] in ys
    requires ys[j].id <= xs[i].id && xs[i].id <= ys[j].id
    ensures xs[i] == ys[j]
  {
    LatestOfAll(xs, i, ys[j], o);
  }

  // ----- leaving transactions out

  /** Which transactions remain, and in which order. */
  lemma {:induction false} WithoutMembers(txns: seq<Applied>, out: set<nat>, t: Applied)
    ensures t in Without(txns, out) <==> t in txns && t.id !in out
    decreases |txns|
  {
    if txns != [] {
      var init, last := txns[..|txns| - 1], txns[|txns| - 1];
      assert txns == init + [last];
      WithoutMembers(init, out, t);
    }
  }

  ghost predicate Chronological(txns: seq<Applied>) {
    forall i, j :: 0 <= i < j < |txns| ==> txns[i].id < txns[j].id
  }

  lemma {:induction false} WithoutAscending(txns: seq<Applied>, out: set<nat>)
    requires Chronological(txns)
    ensures Chronological(Without(txns, out)) && Ordered(Without(txns, out))
    decreases |txns|
  {
    if txns != [] {
      var init, last := txns[..|txns| - 1], txns[|txns| - 1];
      WithoutAscending(init, out);
      var rest := Without(init, out);
      forall i | 0 <= i < |rest| ensures rest[i].id < last.id {
        WithoutMembers(init, out, rest[i]);
        var k :| 0 <= k < |init| && init[k] == rest[i];
        assert txns[k].id < txns[|txns| - 1].id;
      }
    }
  }

  lemma HistoryAscends(w: W, i: nat)
    requires Accounted(w) && i <= |w.history|
    ensures Chronological(w.history[..i])
  {
    forall p, q | 0 <= p < q < i ensures w.history[..i][p].id < w.history[..i][q].id {
      assert w.history[p].id == p && w.history[q].id == q;
    }
  }

  /** What stands, in the order of application, leaves the images that landed, floating and pending leave. */
  lemma StandingBehind(w: W, o: Obj)
    requires Inv(w)
    ensures Behind(w, |w.history|, w.reverted, o) == After(After(Of(w.durable, o), Afloat(w), o), w.pending, o)
  {
    var all, kept := Standing(w), Without(w.history, w.reverted);
    assert w.history[..|w.history|] == w.history;
    HistoryAscends(w, |w.history|);
    WithoutAscending(w.history, w.reverted);
    forall t: Applied ensures t in all <==> t in kept {
      WithoutMembers(w.history, w.reverted, t);
      if t in kept {
        var i :| 0 <= i < |w.history| && w.history[i] == t;
        assert t.id == i;
      }
    }
    SameAfter(Of(w.genesis, o), all, kept, o);
    AfterAppend(Of(w.genesis, o), w.landed + Afloat(w), w.pending, o);
    AfterAppend(Of(w.genesis, o), w.landed, Afloat(w), o);
  }

  lemma RanRecorded(w: W, t: Applied)
    requires Inv(w) && Recorded(w) && CanRun(w, t)
    ensures Recorded(Ran(w, t))
  {
    RanLogged(w, t);
    forall i | 0 <= i <= |w.history| ensures Computed(Ran(w, t), i) {
      if i < |w.history| { ComputedStays(w, t, i); } else { NewComputed(w, t); }
    }
  }

  lemma RanLogged(w: W, t: Applied)
    requires Logged(w)
    ensures Logged(Ran(w, t)) && |Ran(w, t).history| == |w.history| + 1
  {
  }

  lemma ComputedStays(w: W, t: Applied, i: nat)
    requires Recorded(w) && i < |w.history|
    ensures Computed(Ran(w, t), i)
  {
    var w' := Ran(w, t);
    assert w'.history[..i] == w.history[..i] && w'.gone[i] == w.gone[i];
    assert Computed(w, i) && Found(w', i) == Found(w, i);
  }

  /** A new transaction finds what stands. */
  lemma NewComputed(w: W, t: Applied)
    requires Inv(w) && |w.gone| == |w.history| && CanRun(w, t)
    ensures Computed(Ran(w, t), |w.history|)
  {
    var w', n := Ran(w, t), |w.history|;
    assert w'.history[..n] == w.history[..n];
    forall o | o in t.held ensures Of(w.live, o) == Behind(w', n, w'.gone[n], o) { StandingBehind(w, o); }
    SameEffect(t, w.live, Found(w', n));
  }

  /** A program's effect depends on the objects it holds only. */
  lemma SameEffect(t: Applied, m: map<Obj, Image>, m': map<Obj, Image>)
    requires forall o :: o in t.held ==> Of(m, o) == Of(m', o)
    ensures Effect(t.program, t.held, m) == Effect(t.program, t.held, m')
  {
    assert Seen(m, t.held) == Seen(m', t.held);
  }

  /** In every reachable state, each transaction has done what its program makes of what it found. */
  lemma StepKeepsRecorded(w: W, s: Step)
    requires Inv(w) && Recorded(w) && Can(w, s)
    ensures Recorded(Do(w, s))
  {
    StepIsLater(w, s);
    match s
    case Run(t) => RanRecorded(w, t);
    case _ => SameRecord(w, Do(w, s));
  }

  // ----- the radius of a revert

  /** What a revert starting from `seed` takes along. */
  ghost function Radius(txns: seq<Applied>, seed: set<Obj>): set<Obj> {
    set o | o in seed + Touched(txns) && forall r :: Closed(txns, r) && seed <= r ==> o in r
  }

  lemma RadiusIsLeast(txns: seq<Applied>, seed: set<Obj>)
    ensures Closed(txns, Radius(txns, seed)) && seed <= Radius(txns, seed)
    ensures forall r :: Closed(txns, r) && seed <= r ==> Radius(txns, seed) <= r
  {
    forall t | t in txns && Meets(t, Radius(txns, seed)) ensures t.writes.Keys <= Radius(txns, seed) {
      MemberTouched(txns, t);
      forall o, r | o in t.writes && Closed(txns, r) && seed <= r ensures o in r {
        assert Meets(t, r);
      }
    }
  }

  lemma RadiusCovers(txns: seq<Applied>, seed: set<Obj>)
    ensures Closed(txns, Radius(txns, seed)) && seed <= Radius(txns, seed)
  {
    RadiusIsLeast(txns, seed);
  }

  lemma RadiusWithin(txns: seq<Applied>, seed: set<Obj>, r: set<Obj>)
    requires Closed(txns, r) && seed <= r
    ensures Radius(txns, seed) <= r
  {
    RadiusIsLeast(txns, seed);
  }

  /** The guard in terms of what `revert_closure` computes: two pending transactions are tied when a revert of the first
      one's objects reaches the second, and one is caught when a revert of the boat's objects reaches it. */
  lemma TiedIsReached(pending: seq<Applied>, boat: Boat, a: Applied, b: Applied)
    ensures Tied(pending, a, b) <==> Meets(b, Radius(pending, a.writes.Keys))
    ensures Caught(boat, pending, b) <==> Meets(b, Radius(pending, boat.images.Keys))
  {
    RadiusIsLeast(pending, a.writes.Keys);
    RadiusIsLeast(pending, boat.images.Keys);
  }

  // ----- transactions computed from one another

  /** `b` was computed from `a`, in the terms of the state. */
  ghost predicate Suspect(w: W, e: nat, i: nat, all: bool) {
    Inv(w) && Recorded(w) && RanOn(w, e, i, all)
  }

  lemma Orphaned(w: W, e: nat, i: nat, all: bool)
    requires Suspect(w, e, i, all) && i !in w.reverted
        && (e in w.reverted || (w.history[i] in w.landed && w.history[e] !in w.landed))
    ensures !Grounded(w, all)
  {
  }

  /** No step changes the past. */
  lemma StillSuspect(w: W, s: Step, e: nat, i: nat, all: bool)
    requires Suspect(w, e, i, all) && Can(w, s)
    ensures Suspect(Do(w, s), e, i, all)
    ensures Do(w, s).history[e] == w.history[e] && Do(w, s).history[i] == w.history[i]
  {
    StepKeepsInv(w, s);
    StepKeepsRecorded(w, s);
    PastStays(w, s);
  }

  lemma PastStays(w: W, s: Step)
    requires Can(w, s)
    ensures w.history <= Do(w, s).history && w.gone <= Do(w, s).gone
  {
  }

  /** The boat carries what was computed from something left ashore: it lands. */
  lemma LandsAhead(w: W, e: nat, i: nat, all: bool)
    requires Suspect(w, e, i, all) && AtSea(w) && w.history[i] in Afloat(w) && w.history[e] in w.pending
    ensures !Grounded(Landing(w), all)
  {
    StillSuspect(w, Land, e, i, all);
    var w', a, b := Landing(w), w.history[e], w.history[i];
    AshoreNotLanded(w, a);
    StandingKnown(w', b);
    Orphaned(w', e, i, all);
  }

  lemma AshoreNotLanded(w: W, a: Applied)
    requires Ordered(Standing(w)) && a in w.pending
    ensures a !in w.landed && a !in Afloat(w)
  {
    if a in w.landed { PendingNotLanded(w, a, a); }
    if a in Afloat(w) { AfloatNotPending(w, a, a); }
  }

  /** The boat sinks, and the revert misses what was computed from its cargo, or pending cargo of the revert. */
  lemma SurvivesRevert(w: W, e: nat, i: nat, all: bool, r: set<Obj>)
    requires Suspect(w, e, i, all) && CanRevert(w, r) && w.history[i] in w.pending && !Meets(w.history[i], r)
    requires w.history[e] in Afloat(w) || (w.history[e] in w.pending && Meets(w.history[e], r))
    ensures !Grounded(Reverts(w, r), all)
  {
    StillSuspect(w, Revert(r), e, i, all);
    var w', a, b := Reverts(w, r), w.history[e], w.history[i];
    DoomedMember(w.pending, r, a);
    DoomedMember(w.pending, r, b);
    StandingKnown(w', b);
    assert a.id == e;
    Orphaned(w', e, i, all);
  }
}
