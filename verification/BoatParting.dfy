/** How the program itself parts two pending transactions that nothing ties: later transactions weigh down either one's
    component beyond the byte cap, so that they cannot sail together. */
module BoatParting {
  import opened Bytes
  import opened Sums
  import opened TxnComponents
  import opened Boats
  import opened BoatSteps
  import opened BoatCut
  import opened BoatRun
  import opened BoatSerial
  import opened BoatFutures

  // ----- the futures of a state

  /** A step as the program takes it: boats are cut by components up to the cap, a revert takes what its fixpoint
      reaches, and new transactions keep the guard. */
  ghost predicate Fair(w: W, s: Step, cap: nat, all: bool) {
    match s
    case Run(t) => Binds(w, t, all)
    case Launch(flags) => w.pending != [] && GoodCut(w.pending, w.dirty, cap, flags)
    case FailLaunch(flags) => w.pending != [] && GoodCut(w.pending, w.dirty, cap, flags)
    case Revert(r) => w.inflight.Some? && r == Radius(w.pending, w.inflight.value.images.Keys)
    case _ => true
  }

  /** The steps lead from `w` to `w'`, and all are fair. */
  ghost predicate Future(w: W, steps: seq<Step>, w': W, cap: nat, all: bool)
    decreases |steps|
  {
    if steps == [] then w' == w
    else Can(w, steps[0]) && Fair(w, steps[0], cap, all) && Future(Do(w, steps[0]), steps[1..], w', cap, all)
  }

  lemma StepThen(w: W, s: Step, steps: seq<Step>, w': W, cap: nat, all: bool)
    requires Can(w, s) && Fair(w, s, cap, all) && Future(Do(w, s), steps, w', cap, all)
    ensures Future(w, [s] + steps, w', cap, all)
  {
    assert ([s] + steps)[0] == s && ([s] + steps)[1..] == steps;
  }

  lemma Just(w: W, s: Step, cap: nat, all: bool)
    requires Can(w, s) && Fair(w, s, cap, all)
    ensures Future(w, [s], Do(w, s), cap, all)
  {
    assert [s][1..] == [];
  }

  lemma {:induction false} FutureOn(a: W, xs: seq<Step>, b: W, ys: seq<Step>, c: W, cap: nat, all: bool)
    requires Future(a, xs, b, cap, all) && Future(b, ys, c, cap, all)
    ensures Future(a, xs + ys, c, cap, all)
    decreases |xs|
  {
    if xs == [] {
      assert xs + ys == ys;
    } else {
      FutureOn(Do(a, xs[0]), xs[1..], b, ys, c, cap, all);
      assert (xs + ys)[1..] == xs[1..] + ys;
    }
  }

  // ----- two heavy sides

  /** A side of the backlog: objects all of which one transaction changed, one of them heavier than any boat. */
  ghost predicate Heavy(pending: seq<Applied>, dirty: map<Obj, nat>, cap: nat, side: set<Obj>, hub: Applied, z: Obj) {
    hub in pending && hub.writes.Keys == side && z in side && z in dirty && dirty[z] > cap
  }

  /** The backlog falls into two sides. */
  ghost predicate TwoSides(pending: seq<Applied>, s: set<Obj>, s': set<Obj>) {
    && AllWf(pending) && s !! s'
    && forall t :: t in pending ==> t.writes.Keys <= s || t.writes.Keys <= s'
  }

  lemma SideIsClosed(pending: seq<Applied>, s: set<Obj>, s': set<Obj>)
    requires TwoSides(pending, s, s')
    ensures Closed(pending, s) && forall t :: t in pending ==> (Meets(t, s) <==> t.writes.Keys <= s)
  {
    forall t | t in pending ensures Meets(t, s) <==> t.writes.Keys <= s {
      var i :| 0 <= i < |pending| && pending[i] == t;
      var o :| o in t.writes;
      if t.writes.Keys <= s { MeetsAt(t, s, o); }
    }
  }

  lemma {:induction false} ChainStays(pending: seq<Applied>, flags: seq<bool>, path: seq<nat>)
    requires AllWf(pending) && |flags| == |pending| && NeverSplits(pending, flags)
    requires Chain(Participants(pending), path) && flags[path[0]]
    ensures flags[path[|path| - 1]]
    decreases |path|
  {
    if |path| > 1 {
      var ps, n := Participants(pending), |path| - 1;
      assert Chain(ps, path[..n]);
      ChainStays(pending, flags, path[..n]);
      assert Linked(ps, path[n - 1], path[n - 1 + 1]);
      var o :| o in ps[path[n - 1]] && o in ps[path[n]];
      assert Share(pending[path[n - 1]], pending[path[n]]);
    }
  }

  lemma ConnectedStays(pending: seq<Applied>, flags: seq<bool>, i: nat, j: nat)
    requires AllWf(pending) && |flags| == |pending| && NeverSplits(pending, flags)
    requires i < |pending| && j < |pending| && flags[i] && Connected(Participants(pending), i, j)
    ensures flags[j]
  {
    var path :| Chain(Participants(pending), path) && path[0] == i && path[|path| - 1] == j;
    ChainStays(pending, flags, path);
  }

  /** Whoever changed an object of the side is connected to its hub. */
  lemma HubConnects(pending: seq<Applied>, side: set<Obj>, h: nat, i: nat)
    requires AllWf(pending) && h < |pending| && i < |pending| && pending[h].writes.Keys == side
        && Meets(pending[i], side)
    ensures Connected(Participants(pending), i, h) && Connected(Participants(pending), h, i)
  {
    assert Share(pending[i], pending[h]);
    SharersConnected(pending, i, h);
    ConnectedSym(Participants(pending), i, h);
  }

  lemma SideIsComponent(pending: seq<Applied>, side: set<Obj>, hub: Applied)
    requires AllWf(pending) && Closed(pending, side) && hub in pending && hub.writes.Keys == side
    ensures OneComponent(pending, Doomed(pending, side))
  {
    var flags, ps := Doomed(pending, side), Participants(pending);
    var h :| 0 <= h < |pending| && pending[h] == hub;
    ClosedNeverSplits(pending, side);
    forall i, j | 0 <= i < |flags| && 0 <= j < |flags| && flags[i] ensures flags[j] <==> Connected(ps, i, j) {
      if flags[j] {
        HubConnects(pending, side, h, i);
        HubConnects(pending, side, h, j);
        ConnectedTrans(ps, i, h, j);
      }
      if Connected(ps, i, j) { ConnectedStays(pending, flags, i, j); }
    }
  }

  lemma SumAtLeast(s: set<Obj>, m: map<Obj, nat>, z: Obj)
    requires z in s && z in m
    ensures SumOver(s, m) >= m[z]
  {
    SumRemove(s, m, z);
  }

  /** The side that has the oldest transaction makes a boat of its own. */
  lemma SideSails(pending: seq<Applied>, dirty: map<Obj, nat>, cap: nat, side: set<Obj>, hub: Applied, z: Obj)
    requires AllWf(pending) && Closed(pending, side) && Heavy(pending, dirty, cap, side, hub, z)
    requires pending != [] && Meets(pending[0], side)
    ensures GoodCut(pending, dirty, cap, Doomed(pending, side))
  {
    var flags := Doomed(pending, side);
    ClosedNeverSplits(pending, side);
    SideIsComponent(pending, side, hub);
    MeetsAt(hub, side, z);
    DoomedMember(pending, side, hub);
    MemberTouched(Filter(pending, flags, true), hub);
    SumAtLeast(Touched(Filter(pending, flags, true)), dirty, z);
  }

  // ----- they sail apart

  /** The state in which `a` and `b` are about to part: no boat, each on a heavy side of its own. */
  ghost predicate Parted(w: W, cap: nat, a: Applied, s: set<Obj>, hub: Applied, z: Obj,
                         b: Applied, s': set<Obj>, hub': Applied, z': Obj) {
    && w.inflight.None? && a in w.pending && b in w.pending && TwoSides(w.pending, s, s')
    && Heavy(w.pending, w.dirty, cap, s, hub, z) && Heavy(w.pending, w.dirty, cap, s', hub', z')
    && a.writes.Keys <= s && b.writes.Keys <= s'
  }

  lemma PartedSides(w: W, cap: nat, a: Applied, s: set<Obj>, hub: Applied, z: Obj, b: Applied, s': set<Obj>,
                    hub': Applied, z': Obj)
    requires Parted(w, cap, a, s, hub, z, b, s', hub', z')
    ensures Closed(w.pending, s) && Closed(w.pending, s')
    ensures Meets(a, s) && !Meets(b, s) && Meets(b, s') && !Meets(a, s')
    ensures Meets(w.pending[0], s) || Meets(w.pending[0], s')
  {
    SideIsClosed(w.pending, s, s');
    assert TwoSides(w.pending, s', s);
    SideIsClosed(w.pending, s', s);
    assert w.pending[0] in w.pending;
    var i :| 0 <= i < |w.pending| && w.pending[i] == a;
    var j :| 0 <= j < |w.pending| && w.pending[j] == b;
    var o :| o in a.writes;
    var o' :| o' in b.writes;
    MeetsAt(a, s, o);
    MeetsAt(b, s', o');
  }

  /** `a` leaves first, and does not get out of port: `b` stays behind. */
  lemma LeavesFirst(w: W, e: nat, i: nat, all: bool, cap: nat, s: set<Obj>)
    requires Suspect(w, e, i, all) && w.inflight.None? && w.history[e] in w.pending && w.history[i] in w.pending
    requires Closed(w.pending, s) && Meets(w.history[e], s) && !Meets(w.history[i], s)
    requires w.pending != [] && GoodCut(w.pending, w.dirty, cap, Doomed(w.pending, s))
    ensures var step := FailLaunch(Doomed(w.pending, s));
            Can(w, step) && Fair(w, step, cap, all) && !Grounded(Do(w, step), all)
  {
    var a, b, flags := w.history[e], w.history[i], Doomed(w.pending, s);
    ClosedNeverSplits(w.pending, s);
    StillSuspect(w, FailLaunch(flags), e, i, all);
    DoomedMember(w.pending, s, a);
    DoomedMember(w.pending, s, b);
    StandingKnown(LaunchFailed(w, flags), b);
    assert a.id == e;
    Orphaned(LaunchFailed(w, flags), e, i, all);
  }

  /** `b` leaves first, and lands without `a`. */
  lemma ArrivesFirst(w: W, e: nat, i: nat, all: bool, cap: nat, s': set<Obj>) returns (w': W)
    requires Suspect(w, e, i, all) && w.inflight.None? && w.history[e] in w.pending && w.history[i] in w.pending
    requires Closed(w.pending, s') && !Meets(w.history[e], s') && Meets(w.history[i], s')
    requires w.pending != [] && GoodCut(w.pending, w.dirty, cap, Doomed(w.pending, s'))
    ensures Future(w, [Launch(Doomed(w.pending, s'))] + [Land], w', cap, all) && !Grounded(w', all)
  {
    var flags := Doomed(w.pending, s');
    ClosedNeverSplits(w.pending, s');
    var v := Launched(w, flags);
    StillSuspect(w, Launch(flags), e, i, all);
    DoomedMember(w.pending, s', w.history[e]);
    DoomedMember(w.pending, s', w.history[i]);
    LandsAhead(v, e, i, all);
    Just(v, Land, cap, all);
    StepThen(w, Launch(flags), [Land], Landing(v), cap, all);
    w' := Landing(v);
  }

  lemma Part(w: W, e: nat, i: nat, all: bool, cap: nat, s: set<Obj>, hub: Applied, z: Obj, s': set<Obj>, hub': Applied,
             z': Obj)
    returns (steps: seq<Step>, w': W)
    requires Suspect(w, e, i, all) && Parted(w, cap, w.history[e], s, hub, z, w.history[i], s', hub', z')
    ensures Future(w, steps, w', cap, all) && !Grounded(w', all)
  {
    PartedSides(w, cap, w.history[e], s, hub, z, w.history[i], s', hub', z');
    if Meets(w.pending[0], s) {
      SideSails(w.pending, w.dirty, cap, s, hub, z);
      LeavesFirst(w, e, i, all, cap, s);
      Just(w, FailLaunch(Doomed(w.pending, s)), cap, all);
      return [FailLaunch(Doomed(w.pending, s))], LaunchFailed(w, Doomed(w.pending, s));
    }
    SideSails(w.pending, w.dirty, cap, s', hub', z');
    w' := ArrivesFirst(w, e, i, all, cap, s');
    steps := [Launch(Doomed(w.pending, s'))] + [Land];
  }

  // ----- the load

  /** A transaction that changes all it holds, whatever it finds. */
  ghost function Writer(id: nat, writes: map<Obj, Image>, participants: seq<Obj>): Applied {
    Applied(id, writes.Keys, (m: map<Obj, Image>) => Some(writes), participants, writes, true)
  }

  lemma WriterRuns(w: W, writes: map<Obj, Image>, participants: seq<Obj>, all: bool)
    requires Inv(w) && writes != map[] && writes.Keys <= w.live.Keys && forall o :: o in participants <==> o in writes
    ensures CanRun(w, Writer(|w.history|, writes, participants))
        && Binds(w, Writer(|w.history|, writes, participants), all)
  {
    var t := Writer(|w.history|, writes, participants);
    assert Effect(t.program, t.held, w.live) == writes;
    CleanReadsBind(w, t, all);
  }

  lemma {:induction false} Listing(s: set<Obj>) returns (q: seq<Obj>)
    ensures forall o :: o in q <==> o in s
    decreases |s|
  {
    if s == {} { return []; }
    var o :| o in s;
    var rest := Listing(s - {o});
    q := [o] + rest;
  }

  lemma {:induction false} AboveAll(s: set<Obj>) returns (z: Obj)
    ensures forall o :: o in s ==> o < z
    decreases |s|
  {
    if s == {} { return 0; }
    var o :| o in s;
    var rest := AboveAll(s - {o});
    z := if o < rest then rest else o + 1;
    forall p | p in s ensures p < z { if p != o { assert p in s - {o}; } }
  }

  /** The images a load leaves: those there are, and a heavy new one. */
  ghost function Ballast(w: W, objs: set<Obj>, z: Obj, size: nat): map<Obj, Image> {
    map o | o in objs + {z} :: if o == z then seq(size, _ => 0) else Of(w.live, o)
  }

  /** What a load does to the ledger. */
  lemma Loaded(w: W, hub: Applied, z: Obj)
    requires z in hub.writes && z !in w.dirty
    ensures var w' := Ran(w, hub);
            && z in w'.dirty && w'.dirty[z] == |hub.writes[z]|
            && (forall o :: o in w.dirty ==> o in w'.dirty && w'.dirty[o] == w.dirty[o])
            && w'.pending == w.pending + [hub] && w'.inflight == w.inflight
            && w'.live.Keys == w.live.Keys + hub.writes.Keys
  {
  }

  lemma NewIsClean(w: W, z: Obj)
    requires DirtyOk(w) && LiveOk(w) && z !in w.live
    ensures z !in w.dirty
  {
  }

  lemma PutLoad(w: W, objs: set<Obj>, z: Obj, cap: nat, all: bool) returns (hub: Applied)
    requires Inv(w) && objs + {z} <= w.live.Keys && z !in w.dirty
    ensures CanRun(w, hub) && Binds(w, hub, all) && hub.writes.Keys == objs + {z}
    ensures var w' := Ran(w, hub);
            && z in w'.dirty && w'.dirty[z] == cap + 1
            && (forall o :: o in w.dirty ==> o in w'.dirty && w'.dirty[o] == w.dirty[o])
            && w'.pending == w.pending + [hub] && w'.inflight == w.inflight && w'.live.Keys == w.live.Keys
  {
    var writes := Ballast(w, objs, z, cap + 1);
    var q := Listing(writes.Keys);
    hub := Writer(|w.history|, writes, q);
    assert z in writes && |writes[z]| == cap + 1;
    WriterRuns(w, writes, q, all);
    Loaded(w, hub, z);
  }

  /** Wake a new object and weigh it down together with `objs`. */
  lemma WeighDown(w: W, objs: set<Obj>, z: Obj, cap: nat, all: bool) returns (steps: seq<Step>, w': W, hub: Applied)
    requires Inv(w) && objs <= w.live.Keys && z !in w.live
    ensures Future(w, steps, w', cap, all) && hub.writes.Keys == objs + {z}
    ensures w'.pending == w.pending + [hub] && w'.inflight == w.inflight && w.live.Keys + {z} == w'.live.Keys
    ensures z in w'.dirty && w'.dirty[z] == cap + 1
    ensures forall o :: o in w.dirty ==> o in w'.dirty && w'.dirty[o] == w.dirty[o]
  {
    var v := Wakes(w, z);
    hub := PutLoad(v, objs, z, cap, all);
    w' := Ran(v, hub);
    Just(v, Run(hub), cap, all);
    StepThen(w, Activate(z), [Run(hub)], w', cap, all);
    steps := [Activate(z)] + [Run(hub)];
  }

  lemma Wakes(w: W, z: Obj) returns (v: W)
    requires Inv(w) && z !in w.live
    ensures Can(w, Activate(z)) && v == Do(w, Activate(z)) && Inv(v) && z !in v.dirty
    ensures v.pending == w.pending && v.inflight == w.inflight && v.dirty == w.dirty && v.live.Keys == w.live.Keys + {z}
  {
    ActivatedInv(w, z);
    NewIsClean(w, z);
    v := Do(w, Activate(z));
  }

  lemma {:induction false} SuspectStays(w: W, steps: seq<Step>, w': W, cap: nat, e: nat, i: nat, all: bool)
    requires Suspect(w, e, i, all) && Future(w, steps, w', cap, all)
    ensures Suspect(w', e, i, all) && w'.history[e] == w.history[e] && w'.history[i] == w.history[i]
    decreases |steps|
  {
    if steps != [] {
      StillSuspect(w, steps[0], e, i, all);
      SuspectStays(Do(w, steps[0]), steps[1..], w', cap, e, i, all);
    }
  }

  /** Two heavy transactions come in: one over the objects of `s`, one over those of `s'`. */
  lemma Burden(w: W, e: nat, i: nat, all: bool, cap: nat, s: set<Obj>, s': set<Obj>)
    returns (steps: seq<Step>, w': W, hub: Applied, z: Obj, hub': Applied, z': Obj)
    requires Suspect(w, e, i, all) && s <= w.live.Keys && s' <= w.live.Keys
    ensures Future(w, steps, w', cap, all) && Suspect(w', e, i, all)
    ensures w'.history[e] == w.history[e] && w'.history[i] == w.history[i]
    ensures w'.pending == w.pending + [hub, hub'] && w'.inflight == w.inflight && z != z' && z !in w.live
        && z' !in w.live
    ensures Heavy(w'.pending, w'.dirty, cap, s + {z}, hub, z) && Heavy(w'.pending, w'.dirty, cap, s' + {z'}, hub', z')
  {
    z := AboveAll(w.live.Keys);
    var xs, v;
    xs, v, hub := WeighDown(w, s, z, cap, all);
    SuspectStays(w, xs, v, cap, e, i, all);
    z' := AboveAll(v.live.Keys);
    assert z in v.live && z' !in v.live && z' !in w.live;
    var ys;
    ys, w', hub' := WeighDown(v, s', z', cap, all);
    SuspectStays(v, ys, w', cap, e, i, all);
    FutureOn(w, xs, v, ys, w', cap, all);
    steps := xs + ys;
    TwoMore(w.pending, v.pending, w'.pending, hub, hub');
  }

  lemma TwoMore(a: seq<Applied>, b: seq<Applied>, c: seq<Applied>, t: Applied, t': Applied)
    requires b == a + [t] && c == b + [t']
    ensures c == a + [t, t'] && t in c && t' in c
  {
    assert c[|a|] == t && c[|a| + 1] == t';
  }
}
