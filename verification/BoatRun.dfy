/** What holds across the steps of the boat pipeline: how one state may be followed by a later one. */
module BoatRun {
  import opened Bytes
  import opened Sums
  import opened TxnComponents
  import opened Boats
  import opened BoatSteps

  /** Nothing that landed is lost, nothing that was applied is forgotten, and no client is answered twice. */
  ghost predicate Later(w: W, w': W) {
    && w.landed <= w'.landed && w.history <= w'.history && w.reverted <= w'.reverted && w.genesis == w'.genesis
    && (forall i :: i in w.replies ==> i in w'.replies && w'.replies[i] == w.replies[i])
  }

  lemma LaterTrans(a: W, b: W, c: W)
    requires Later(a, b) && Later(b, c)
    ensures Later(a, c)
  {
  }

  /** Any of the pipeline's steps, with `aboard`, `t`, `o` or `r` as it needs. */
  datatype Step =
    | Run(t: Applied)
    | Activate(o: Obj)
    | Shed(o: Obj)
    | Launch(flags: seq<bool>)
    | FailLaunch(flags: seq<bool>)
    | Land
    | Sink
    | Revert(r: set<Obj>)
    | Clear
    | Crash

  ghost predicate Can(w: W, s: Step) {
    match s
    case Run(t) => CanRun(w, t)
    case Activate(o) => o !in w.live
    case Shed(o) => !Unshipped(w, o)
    case Launch(flags) => CanLaunch(w, flags) && LiveOk(w)
    case FailLaunch(flags) => CanLaunch(w, flags)
    case Land => AtSea(w)
    case Sink => AtSea(w)
    case Revert(r) => CanRevert(w, r)
    case Clear => w.inflight.Some? && w.inflight.value.phase.Committed?
    case Crash => true
  }

  ghost function Do(w: W, s: Step): W
    requires Can(w, s)
  {
    match s
    case Run(t) => Ran(w, t)
    case Activate(o) => w.(live := w.live[o := Of(w.durable, o)])
    case Shed(o) => w.(live := w.live - {o})
    case Launch(flags) => Launched(w, flags)
    case FailLaunch(flags) => LaunchFailed(w, flags)
    case Land => Landing(w)
    case Sink => Sinking(w)
    case Revert(r) => Reverts(w, r)
    case Clear => w.(inflight := None)
    case Crash => Crashed(w)
  }

  // ----- a failed launch is a boat that sank in port

  lemma {:induction false} FilterNone(txns: seq<Applied>, flags: seq<bool>)
    requires |flags| == |txns| && forall i :: 0 <= i < |flags| ==> !flags[i]
    ensures Filter(txns, flags, false) == txns && Filter(txns, flags, true) == []
    decreases |txns|
  {
    if txns != [] { FilterNone(txns[1..], flags[1..]); }
  }

  lemma NoneDoomed(txns: seq<Applied>, r: set<Obj>)
    requires Touched(txns) !! r
    ensures Closed(txns, r) && Filter(txns, Doomed(txns, r), false) == txns && Filter(txns, Doomed(txns, r), true) == []
  {
    forall t | t in txns ensures !Meets(t, r) {
      var i :| 0 <= i < |txns| && txns[i] == t;
      forall o | o in t.writes ensures o !in r {
        TouchedMember(txns, o);
        assert Touches(txns[i], o);
      }
    }
    FilterNone(txns, Doomed(txns, r));
  }

  /** Taking out the same objects twice changes nothing more. */
  lemma TakenOnce(dirty: map<Obj, nat>, r: set<Obj>)
    ensures (dirty - r) - r == dirty - r
    ensures SumOver((dirty - r).Keys - r, dirty - r) == SumOver(dirty.Keys - r, dirty)
  {
    assert (dirty - r).Keys - r == dirty.Keys - r;
    SumSame(dirty.Keys - r, dirty - r, dirty);
  }

  lemma NothingMoreReverts(w: W, r: set<Obj>)
    requires w.inflight.Some? && w.inflight.value.phase.Failed? && w.inflight.value.images.Keys == r
    requires Touched(w.pending) !! r
    ensures CanRevert(w, r)
    ensures Reverts(w, r) ==
              w.(live := w.live - r, dirty := w.dirty - r, dirtyBytes := SumOver(w.dirty.Keys - r, w.dirty),
                 inflight := None, reverted := w.reverted + Ids(Afloat(w)))
  {
    NoneDoomed(w.pending, r);
    assert WaiterIds([]) == {} && Ids([]) == {};
    assert Answer(w.replies, {}, Refused) == w.replies;
    assert w.reverted + {} == w.reverted;
  }

  lemma FailedLaunchSinks(w: W, flags: seq<bool>)
    requires LiveOk(w) && CanLaunch(w, flags)
    ensures var sunk, r := Sinking(Launched(w, flags)), Touched(Filter(w.pending, flags, true));
            CanRevert(sunk, r) && Reverts(sunk, r) == LaunchFailed(w, flags)
  {
    var r := Touched(Filter(w.pending, flags, true));
    var sunk := Sinking(Launched(w, flags));
    FilterTouched(w.pending, flags, true);
    CutDisjoint(w.pending, flags);
    NothingMoreReverts(sunk, r);
    TakenOnce(w.dirty, r);
  }

  lemma LaunchFailedInv(w: W, flags: seq<bool>)
    requires Inv(w) && CanLaunch(w, flags)
    ensures Inv(LaunchFailed(w, flags))
  {
    LaunchedInv(w, flags);
    SinkingInv(Launched(w, flags));
    FailedLaunchSinks(w, flags);
    RevertsInv(Sinking(Launched(w, flags)), Touched(Filter(w.pending, flags, true)));
  }

  // ----- every step keeps the invariant

  lemma StepKeepsInv(w: W, s: Step)
    requires Inv(w) && Can(w, s)
    ensures Inv(Do(w, s))
  {
    match s
    case Run(t) => RanInv(w, t);
    case Activate(o) => ActivatedInv(w, o);
    case Shed(o) => ShedInv(w, o);
    case Launch(flags) => LaunchedInv(w, flags);
    case FailLaunch(flags) => LaunchFailedInv(w, flags);
    case Land => LandingInv(w);
    case Sink => SinkingInv(w);
    case Revert(r) => RevertsInv(w, r);
    case Clear => ClearedInv(w);
    case Crash => CrashedInv(w);
  }

  lemma AnswerOnce(w: W, ids: set<nat>, r: Reply)
    requires forall i :: i in ids ==> i !in w.replies
    ensures Later(w, w.(replies := Answer(w.replies, ids, r)))
  {
  }

  lemma AboardWaits(w: W, flags: seq<bool>)
    requires PendingWait(w) && |flags| == |w.pending|
    ensures forall i :: i in WaiterIds(Filter(w.pending, flags, true)) ==> i !in w.replies
  {
    forall i | i in WaiterIds(Filter(w.pending, flags, true)) ensures i !in w.replies {
      var a :| a in Filter(w.pending, flags, true) && a.waiter && a.id == i;
      FilterSubset(w.pending, flags, a);
    }
  }

  lemma RunIsLater(w: W, t: Applied)
    requires AckedLanded(w) && t.id == |w.history|
    ensures Later(w, Ran(w, t))
  {
  }

  lemma FateIsLater(w: W)
    requires BoatWaits(w) && AtSea(w)
    ensures Later(w, Landing(w)) && Later(w, Sinking(w))
  {
    assert Afloat(w) == w.inflight.value.txns;
  }

  lemma StepIsLater(w: W, s: Step)
    requires Inv(w) && Can(w, s)
    ensures Later(w, Do(w, s))
  {
    match s
    case Run(t) => RunIsLater(w, t);
    case FailLaunch(flags) => AboardWaits(w, flags);
    case Revert(r) => AboardWaits(w, Doomed(w.pending, r));
    case Land => FateIsLater(w);
    case Sink => FateIsLater(w);
    case _ =>
  }

  // ----- several steps

  /** The steps lead from one state to the other. */
  ghost predicate Leads(w: W, steps: seq<Step>, w': W)
    decreases |steps|
  {
    if steps == [] then w' == w else Can(w, steps[0]) && Leads(Do(w, steps[0]), steps[1..], w')
  }

  lemma OneStep(w: W, s: Step)
    requires Can(w, s)
    ensures Leads(w, [s], Do(w, s))
  {
    assert [s][1..] == [];
  }

  lemma {:induction false} LeadsTrans(a: W, xs: seq<Step>, b: W, ys: seq<Step>, c: W)
    requires Leads(a, xs, b) && Leads(b, ys, c)
    ensures Leads(a, xs + ys, c)
    decreases |xs|
  {
    if xs == [] {
      assert xs + ys == ys;
    } else {
      LeadsTrans(Do(a, xs[0]), xs[1..], b, ys, c);
      assert (xs + ys)[1..] == xs[1..] + ys;
    }
  }

  /** Any number of steps keep the invariant, lose nothing that landed, and change no answer. */
  lemma {:induction false} LeadsKeeps(w: W, steps: seq<Step>, w': W)
    requires Inv(w) && Leads(w, steps, w')
    ensures Inv(w') && Later(w, w')
    decreases |steps|
  {
    if steps != [] {
      StepKeepsInv(w, steps[0]);
      StepIsLater(w, steps[0]);
      LeadsKeeps(Do(w, steps[0]), steps[1..], w');
      LaterTrans(w, Do(w, steps[0]), w');
    }
  }

  // ----- whole runs

  ghost predicate IsRun(ws: seq<W>, steps: seq<Step>) {
    && |ws| == |steps| + 1
    && forall k :: 0 <= k < |steps| ==> Can(ws[k], steps[k]) && ws[k + 1] == Do(ws[k], steps[k])
  }

  /** A worker that has just started over a store. */
  ghost predicate Fresh(w: W) {
    && w.live == map[] && w.dirty == map[] && w.dirtyBytes == 0 && w.pending == [] && w.inflight.None?
    && w.durable == w.genesis && w.replies == map[] && w.history == [] && w.landed == [] && w.reverted == {}
    && w.gone == []
  }

  lemma FreshInv(w: W)
    requires Fresh(w)
    ensures Inv(w)
  {
    assert Standing(w) == [];
  }

  lemma {:induction false} RunKeepsInv(ws: seq<W>, steps: seq<Step>, j: nat, k: nat)
    requires IsRun(ws, steps) && Inv(ws[0]) && j <= k < |ws|
    ensures Inv(ws[j]) && Inv(ws[k]) && Later(ws[j], ws[k])
    decreases k
  {
    if k == 0 {
    } else if j == k {
      RunKeepsInv(ws, steps, j - 1, k - 1);
      StepKeepsInv(ws[k - 1], steps[k - 1]);
    } else {
      RunKeepsInv(ws, steps, j, k - 1);
      StepKeepsInv(ws[k - 1], steps[k - 1]);
      StepIsLater(ws[k - 1], steps[k - 1]);
    }
  }

  /** In every state reached from a fresh start, each live object is its durable image, then what is in flight, then
      what is pending, and the durable images are exactly the landed transactions, whole and in order. */
  lemma WholeRunRefines(ws: seq<W>, steps: seq<Step>, k: nat, o: Obj)
    requires IsRun(ws, steps) && Fresh(ws[0]) && k < |ws|
    ensures var w := ws[k];
            && (o in w.live ==> w.live[o] == After(After(Of(w.durable, o), Afloat(w), o), w.pending, o))
            && Of(w.durable, o) == After(Of(w.genesis, o), w.landed, o)
  {
    FreshInv(ws[0]);
    RunKeepsInv(ws, steps, 0, k);
  }

  lemma LandedStays(w: W, w': W, t: Applied)
    requires Later(w, w')
    ensures t in w.landed ==> t in w'.landed
  {
  }
}
