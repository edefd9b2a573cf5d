/** What each event of the boat pipeline does to `W`, and that it keeps the invariant. */
module BoatSteps {
  import opened Bytes
  import opened Sums
  import opened TxnComponents
  import opened Boats

  ghost function Ids(txns: seq<Applied>): set<nat> {
    set t | t in txns :: t.id
  }

  ghost function WaiterIds(txns: seq<Applied>): set<nat> {
    set t | t in txns && t.waiter :: t.id
  }

  ghost function Answer(replies: map<nat, Reply>, ids: set<nat>, r: Reply): map<nat, Reply> {
    replies + (map i | i in ids :: r)
  }

  // ----- a write transaction runs

  ghost function Dirtied(w: W, writes: map<Obj, Image>): map<Obj, nat> {
    w.dirty + (map o | o in writes && o !in w.dirty :: |writes[o]|)
  }

  ghost function Ran(w: W, t: Applied): W {
    w.(live := w.live + t.writes,
       dirty := Dirtied(w, t.writes),
       dirtyBytes := SumOver(Dirtied(w, t.writes).Keys, Dirtied(w, t.writes)),
       pending := w.pending + [t],
       history := w.history + [t],
       gone := w.gone + [w.reverted],
       replies := if t.waiter then w.replies else w.replies[t.id := Acked])
  }

  /** The next transaction: it holds live objects and leaves in them what its program makes of them. */
  ghost predicate CanRun(w: W, t: Applied) {
    && t.id == |w.history| && Wf(t) && t.held <= w.live.Keys
    && t.writes == Effect(t.program, t.held, w.live) && t.writes != map[]
  }

  lemma OneTouches(t: Applied)
    ensures Touched([t]) == t.writes.Keys
    ensures forall base, o :: After(base, [t], o) == if o in t.writes then t.writes[o] else base
  {
    assert [t][1..] == [];
  }

  lemma RanRefines(w: W, t: Applied)
    requires Refines(w) && CanRun(w, t)
    ensures Refines(Ran(w, t))
  {
    var w' := Ran(w, t);
    OneTouches(t);
    forall o | o in w'.live ensures w'.live[o] == After(After(Of(w'.durable, o), Afloat(w'), o), w'.pending, o) {
      AfterAppend(After(Of(w.durable, o), Afloat(w), o), w.pending, [t], o);
    }
  }

  lemma RanDirty(w: W, t: Applied)
    requires DirtyOk(w) && LiveOk(w) && BoatOk(w) && CanRun(w, t)
    ensures DirtyOk(Ran(w, t)) && LiveOk(Ran(w, t)) && BoatOk(Ran(w, t))
  {
    OneTouches(t);
    TouchedAppend(w.pending, [t]);
  }

  lemma RanStanding(w: W, t: Applied)
    ensures Standing(Ran(w, t)) == Standing(w) + [t]
  {
  }

  lemma RanOrdered(w: W, t: Applied)
    requires Ordered(Standing(w)) && Accounted(w) && CanRun(w, t)
    ensures Ordered(Standing(Ran(w, t))) && Accounted(Ran(w, t))
  {
    RanStanding(w, t);
    NewestLast(Standing(w), t, |w.history|);
    RanAccounted(w, t);
  }

  lemma NewestLast(txns: seq<Applied>, t: Applied, n: nat)
    requires Ordered(txns) && t.id == n && forall x :: x in txns ==> x.id < n
    ensures Ordered(txns + [t])
  {
    forall i | 0 <= i < |txns| ensures txns[i].id < n { assert txns[i] in txns; }
  }

  lemma RanAccounted(w: W, t: Applied)
    requires Accounted(w) && t.id == |w.history| && Wf(t)
    ensures Accounted(Ran(w, t))
  {
    var all := Standing(w);
    RanStanding(w, t);
    forall i: nat | i < |w.history| + 1 ensures (w.history + [t])[i] in all + [t] || i in w.reverted {
      if i < |w.history| { assert w.history[i] in all || i in w.reverted; }
    }
  }

  lemma StandingKnown(w: W, t: Applied)
    requires Accounted(w) && (t in w.pending || t in w.landed || t in Afloat(w))
    ensures t.id < |w.history| && w.history[t.id] == t && t.id !in w.reverted
  {
    assert t in Standing(w);
  }

  lemma RanWaits(w: W, t: Applied)
    requires PendingWait(w) && AckedLanded(w) && Accounted(w) && t.id == |w.history|
    ensures PendingWait(Ran(w, t))
  {
    var w' := Ran(w, t);
    forall x | x in w'.pending && x.waiter ensures x.id !in w'.replies {
      if x in w.pending { StandingKnown(w, x); } else { assert t.id !in w.replies; }
    }
  }

  lemma RanBoatWaits(w: W, t: Applied)
    requires BoatWaits(w) && Accounted(w) && t.id == |w.history|
    ensures BoatWaits(Ran(w, t))
  {
    forall x | x in Afloat(w) ensures x.id < |w.history| { StandingKnown(w, x); }
  }

  lemma RanLandedAcked(w: W, t: Applied)
    requires LandedAcked(w) && Accounted(w) && t.id == |w.history|
    ensures LandedAcked(Ran(w, t))
  {
    forall x | x in w.landed ensures x.id < |w.history| { StandingKnown(w, x); }
  }

  lemma RanAcked(w: W, t: Applied)
    requires AckedLanded(w) && OptimistsAcked(w) && t.id == |w.history|
    ensures AckedLanded(Ran(w, t)) && OptimistsAcked(Ran(w, t))
  {
  }

  lemma RanInv(w: W, t: Applied)
    requires Inv(w) && CanRun(w, t)
    ensures Inv(Ran(w, t))
  {
    RanRefines(w, t);
    RanDirty(w, t);
    RanOrdered(w, t);
    RanWaits(w, t);
    RanBoatWaits(w, t);
    RanLandedAcked(w, t);
    RanAcked(w, t);
  }

  // ----- activation and shedding

  lemma SameButLive(w: W, live: map<Obj, Image>)
    requires Inv(w) && Refines(w.(live := live)) && LiveOk(w.(live := live))
    ensures Inv(w.(live := live))
  {
    assert Standing(w.(live := live)) == Standing(w);
  }

  lemma ActivatedInv(w: W, o: Obj)
    requires Inv(w) && o !in w.live
    ensures Inv(w.(live := w.live[o := Of(w.durable, o)]))
  {
    var w' := w.(live := w.live[o := Of(w.durable, o)]);
    forall p | p in w'.live ensures w'.live[p] == After(After(Of(w'.durable, p), Afloat(w'), p), w'.pending, p) {
      if p == o {
        AfterUntouched(Of(w.durable, o), Afloat(w), o);
        AfterUntouched(Of(w.durable, o), w.pending, o);
      }
    }
    SameButLive(w, w'.live);
  }

  predicate Unshipped(w: W, o: Obj) {
    o in w.dirty || (w.inflight.Some? && o in w.inflight.value.images)
  }

  lemma ShedInv(w: W, o: Obj)
    requires Inv(w) && !Unshipped(w, o)
    ensures Inv(w.(live := w.live - {o}))
  {
    SameButLive(w, w.live - {o});
  }

  // ----- launching a boat

  /** The live images of the objects aboard. */
  function Captured(live: map<Obj, Image>, objs: set<Obj>): map<Obj, Image>
    requires objs <= live.Keys
  {
    map o | o in objs :: live[o]
  }

  ghost function Launched(w: W, flags: seq<bool>): W
    requires |flags| == |w.pending| && LiveOk(w)
  {
    var aboard, left := Filter(w.pending, flags, true), Filter(w.pending, flags, false);
    FilterTouched(w.pending, flags, true);
    w.(dirty := w.dirty - Touched(aboard),
       dirtyBytes := SumOver(w.dirty.Keys - Touched(aboard), w.dirty),
       pending := left,
       inflight := Some(Boat(aboard, Captured(w.live, Touched(aboard)), Sailing)))
  }

  /** The live file of an object aboard could not be read: the boat's transactions are reverted on the spot. */
  ghost function LaunchFailed(w: W, flags: seq<bool>): W
    requires |flags| == |w.pending|
  {
    var aboard, left := Filter(w.pending, flags, true), Filter(w.pending, flags, false);
    w.(live := w.live - Touched(aboard),
       dirty := w.dirty - Touched(aboard),
       dirtyBytes := SumOver(w.dirty.Keys - Touched(aboard), w.dirty),
       pending := left,
       replies := Answer(w.replies, WaiterIds(aboard), Refused),
       reverted := w.reverted + Ids(aboard))
  }

  lemma FilterTouched(txns: seq<Applied>, flags: seq<bool>, v: bool)
    requires |flags| == |txns|
    ensures Touched(Filter(txns, flags, v)) <= Touched(txns)
    ensures Touched(Filter(txns, flags, true)) + Touched(Filter(txns, flags, false)) == Touched(txns)
  {
    FiltersTouch(txns, flags);
  }

  lemma {:induction false} FiltersTouch(txns: seq<Applied>, flags: seq<bool>)
    requires |flags| == |txns|
    ensures Touched(Filter(txns, flags, true)) + Touched(Filter(txns, flags, false)) == Touched(txns)
    decreases |txns|
  {
    if txns != [] {
      FiltersTouch(txns[1..], flags[1..]);
      FilterHead(txns, flags, true);
      FilterHead(txns, flags, false);
    }
  }

  lemma FilterHead(txns: seq<Applied>, flags: seq<bool>, v: bool)
    requires |flags| == |txns| && txns != []
    ensures var rest := Filter(txns[1..], flags[1..], v);
            Touched(Filter(txns, flags, v)) == if flags[0] == v then txns[0].writes.Keys + Touched(rest)
                else Touched(rest)
  {
    var rest := Filter(txns[1..], flags[1..], v);
    assert ([txns[0]] + rest)[1..] == rest && [] + rest == rest;
  }

  /** Which side of the cut an object is on. */
  lemma SideOf(txns: seq<Applied>, flags: seq<bool>, o: Obj)
    requires |flags| == |txns| && NeverSplits(txns, flags)
    ensures o in Touched(Filter(txns, flags, true)) ==>
              forall i :: 0 <= i < |txns| && Touches(txns[i], o) ==> flags[i]
    ensures o !in Touched(Filter(txns, flags, true)) ==>
              forall i :: 0 <= i < |txns| && Touches(txns[i], o) ==> !flags[i]
  {
    var aboard := Filter(txns, flags, true);
    TouchedMember(aboard, o);
    if o in Touched(aboard) {
      var p :| 0 <= p < |aboard| && Touches(aboard[p], o);
      FilterMember(txns, flags, true, aboard[p]);
      var k :| 0 <= k < |txns| && txns[k] == aboard[p] && flags[k] == true;
      forall i | 0 <= i < |txns| && Touches(txns[i], o) ensures flags[i] {
        assert Share(txns[k], txns[i]);
      }
    } else {
      forall i | 0 <= i < |txns| && Touches(txns[i], o) ensures !flags[i] {
        FilterMember(txns, flags, true, txns[i]);
      }
    }
  }

  /** Seen from one object, a cut that splits no transaction only reorders what does not touch it. */
  lemma CutAfter(base: Image, txns: seq<Applied>, flags: seq<bool>, o: Obj)
    requires |flags| == |txns| && NeverSplits(txns, flags)
    ensures After(After(base, Filter(txns, flags, true), o), Filter(txns, flags, false), o) == After(base, txns, o)
    ensures o in Touched(Filter(txns, flags, true)) ==>
              After(base, Filter(txns, flags, true), o) == After(base, txns, o)
                  && o !in Touched(Filter(txns, flags, false))
  {
    SideOf(txns, flags, o);
    var aboard, left := Filter(txns, flags, true), Filter(txns, flags, false);
    if o in Touched(aboard) {
      FilterAfter(base, txns, flags, true, o);
      AfterUntouched(After(base, aboard, o), left, o);
    } else {
      AfterUntouched(base, aboard, o);
      FilterAfter(base, txns, flags, false, o);
    }
  }

  lemma CutDisjoint(txns: seq<Applied>, flags: seq<bool>)
    requires |flags| == |txns| && NeverSplits(txns, flags)
    ensures Touched(Filter(txns, flags, true)) !! Touched(Filter(txns, flags, false))
  {
    forall o | o in Touched(Filter(txns, flags, true)) ensures o !in Touched(Filter(txns, flags, false)) {
      CutAfter([], txns, flags, o);
    }
  }

  // ----- order

  ghost predicate Apart(a: Applied, b: Applied) {
    a.id != b.id && (Share(a, b) ==> a.id < b.id)
  }

  lemma {:induction false} OrderedAppend(a: seq<Applied>, b: seq<Applied>)
    ensures Ordered(a + b) <==> Ordered(a) && Ordered(b) && forall i, j :: 0 <= i < |a| && 0 <= j < |b| ==>
        Apart(a[i], b[j])
  {
    var ab := a + b;
    if Ordered(ab) {
      forall i, j | 0 <= i < |a| && 0 <= j < |b| ensures Apart(a[i], b[j]) {
        assert ab[i] == a[i] && ab[|a| + j] == b[j];
      }
      forall i, j | 0 <= i < j < |b|
        ensures b[i].id != b[j].id && (Share(b[i], b[j]) ==> b[i].id < b[j].id)
      {
        assert ab[|a| + i] == b[i] && ab[|a| + j] == b[j];
      }
      forall i, j | 0 <= i < j < |a|
        ensures a[i].id != a[j].id && (Share(a[i], a[j]) ==> a[i].id < a[j].id)
      {
        assert ab[i] == a[i] && ab[j] == a[j];
      }
    }
    if Ordered(a) && Ordered(b) && forall i, j :: 0 <= i < |a| && 0 <= j < |b| ==> Apart(a[i], b[j]) {
      forall i, j | 0 <= i < j < |ab|
        ensures ab[i].id != ab[j].id && (Share(ab[i], ab[j]) ==> ab[i].id < ab[j].id)
      {
        if i < |a| <= j { assert Apart(a[i], b[j - |a|]); }
      }
    }
  }

  lemma TailOrdered(txns: seq<Applied>)
    requires Ordered(txns) && txns != []
    ensures Ordered(txns[1..])
    ensures forall t :: t in txns[1..] ==> Apart(txns[0], t)
  {
    forall i, j | 0 <= i < j < |txns[1..]|
      ensures txns[1..][i].id != txns[1..][j].id
          && (Share(txns[1..][i], txns[1..][j]) ==> txns[1..][i].id < txns[1..][j].id)
    {
      assert txns[1..][i] == txns[i + 1] && txns[1..][j] == txns[j + 1];
    }
    forall t | t in txns[1..] ensures Apart(txns[0], t) {
      var k :| 0 <= k < |txns[1..]| && txns[1..][k] == t;
      assert txns[k + 1] == t;
    }
  }

  lemma {:induction false} FilterOrdered(txns: seq<Applied>, flags: seq<bool>, v: bool)
    requires |flags| == |txns| && Ordered(txns)
    ensures Ordered(Filter(txns, flags, v))
    decreases |txns|
  {
    if txns != [] {
      var rest := Filter(txns[1..], flags[1..], v);
      TailOrdered(txns);
      FilterOrdered(txns[1..], flags[1..], v);
      if flags[0] == v {
        forall i, j | 0 <= i < |[txns[0]]| && 0 <= j < |rest| ensures Apart([txns[0]][i], rest[j]) {
          FilterMember(txns[1..], flags[1..], v, rest[j]);
          assert Apart(txns[0], rest[j]);
        }
        assert Ordered([txns[0]]);
        OrderedAppend([txns[0]], rest);
      } else {
        assert Filter(txns, flags, v) == rest;
      }
    }
  }

  /** A cut that splits no transaction keeps the order on every object. */
  lemma CutOrdered(txns: seq<Applied>, flags: seq<bool>)
    requires |flags| == |txns| && NeverSplits(txns, flags) && Ordered(txns)
    ensures Ordered(Filter(txns, flags, true) + Filter(txns, flags, false))
  {
    var aboard, left := Filter(txns, flags, true), Filter(txns, flags, false);
    FilterOrdered(txns, flags, true);
    FilterOrdered(txns, flags, false);
    forall i, j | 0 <= i < |aboard| && 0 <= j < |left| ensures Apart(aboard[i], left[j]) {
      FilterMember(txns, flags, true, aboard[i]);
      FilterMember(txns, flags, false, left[j]);
      var p :| 0 <= p < |txns| && txns[p] == aboard[i] && flags[p] == true;
      var q :| 0 <= q < |txns| && txns[q] == left[j] && flags[q] == false;
      assert !Share(txns[p], txns[q]);
      if p < q { assert txns[p].id != txns[q].id; } else { assert txns[q].id != txns[p].id; }
    }
    OrderedAppend(aboard, left);
  }

  // ----- launching keeps the invariant

  /** Nothing is in flight, and the cut splits no transaction. */
  ghost predicate CanLaunch(w: W, flags: seq<bool>) {
    w.inflight.None? && |flags| == |w.pending| && NeverSplits(w.pending, flags)
  }

  lemma LaunchedRefines(w: W, flags: seq<bool>)
    requires Refines(w) && LiveOk(w) && CanLaunch(w, flags)
    ensures Refines(Launched(w, flags)) && BoatOk(Launched(w, flags))
  {
    var w' := Launched(w, flags);
    var aboard := Filter(w.pending, flags, true);
    FilterTouched(w.pending, flags, true);
    forall o | o in w'.live ensures w'.live[o] == After(After(Of(w'.durable, o), Afloat(w'), o), w'.pending, o) {
      CutAfter(Of(w.durable, o), w.pending, flags, o);
    }
    forall o | o in Touched(aboard) ensures w.live[o] == After(Of(w.durable, o), aboard, o) {
      CutAfter(Of(w.durable, o), w.pending, flags, o);
    }
  }

  lemma LaunchedDirty(w: W, flags: seq<bool>)
    requires DirtyOk(w) && LiveOk(w) && CanLaunch(w, flags)
    ensures DirtyOk(Launched(w, flags)) && LiveOk(Launched(w, flags))
  {
    FilterTouched(w.pending, flags, true);
    CutDisjoint(w.pending, flags);
    var w' := Launched(w, flags);
    assert w'.dirty.Keys == w.dirty.Keys - Touched(Filter(w.pending, flags, true));
    SumSame(w'.dirty.Keys, w.dirty, w'.dirty);
  }

  lemma FilterSubset(txns: seq<Applied>, flags: seq<bool>, t: Applied)
    requires |flags| == |txns|
    ensures t in Filter(txns, flags, true) || t in Filter(txns, flags, false) <==> t in txns
  {
    FilterMember(txns, flags, true, t);
    FilterMember(txns, flags, false, t);
    if t in txns { var i :| 0 <= i < |txns| && txns[i] == t; assert flags[i] == true || flags[i] == false; }
  }

  /** Those aboard and those left stand to the landed ones as before. */
  lemma CutApart(landed: seq<Applied>, txns: seq<Applied>, flags: seq<bool>, cut: seq<Applied>)
    requires |flags| == |txns| && forall i, k :: 0 <= i < |landed| && 0 <= k < |txns| ==> Apart(landed[i], txns[k])
    requires cut == Filter(txns, flags, true) + Filter(txns, flags, false)
    ensures forall i, j :: 0 <= i < |landed| && 0 <= j < |cut| ==> Apart(landed[i], cut[j])
  {
    forall i, j | 0 <= i < |landed| && 0 <= j < |cut| ensures Apart(landed[i], cut[j]) {
      var t := cut[j];
      assert t in Filter(txns, flags, true) || t in Filter(txns, flags, false);
      FilterSubset(txns, flags, t);
      var k :| 0 <= k < |txns| && txns[k] == t;
      assert Apart(landed[i], txns[k]);
    }
  }

  lemma OrderedJoin(a: seq<Applied>, b: seq<Applied>)
    requires Ordered(a) && Ordered(b) && forall i, j :: 0 <= i < |a| && 0 <= j < |b| ==> Apart(a[i], b[j])
    ensures Ordered(a + b)
  {
    OrderedAppend(a, b);
  }

  lemma LaunchedStanding(w: W, flags: seq<bool>)
    requires LiveOk(w) && CanLaunch(w, flags)
    ensures Standing(Launched(w, flags)) ==
              w.landed + (Filter(w.pending, flags, true) + Filter(w.pending, flags, false))
  {
    var w', aboard, left := Launched(w, flags), Filter(w.pending, flags, true), Filter(w.pending, flags, false);
    assert w'.landed == w.landed && Afloat(w') == aboard && w'.pending == left;
    Associates(w.landed, aboard, left);
  }

  lemma Associates(a: seq<Applied>, b: seq<Applied>, c: seq<Applied>)
    ensures a + b + c == a + (b + c)
  {
  }

  lemma LaunchedOrdered(w: W, flags: seq<bool>)
    requires LiveOk(w) && Ordered(Standing(w)) && CanLaunch(w, flags)
    ensures Ordered(Standing(Launched(w, flags)))
  {
    var aboard, left := Filter(w.pending, flags, true), Filter(w.pending, flags, false);
    assert Standing(w) == w.landed + w.pending;
    OrderedAppend(w.landed, w.pending);
    CutOrdered(w.pending, flags);
    var cut := aboard + left;
    CutApart(w.landed, w.pending, flags, cut);
    OrderedJoin(w.landed, cut);
    LaunchedStanding(w, flags);
  }

  lemma LaunchedAccounted(w: W, flags: seq<bool>)
    requires LiveOk(w) && Accounted(w) && CanLaunch(w, flags)
    ensures Accounted(Launched(w, flags))
  {
    forall t ensures t in Standing(Launched(w, flags)) <==> t in Standing(w) { FilterSubset(w.pending, flags, t); }
  }

  lemma LaunchedReplies(w: W, flags: seq<bool>)
    requires LiveOk(w) && RepliesOk(w) && CanLaunch(w, flags)
    ensures RepliesOk(Launched(w, flags))
  {
    forall t | t in Filter(w.pending, flags, true) || t in Filter(w.pending, flags, false) ensures t in w.pending {
      FilterSubset(w.pending, flags, t);
    }
  }

  lemma LaunchedInv(w: W, flags: seq<bool>)
    requires Inv(w) && CanLaunch(w, flags)
    ensures Inv(Launched(w, flags))
  {
    LaunchedRefines(w, flags);
    LaunchedDirty(w, flags);
    LaunchedOrdered(w, flags);
    LaunchedAccounted(w, flags);
    LaunchedReplies(w, flags);
  }

  // ----- the boat's fate

  /** The commit switch flips: every image aboard becomes durable at once, and the waiters are acknowledged. */
  ghost function Landing(w: W): W
    requires w.inflight.Some?
  {
    var b := w.inflight.value;
    w.(durable := w.durable + b.images,
       landed := w.landed + b.txns,
       inflight := Some(b.(phase := Committed)),
       replies := Answer(w.replies, WaiterIds(b.txns), Acked))
  }

  /** The shipment fails before its commit point: nothing becomes durable, and the waiters are refused. */
  ghost function Sinking(w: W): W
    requires w.inflight.Some?
  {
    var b := w.inflight.value;
    w.(inflight := Some(b.(phase := Failed)), replies := Answer(w.replies, WaiterIds(b.txns), Refused))
  }

  ghost predicate AtSea(w: W) {
    w.inflight.Some? && w.inflight.value.phase.Sailing?
  }

  lemma LandingState(w: W)
    requires Refines(w) && DurableIsLanded(w) && BoatOk(w) && AtSea(w)
    ensures Refines(Landing(w)) && DurableIsLanded(Landing(w))
  {
    var b := w.inflight.value;
    forall o ensures Of(w.durable + b.images, o) == After(Of(w.durable, o), b.txns, o) {
      if o !in b.images { AfterUntouched(Of(w.durable, o), b.txns, o); }
    }
    forall o ensures Of(Landing(w).durable, o) == After(Of(w.genesis, o), w.landed + b.txns, o) {
      AfterAppend(Of(w.genesis, o), w.landed, b.txns, o);
    }
  }

  lemma LandingStanding(w: W)
    requires AtSea(w)
    ensures Standing(Landing(w)) == Standing(w)
  {
    assert w.landed + w.inflight.value.txns + [] == w.landed + w.inflight.value.txns;
  }

  /** Distinct transactions of the standing ones have distinct numbers. */
  lemma AfloatNotPending(w: W, a: Applied, b: Applied)
    requires Ordered(Standing(w)) && a in Afloat(w) && (b in w.pending || b in w.landed)
    ensures a.id != b.id
  {
    var all := Standing(w);
    var i :| 0 <= i < |Afloat(w)| && Afloat(w)[i] == a;
    assert all[|w.landed| + i] == a;
    if b in w.landed {
      var j :| 0 <= j < |w.landed| && w.landed[j] == b;
      assert all[j] == b;
    } else {
      var j :| 0 <= j < |w.pending| && w.pending[j] == b;
      assert all[|w.landed| + |Afloat(w)| + j] == b;
    }
  }

  lemma LandingReplies(w: W)
    requires RepliesOk(w) && Accounted(w) && Ordered(Standing(w)) && AtSea(w)
    ensures RepliesOk(Landing(w))
  {
    var w', b := Landing(w), w.inflight.value;
    assert Afloat(w) == b.txns;
    assert PendingWait(w') by {
      forall t | t in w'.pending && t.waiter ensures t.id !in w'.replies {
        if t.id in WaiterIds(b.txns) {
          var a :| a in b.txns && a.waiter && a.id == t.id;
          AfloatNotPending(w, a, t);
        }
      }
    }
    assert LandedAcked(w') by {
      forall t | t in w'.landed ensures t.id in w'.replies && w'.replies[t.id].Acked? {
        if t in b.txns { StandingKnown(w, t); }
      }
    }
    assert AckedLanded(w') by {
      forall i | i in w'.replies
        ensures i < |w.history| && (w'.replies[i].Acked? && w.history[i].waiter ==> w.history[i] in w'.landed)
      {
        if i in WaiterIds(b.txns) {
          var a :| a in b.txns && a.waiter && a.id == i;
          StandingKnown(w, a);
        }
      }
    }
  }

  lemma LandingInv(w: W)
    requires Inv(w) && AtSea(w)
    ensures Inv(Landing(w))
  {
    LandingState(w);
    LandingStanding(w);
    LandingReplies(w);
  }

  lemma SinkingReplies(w: W)
    requires RepliesOk(w) && Accounted(w) && Ordered(Standing(w)) && AtSea(w)
    ensures RepliesOk(Sinking(w))
  {
    var w', b := Sinking(w), w.inflight.value;
    assert Afloat(w) == b.txns && Afloat(w') == b.txns;
    assert PendingWait(w') by {
      forall t | t in w'.pending && t.waiter ensures t.id !in w'.replies {
        if t.id in WaiterIds(b.txns) {
          var a :| a in b.txns && a.waiter && a.id == t.id;
          AfloatNotPending(w, a, t);
        }
      }
    }
    assert LandedAcked(w');
    assert AckedLanded(w') by {
      forall i | i in w'.replies
        ensures i < |w.history| && (w'.replies[i].Acked? && w.history[i].waiter ==> w.history[i] in w'.landed)
      {
        if i in WaiterIds(b.txns) {
          var a :| a in b.txns && a.waiter && a.id == i;
          StandingKnown(w, a);
        }
      }
    }
    assert OptimistsAcked(w') by {
      forall i | 0 <= i < |w.history| && !w.history[i].waiter ensures i !in WaiterIds(b.txns) {
        if i in WaiterIds(b.txns) {
          var a :| a in b.txns && a.waiter && a.id == i;
          StandingKnown(w, a);
        }
      }
    }
  }

  lemma SinkingInv(w: W)
    requires Inv(w) && AtSea(w)
    ensures Inv(Sinking(w))
  {
    SinkingReplies(w);
    assert Standing(Sinking(w)) == Standing(w);
  }

  // ----- reverting

  ghost predicate Meets(t: Applied, r: set<Obj>) {
    exists o :: o in t.writes && o in r
  }

  /** A pending transaction that touches the set lies in it. */
  ghost predicate Closed(txns: seq<Applied>, r: set<Obj>) {
    forall t :: t in txns && Meets(t, r) ==> t.writes.Keys <= r
  }

  ghost function Doomed(txns: seq<Applied>, r: set<Obj>): (flags: seq<bool>)
    ensures |flags| == |txns|
  {
    seq(|txns|, (i: nat) requires i < |txns| => Meets(txns[i], r))
  }

  /** Every object of `r` goes back to its durable state; with it go the pending transactions that touch it,
      whose waiters are refused, and whatever the sunk boat carried. */
  ghost function Reverts(w: W, r: set<Obj>): W {
    var doomed := Filter(w.pending, Doomed(w.pending, r), true);
    w.(live := w.live - r,
       dirty := w.dirty - r,
       dirtyBytes := SumOver(w.dirty.Keys - r, w.dirty),
       pending := Filter(w.pending, Doomed(w.pending, r), false),
       inflight := None,
       replies := Answer(w.replies, WaiterIds(doomed), Refused),
       reverted := w.reverted + Ids(doomed) + Ids(Afloat(w)))
  }

  /** The boat failed, and `r` covers it and is closed under the pending transactions. */
  ghost predicate CanRevert(w: W, r: set<Obj>) {
    && w.inflight.Some? && w.inflight.value.phase.Failed?
    && w.inflight.value.images.Keys <= r && Closed(w.pending, r)
  }

  lemma ClosedNeverSplits(txns: seq<Applied>, r: set<Obj>)
    requires Closed(txns, r)
    ensures NeverSplits(txns, Doomed(txns, r))
    ensures Touched(Filter(txns, Doomed(txns, r), true)) <= r
    ensures Touched(Filter(txns, Doomed(txns, r), false)) !! r
  {
    var flags := Doomed(txns, r);
    forall i, j | 0 <= i < |txns| && 0 <= j < |txns| && flags[i] && !flags[j] ensures !Share(txns[i], txns[j]) {
      assert txns[i] in txns;
    }
    forall o | o in Touched(Filter(txns, flags, true)) ensures o in r {
      var d := Filter(txns, flags, true);
      TouchedMember(d, o);
      var p :| 0 <= p < |d| && Touches(d[p], o);
      FilterMember(txns, flags, true, d[p]);
    }
    forall o | o in Touched(Filter(txns, flags, false)) ensures o !in r {
      var k := Filter(txns, flags, false);
      TouchedMember(k, o);
      var p :| 0 <= p < |k| && Touches(k[p], o);
      FilterMember(txns, flags, false, k[p]);
    }
  }

  lemma RevertsRefines(w: W, r: set<Obj>)
    requires Refines(w) && BoatOk(w) && CanRevert(w, r)
    ensures Refines(Reverts(w, r)) && BoatOk(Reverts(w, r))
  {
    var w', flags := Reverts(w, r), Doomed(w.pending, r);
    ClosedNeverSplits(w.pending, r);
    forall o | o in w'.live ensures w'.live[o] == After(After(Of(w'.durable, o), Afloat(w'), o), w'.pending, o) {
      AfterUntouched(Of(w.durable, o), w.inflight.value.txns, o);
      CutAfter(Of(w.durable, o), w.pending, flags, o);
      AfterUntouched(Of(w.durable, o), Filter(w.pending, flags, true), o);
    }
  }

  lemma RevertsDirty(w: W, r: set<Obj>)
    requires DirtyOk(w) && LiveOk(w) && CanRevert(w, r)
    ensures DirtyOk(Reverts(w, r)) && LiveOk(Reverts(w, r))
  {
    var w' := Reverts(w, r);
    ClosedNeverSplits(w.pending, r);
    FiltersTouch(w.pending, Doomed(w.pending, r));
    assert w'.dirty.Keys == w.dirty.Keys - r;
    SumSame(w'.dirty.Keys, w.dirty, w'.dirty);
  }

  lemma RevertsOrdered(w: W, r: set<Obj>)
    requires Ordered(Standing(w)) && CanRevert(w, r)
    ensures Ordered(Standing(Reverts(w, r)))
  {
    var kept := Filter(w.pending, Doomed(w.pending, r), false);
    var mid := w.landed + Afloat(w);
    OrderedAppend(mid, w.pending);
    OrderedAppend(w.landed, Afloat(w));
    FilterOrdered(w.pending, Doomed(w.pending, r), false);
    forall i, j | 0 <= i < |w.landed| && 0 <= j < |kept| ensures Apart(w.landed[i], kept[j]) {
      FilterSubset(w.pending, Doomed(w.pending, r), kept[j]);
      var k :| 0 <= k < |w.pending| && w.pending[k] == kept[j];
      assert Apart(mid[i], w.pending[k]);
    }
    OrderedAppend(w.landed, kept);
    assert Standing(Reverts(w, r)) == w.landed + kept;
  }

  /** A pending transaction number belongs to one pending transaction. */
  lemma PendingApart(w: W, a: Applied, b: Applied)
    requires Accounted(w) && a in Standing(w) && b in Standing(w) && a.id == b.id
    ensures a == b
  {
  }

  lemma FilterApart(w: W, flags: seq<bool>, a: Applied, b: Applied)
    requires |flags| == |w.pending| && Ordered(Standing(w))
    requires a in Filter(w.pending, flags, true) && (b in Filter(w.pending, flags, false) || b in w.landed)
    ensures a.id != b.id
  {
    var all := Standing(w);
    FilterMember(w.pending, flags, true, a);
    var i :| 0 <= i < |w.pending| && w.pending[i] == a && flags[i] == true;
    var base := |w.landed| + |Afloat(w)|;
    assert all[base + i] == a;
    if b in w.landed {
      var j :| 0 <= j < |w.landed| && w.landed[j] == b;
      assert all[j] == b;
    } else {
      FilterMember(w.pending, flags, false, b);
      var j :| 0 <= j < |w.pending| && w.pending[j] == b && flags[j] == false;
      assert all[base + j] == b;
      if i < j { assert all[base + i].id != all[base + j].id; } else { assert all[base + j].id != all[base + i].id; }
    }
  }

  lemma RevertsAccounted(w: W, r: set<Obj>)
    requires Accounted(w) && Ordered(Standing(w)) && CanRevert(w, r)
    ensures Accounted(Reverts(w, r))
  {
    var w', flags := Reverts(w, r), Doomed(w.pending, r);
    var doomed := Filter(w.pending, flags, true);
    forall t | t in Standing(w')
      ensures t.id < |w.history| && w.history[t.id] == t && t.id !in w'.reverted
    {
      if t in w'.pending { FilterSubset(w.pending, flags, t); }
      StandingKnown(w, t);
      if t.id in Ids(doomed) {
        var a :| a in doomed && a.id == t.id;
        FilterApart(w, flags, a, t);
      }
      if t.id in Ids(Afloat(w)) {
        var a :| a in Afloat(w) && a.id == t.id;
        AfloatNotPending(w, a, t);
      }
    }
    forall i: nat | i < |w.history| ensures w.history[i] in Standing(w') || i in w'.reverted {
      var t := w.history[i];
      if t in w.pending { FilterSubset(w.pending, flags, t); }
      assert t.id == i;
    }
    forall i | i in w'.reverted ensures i < |w.history| {
      if i in Ids(doomed) {
        var a :| a in doomed && a.id == i;
        FilterSubset(w.pending, flags, a);
        StandingKnown(w, a);
      }
      if i in Ids(Afloat(w)) {
        var a :| a in Afloat(w) && a.id == i;
        StandingKnown(w, a);
      }
    }
  }

  lemma RevertsReplies(w: W, r: set<Obj>)
    requires RepliesOk(w) && Accounted(w) && Ordered(Standing(w)) && CanRevert(w, r)
    ensures RepliesOk(Reverts(w, r))
  {
    var w', flags := Reverts(w, r), Doomed(w.pending, r);
    var doomed := Filter(w.pending, flags, true);
    KeptWait(w, flags);
    DoomedWaited(w, flags);
    AnsweredRefused(w, w', WaiterIds(doomed));
  }

  /** Those who stay on are not among those refused. */
  lemma KeptWait(w: W, flags: seq<bool>)
    requires PendingWait(w) && Ordered(Standing(w)) && |flags| == |w.pending|
    ensures forall t :: t in Filter(w.pending, flags, false) && t.waiter ==>
              t.id !in Answer(w.replies, WaiterIds(Filter(w.pending, flags, true)), Refused)
  {
    var doomed := Filter(w.pending, flags, true);
    forall t | t in Filter(w.pending, flags, false) && t.waiter
      ensures t.id !in Answer(w.replies, WaiterIds(doomed), Refused)
    {
      FilterSubset(w.pending, flags, t);
      if t.id in WaiterIds(doomed) {
        var a :| a in doomed && a.waiter && a.id == t.id;
        FilterApart(w, flags, a, t);
      }
    }
  }

  lemma DoomedWaited(w: W, flags: seq<bool>)
    requires PendingWait(w) && Accounted(w) && |flags| == |w.pending|
    ensures forall i :: i in WaiterIds(Filter(w.pending, flags, true)) ==>
              i < |w.history| && w.history[i].waiter && i !in w.replies
  {
    var doomed := Filter(w.pending, flags, true);
    forall i | i in WaiterIds(doomed) ensures i < |w.history| && w.history[i].waiter && i !in w.replies {
      var a :| a in doomed && a.waiter && a.id == i;
      FilterSubset(w.pending, flags, a);
      StandingKnown(w, a);
    }
  }

  lemma AnsweredRefused(w: W, w': W, ids: set<nat>)
    requires LandedAcked(w) && AckedLanded(w) && OptimistsAcked(w)
    requires w'.history == w.history && w'.landed == w.landed && w'.replies == Answer(w.replies, ids, Refused)
    requires forall i :: i in ids ==> i < |w.history| && w.history[i].waiter && i !in w.replies
    ensures LandedAcked(w') && AckedLanded(w') && OptimistsAcked(w')
  {
  }

  lemma RevertsInv(w: W, r: set<Obj>)
    requires Inv(w) && CanRevert(w, r)
    ensures Inv(Reverts(w, r))
  {
    RevertsRefines(w, r);
    RevertsDirty(w, r);
    RevertsOrdered(w, r);
    RevertsAccounted(w, r);
    RevertsReplies(w, r);
  }

  /** The boat has landed and the worker hears of it. */
  lemma ClearedInv(w: W)
    requires Inv(w) && w.inflight.Some? && w.inflight.value.phase.Committed?
    ensures Inv(w.(inflight := None))
  {
    assert Standing(w.(inflight := None)) == Standing(w);
  }

  /** The node dies: everything but the store is lost. */
  ghost function Crashed(w: W): W {
    w.(live := map[], dirty := map[], dirtyBytes := 0, pending := [], inflight := None,
       reverted := w.reverted + Ids(Afloat(w)) + Ids(w.pending))
  }

  lemma CrashedAccounted(w: W)
    requires Accounted(w) && Ordered(Standing(w))
    ensures Accounted(Crashed(w)) && Ordered(Standing(Crashed(w)))
  {
    var w' := Crashed(w);
    assert Standing(w') == w.landed;
    forall t | t in w.landed ensures t.id < |w.history| && w.history[t.id] == t && t.id !in w'.reverted {
      StandingKnown(w, t);
      if t.id in Ids(Afloat(w)) {
        var a :| a in Afloat(w) && a.id == t.id;
        AfloatNotPending(w, a, t);
      }
      if t.id in Ids(w.pending) {
        var a :| a in w.pending && a.id == t.id;
        PendingNotLanded(w, a, t);
      }
    }
    forall i: nat | i < |w.history| ensures w.history[i] in w.landed || i in w'.reverted {
      assert w.history[i].id == i;
      assert w.history[i] in Standing(w) || i in w.reverted;
    }
    forall i | i in w'.reverted ensures i < |w.history| {
      if i in Ids(w.pending) {
        var a :| a in w.pending && a.id == i;
        StandingKnown(w, a);
      }
      if i in Ids(Afloat(w)) {
        var a :| a in Afloat(w) && a.id == i;
        StandingKnown(w, a);
      }
    }
    OrderedAppend(w.landed + Afloat(w), w.pending);
    OrderedAppend(w.landed, Afloat(w));
  }

  lemma PendingNotLanded(w: W, a: Applied, b: Applied)
    requires Ordered(Standing(w)) && a in w.pending && b in w.landed
    ensures a.id != b.id
  {
    var all := Standing(w);
    var i :| 0 <= i < |w.pending| && w.pending[i] == a;
    var j :| 0 <= j < |w.landed| && w.landed[j] == b;
    assert all[|w.landed| + |Afloat(w)| + i] == a && all[j] == b;
  }

  lemma CrashedInv(w: W)
    requires Inv(w)
    ensures Inv(Crashed(w))
  {
    CrashedAccounted(w);
  }
}
