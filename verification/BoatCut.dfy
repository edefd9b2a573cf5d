/** Cutting a boat out of the pending transactions (src/worker.rs, `maybe_launch`): whole components only, as many
    as the byte cap allows, and at least one. */
module BoatCut {
  import opened Sums
  import opened TxnComponents
  import opened Boats

  function Participants(pending: seq<Applied>): (ps: seq<seq<Obj>>)
    ensures |ps| == |pending|
  {
    seq(|pending|, (i: nat) requires i < |pending| => pending[i].participants)
  }

  ghost predicate AllWf(pending: seq<Applied>) {
    forall i :: 0 <= i < |pending| ==> Wf(pending[i])
  }

  ghost predicate Within(pending: seq<Applied>, comp: seq<nat>) {
    forall p :: 0 <= p < |comp| ==> comp[p] < |pending|
  }

  ghost function ObjectsOf(pending: seq<Applied>, comp: seq<nat>): set<Obj>
    requires Within(pending, comp)
  {
    set p, o | 0 <= p < |comp| && o in pending[comp[p]].writes.Keys :: o
  }

  /** Everything changed by transactions connected to the `i`-th. */
  ghost function ConnectedObjects(pending: seq<Applied>, i: nat): set<Obj> {
    set j, o | 0 <= j < |pending| && o in pending[j].writes.Keys && Connected(Participants(pending), i, j) :: o
  }

  /** The transactions aboard are one component, entire. */
  ghost predicate OneComponent(pending: seq<Applied>, flags: seq<bool>)
    requires |flags| == |pending|
  {
    forall i, j :: 0 <= i < |flags| && 0 <= j < |flags| && flags[i] ==>
      (flags[j] <==> Connected(Participants(pending), i, j))
  }

  ghost function Load(pending: seq<Applied>, flags: seq<bool>, dirty: map<Obj, nat>): nat
    requires |flags| == |pending|
  {
    SumOver(Touched(Filter(pending, flags, true)), dirty)
  }

  // ----- components as cargo

  /** What the cut has decided about the first components. */
  ghost predicate Marked(comps: seq<seq<nat>>, took: seq<bool>, flags: seq<bool>) {
    && |took| <= |comps|
    && (forall k, p :: 0 <= k < |comps| && 0 <= p < |comps[k]| ==> comps[k][p] < |flags|)
    && (forall k, p :: 0 <= k < |comps| && 0 <= p < |comps[k]| ==> flags[comps[k][p]] == (k < |took| && took[k]))
  }

  ghost predicate Cargo(pending: seq<Applied>, comps: seq<seq<nat>>, took: seq<bool>, objs: set<Obj>) {
    && |took| <= |comps| && (forall k :: 0 <= k < |comps| ==> Within(pending, comps[k]))
    && (forall k :: 0 <= k < |took| && took[k] ==> ObjectsOf(pending, comps[k]) <= objs)
    && (forall o :: o in objs ==> Carried(pending, comps, took, o))
  }

  ghost predicate Carried(pending: seq<Applied>, comps: seq<seq<nat>>, took: seq<bool>, o: Obj)
    requires |took| <= |comps| && forall k :: 0 <= k < |comps| ==> Within(pending, comps[k])
  {
    exists k :: 0 <= k < |took| && took[k] && o in ObjectsOf(pending, comps[k])
  }

  lemma ComponentMember(pending: seq<Applied>, comps: seq<seq<nat>>, k: nat, p: nat, j: nat)
    requires AreComponents(Participants(pending), comps) && k < |comps| && p < |comps[k]| && j < |pending|
    ensures Connected(Participants(pending), comps[k][p], j) <==> j in comps[k]
  {
    var ps := Participants(pending);
    assert Placed(comps, j);
    var l :| 0 <= l < |comps| && j in comps[l];
    var q :| 0 <= q < |comps[l]| && comps[l][q] == j;
    assert k == l <==> Connected(ps, comps[k][p], comps[l][q]);
    if j in comps[k] {
      var r :| 0 <= r < |comps[k]| && comps[k][r] == j;
      assert Connected(ps, comps[k][p], comps[k][r]);
    }
  }

  lemma ComponentObjects(pending: seq<Applied>, comps: seq<seq<nat>>, k: nat, p: nat)
    requires AreComponents(Participants(pending), comps) && k < |comps| && p < |comps[k]| && Within(pending, comps[k])
    ensures ConnectedObjects(pending, comps[k][p]) == ObjectsOf(pending, comps[k])
  {
    var i := comps[k][p];
    forall o | o in ConnectedObjects(pending, i) ensures o in ObjectsOf(pending, comps[k]) {
      var j :| 0 <= j < |pending| && o in pending[j].writes.Keys && Connected(Participants(pending), i, j);
      ComponentMember(pending, comps, k, p, j);
      var q :| 0 <= q < |comps[k]| && comps[k][q] == j;
    }
    forall o | o in ObjectsOf(pending, comps[k]) ensures o in ConnectedObjects(pending, i) {
      var q :| 0 <= q < |comps[k]| && o in pending[comps[k][q]].writes.Keys;
      ComponentMember(pending, comps, k, p, comps[k][q]);
    }
  }

  lemma SharersConnected(pending: seq<Applied>, i: nat, j: nat)
    requires AllWf(pending) && i < |pending| && j < |pending| && Share(pending[i], pending[j])
    ensures Connected(Participants(pending), i, j)
  {
    var ps := Participants(pending);
    var o :| o in pending[i].writes && o in pending[j].writes;
    assert o in ps[i] && o in ps[j];
    ConnectedLink(ps, i, j);
  }

  /** Different components share no object. */
  lemma ComponentsDisjoint(pending: seq<Applied>, comps: seq<seq<nat>>, k: nat, l: nat)
    requires AllWf(pending) && AreComponents(Participants(pending), comps) && k < |comps| && l < |comps| && k != l
    requires Within(pending, comps[k]) && Within(pending, comps[l])
    ensures ObjectsOf(pending, comps[k]) !! ObjectsOf(pending, comps[l])
  {
    forall o | o in ObjectsOf(pending, comps[k]) && o in ObjectsOf(pending, comps[l]) ensures false {
      var p :| 0 <= p < |comps[k]| && o in pending[comps[k][p]].writes.Keys;
      var q :| 0 <= q < |comps[l]| && o in pending[comps[l][q]].writes.Keys;
      assert Share(pending[comps[k][p]], pending[comps[l][q]]);
      SharersConnected(pending, comps[k][p], comps[l][q]);
    }
  }

  lemma CargoDisjoint(pending: seq<Applied>, comps: seq<seq<nat>>, took: seq<bool>, objs: set<Obj>)
    requires AllWf(pending) && AreComponents(Participants(pending), comps)
    requires Cargo(pending, comps, took, objs) && |took| < |comps|
    ensures objs !! ObjectsOf(pending, comps[|took|])
  {
    forall o | o in objs && o in ObjectsOf(pending, comps[|took|]) ensures false {
      var k :| 0 <= k < |took| && took[k] && o in ObjectsOf(pending, comps[k]);
      ComponentsDisjoint(pending, comps, k, |took|);
    }
  }

  lemma CargoGrows(pending: seq<Applied>, comps: seq<seq<nat>>, took: seq<bool>, objs: set<Obj>, take: bool)
    requires Cargo(pending, comps, took, objs) && |took| < |comps|
    ensures Cargo(pending, comps, took + [take], if take then objs + ObjectsOf(pending, comps[|took|]) else objs)
  {
    var took', more := took + [take], ObjectsOf(pending, comps[|took|]);
    forall o | o in objs ensures Carried(pending, comps, took', o) {
      var k :| 0 <= k < |took| && took[k] && o in ObjectsOf(pending, comps[k]);
      assert took'[k];
    }
    if take {
      assert took'[|took|];
      forall o | o in more ensures Carried(pending, comps, took', o) {}
    }
  }

  /** When every component has been decided, the cargo is what the transactions aboard touch. */
  lemma CargoIsTouched(pending: seq<Applied>, comps: seq<seq<nat>>, took: seq<bool>, flags: seq<bool>, objs: set<Obj>)
    requires AreComponents(Participants(pending), comps) && |took| == |comps| && |flags| == |pending|
    requires Marked(comps, took, flags) && Cargo(pending, comps, took, objs)
    ensures objs == Touched(Filter(pending, flags, true))
  {
    var aboard := Filter(pending, flags, true);
    forall o ensures o in objs <==> o in Touched(aboard) {
      TouchedMember(aboard, o);
      if o in objs {
        var k :| 0 <= k < |took| && took[k] && o in ObjectsOf(pending, comps[k]);
        var p :| 0 <= p < |comps[k]| && o in pending[comps[k][p]].writes.Keys;
        FilterMember(pending, flags, true, pending[comps[k][p]]);
        var a :| 0 <= a < |aboard| && aboard[a] == pending[comps[k][p]];
        assert Touches(aboard[a], o);
      }
      if o in Touched(aboard) {
        var a :| 0 <= a < |aboard| && Touches(aboard[a], o);
        FilterMember(pending, flags, true, aboard[a]);
        var i :| 0 <= i < |pending| && pending[i] == aboard[a] && flags[i] == true;
        assert Placed(comps, i);
        var k :| 0 <= k < |comps| && i in comps[k];
        var p :| 0 <= p < |comps[k]| && comps[k][p] == i;
        assert o in ObjectsOf(pending, comps[k]);
      }
    }
  }

  lemma MarkedNeverSplits(pending: seq<Applied>, comps: seq<seq<nat>>, took: seq<bool>, flags: seq<bool>)
    requires AllWf(pending) && AreComponents(Participants(pending), comps) && |took| == |comps| && |flags| == |pending|
    requires Marked(comps, took, flags)
    ensures NeverSplits(pending, flags)
  {
    forall i, j | 0 <= i < |pending| && 0 <= j < |pending| && flags[i] && !flags[j]
      ensures !Share(pending[i], pending[j])
    {
      if Share(pending[i], pending[j]) {
        SharersConnected(pending, i, j);
        assert Placed(comps, i);
        var k :| 0 <= k < |comps| && i in comps[k];
        var p :| 0 <= p < |comps[k]| && comps[k][p] == i;
        ComponentMember(pending, comps, k, p, j);
      }
    }
  }

  lemma FirstAlone(pending: seq<Applied>, comps: seq<seq<nat>>, took: seq<bool>, flags: seq<bool>)
    requires AreComponents(Participants(pending), comps) && |took| == |comps| && |flags| == |pending|
    requires Marked(comps, took, flags) && forall k :: 0 < k < |took| ==> !took[k]
    ensures OneComponent(pending, flags)
  {
    forall i, j | 0 <= i < |flags| && 0 <= j < |flags| && flags[i]
      ensures flags[j] <==> Connected(Participants(pending), i, j)
    {
      assert Placed(comps, i) && Placed(comps, j);
      var k :| 0 <= k < |comps| && i in comps[k];
      var p :| 0 <= p < |comps[k]| && comps[k][p] == i;
      var l :| 0 <= l < |comps| && j in comps[l];
      var q :| 0 <= q < |comps[l]| && comps[l][q] == j;
      assert flags[comps[k][p]] == took[k] && flags[comps[l][q]] == took[l];
      assert k == l <==> Connected(Participants(pending), comps[k][p], comps[l][q]);
    }
  }

  // ----- the cut

  method Gather(pending: seq<Applied>, comp: seq<nat>) returns (objs: set<Obj>)
    requires Within(pending, comp) && AllWf(pending)
    ensures objs == ObjectsOf(pending, comp)
  {
    objs := {};
    for p := 0 to |comp|
      invariant forall o :: o in objs <==> exists q :: 0 <= q < p && o in pending[comp[q]].writes.Keys
    {
      objs := objs + set o | o in pending[comp[p]].participants;
    }
  }

  method Weigh(objs: set<Obj>, dirty: map<Obj, nat>) returns (bytes: nat)
    ensures bytes == SumOver(objs, dirty)
  {
    var todo := objs;
    bytes := 0;
    while todo != {}
      invariant todo <= objs && bytes + SumOver(todo, dirty) == SumOver(objs, dirty)
      decreases |todo|
    {
      var o :| o in todo;
      SumRemove(todo, dirty, o);
      bytes := bytes + if o in dirty then dirty[o] else 0;
      todo := todo - {o};
    }
  }

  method Mark(comp: seq<nat>, flags: seq<bool>) returns (flags': seq<bool>)
    requires forall p :: 0 <= p < |comp| ==> comp[p] < |flags|
    ensures |flags'| == |flags|
    ensures forall p :: 0 <= p < |comp| ==> flags'[comp[p]]
    ensures forall i :: 0 <= i < |flags| && i !in comp ==> flags'[i] == flags[i]
  {
    flags' := flags;
    for p := 0 to |comp|
      invariant |flags'| == |flags|
      invariant forall q :: 0 <= q < p ==> flags'[comp[q]]
      invariant forall i :: 0 <= i < |flags| && i !in comp ==> flags'[i] == flags[i]
    {
      flags' := flags'[comp[p] := true];
    }
  }

  ghost predicate Refused(pending: seq<Applied>, comps: seq<seq<nat>>, took: seq<bool>, dirty: map<Obj, nat>,
                          bytes: nat, cap: nat) {
    && |took| <= |comps| && (forall k :: 0 <= k < |comps| ==> Within(pending, comps[k]))
    && forall k :: 0 <= k < |took| && !took[k] ==> bytes + SumOver(ObjectsOf(pending, comps[k]), dirty) > cap
  }

  lemma RefusedMeans(pending: seq<Applied>, comps: seq<seq<nat>>, took: seq<bool>, flags: seq<bool>,
                     dirty: map<Obj, nat>, bytes: nat, cap: nat, i: nat)
    requires AreComponents(Participants(pending), comps) && |took| == |comps| && |flags| == |pending|
    requires Marked(comps, took, flags) && Refused(pending, comps, took, dirty, bytes, cap)
    requires i < |pending| && !flags[i]
    ensures bytes + SumOver(ConnectedObjects(pending, i), dirty) > cap
  {
    assert Placed(comps, i);
    var k :| 0 <= k < |comps| && i in comps[k];
    var p :| 0 <= p < |comps[k]| && comps[k][p] == i;
    ComponentObjects(pending, comps, k, p);
    assert flags[comps[k][p]] == took[k];
  }

  lemma FirstMember(pending: seq<Applied>, comps: seq<seq<nat>>, took: seq<bool>, flags: seq<bool>)
    requires AreComponents(Participants(pending), comps) && |took| == |comps| && |flags| == |pending|
    requires Marked(comps, took, flags) && pending != [] && (took != [] ==> took[0])
    ensures flags[0]
  {
    assert Placed(comps, 0);
    var k :| 0 <= k < |comps| && 0 in comps[k];
    var p :| 0 <= p < |comps[k]| && comps[k][p] == 0;
    assert comps[0][0] <= comps[k][0] <= comps[k][p];
    assert flags[comps[k][p]] == took[k];
  }

  lemma MarkedGrows(ps: seq<seq<Obj>>, comps: seq<seq<nat>>, took: seq<bool>, flags: seq<bool>, flags': seq<bool>)
    requires AreComponents(ps, comps) && Marked(comps, took, flags) && |took| < |comps| && |flags'| == |flags|
    requires forall p :: 0 <= p < |comps[|took|]| ==> flags'[comps[|took|][p]]
    requires forall i :: 0 <= i < |flags| && i !in comps[|took|] ==> flags'[i] == flags[i]
    ensures Marked(comps, took + [true], flags')
  {
    var took', m := took + [true], |took|;
    forall k, p | 0 <= k < |comps| && 0 <= p < |comps[k]| ensures flags'[comps[k][p]] == (k < |took'| && took'[k]) {
      if comps[k][p] in comps[m] {
        var q :| 0 <= q < |comps[m]| && comps[m][q] == comps[k][p];
        assert comps[k][p] < |ps|;
        assert Connected(ps, comps[m][q], comps[m][q]);
        assert k == m <==> Connected(ps, comps[k][p], comps[m][q]);
      }
    }
  }

  /** The first component is aboard, and it is the only one if the load exceeds the cap. */
  ghost predicate Laden(took: seq<bool>, bytes: nat, cap: nat) {
    (took != [] ==> took[0]) && (bytes <= cap || forall k :: 0 < k < |took| ==> !took[k])
  }

  /** The state of the cut after the first `|took|` components. */
  ghost predicate Cutting(pending: seq<Applied>, dirty: map<Obj, nat>, cap: nat, comps: seq<seq<nat>>,
                          took: seq<bool>, flags: seq<bool>, objs: set<Obj>, bytes: nat) {
    && AllWf(pending) && AreComponents(Participants(pending), comps) && |flags| == |pending|
    && Marked(comps, took, flags) && Cargo(pending, comps, took, objs)
    && bytes == SumOver(objs, dirty) && Laden(took, bytes, cap)
    && Refused(pending, comps, took, dirty, bytes, cap)
  }

  lemma CutSkips(pending: seq<Applied>, dirty: map<Obj, nat>, cap: nat, comps: seq<seq<nat>>,
                 took: seq<bool>, flags: seq<bool>, objs: set<Obj>, bytes: nat)
    requires Cutting(pending, dirty, cap, comps, took, flags, objs, bytes) && 0 < |took| < |comps|
    requires bytes + SumOver(ObjectsOf(pending, comps[|took|]), dirty) > cap
    ensures Cutting(pending, dirty, cap, comps, took + [false], flags, objs, bytes)
  {
    CargoGrows(pending, comps, took, objs, false);
    MarkedSkips(comps, took, flags);
    RefusedGrows(pending, comps, took, dirty, bytes, cap, false, bytes);
    LadenSkips(took, bytes, cap);
  }

  lemma LadenSkips(took: seq<bool>, bytes: nat, cap: nat)
    requires Laden(took, bytes, cap) && took != []
    ensures Laden(took + [false], bytes, cap)
  {
  }

  lemma MarkedSkips(comps: seq<seq<nat>>, took: seq<bool>, flags: seq<bool>)
    requires Marked(comps, took, flags) && |took| < |comps|
    ensures Marked(comps, took + [false], flags)
  {
  }

  lemma RefusedGrows(pending: seq<Applied>, comps: seq<seq<nat>>, took: seq<bool>, dirty: map<Obj, nat>, bytes: nat,
                     cap: nat, take: bool, more: nat)
    requires Refused(pending, comps, took, dirty, bytes, cap) && |took| < |comps| && bytes <= more
    requires take || more + SumOver(ObjectsOf(pending, comps[|took|]), dirty) > cap
    ensures Refused(pending, comps, took + [take], dirty, more, cap)
  {
  }

  lemma CutTakes(pending: seq<Applied>, dirty: map<Obj, nat>, cap: nat, comps: seq<seq<nat>>,
                 took: seq<bool>, flags: seq<bool>, objs: set<Obj>, bytes: nat,
                 flags': seq<bool>, objs': set<Obj>, bytes': nat)
    requires Cutting(pending, dirty, cap, comps, took, flags, objs, bytes) && |took| < |comps| && |flags'| == |flags|
    requires objs' == objs + ObjectsOf(pending, comps[|took|])
    requires bytes' == bytes + SumOver(ObjectsOf(pending, comps[|took|]), dirty) && (took == [] || bytes' <= cap)
    requires forall p :: 0 <= p < |comps[|took|]| ==> flags'[comps[|took|][p]]
    requires forall i :: 0 <= i < |flags| && i !in comps[|took|] ==> flags'[i] == flags[i]
    ensures Cutting(pending, dirty, cap, comps, took + [true], flags', objs', bytes')
  {
    CargoGrows(pending, comps, took, objs, true);
    CargoDisjoint(pending, comps, took, objs);
    SumUnion(objs, ObjectsOf(pending, comps[|took|]), dirty);
    MarkedGrows(Participants(pending), comps, took, flags, flags');
    RefusedGrows(pending, comps, took, dirty, bytes, cap, true, bytes');
  }

  ghost predicate GoodCut(pending: seq<Applied>, dirty: map<Obj, nat>, cap: nat, flags: seq<bool>) {
    && |flags| == |pending| && NeverSplits(pending, flags)
    && (pending != [] ==> flags[0])
    && (Load(pending, flags, dirty) <= cap || OneComponent(pending, flags))
    && forall i: nat :: i < |pending| && !flags[i] ==>
         Load(pending, flags, dirty) + SumOver(ConnectedObjects(pending, i), dirty) > cap
  }

  lemma CutEnds(pending: seq<Applied>, dirty: map<Obj, nat>, cap: nat, comps: seq<seq<nat>>,
                took: seq<bool>, flags: seq<bool>, objs: set<Obj>, bytes: nat)
    requires Cutting(pending, dirty, cap, comps, took, flags, objs, bytes) && |took| == |comps|
    ensures GoodCut(pending, dirty, cap, flags)
  {
    CargoIsTouched(pending, comps, took, flags, objs);
    MarkedNeverSplits(pending, comps, took, flags);
    if pending != [] { FirstMember(pending, comps, took, flags); }
    if bytes > cap { FirstAlone(pending, comps, took, flags); }
    forall i: nat | i < |pending| && !flags[i] ensures bytes + SumOver(ConnectedObjects(pending, i), dirty) > cap {
      RefusedMeans(pending, comps, took, flags, dirty, bytes, cap, i);
    }
  }

  lemma CutStarts(pending: seq<Applied>, dirty: map<Obj, nat>, cap: nat, comps: seq<seq<nat>>, flags: seq<bool>)
    requires AllWf(pending) && AreComponents(Participants(pending), comps) && |flags| == |pending|
    requires forall i :: 0 <= i < |flags| ==> !flags[i]
    ensures Cutting(pending, dirty, cap, comps, [], flags, {}, 0)
  {
  }

  /** The objects of the next component, and their bytes. */
  method Bundle(pending: seq<Applied>, dirty: map<Obj, nat>, comp: seq<nat>) returns (objs: set<Obj>, bytes: nat)
    requires Within(pending, comp) && AllWf(pending)
    ensures objs == ObjectsOf(pending, comp) && bytes == SumOver(objs, dirty)
  {
    objs := Gather(pending, comp);
    bytes := Weigh(objs, dirty);
  }

  lemma NextWithin(pending: seq<Applied>, dirty: map<Obj, nat>, cap: nat, comps: seq<seq<nat>>,
                   took: seq<bool>, flags: seq<bool>, objs: set<Obj>, bytes: nat)
    requires Cutting(pending, dirty, cap, comps, took, flags, objs, bytes) && |took| < |comps|
    ensures Within(pending, comps[|took|]) && AllWf(pending)
    ensures forall p :: 0 <= p < |comps[|took|]| ==> comps[|took|][p] < |flags|
  {
  }

  /** One turn of the loop: the next component joins the boat, or is left for another one. */
  method Decide(pending: seq<Applied>, dirty: map<Obj, nat>, cap: nat, comps: seq<seq<nat>>, k: nat,
                aboard: seq<bool>, objs: set<Obj>, bytes: nat, ghost took: seq<bool>)
    returns (aboard': seq<bool>, objs': set<Obj>, bytes': nat, ghost took': seq<bool>)
    requires Cutting(pending, dirty, cap, comps, took, aboard, objs, bytes) && k == |took| < |comps|
    ensures |took'| == k + 1 && Cutting(pending, dirty, cap, comps, took', aboard', objs', bytes')
  {
    NextWithin(pending, dirty, cap, comps, took, aboard, objs, bytes);
    var compObjects, compBytes := Bundle(pending, dirty, comps[k]);
    if k > 0 && bytes + compBytes > cap {
      CutSkips(pending, dirty, cap, comps, took, aboard, objs, bytes);
      return aboard, objs, bytes, took + [false];
    }
    aboard' := Mark(comps[k], aboard);
    objs', bytes', took' := objs + compObjects, bytes + compBytes, took + [true];
    CutTakes(pending, dirty, cap, comps, took, aboard, objs, bytes, aboard', objs', bytes');
  }

  /** Cut a boat: components are taken in order as long as the cap allows, the first one whatever it weighs.  No
      transaction is split, the oldest one sails, the load is within the cap unless it is a single component, and
      nothing was left behind that would still have fitted. */
  method CutBoat(pending: seq<Applied>, dirty: map<Obj, nat>, cap: nat) returns (flags: seq<bool>)
    requires AllWf(pending)
    ensures |flags| == |pending| && NeverSplits(pending, flags)
    ensures pending != [] ==> flags[0]
    ensures Load(pending, flags, dirty) <= cap || OneComponent(pending, flags)
    ensures forall i: nat :: i < |pending| && !flags[i] ==>
              Load(pending, flags, dirty) + SumOver(ConnectedObjects(pending, i), dirty) > cap
  {
    var comps := Components(Participants(pending));
    var boatObjects: set<Obj>, boatBytes: nat := {}, 0;
    ghost var took: seq<bool> := [];
    flags := seq(|pending|, i => false);
    CutStarts(pending, dirty, cap, comps, flags);
    for k := 0 to |comps|
      invariant |took| == k && Cutting(pending, dirty, cap, comps, took, flags, boatObjects, boatBytes)
    {
      flags, boatObjects, boatBytes, took := Decide(pending, dirty, cap, comps, k, flags, boatObjects, boatBytes, took);
    }
    CutEnds(pending, dirty, cap, comps, took, flags, boatObjects, boatBytes);
  }
}
