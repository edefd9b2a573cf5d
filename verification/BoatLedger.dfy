/** What the dirty ledger counts, and that no client waits in vain (src/worker.rs). */
module BoatLedger {
  import opened Bytes
  import opened Sums
  import opened TxnComponents
  import opened Boats
  import opened BoatSteps
  import opened BoatRun

  // ----- the dirty ledger

  /** The image left by the first of the transactions that changes the object. */
  function FirstImage(txns: seq<Applied>, o: Obj): Option<Image> {
    if txns == [] then None
    else if o in txns[0].writes then Some(txns[0].writes[o])
    else FirstImage(txns[1..], o)
  }

  lemma {:induction false} FirstImageAppend(txns: seq<Applied>, t: Applied, o: Obj)
    ensures FirstImage(txns + [t], o) ==
            if FirstImage(txns, o).Some? then FirstImage(txns, o)
            else if o in t.writes then Some(t.writes[o]) else None
  {
    if txns == [] {
      assert txns + [t] == [t] && [t][1..] == [];
    } else {
      assert (txns + [t])[1..] == txns[1..] + [t];
      FirstImageAppend(txns[1..], t, o);
    }
  }

  /** One side of a cut that has all the transactions which change the object. */
  lemma {:induction false} FirstImageFilter(txns: seq<Applied>, flags: seq<bool>, v: bool, o: Obj)
    requires |flags| == |txns|
    requires forall i :: 0 <= i < |txns| && Touches(txns[i], o) ==> flags[i] == v
    ensures FirstImage(Filter(txns, flags, v), o) == FirstImage(txns, o)
    decreases |txns|
  {
    if txns != [] {
      forall i | 0 <= i < |txns[1..]| && Touches(txns[1..][i], o) ensures flags[1..][i] == v {
        assert Touches(txns[i + 1], o);
      }
      assert Touches(txns[0], o) ==> flags[0] == v;
      FirstImageFilter(txns[1..], flags[1..], v, o);
      var rest := Filter(txns[1..], flags[1..], v);
      assert ([txns[0]] + rest)[1..] == rest && [] + rest == rest;
    }
  }

  /** The ledger has the objects that pending transactions changed, each at the length of its file after the first of
      them. */
  ghost predicate CountsFirst(dirty: map<Obj, nat>, pending: seq<Applied>) {
    forall o :: Counted(dirty, pending, o)
  }

  ghost predicate Counted(dirty: map<Obj, nat>, pending: seq<Applied>, o: Obj) {
    match FirstImage(pending, o)
    case None => o !in dirty
    case Some(image) => o in dirty && dirty[o] == |image|
  }

  lemma RunCounts(w: W, t: Applied)
    requires CountsFirst(w.dirty, w.pending)
    ensures CountsFirst(Ran(w, t).dirty, Ran(w, t).pending)
  {
    forall o ensures Counted(Ran(w, t).dirty, Ran(w, t).pending, o) {
      assert Counted(w.dirty, w.pending, o);
      FirstImageAppend(w.pending, t, o);
    }
  }

  lemma CutCounts(dirty: map<Obj, nat>, pending: seq<Applied>, flags: seq<bool>, gone: set<Obj>)
    requires CountsFirst(dirty, pending) && |flags| == |pending|
    requires forall i, o :: 0 <= i < |pending| && Touches(pending[i], o) ==> (flags[i] <==> o in gone)
    ensures CountsFirst(dirty - gone, Filter(pending, flags, false))
  {
    forall o ensures Counted(dirty - gone, Filter(pending, flags, false), o) {
      assert Counted(dirty, pending, o);
      assert forall i :: 0 <= i < |pending| && Touches(pending[i], o) ==> (flags[i] <==> o in gone);
      if o in gone {
        NoneLeft(pending, flags, o);
      } else {
        FirstImageFilter(pending, flags, false, o);
      }
    }
  }

  lemma {:induction false} NoneLeft(txns: seq<Applied>, flags: seq<bool>, o: Obj)
    requires |flags| == |txns|
    requires forall i :: 0 <= i < |txns| && Touches(txns[i], o) ==> flags[i]
    ensures FirstImage(Filter(txns, flags, false), o) == None
    decreases |txns|
  {
    if txns != [] {
      forall i | 0 <= i < |txns[1..]| && Touches(txns[1..][i], o) ensures flags[1..][i] {
        assert Touches(txns[i + 1], o);
      }
      assert Touches(txns[0], o) ==> flags[0];
      NoneLeft(txns[1..], flags[1..], o);
      var rest := Filter(txns[1..], flags[1..], false);
      assert ([txns[0]] + rest)[1..] == rest && [] + rest == rest;
    }
  }

  lemma LaunchCounts(w: W, flags: seq<bool>)
    requires CountsFirst(w.dirty, w.pending) && |flags| == |w.pending| && NeverSplits(w.pending, flags)
    ensures CountsFirst(w.dirty - Touched(Filter(w.pending, flags, true)), Filter(w.pending, flags, false))
  {
    var gone := Touched(Filter(w.pending, flags, true));
    forall i, o | 0 <= i < |w.pending| && Touches(w.pending[i], o) ensures flags[i] <==> o in gone {
      SideOf(w.pending, flags, o);
    }
    CutCounts(w.dirty, w.pending, flags, gone);
  }

  lemma RevertCounts(w: W, r: set<Obj>)
    requires CountsFirst(w.dirty, w.pending) && Closed(w.pending, r)
    ensures CountsFirst(w.dirty - r, Filter(w.pending, Doomed(w.pending, r), false))
  {
    var flags := Doomed(w.pending, r);
    forall i, o | 0 <= i < |w.pending| && Touches(w.pending[i], o) ensures flags[i] <==> o in r {
      assert w.pending[i] in w.pending;
    }
    CutCounts(w.dirty, w.pending, flags, r);
  }

  lemma StepCounts(w: W, s: Step)
    requires Can(w, s) && CountsFirst(w.dirty, w.pending)
    ensures CountsFirst(Do(w, s).dirty, Do(w, s).pending)
  {
    match s
    case Run(t) => RunCounts(w, t);
    case Launch(flags) => LaunchCounts(w, flags);
    case FailLaunch(flags) => LaunchCounts(w, flags);
    case Revert(r) => RevertCounts(w, r);
    case _ =>
  }

  /** In every state reached from a fresh start the ledger has exactly the objects with pending changes, each at the
      length of its file when it was first changed since its last boat, and the backlog is their sum. */
  lemma {:induction false} LedgerCounts(ws: seq<W>, steps: seq<Step>, k: nat)
    requires IsRun(ws, steps) && Fresh(ws[0]) && k < |ws|
    ensures CountsFirst(ws[k].dirty, ws[k].pending) && ws[k].dirtyBytes == SumOver(ws[k].dirty.Keys, ws[k].dirty)
  {
    FreshInv(ws[0]);
    RunKeepsInv(ws, steps, 0, k);
    if k > 0 {
      LedgerCounts(ws, steps, k - 1);
      StepCounts(ws[k - 1], steps[k - 1]);
    }
  }

  // ----- answers

  /** Nobody waits in vain: a step that reverts a transaction has refused its waiter, then or before, unless the step is
      a crash; and a step that lands one acknowledges its waiter. */
  lemma RevertedAreRefused(w: W, s: Step, i: nat)
    requires Inv(w) && Can(w, s) && !s.Crash? && i < |w.history| && w.history[i].waiter
    requires i in Do(w, s).reverted && i !in w.reverted
    ensures i in Do(w, s).replies && Do(w, s).replies[i].Refused?
  {
    StepKeepsInv(w, s);
    var w' := Do(w, s);
    match s
    case FailLaunch(flags) => AmongRefused(w, Filter(w.pending, flags, true), flags, i);
    case Revert(r) =>
      if i in Ids(Afloat(w)) {
        SunkRefused(w, s, i);
      } else {
        AmongRefused(w, Filter(w.pending, Doomed(w.pending, r), true), Doomed(w.pending, r), i);
      }
    case _ =>
  }

  lemma AmongRefused(w: W, dead: seq<Applied>, flags: seq<bool>, i: nat)
    requires Inv(w) && |flags| == |w.pending| && dead == Filter(w.pending, flags, true) && i in Ids(dead)
    requires i < |w.history| && w.history[i].waiter
    ensures i in WaiterIds(dead)
  {
    var t :| t in dead && t.id == i;
    FilterMember(w.pending, flags, true, t);
    StandingKnown(w, t);
  }

  lemma SunkRefused(w: W, s: Step, i: nat)
    requires Inv(w) && Can(w, s) && s.Revert? && i in Ids(Afloat(w)) && i < |w.history| && w.history[i].waiter
    ensures i in Do(w, s).replies && Do(w, s).replies[i].Refused?
  {
    var t :| t in Afloat(w) && t.id == i;
    StandingKnown(w, t);
    StepIsLater(w, s);
  }

  lemma LandedAreAcked(w: W, s: Step, t: Applied)
    requires Inv(w) && Can(w, s) && t in Do(w, s).landed
    ensures t.id in Do(w, s).replies && Do(w, s).replies[t.id].Acked?
  {
    StepKeepsInv(w, s);
  }

  ghost predicate Crashless(steps: seq<Step>) {
    forall k :: 0 <= k < |steps| ==> !steps[k].Crash?
  }

  /** As long as the node does not crash, a client that has heard nothing has a transaction that is pending or at sea.
      */
  lemma SilentMeansUnderway(ws: seq<W>, steps: seq<Step>, k: nat, i: nat)
    requires IsRun(ws, steps) && Fresh(ws[0]) && k < |ws| && Crashless(steps)
    requires i < |ws[k].history| && i !in ws[k].replies
    ensures ws[k].history[i] in ws[k].pending || ws[k].history[i] in Afloat(ws[k])
  {
    FreshInv(ws[0]);
    RunKeepsInv(ws, steps, 0, k);
    if i in ws[k].reverted {
      RevertedHeard(ws, steps, k, i);
    } else {
      assert ws[k].history[i] in Standing(ws[k]);
    }
  }

  lemma {:induction false} RevertedHeard(ws: seq<W>, steps: seq<Step>, k: nat, i: nat)
    requires IsRun(ws, steps) && Fresh(ws[0]) && k < |ws| && Crashless(steps) && i in ws[k].reverted
    ensures i in ws[k].replies
  {
    FreshInv(ws[0]);
    RunKeepsInv(ws, steps, 0, k);
    if k > 0 {
      RunKeepsInv(ws, steps, k - 1, k);
      if i in ws[k - 1].reverted {
        RevertedHeard(ws, steps, k - 1, i);
      } else if ws[k].history[i].waiter {
        RevertedAreRefused(ws[k - 1], steps[k - 1], i);
      }
    }
  }
}
