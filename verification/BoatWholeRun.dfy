/** The boat pipeline over whole runs, for transactions that are programs. */
module BoatWholeRun {
  import opened Bytes
  import opened Sums
  import opened TxnComponents
  import opened Boats
  import opened BoatSteps
  import opened BoatRun
  import opened BoatSerial
  import opened BoatFutures
  import opened BoatParting
  import opened BoatExact
  import opened BoatReplay

  // ----- what holds without any condition

  /** Transactions did what their programs make of what they found, and no change of an object rests on one that was
      reverted. */
  ghost predicate Solid(w: W) {
    Inv(w) && Recorded(w) && Safe(w, false)
  }

  lemma FreshSolid(w: W)
    requires Fresh(w)
    ensures Inv(w) && Recorded(w) && Safe(w, false) && Safe(w, true)
  {
    FreshInv(w);
  }

  lemma StepKeepsSolid(w: W, s: Step)
    requires Solid(w) && Can(w, s)
    ensures Solid(Do(w, s))
  {
    if s.Run? { CleanReadsBind(w, s.t, false); }
    StepKeepsInv(w, s);
    StepKeepsRecorded(w, s);
    StepKeepsSafe(w, s, false);
  }

  lemma {:induction false} LeadsKeepsSolid(w: W, steps: seq<Step>, w': W)
    requires Solid(w) && Leads(w, steps, w')
    ensures Solid(w') && Later(w, w')
    decreases |steps|
  {
    if steps != [] {
      StepKeepsSolid(w, steps[0]);
      StepIsLater(w, steps[0]);
      LeadsKeepsSolid(Do(w, steps[0]), steps[1..], w');
      LaterTrans(w, Do(w, steps[0]), w');
    }
  }

  lemma {:induction false} RunKeepsSolid(ws: seq<W>, steps: seq<Step>, k: nat)
    requires IsRun(ws, steps) && Fresh(ws[0]) && k < |ws|
    ensures Solid(ws[k])
  {
    if k == 0 {
      FreshSolid(ws[0]);
    } else {
      RunKeepsSolid(ws, steps, k - 1);
      StepKeepsSolid(ws[k - 1], steps[k - 1]);
    }
  }

  // ----- runs in which every transaction kept the guard

  /** Every transaction kept the guard when it ran. */
  ghost predicate Guarded(ws: seq<W>, steps: seq<Step>, k: nat)
    requires IsRun(ws, steps) && k < |ws|
  {
    forall j :: 0 <= j < k && steps[j].Run? ==> Binds(ws[j], steps[j].t, true)
  }

  lemma {:induction false} GuardedKeepsSafe(ws: seq<W>, steps: seq<Step>, k: nat)
    requires IsRun(ws, steps) && Fresh(ws[0]) && k < |ws| && Guarded(ws, steps, k)
    ensures Safe(ws[k], true)
  {
    if k == 0 {
      FreshSolid(ws[0]);
    } else {
      GuardedKeepsSafe(ws, steps, k - 1);
      RunKeepsSolid(ws, steps, k - 1);
      StepKeepsSafe(ws[k - 1], steps[k - 1], true);
    }
  }

  /** The states of a run stay grounded whatever becomes of them, if and only if every transaction kept the guard. */
  lemma GroundedIffGuarded(ws: seq<W>, steps: seq<Step>, k: nat, cap: nat)
    requires IsRun(ws, steps) && Fresh(ws[0]) && k < |ws|
    ensures (forall j :: 0 <= j <= k ==> GroundedForever(ws[j], cap, true)) <==> Guarded(ws, steps, k)
  {
    if Guarded(ws, steps, k) {
      forall j | 0 <= j <= k ensures GroundedForever(ws[j], cap, true) {
        GuardedKeepsSafe(ws, steps, j);
        RunKeepsSolid(ws, steps, j);
        SafeIffForever(ws[j], cap, true);
      }
    }
    if forall j :: 0 <= j <= k ==> GroundedForever(ws[j], cap, true) {
      forall j | 0 <= j < k && steps[j].Run? ensures Binds(ws[j], steps[j].t, true) {
        RunKeepsSolid(ws, steps, j);
        assert GroundedForever(ws[j], cap, true) && GroundedForever(ws[j + 1], cap, true);
        RunGroundedIffBinds(ws[j], steps[j].t, cap, true);
      }
    }
  }

  /** Every state of such a run: the live images are a serial execution of the programs that stand, the durable ones a
      serial execution of the programs that have landed. */
  lemma WholeRunIsSerial(ws: seq<W>, steps: seq<Step>, k: nat, o: Obj)
    requires IsRun(ws, steps) && Fresh(ws[0]) && k < |ws| && Guarded(ws, steps, k)
    ensures var w := ws[k];
            && (o in w.live ==> w.live[o] == Of(Replay(w.genesis, Kept(w)), o))
            && Of(w.durable, o) == Of(Replay(w.genesis, Durable(w)), o)
  {
    RunKeepsSolid(ws, steps, k);
    GuardedKeepsSafe(ws, steps, k);
    SerialState(ws[k]);
  }

  // ----- transactions that hold only what they change

  ghost predicate ChangesAllItHolds(t: Applied) {
    t.held == t.writes.Keys
  }

  lemma {:induction false} HistoryRan(ws: seq<W>, steps: seq<Step>, k: nat)
    requires IsRun(ws, steps) && Fresh(ws[0]) && k < |ws|
    requires forall j :: 0 <= j < k && steps[j].Run? ==> ChangesAllItHolds(steps[j].t)
    ensures forall t :: t in ws[k].history ==> ChangesAllItHolds(t)
  {
    if k > 0 {
      HistoryRan(ws, steps, k - 1);
      NewInHistory(ws[k - 1], steps[k - 1]);
    }
  }

  lemma NewInHistory(w: W, s: Step)
    requires Can(w, s)
    ensures Do(w, s).history == if s.Run? then w.history + [s.t] else w.history
  {
  }

  /** Without transactions that only read an object, the boats may be cut and land as they like: durable images are the
      landed programs in the order of landing, live images the floating and then the pending programs run on top. */
  lemma WholeRunInBoatOrder(ws: seq<W>, steps: seq<Step>, k: nat, o: Obj)
    requires IsRun(ws, steps) && Fresh(ws[0]) && k < |ws|
    requires forall j :: 0 <= j < k && steps[j].Run? ==> ChangesAllItHolds(steps[j].t)
    ensures var w := ws[k];
            && (o in w.live ==> w.live[o] == Of(Replay(w.durable, Afloat(w) + w.pending), o))
            && Of(w.durable, o) == Of(Replay(w.genesis, w.landed), o)
  {
    var w := ws[k];
    RunKeepsSolid(ws, steps, k);
    HistoryRan(ws, steps, k);
    forall t | t in Standing(w) ensures t.held == t.writes.Keys {
      assert w.history[t.id] == t;
      assert t in w.history && ChangesAllItHolds(t);
    }
    BoatOrderState(w);
  }

  // ----- acknowledged

  /** Once a pessimistic transaction is acknowledged, it stays landed, and so does everything that its changes were made
      on top of; in a guarded run, everything it found in any object it held. */
  lemma AckedForever(ws: seq<W>, steps: seq<Step>, j: nat, k: nat, i: nat, e: nat)
    requires IsRun(ws, steps) && Fresh(ws[0]) && j <= k < |ws|
    requires i < |ws[j].history| && ws[j].history[i].waiter && i in ws[j].replies && ws[j].replies[i].Acked?
    ensures ws[j].history[i] in ws[k].landed
    ensures RanOn(ws[j], e, i, false) ==> ws[j].history[e] in ws[k].landed
    ensures RanOn(ws[j], e, i, true) && Guarded(ws, steps, j) ==> ws[j].history[e] in ws[k].landed
  {
    var w := ws[j];
    FreshInv(ws[0]);
    RunKeepsInv(ws, steps, j, k);
    RunKeepsSolid(ws, steps, j);
    AckedMeansDurable(w, i, i);
    StandingKnown(w, w.history[i]);
    assert w.history[i].id == i;
    if Guarded(ws, steps, j) { GuardedKeepsSafe(ws, steps, j); }
    LandedStays(w, ws[k], w.history[i]);
    if e < i { LandedStays(w, ws[k], w.history[e]); }
  }
}
