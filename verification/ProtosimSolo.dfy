/** Who aborts whom, and what a transfer gets done when nobody is in its way (src/bin/protosim.rs, `resolve_slot` and
    `step`). */
module ProtosimSolo {
  import opened Protosim
  import opened ProtosimProof

  // ----- a transfer meets an entry in the slot it wants

  /** The slot a transfer tries to take in its next step. */
  ghost predicate Wants(x: Xfer, k: Key) {
    || (x.step.PreLow? && k == LogKey(x.low, x.lowSeq + 1))
    || (x.step.PreHigh? && k == LogKey(x.high, x.highSeq + 1))
  }

  ghost predicate Meets(w: World, i: nat, k: Key) {
    i < |w.xs| && Wants(w.xs[i], k) && k in w.m
  }

  /** The transfer starts over, or gives up at its 121st conflict. */
  ghost predicate StartsOver(x: Xfer, y: Xfer) {
    && !y.madeLow && !y.madeHigh && y.resumeAt == 0 && y.retries == x.retries + 1
    && y.step == if x.retries < 120 then Read else Aborted
  }

  lemma TickIs(w: World, i: nat, now: nat, d: Draw)
    requires i < |w.xs|
    ensures var (x, m) := StepXfer(w.xs[i], w.m, now, d);
            var w' := Apply(w, Tick(i, now, d));
            w'.m == m && |w'.xs| == |w.xs| && w'.xs[i] == x
  {
  }

  /** A wanted slot never holds an entry of the transfer itself. */
  lemma MeetsOther(w: World, i: nat, k: Key)
    requires Inv(w) && Meets(w, i, k)
    ensures w.m[k].Log? && w.m[k].tid != w.xs[i].tid
  {
    var x := w.xs[i];
    assert XferInv(w.m, x) && x.tid == i + 1;
    var o, at, delta := k.o, k.at, w.m[k].delta;
    assert w.m[k].tid == x.tid ==> Holds(x, o, at, delta);
  }

  lemma RollbackSpares(x: Xfer, m: Cells, k: Key)
    requires k in m && m[k].Log? && m[k].tid != x.tid
    ensures k in Rollback(x, m).1 && Rollback(x, m).1[k] == m[k]
  {
  }

  lemma RollbackDecides(x: Xfer, m: Cells, t: nat)
    ensures Resolved(Rollback(x, m).1, t) == Resolved(m, t)
  {
  }

  /** Two rollbacks and a new start, or a giving up. */
  ghost predicate Withdraws(x: Xfer, m: Cells, x': Xfer, m': Cells) {
    && StartsOver(x, x')
    && (forall t :: Resolved(m', t) == Resolved(m, t))
    && (forall k :: k in m && m[k].Log? && m[k].tid != x.tid ==> k in m' && m'[k] == m[k])
  }

  lemma ResetWithdraws(x: Xfer, m: Cells)
    ensures var (x', m') := ResetOrGiveup(x, m); Withdraws(x, m, x', m')
  {
    forall t ensures Resolved(ResetOrGiveup(x, m).1, t) == Resolved(m, t) { RollbackDecides(x, m, t); }
    forall k | k in m && m[k].Log? && m[k].tid != x.tid
      ensures k in ResetOrGiveup(x, m).1 && ResetOrGiveup(x, m).1[k] == m[k]
    {
      RollbackSpares(x, m, k);
    }
  }

  lemma TwiceWithdraws(x: Xfer, m: Cells)
    ensures var (x1, m1) := Rollback(x, m);
            var (x', m') := ResetOrGiveup(x1, m1);
            Withdraws(x, m, x', m')
  {
    var (x1, m1) := Rollback(x, m);
    ResetWithdraws(x1, m1);
    var (x', m') := ResetOrGiveup(x1, m1);
    forall t ensures Resolved(m', t) == Resolved(m, t) {
      RollbackDecides(x, m, t);
      assert Resolved(m', t) == Resolved(m1, t);
    }
    forall k | k in m && m[k].Log? && m[k].tid != x.tid ensures k in m' && m'[k] == m[k] { RollbackSpares(x, m, k); }
  }

  lemma BlockedLow(x: Xfer, m: Cells, now: nat, d: Draw)
    requires x.step.PreLow? && LogKey(x.low, x.lowSeq + 1) in m
    ensures var (free, m2) := ResolveSlot(m, x.low, x.lowSeq + 1, now);
            StepXfer(x, m, now, d) == if free then (x, m2) else ResetOrGiveup(x, m2)
  {
  }

  lemma BlockedHigh(x: Xfer, m: Cells, now: nat, d: Draw)
    requires x.step.PreHigh? && LogKey(x.high, x.highSeq + 1) in m
    ensures var (free, m2) := ResolveSlot(m, x.high, x.highSeq + 1, now);
            StepXfer(x, m, now, d) ==
              if free then (x, m2) else ResetOrGiveup(Rollback(x, m2).0, Rollback(x, m2).1)
  {
  }

  /** A transfer that finds its slot taken tries again when the slot could be cleared, and starts over otherwise. */
  lemma BlockedStep(x: Xfer, m: Cells, k: Key, now: nat, d: Draw)
    requires Wants(x, k) && k in m
    ensures var (free, m2), (x', m') := ResolveSlot(m, k.o, k.at, now), StepXfer(x, m, now, d);
            if free then x' == x && m' == m2 else Withdraws(x, m2, x', m')
  {
    var m2 := ResolveSlot(m, k.o, k.at, now).1;
    if x.step.PreLow? {
      BlockedLow(x, m, now, d);
      ResetWithdraws(x, m2);
    } else {
      BlockedHigh(x, m, now, d);
      TwiceWithdraws(x, m2);
    }
  }

  lemma ResolveDecides(m: Cells, k: Key, now: nat, t: nat)
    requires Typed(m) && k.LogKey? && k in m
    ensures var c, (free, m2) := m[k], ResolveSlot(m, k.o, k.at, now);
            var fate := Resolved(m, c.tid);
            && (t != c.tid ==> Resolved(m2, t) == Resolved(m, t))
            && if fate == Some(true) || (fate == None && now <= c.born + 40) then !free && m2 == m
               else free && k !in m2 && Resolved(m2, c.tid) == Some(false)
  {
  }

  /** An entry whose transfer has committed stays, and so does one of an undecided transfer until it is older than 40
      ticks; the transfer that meets it starts over.  An entry of an aborted transfer goes.  An older one of an
      undecided transfer goes too, that transfer being aborted by the same step. */
  lemma MeetingSettled(w: World, i: nat, k: Key, now: nat, d: Draw)
    requires Inv(w) && Meets(w, i, k)
    ensures var x, c, w' := w.xs[i], w.m[k], Apply(w, Tick(i, now, d));
            var fate := Resolved(w.m, c.tid);
            if fate == Some(true) || (fate == None && now <= c.born + 40) then
              k in w'.m && w'.m[k] == c && Resolved(w'.m, c.tid) == fate && StartsOver(x, w'.xs[i])
            else k !in w'.m && Resolved(w'.m, c.tid) == Some(false) && w'.xs[i] == x
  {
    MeetsOther(w, i, k);
    TickIs(w, i, now, d);
    BlockedStep(w.xs[i], w.m, k, now, d);
    ResolveDecides(w.m, k, now, w.m[k].tid);
  }

  /** A transfer is aborted by another only for a lock older than 40 ticks that the other met in the slot it wanted, and
      by the final sweep only for a lock it left behind. */
  lemma OnlyAgedAreAborted(w: World, e: Event, t: nat)
    requires Inv(w) && Resolved(w.m, t) == None && Resolved(Apply(w, e).m, t) == Some(false)
    ensures match e
            case Tick(i, now, _) =>
              && i < |w.xs| && w.xs[i].tid != t
              && exists k :: Meets(w, i, k) && w.m[k].tid == t && now > w.m[k].born + 40
            case Sweep(k) => k in w.m && w.m[k].Log? && w.m[k].tid == t
  {
    match e
    case Sweep(k) =>
    case Tick(i, now, d) =>
      var k := TickAborts(w, i, now, d, t);
  }

  lemma TickAborts(w: World, i: nat, now: nat, d: Draw, t: nat) returns (k: Key)
    requires Inv(w) && i < |w.xs| && Resolved(w.m, t) == None && Resolved(Apply(w, Tick(i, now, d)).m, t) == Some(false)
    ensures Meets(w, i, k) && w.m[k].Log? && w.m[k].tid == t && now > w.m[k].born + 40 && w.xs[i].tid != t
  {
    var x := w.xs[i];
    k := if x.step.PreLow? then LogKey(x.low, x.lowSeq + 1) else LogKey(x.high, x.highSeq + 1);
    TickIs(w, i, now, d);
    if Meets(w, i, k) {
      MeetsOther(w, i, k);
      BlockedStep(x, w.m, k, now, d);
      assert Typed(w.m);
      ResolveDecides(w.m, k, now, t);
    } else {
      UnmetAbortsNone(w, i, now, d, t);
    }
  }

  lemma UnmetAbortsNone(w: World, i: nat, now: nat, d: Draw, t: nat)
    requires i < |w.xs| && Resolved(w.m, t) == None
    requires w.xs[i].step.PreLow? ==> LogKey(w.xs[i].low, w.xs[i].lowSeq + 1) !in w.m
    requires w.xs[i].step.PreHigh? ==> LogKey(w.xs[i].high, w.xs[i].highSeq + 1) !in w.m
    ensures Resolved(Apply(w, Tick(i, now, d)).m, t) != Some(false)
  {
    var x := w.xs[i];
    if x.step.Commit? {
      RollbackDecides(x, w.m, t);
      RollbackDecides(Rollback(x, w.m).0, Rollback(x, w.m).1, t);
    }
  }

  // ----- nobody is in the way

  function WithLow(m: Cells, y: Xfer, b: nat): Cells {
    m[LogKey(y.low, y.lowSeq + 1) := Log(y.tid, y.lowDelta, b)]
  }

  function WithHigh(m: Cells, y: Xfer, c: nat): Cells {
    m[LogKey(y.high, y.highSeq + 1) := Log(y.tid, y.highDelta, c)]
  }

  /** The transfer with the numbers it reads. */
  ghost function Reader(m: Cells, x: Xfer): Xfer {
    x.(step := PreLow, lowSeq := ReadCommitted(m, x.low).0, highSeq := ReadCommitted(m, x.high).0)
  }

  /** At its reading step a transfer of more than the account holds gives up and leaves no trace; any other goes on with
      the numbers of the last committed entries. */
  lemma ReadsFunds(x: Xfer, m: Cells, now: nat, d: Draw)
    requires x.step.Read?
    ensures StepXfer(x, m, now, d) ==
            (if ReadCommitted(m, x.from).1 < x.amt then x.(step := Aborted) else Reader(m, x), m)
  {
  }

  /** It writes its entry into the first free slot of the lower account, stamped with the time. */
  lemma TakesLow(x: Xfer, m: Cells, now: nat, d: Draw)
    requires x.step.PreLow? && LogKey(x.low, x.lowSeq + 1) !in m
    ensures var (x', m') := StepXfer(x, m, now, d);
            m' == WithLow(m, x, now) && x'.step.PreHigh? && SameTransfer(x, x') && x'.crash == x.crash
  {
  }

  /** Then into that of the higher one, where a transfer that is to crash does so. */
  lemma TakesHigh(x: Xfer, m: Cells, now: nat, d: Draw)
    requires x.step.PreHigh? && LogKey(x.high, x.highSeq + 1) !in m
    ensures var (x', m') := StepXfer(x, m, now, d);
            m' == WithHigh(m, x, now) && x'.step == (if x.crash then Crashed else Commit) && SameTransfer(x, x')
  {
  }

  /** It may go through, and nobody is in its way. */
  ghost predicate Free(m: Cells, x: Xfer) {
    && x.step.Read? && x.low != x.high && ReadCommitted(m, x.from).1 >= x.amt
    && LogKey(x.low, ReadCommitted(m, x.low).0 + 1) !in m && LogKey(x.high, ReadCommitted(m, x.high).0 + 1) !in m
  }

  ghost predicate SameReads(m: Cells, m': Cells) {
    forall o :: ReadCommitted(m', o) == ReadCommitted(m, o)
  }

  /** The first three steps of the transfer by itself. */
  lemma ThreeSteps(x: Xfer, m: Cells, a: nat, b: nat, c: nat, d: Draw)
    requires Free(m, x)
    ensures var (x1, m1) := StepXfer(x, m, a, d);
            var (x2, m2) := StepXfer(x1, m1, b, d);
            var (x3, m3) := StepXfer(x2, m2, c, d);
            && x1.step.PreLow? && x2.step.PreHigh? && x3.step == (if x.crash then Crashed else Commit)
            && m3 == WithHigh(WithLow(m, Reader(m, x), b), Reader(m, x), c) && SameTransfer(Reader(m, x), x3)
  {
    var y := Reader(m, x);
    ReadsFunds(x, m, a, d);
    TakesLow(y, m, b, d);
    var (x2, m2) := StepXfer(y, m, b, d);
    TakesHigh(x2, m2, c, d);
  }

  lemma TickKeeps(w: World, i: nat, now: nat, d: Draw)
    requires Inv(w) && i < |w.xs| && !w.xs[i].step.Commit?
    ensures Inv(Apply(w, Tick(i, now, d))) && SameReads(w.m, Apply(w, Tick(i, now, d)).m)
  {
    EventKeepsInv(w, Tick(i, now, d));
    forall o ensures ReadCommitted(Apply(w, Tick(i, now, d)).m, o) == ReadCommitted(w.m, o) {
      EventIsAtomic(w, Tick(i, now, d), o);
    }
  }

  /** Transfer `i` is left alone for three steps. */
  function Thrice(w: World, i: nat, a: nat, b: nat, c: nat, d: Draw): World {
    Apply(Apply(Apply(w, Tick(i, a, d)), Tick(i, b, d)), Tick(i, c, d))
  }

  /** Left alone for three steps, whenever they come, it has written both its entries above the last committed ones: it
      is about to commit, or has crashed. */
  lemma PrewritesAlone(w: World, i: nat, a: nat, b: nat, c: nat, d: Draw)
    requires i < |w.xs| && Free(w.m, w.xs[i])
    ensures var x, t := w.xs[i], Thrice(w, i, a, b, c, d);
            && i < |t.xs| && t.xs[i].step == (if x.crash then Crashed else Commit)
            && t.m == WithHigh(WithLow(w.m, Reader(w.m, x), b), Reader(w.m, x), c)
            && SameTransfer(Reader(w.m, x), t.xs[i])
  {
    var w1 := Apply(w, Tick(i, a, d));
    ThreeSteps(w.xs[i], w.m, a, b, c, d);
    TickIs(w, i, a, d);
    TickIs(w1, i, b, d);
    TickIs(Apply(w1, Tick(i, b, d)), i, c, d);
  }

  /** No reader sees a difference. */
  lemma PrewritesUnseen(w: World, i: nat, a: nat, b: nat, c: nat, d: Draw)
    requires Inv(w) && i < |w.xs| && Free(w.m, w.xs[i])
    ensures Inv(Thrice(w, i, a, b, c, d)) && SameReads(w.m, Thrice(w, i, a, b, c, d).m)
  {
    var w1 := Apply(w, Tick(i, a, d));
    var w2 := Apply(w1, Tick(i, b, d));
    ThreeSteps(w.xs[i], w.m, a, b, c, d);
    TickIs(w, i, a, d);
    TickIs(w1, i, b, d);
    TickKeeps(w, i, a, d);
    TickKeeps(w1, i, b, d);
    TickKeeps(w2, i, c, d);
  }

  lemma CommitTells(w: World, i: nat, e: nat, d: Draw, o: Account)
    requires Inv(w) && i < |w.xs| && w.xs[i].step.Commit? && OutcomeKey(w.xs[i].tid) !in w.m
    ensures var t := Apply(w, Tick(i, e, d));
            && i < |t.xs| && t.xs[i].step.Done? && t.xs[i].ackedCommit && Committed(t.m, w.xs[i].tid)
            && ReadCommitted(t.m, o).1 == ReadCommitted(w.m, o).1 + Gain(w.xs[i], o)
  {
    EventIsAtomic(w, Tick(i, e, d), o);
    TickIs(w, i, e, d);
  }

  lemma GainIs(w: World, i: nat, o: Account)
    requires Inv(w) && i < |w.xs|
    ensures var x := w.xs[i];
            Gain(x, o) == if o == x.from then -x.amt else if o == x.low || o == x.high then x.amt else 0
  {
    assert XferInv(w.m, w.xs[i]);
  }

  /** A transfer that is left alone commits with its fourth step, and its amount has moved from the one account to the
      other: it needs the funds, and that the slots above the last committed entries are free. */
  lemma CommitsAlone(w: World, i: nat, a: nat, b: nat, c: nat, e: nat, d: Draw, o: Account)
    requires Inv(w) && i < |w.xs| && Free(w.m, w.xs[i]) && OutcomeKey(w.xs[i].tid) !in w.m && !w.xs[i].crash
    ensures var x, t := w.xs[i], Apply(Thrice(w, i, a, b, c, d), Tick(i, e, d));
            && i < |t.xs| && t.xs[i].step.Done? && t.xs[i].ackedCommit && Committed(t.m, x.tid)
            && ReadCommitted(t.m, o).1 ==
                 ReadCommitted(w.m, o).1 +
                 if o == x.from then -x.amt else if o == x.low || o == x.high then x.amt else 0
  {
    var w3 := Thrice(w, i, a, b, c, d);
    PrewritesAlone(w, i, a, b, c, d);
    PrewritesUnseen(w, i, a, b, c, d);
    CommitTells(w3, i, e, d, o);
    GainIs(w, i, o);
    assert ReadCommitted(w3.m, o) == ReadCommitted(w.m, o);
  }
}
