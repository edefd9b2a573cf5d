/** Conservation, atomicity and ack-consistency of the transfer protocol, for any
    number of transfers and any schedule of steps, pauses, crashes and sweeps. */
module ProtosimProof {
  import opened Protosim

  // ----- the invariant

  /** The transfer's own record says it holds slot `q` of `o` with this delta. */
  ghost predicate Holds(x: Xfer, o: Account, q: nat, delta: int) {
    || (x.madeLow && o == x.low && q == x.lowSeq + 1 && delta == x.lowDelta)
    || (x.madeHigh && o == x.high && q == x.highSeq + 1 && delta == x.highDelta)
  }

  ghost predicate SlotIs(m: Cells, o: Account, q: nat, tid: nat, delta: int) {
    LogKey(o, q) in m && m[LogKey(o, q)].Log? && m[LogKey(o, q)].tid == tid && m[LogKey(o, q)].delta == delta
  }

  ghost predicate Typed(m: Cells) {
    forall k :: k in m ==>
      && (k.BaseKey? ==> m[k].Base?) && (k.LogKey? ==> m[k].Log?) && (k.OutcomeKey? ==> m[k].Outcome?)
  }

  function FromSeq(x: Xfer): nat {
    if x.from == x.low then x.lowSeq else x.highSeq
  }

  ghost predicate Shape(x: Xfer) {
    && x.low != x.high
    && (x.from == x.low || x.from == x.high)
    && (x.from == x.low ==> x.lowDelta == -x.amt && x.highDelta == x.amt)
    && (x.from == x.high ==> x.lowDelta == x.amt && x.highDelta == -x.amt)
    && (x.madeLow <==> x.step.PreHigh? || x.step.Commit? || x.step.Done? || x.step.Crashed?)
    && (x.madeHigh <==> x.step.Commit? || x.step.Done? || x.step.Crashed?)
    && (x.ackedCommit <==> x.step.Done?)
  }

  /** It has read its sequence numbers and not yet decided. */
  ghost predicate Pursuing(x: Xfer) {
    x.step.PreLow? || x.step.PreHigh? || x.step.Commit? || x.step.Crashed?
  }

  ghost predicate Funded(m: Cells, x: Xfer) {
    && x.lowSeq <= ReadCommitted(m, x.low).0
    && x.highSeq <= ReadCommitted(m, x.high).0
    && BaseOf(m, x.low).0 <= x.lowSeq
    && BaseOf(m, x.high).0 <= x.highSeq
    && x.amt <= BalanceAt(m, x.from, FromSeq(x))
  }

  ghost predicate XferInv(m: Cells, x: Xfer) {
    && Shape(x)
    && (x.step.Done? <==> Committed(m, x.tid))
    && (x.madeLow && Resolved(m, x.tid) != Some(false) ==> SlotIs(m, x.low, x.lowSeq + 1, x.tid, x.lowDelta))
    && (x.madeHigh && Resolved(m, x.tid) != Some(false) ==> SlotIs(m, x.high, x.highSeq + 1, x.tid, x.highDelta))
    && (Pursuing(x) ==> Funded(m, x))
  }

  /** Every log entry is one its transfer still holds on record, and committed entries are contiguous. */
  ghost predicate LogsOwned(m: Cells, xs: seq<Xfer>) {
    forall k :: k in m && k.LogKey? && m[k].Log? ==>
      1 <= m[k].tid <= |xs| && Holds(xs[m[k].tid - 1], k.o, k.at, m[k].delta)
  }

  ghost predicate Contiguous(m: Cells) {
    forall o, q: nat :: CommittedAt(m, o, q) ==> q <= ReadCommitted(m, o).0
  }

  ghost predicate Inv(w: World) {
    && Typed(w.m)
    && LogsOwned(w.m, w.xs)
    && Contiguous(w.m)
    && CommittedKnown(w.m, |w.xs|)
    && XfersOk(w.m, w.xs)
  }

  ghost predicate CommittedKnown(m: Cells, n: nat) {
    forall t: nat :: Committed(m, t) ==> 1 <= t <= n
  }

  ghost predicate XfersOk(m: Cells, xs: seq<Xfer>) {
    forall i :: 0 <= i < |xs| ==> xs[i].tid == i + 1 && XferInv(m, xs[i])
  }

  // ----- what a step that commits nothing may do to the store

  /** The only changes are: logs of `t` (undecided or aborted) come and go, outcomes of undecided
      transfers become aborted, and logs of aborted transfers disappear. */
  ghost predicate Benign(m: Cells, m': Cells, t: nat) {
    && Typed(m) && Typed(m') && !Committed(m, t)
    && (forall o :: BaseOf(m', o) == BaseOf(m, o))
    && (forall u {:trigger OutcomeKey(u) in m'} {:trigger Resolved(m', u)} {:trigger Resolved(m, u)} ::
          Resolved(m', u) == Resolved(m, u) || (Resolved(m, u) == None && Resolved(m', u) == Some(false)))
    && (forall k :: k in m && k.LogKey? ==>
          || (k in m' && m'[k] == m[k])
          || (k !in m' && (m[k].tid == t || Resolved(m', m[k].tid) == Some(false))))
    && (forall k :: k in m' && k.LogKey? && k !in m ==> m'[k].tid == t)
  }

  /** Logs disappear only when their transfer is aborted. */
  ghost predicate AbortedOnly(m: Cells, m': Cells) {
    forall k :: k in m && k.LogKey? && m[k].Log? && k !in m' ==> Resolved(m', m[k].tid) == Some(false)
  }

  lemma BenignTrans(a: Cells, b: Cells, c: Cells, t: nat)
    requires Benign(a, b, t) && Benign(b, c, t)
    requires forall k :: k in a && k.LogKey? && k !in b ==> k !in c
    ensures Benign(a, c, t)
  {
  }

  lemma BenignDelete(m: Cells, k: Key, t: nat)
    requires Typed(m) && !Committed(m, t) && k.LogKey?
    requires k in m ==> m[k].tid == t || Resolved(m, m[k].tid) == Some(false)
    ensures Benign(m, m - {k}, t)
  {
  }

  lemma BenignSafeDelete(m: Cells, k: Key, t: nat)
    requires Typed(m) && !Committed(m, t) && k.LogKey?
    ensures Benign(m, SafeDelete(m, k, t), t)
  {
    if k in m && m[k].tid == t { BenignDelete(m, k, t); }
  }

  lemma BenignResolve(m: Cells, o: Account, q: nat, now: nat, t: nat)
    requires Typed(m) && !Committed(m, t)
    ensures Benign(m, ResolveSlot(m, o, q, now).1, t)
    ensures forall k :: k in ResolveSlot(m, o, q, now).1 && k.LogKey? ==>
            k in m && ResolveSlot(m, o, q, now).1[k] == m[k]
    ensures AbortedOnly(m, ResolveSlot(m, o, q, now).1)
  {
  }

  lemma BenignRollback(x: Xfer, m: Cells)
    requires Typed(m) && !Committed(m, x.tid)
    ensures Benign(m, Rollback(x, m).1, x.tid)
    ensures forall k :: k in Rollback(x, m).1 && k.LogKey? ==> k in m && Rollback(x, m).1[k] == m[k]
    ensures x.low != x.high && x.madeLow ==> !SlotIs(Rollback(x, m).1, x.low, x.lowSeq + 1, x.tid, x.lowDelta)
  {
    var m1 := if x.madeHigh then SafeDelete(m, LogKey(x.high, x.highSeq + 1), x.tid) else m;
    BenignSafeDelete(m, LogKey(x.high, x.highSeq + 1), x.tid);
    BenignSafeDelete(m1, LogKey(x.low, x.lowSeq + 1), x.tid);
  }

  // ----- the committed view

  ghost predicate SameView(m: Cells, m': Cells) {
    && (forall o :: BaseOf(m', o) == BaseOf(m, o))
    && (forall o, q :: CommittedAt(m', o, q) == CommittedAt(m, o, q) && DeltaAt(m', o, q) == DeltaAt(m, o, q))
  }

  lemma BenignSameView(m: Cells, m': Cells, t: nat)
    requires Benign(m, m', t)
    ensures SameView(m, m')
  {
    forall o, q
      ensures CommittedAt(m', o, q) == CommittedAt(m, o, q) && DeltaAt(m', o, q) == DeltaAt(m, o, q)
    {
      var k := LogKey(o, q);
      if CommittedAt(m, o, q) { assert k in m' && m'[k] == m[k]; }
      if CommittedAt(m', o, q) { assert k in m; }
    }
  }

  lemma {:induction false} ReadFromMeaning(m: Cells, o: Account, at: nat)
    requires at >= BaseOf(m, o).0
    ensures ReadFrom(m, o, at, BalanceAt(m, o, at)).1 == BalanceAt(m, o, ReadFrom(m, o, at, BalanceAt(m, o, at)).0)
    decreases |LogsAbove(m, o, at)|
  {
    if CommittedAt(m, o, at + 1) {
      assert LogsAbove(m, o, at + 1) < LogsAbove(m, o, at) by {
        assert LogKey(o, at + 1) in LogsAbove(m, o, at);
      }
      SmallerSet(LogsAbove(m, o, at + 1), LogsAbove(m, o, at));
      ReadFromMeaning(m, o, at + 1);
    }
  }

  /** What `ReadCommitted` returns: the end of the committed run, and the balance there. */
  lemma ReadCommittedMeaning(m: Cells, o: Account)
    ensures BaseOf(m, o).0 <= ReadCommitted(m, o).0
    ensures ReadCommitted(m, o).1 == BalanceAt(m, o, ReadCommitted(m, o).0)
    ensures forall q :: BaseOf(m, o).0 < q <= ReadCommitted(m, o).0 ==> CommittedAt(m, o, q)
    ensures !CommittedAt(m, o, ReadCommitted(m, o).0 + 1)
  {
    ReadFromMeaning(m, o, BaseOf(m, o).0);
  }

  /** The committed run is determined by its two ends. */
  lemma ReadCommittedUnique(m: Cells, o: Account, n: nat)
    requires BaseOf(m, o).0 <= n && !CommittedAt(m, o, n + 1)
    requires forall q :: BaseOf(m, o).0 < q <= n ==> CommittedAt(m, o, q)
    ensures ReadCommitted(m, o).0 == n
  {
    ReadCommittedMeaning(m, o);
    assert !CommittedAt(m, o, n + 1) && !CommittedAt(m, o, ReadCommitted(m, o).0 + 1);
  }

  lemma {:induction false} SameBalance(m: Cells, m': Cells, o: Account, q: nat)
    requires BaseOf(m', o) == BaseOf(m, o)
    requires forall p: nat :: p <= q ==> DeltaAt(m', o, p) == DeltaAt(m, o, p)
    ensures BalanceAt(m', o, q) == BalanceAt(m, o, q)
  {
    if q > BaseOf(m, o).0 { SameBalance(m, m', o, q - 1); }
  }

  lemma SameViewRead(m: Cells, m': Cells, o: Account)
    requires SameView(m, m')
    ensures ReadCommitted(m', o) == ReadCommitted(m, o)
    ensures forall q :: BalanceAt(m', o, q) == BalanceAt(m, o, q)
  {
    ReadCommittedMeaning(m, o);
    ReadCommittedMeaning(m', o);
    ReadCommittedUnique(m', o, ReadCommitted(m, o).0);
    forall q ensures BalanceAt(m', o, q) == BalanceAt(m, o, q) { SameBalance(m, m', o, q); }
  }

  // ----- steps that do not commit

  lemma FundedStays(m: Cells, m': Cells, x: Xfer)
    requires SameView(m, m') && Funded(m, x)
    ensures Funded(m', x)
  {
    SameViewRead(m, m', x.low);
    SameViewRead(m, m', x.high);
    SameViewRead(m, m', x.from);
  }

  /** A benign step of `t` leaves the invariant of any transfer standing whose locks it does not drop. */
  lemma BenignKeeps(m: Cells, m': Cells, t: nat, x: Xfer)
    requires Benign(m, m', t) && XferInv(m, x)
    requires x.tid != t || AbortedOnly(m, m')
    ensures XferInv(m', x)
  {
    BenignSameView(m, m', t);
    if Pursuing(x) { FundedStays(m, m', x); }
    assert Resolved(m', x.tid) == Resolved(m, x.tid)
        || (Resolved(m, x.tid) == None && Resolved(m', x.tid) == Some(false));
    if Resolved(m', x.tid) != Some(false) {
      if x.madeLow { assert LogKey(x.low, x.lowSeq + 1) in m'; }
      if x.madeHigh { assert LogKey(x.high, x.highSeq + 1) in m'; }
    }
  }

  lemma BenignContiguous(m: Cells, m': Cells, t: nat)
    requires Benign(m, m', t) && Contiguous(m)
    ensures Contiguous(m')
  {
    BenignSameView(m, m', t);
    forall o, q: nat | CommittedAt(m', o, q) ensures q <= ReadCommitted(m', o).0 {
      SameViewRead(m, m', o);
      assert CommittedAt(m, o, q);
    }
  }

  /** The logs of the stepping transfer match its new record. */
  ghost predicate OwnLogs(m: Cells, x: Xfer) {
    forall k :: k in m && k.LogKey? && m[k].Log? && m[k].tid == x.tid ==> Holds(x, k.o, k.at, m[k].delta)
  }

  lemma QuietStep(w: World, i: nat, x': Xfer, m': Cells)
    requires Inv(w) && i < |w.xs| && x'.tid == i + 1
    requires Benign(w.m, m', i + 1) && XferInv(m', x') && OwnLogs(m', x')
    ensures Inv(World(m', w.xs[i := x']))
  {
    QuietLogsOwned(w, i, x', m');
    BenignContiguous(w.m, m', i + 1);
    BenignCommits(w.m, m', i + 1, |w.xs|);
    var xs' := w.xs[i := x'];
    forall j | 0 <= j < |xs'| ensures xs'[j].tid == j + 1 && XferInv(m', xs'[j]) {
      if j != i { BenignKeeps(w.m, m', i + 1, w.xs[j]); }
    }
  }

  lemma BenignCommits(m: Cells, m': Cells, t: nat, n: nat)
    requires Benign(m, m', t) && CommittedKnown(m, n)
    ensures CommittedKnown(m', n)
  {
    forall u: nat | Committed(m', u) ensures 1 <= u <= n { assert Committed(m, u); }
  }

  lemma QuietLogsOwned(w: World, i: nat, x': Xfer, m': Cells)
    requires LogsOwned(w.m, w.xs) && i < |w.xs| && x'.tid == i + 1 && Benign(w.m, m', i + 1) && OwnLogs(m', x')
    ensures LogsOwned(m', w.xs[i := x'])
  {
    var m, xs' := w.m, w.xs[i := x'];
    forall k | k in m' && k.LogKey? && m'[k].Log?
      ensures 1 <= m'[k].tid <= |xs'| && Holds(xs'[m'[k].tid - 1], k.o, k.at, m'[k].delta)
    {
      if m'[k].tid != i + 1 { assert k in m && m'[k] == m[k]; }
    }
  }

  /** After rolling back, none of its logs is left. */
  lemma RollbackClears(m: Cells, x: Xfer)
    requires Typed(m) && x.low != x.high && OwnLogs(m, x) && !Committed(m, x.tid)
    ensures OwnLogs(Rollback(x, m).1, Rollback(x, m).0)
  {
  }

  /** What `QuietStep` asks of a transfer step. */
  ghost predicate Quiet(m: Cells, x: Xfer, x': Xfer, m': Cells) {
    x'.tid == x.tid && Benign(m, m', x.tid) && XferInv(m', x') && OwnLogs(m', x')
  }

  lemma ResetQuiet(m: Cells, x: Xfer)
    requires Typed(m) && Shape(x) && !x.step.Done? && !Committed(m, x.tid) && OwnLogs(m, x)
    ensures var (x', m') := ResetOrGiveup(x, m); Quiet(m, x, x', m')
    ensures var (x1, m1) := Rollback(x, m);
            var (x', m') := ResetOrGiveup(x1, m1); Quiet(m, x, x', m')
  {
    BenignRollback(x, m);
    RollbackClears(m, x);
  }

  lemma ReadQuiet(m: Cells, x: Xfer)
    requires Typed(m) && XferInv(m, x) && OwnLogs(m, x) && x.step.Read?
    ensures var (x', m') := StepRead(x, m); Quiet(m, x, x', m')
  {
    ReadCommittedMeaning(m, x.low);
    ReadCommittedMeaning(m, x.high);
    ReadCommittedMeaning(m, x.from);
  }

  /** Meeting an occupied slot, freed or not. */
  lemma BlockedQuiet(m: Cells, x: Xfer, o: Account, q: nat, now: nat)
    requires Typed(m) && XferInv(m, x) && OwnLogs(m, x) && (x.step.PreLow? || x.step.PreHigh?)
    ensures var m2 := ResolveSlot(m, o, q, now).1;
            && Quiet(m, x, x, m2)
            && (var (x', m') := ResetOrGiveup(x, m2); Quiet(m, x, x', m'))
            && (var (x1, m1) := Rollback(x, m2);
                var (x', m') := ResetOrGiveup(x1, m1); Quiet(m, x, x', m'))
  {
    var m2 := ResolveSlot(m, o, q, now).1;
    BenignResolve(m, o, q, now, x.tid);
    BenignKeeps(m, m2, x.tid, x);
    ResetQuiet(m2, x);
    BenignRollback(x, m2);
    BenignTrans(m, m2, Rollback(x, m2).1, x.tid);
  }

  lemma BenignCreate(m: Cells, k: Key, c: Cell)
    requires Typed(m) && k.LogKey? && k !in m && c.Log? && !Committed(m, c.tid)
    ensures Benign(m, m[k := c], c.tid) && AbortedOnly(m, m[k := c])
  {
  }

  ghost predicate SameTransfer(x: Xfer, y: Xfer) {
    && x.tid == y.tid && x.from == y.from && x.amt == y.amt && x.low == y.low && x.high == y.high
    && x.lowSeq == y.lowSeq && x.highSeq == y.highSeq && x.lowDelta == y.lowDelta && x.highDelta == y.highDelta
  }

  lemma FundedSame(m: Cells, x: Xfer, y: Xfer)
    requires SameTransfer(x, y) && Funded(m, x)
    ensures Funded(m, y)
  {
  }

  /** A prewrite that won its slot. */
  lemma WonSlot(m: Cells, x: Xfer, y: Xfer, k: Key, c: Cell)
    requires Typed(m) && XferInv(m, x) && OwnLogs(m, x) && Pursuing(x)
    requires c.Log? && c.tid == x.tid && !Committed(m, x.tid) && k !in m
    requires SameTransfer(x, y) && Shape(y) && Pursuing(y) && y.madeLow && !x.madeHigh
    requires x.madeLow ==> k == LogKey(x.high, x.highSeq + 1) && c.delta == x.highDelta && y.madeHigh
    requires !x.madeLow ==> k == LogKey(x.low, x.lowSeq + 1) && c.delta == x.lowDelta && !y.madeHigh
    ensures Quiet(m, x, y, m[k := c])
  {
    var m' := m[k := c];
    BenignCreate(m, k, c);
    BenignKeeps(m, m', x.tid, x);
    FundedSame(m', x, y);
    forall l | l in m' && l.LogKey? && m'[l].Log? && m'[l].tid == x.tid ensures Holds(y, l.o, l.at, m'[l].delta) {
      if l != k { assert Holds(x, l.o, l.at, m[l].delta); }
    }
  }

  lemma PreLowQuiet(m: Cells, x: Xfer, now: nat, d: Draw)
    requires Typed(m) && XferInv(m, x) && OwnLogs(m, x) && x.step.PreLow?
    ensures var (x', m') := StepPreLow(x, m, now, d); Quiet(m, x, x', m')
  {
    if LogKey(x.low, x.lowSeq + 1) in m { PreLowBlocked(m, x, now, d); } else { PreLowWins(m, x, now, d); }
  }

  lemma PreLowBlocked(m: Cells, x: Xfer, now: nat, d: Draw)
    requires Typed(m) && XferInv(m, x) && OwnLogs(m, x) && x.step.PreLow? && LogKey(x.low, x.lowSeq + 1) in m
    ensures var (x', m') := StepPreLow(x, m, now, d); Quiet(m, x, x', m')
  {
    var (free, m2) := ResolveSlot(m, x.low, x.lowSeq + 1, now);
    BlockedQuiet(m, x, x.low, x.lowSeq + 1, now);
    assert StepPreLow(x, m, now, d) == if free then (x, m2) else ResetOrGiveup(x, m2);
  }

  lemma PreLowWins(m: Cells, x: Xfer, now: nat, d: Draw)
    requires Typed(m) && XferInv(m, x) && OwnLogs(m, x) && x.step.PreLow? && LogKey(x.low, x.lowSeq + 1) !in m
    ensures var (x', m') := StepPreLow(x, m, now, d); Quiet(m, x, x', m')
  {
    var k, c := LogKey(x.low, x.lowSeq + 1), Log(x.tid, x.lowDelta, now);
    var y := MaybePause(x.(madeLow := true), now, d).(step := PreHigh);
    assert StepPreLow(x, m, now, d) == (y, m[k := c]);
    WonSlot(m, x, y, k, c);
  }

  lemma PreHighQuiet(m: Cells, x: Xfer, now: nat, d: Draw)
    requires Typed(m) && XferInv(m, x) && OwnLogs(m, x) && x.step.PreHigh?
    ensures var (x', m') := StepPreHigh(x, m, now, d); Quiet(m, x, x', m')
  {
    var k, c := LogKey(x.high, x.highSeq + 1), Log(x.tid, x.highDelta, now);
    if k in m {
      var (free, m2) := ResolveSlot(m, k.o, k.at, now);
      var (x3, m3) := Rollback(x, m2);
      assert StepPreHigh(x, m, now, d) == if free then (x, m2) else ResetOrGiveup(x3, m3);
      BlockedQuiet(m, x, k.o, k.at, now);
    } else {
      WonSlot(m, x, StepPreHigh(x, m, now, d).0, k, c);
    }
  }

  lemma StepQuiet(m: Cells, x: Xfer, now: nat, d: Draw)
    requires Typed(m) && XferInv(m, x) && OwnLogs(m, x)
    requires !(x.step.Commit? && OutcomeKey(x.tid) !in m) && !x.step.Done?
    ensures var (x', m') := StepXfer(x, m, now, d); Quiet(m, x, x', m')
  {
    match x.step {
      case Read => ReadQuiet(m, x);
      case PreLow => PreLowQuiet(m, x, now, d);
      case PreHigh => PreHighQuiet(m, x, now, d);
      case Commit => ResetQuiet(m, x);
      case _ =>
    }
  }

  // ----- the step that commits

  /** While a transfer holds an undecided lock, the committed run of that account ends just below it. */
  lemma LockEndsRun(m: Cells, o: Account, q: nat, tid: nat, delta: int)
    requires SlotIs(m, o, q + 1, tid, delta) && !Committed(m, tid)
    requires BaseOf(m, o).0 <= q <= ReadCommitted(m, o).0
    ensures ReadCommitted(m, o).0 == q
  {
    ReadCommittedMeaning(m, o);
    assert !CommittedAt(m, o, q + 1);
  }

  /** The transfer is about to win its outcome cell. */
  ghost predicate Committing(m: Cells, x: Xfer) {
    Typed(m) && Contiguous(m) && XferInv(m, x) && OwnLogs(m, x) && x.step.Commit? && OutcomeKey(x.tid) !in m
  }

  function AfterCommit(m: Cells, x: Xfer): Cells {
    m[OutcomeKey(x.tid) := Outcome(true)]
  }

  lemma CommitEndsRuns(m: Cells, x: Xfer)
    requires Committing(m, x)
    ensures ReadCommitted(m, x.low).0 == x.lowSeq && ReadCommitted(m, x.high).0 == x.highSeq
  {
    LockEndsRun(m, x.low, x.lowSeq, x.tid, x.lowDelta);
    LockEndsRun(m, x.high, x.highSeq, x.tid, x.highDelta);
  }

  lemma CommitFlips(m: Cells, x: Xfer, o: Account, q: nat)
    requires Committing(m, x)
    ensures var m' := AfterCommit(m, x);
            && (CommittedAt(m', o, q) <==>
                  CommittedAt(m, o, q) || (o == x.low && q == x.lowSeq + 1) || (o == x.high && q == x.highSeq + 1))
            && (CommittedAt(m, o, q) ==> DeltaAt(m', o, q) == DeltaAt(m, o, q))
    ensures o == x.low && q == x.lowSeq + 1 ==> DeltaAt(AfterCommit(m, x), o, q) == x.lowDelta
    ensures o == x.high && q == x.highSeq + 1 ==> DeltaAt(AfterCommit(m, x), o, q) == x.highDelta
  {
    assert SlotIs(m, x.low, x.lowSeq + 1, x.tid, x.lowDelta);
    assert SlotIs(m, x.high, x.highSeq + 1, x.tid, x.highDelta);
    var k := LogKey(o, q);
    if k in m && m[k].Log? && m[k].tid == x.tid { assert Holds(x, o, q, m[k].delta); }
  }

  function Gain(x: Xfer, o: Account): int {
    if o == x.low then x.lowDelta else if o == x.high then x.highDelta else 0
  }

  predicate Touches(x: Xfer, o: Account) {
    o == x.low || o == x.high
  }

  lemma CommitRun(m: Cells, x: Xfer, o: Account)
    requires Committing(m, x)
    ensures ReadCommitted(AfterCommit(m, x), o).0 == ReadCommitted(m, o).0 + (if Touches(x, o) then 1 else 0)
    ensures forall q: nat :: CommittedAt(AfterCommit(m, x), o, q) ==> q <= ReadCommitted(AfterCommit(m, x), o).0
  {
    var m' := AfterCommit(m, x);
    CommitEndsRuns(m, x);
    ReadCommittedMeaning(m, o);
    var n := ReadCommitted(m, o).0;
    forall q: nat
      ensures CommittedAt(m', o, q) <==> CommittedAt(m, o, q) || (Touches(x, o) && q == n + 1)
    {
      CommitFlips(m, x, o, q);
    }
    ReadCommittedUnique(m', o, if Touches(x, o) then n + 1 else n);
  }

  lemma CommitBalance(m: Cells, x: Xfer, o: Account, q: nat)
    requires Committing(m, x) && q <= ReadCommitted(m, o).0
    ensures BalanceAt(AfterCommit(m, x), o, q) == BalanceAt(m, o, q)
  {
    CommitEndsRuns(m, x);
    forall p: nat | p <= q ensures DeltaAt(AfterCommit(m, x), o, p) == DeltaAt(m, o, p) { CommitFlips(m, x, o, p); }
    SameBalance(m, AfterCommit(m, x), o, q);
  }

  /** Committing extends exactly the two runs that were locked, each by the transfer's own delta. */
  lemma CommitView(m: Cells, x: Xfer, o: Account)
    requires Committing(m, x)
    ensures var was := ReadCommitted(m, o);
            ReadCommitted(AfterCommit(m, x), o) == (was.0 + (if Touches(x, o) then 1 else 0), was.1 + Gain(x, o))
  {
    var m' := AfterCommit(m, x);
    var n := ReadCommitted(m, o).0;
    CommitRun(m, x, o);
    CommitBalance(m, x, o, n);
    ReadCommittedMeaning(m, o);
    ReadCommittedMeaning(m', o);
    if Touches(x, o) {
      CommitEndsRuns(m, x);
      CommitFlips(m, x, o, n + 1);
    }
  }

  lemma CommitKeepsOthers(m: Cells, x: Xfer, y: Xfer)
    requires Committing(m, x)
    requires y.tid != x.tid && XferInv(m, y)
    ensures XferInv(AfterCommit(m, x), y)
  {
    if Pursuing(y) {
      CommitRun(m, x, y.low);
      CommitRun(m, x, y.high);
      CommitBalance(m, x, y.from, FromSeq(y));
    }
    assert Resolved(AfterCommit(m, x), y.tid) == Resolved(m, y.tid);
  }

  lemma CommitContiguous(m: Cells, x: Xfer)
    requires Committing(m, x)
    ensures Contiguous(AfterCommit(m, x))
  {
    var m' := AfterCommit(m, x);
    forall o, q: nat | CommittedAt(m', o, q) ensures q <= ReadCommitted(m', o).0 { CommitRun(m, x, o); }
  }

  lemma CommitXfersOk(w: World, i: nat, x': Xfer)
    requires XfersOk(w.m, w.xs) && i < |w.xs| && Committing(w.m, w.xs[i])
    requires x' == w.xs[i].(ackedCommit := true, step := Done)
    ensures XfersOk(AfterCommit(w.m, w.xs[i]), w.xs[i := x'])
  {
    var m', xs' := AfterCommit(w.m, w.xs[i]), w.xs[i := x'];
    assert XferInv(w.m, w.xs[i]);
    forall j | 0 <= j < |xs'| ensures xs'[j].tid == j + 1 && XferInv(m', xs'[j]) {
      if j != i { CommitKeepsOthers(w.m, w.xs[i], w.xs[j]); }
    }
  }

  lemma AboutToCommit(w: World, i: nat)
    requires Inv(w) && i < |w.xs| && w.xs[i].step.Commit? && OutcomeKey(i + 1) !in w.m
    ensures Committing(w.m, w.xs[i]) && w.xs[i].tid == i + 1
    ensures StepCommit(w.xs[i], w.m) == (w.xs[i].(ackedCommit := true, step := Done), AfterCommit(w.m, w.xs[i]))
  {
    assert XferInv(w.m, w.xs[i]) && w.xs[i].tid == i + 1;
  }

  lemma CommitKnown(m: Cells, x: Xfer, n: nat)
    requires CommittedKnown(m, n) && 1 <= x.tid <= n
    ensures CommittedKnown(AfterCommit(m, x), n)
  {
    forall t: nat | Committed(AfterCommit(m, x), t) ensures 1 <= t <= n {
      if t != x.tid { assert Committed(m, t); }
    }
  }

  lemma CommitStep(w: World, i: nat)
    requires Inv(w) && i < |w.xs| && w.xs[i].step.Commit? && OutcomeKey(i + 1) !in w.m
    ensures Inv(World(AfterCommit(w.m, w.xs[i]), w.xs[i := w.xs[i].(ackedCommit := true, step := Done)]))
  {
    var x' := w.xs[i].(ackedCommit := true, step := Done);
    AboutToCommit(w, i);
    CommitContiguous(w.m, w.xs[i]);
    CommitXfersOk(w, i, x');
    CommitLogsOwned(w, i, x');
    CommitKnown(w.m, w.xs[i], |w.xs|);
  }

  lemma CommitLogsOwned(w: World, i: nat, x': Xfer)
    requires LogsOwned(w.m, w.xs) && i < |w.xs| && w.xs[i].tid == i + 1
    requires x' == w.xs[i].(ackedCommit := true, step := Done)
    ensures LogsOwned(AfterCommit(w.m, w.xs[i]), w.xs[i := x'])
  {
    var m', xs' := AfterCommit(w.m, w.xs[i]), w.xs[i := x'];
    forall k | k in m' && k.LogKey? && m'[k].Log?
      ensures 1 <= m'[k].tid <= |xs'| && Holds(xs'[m'[k].tid - 1], k.o, k.at, m'[k].delta)
    {
      assert k in w.m && m'[k] == w.m[k];
    }
  }

  // ----- every step

  lemma QuietTick(w: World, i: nat, now: nat, draw: Draw)
    requires Inv(w) && i < |w.xs|
    requires !w.xs[i].step.Done? && !(w.xs[i].step.Commit? && OutcomeKey(w.xs[i].tid) !in w.m)
    ensures Inv(Apply(w, Tick(i, now, draw)))
  {
    var (x', m') := StepXfer(w.xs[i], w.m, now, draw);
    Standing(w, i);
    StepQuiet(w.m, w.xs[i], now, draw);
    TurnKeeps(w, i, x', m');
  }

  lemma Standing(w: World, i: nat)
    requires Inv(w) && i < |w.xs|
    ensures Typed(w.m) && XferInv(w.m, w.xs[i]) && OwnLogs(w.m, w.xs[i])
  {
  }

  lemma TurnKeeps(w: World, i: nat, x': Xfer, m': Cells)
    requires Inv(w) && i < |w.xs| && Quiet(w.m, w.xs[i], x', m')
    ensures Inv(World(m', w.xs[i := x']))
  {
    assert w.xs[i].tid == i + 1;
    QuietStep(w, i, x', m');
  }

  lemma CommitTick(w: World, i: nat, now: nat, draw: Draw)
    requires Inv(w) && i < |w.xs| && w.xs[i].step.Commit? && OutcomeKey(w.xs[i].tid) !in w.m
    ensures Inv(Apply(w, Tick(i, now, draw)))
  {
    assert w.xs[i].tid == i + 1 by { AboutToCommit(w, i); }
    var w' := Apply(w, Tick(i, now, draw));
    assert w' == World(AfterCommit(w.m, w.xs[i]), w.xs[i := w.xs[i].(ackedCommit := true, step := Done)]) by {
      CommitMoves(w, i, now, draw);
    }
    assert Inv(w') by { CommitStep(w, i); }
  }

  lemma CommitMoves(w: World, i: nat, now: nat, draw: Draw)
    requires i < |w.xs| && w.xs[i].step.Commit? && OutcomeKey(w.xs[i].tid) !in w.m
    ensures Apply(w, Tick(i, now, draw))
         == World(AfterCommit(w.m, w.xs[i]), w.xs[i := w.xs[i].(ackedCommit := true, step := Done)])
  {
  }

  /** Every event keeps the invariant. */
  lemma EventKeepsInv(w: World, e: Event)
    requires Inv(w)
    ensures Inv(Apply(w, e))
  {
    match e {
      case Tick(i, now, draw) =>
        if i < |w.xs| {
          if w.xs[i].step.Done? {
            assert w.xs[i := w.xs[i]] == w.xs;
          } else if w.xs[i].step.Commit? && OutcomeKey(w.xs[i].tid) !in w.m {
            CommitTick(w, i, now, draw);
          } else {
            QuietTick(w, i, now, draw);
          }
        }
      case Sweep(k) => SweepStep(w, k);
    }
  }

  lemma SweepBenign(m: Cells, k: Key)
    requires Typed(m) && !Committed(m, 0)
    ensures Benign(m, SweepKey(m, k), 0) && AbortedOnly(m, SweepKey(m, k))
    ensures forall l :: l in SweepKey(m, k) && l.LogKey? ==> l in m && SweepKey(m, k)[l] == m[l]
  {
  }

  lemma BenignXfersOk(m: Cells, m': Cells, xs: seq<Xfer>)
    requires Benign(m, m', 0) && XfersOk(m, xs)
    ensures XfersOk(m', xs)
  {
    forall i | 0 <= i < |xs| ensures xs[i].tid == i + 1 && XferInv(m', xs[i]) {
      BenignKeeps(m, m', 0, xs[i]);
    }
  }

  lemma SweepLogsOwned(w: World, k: Key)
    requires LogsOwned(w.m, w.xs)
    requires forall l :: l in SweepKey(w.m, k) && l.LogKey? ==> l in w.m && SweepKey(w.m, k)[l] == w.m[l]
    ensures LogsOwned(SweepKey(w.m, k), w.xs)
  {
  }

  lemma SweepStep(w: World, k: Key)
    requires Inv(w)
    ensures Benign(w.m, SweepKey(w.m, k), 0)
    ensures Inv(World(SweepKey(w.m, k), w.xs))
  {
    var m, m' := w.m, SweepKey(w.m, k);
    SweepBenign(m, k);
    BenignContiguous(m, m', 0);
    BenignXfersOk(m, m', w.xs);
    BenignCommits(m, m', 0, |w.xs|);
    SweepLogsOwned(w, k);
  }

  // ----- main results

  /** The one event that changes anything a reader sees. */
  predicate WinsCommit(w: World, e: Event) {
    e.Tick? && e.i < |w.xs| && w.xs[e.i].step.Commit? && OutcomeKey(w.xs[e.i].tid) !in w.m
  }

  /** The transfer whose logs the event may touch; 0 names none. */
  function Actor(w: World, e: Event): nat {
    if e.Tick? && e.i < |w.xs| && !w.xs[e.i].step.Done? then w.xs[e.i].tid else 0
  }

  lemma QuietEvent(w: World, e: Event)
    requires Inv(w) && !WinsCommit(w, e)
    ensures Benign(w.m, Apply(w, e).m, Actor(w, e))
  {
    match e {
      case Tick(i, now, draw) =>
        if i < |w.xs| && !w.xs[i].step.Done? {
          QuietTurn(w, i, now, draw);
        } else {
          NothingHappens(w, i, now, draw);
        }
      case Sweep(k) =>
        assert !Committed(w.m, 0);
        SweepBenign(w.m, k);
    }
  }

  lemma QuietTurn(w: World, i: nat, now: nat, draw: Draw)
    requires Inv(w) && i < |w.xs| && !w.xs[i].step.Done?
    requires !(w.xs[i].step.Commit? && OutcomeKey(w.xs[i].tid) !in w.m)
    ensures Benign(w.m, Apply(w, Tick(i, now, draw)).m, w.xs[i].tid)
  {
    Standing(w, i);
    StepQuiet(w.m, w.xs[i], now, draw);
  }

  lemma NothingHappens(w: World, i: nat, now: nat, draw: Draw)
    requires Inv(w) && (i < |w.xs| ==> w.xs[i].step.Done?)
    ensures Apply(w, Tick(i, now, draw)).m == w.m && Benign(w.m, w.m, 0)
  {
    assert !Committed(w.m, 0);
  }

  lemma WinIsAtomic(w: World, e: Event, o: Account)
    requires Inv(w) && WinsCommit(w, e)
    ensures ReadCommitted(Apply(w, e).m, o).1 == ReadCommitted(w.m, o).1 + Gain(w.xs[e.i], o)
    ensures ReadCommitted(w.m, o).0 <= ReadCommitted(Apply(w, e).m, o).0
  {
    WinMoves(w, e);
    CommitView(w.m, w.xs[e.i], o);
  }

  lemma WinMoves(w: World, e: Event)
    requires Inv(w) && WinsCommit(w, e)
    ensures Apply(w, e).m == AfterCommit(w.m, w.xs[e.i]) && Committing(w.m, w.xs[e.i])
  {
    WinIsTick(w, e);
    ReadyToCommit(w, e.i);
  }

  lemma ReadyToCommit(w: World, i: nat)
    requires Inv(w) && i < |w.xs| && w.xs[i].step.Commit? && OutcomeKey(w.xs[i].tid) !in w.m
    ensures Committing(w.m, w.xs[i])
  {
    assert XferInv(w.m, w.xs[i]) && OwnLogs(w.m, w.xs[i]);
  }

  lemma WinIsTick(w: World, e: Event)
    requires WinsCommit(w, e)
    ensures Apply(w, e).m == AfterCommit(w.m, w.xs[e.i])
  {
    assert e == Tick(e.i, e.now, e.draw);
    CommitMoves(w, e.i, e.now, e.draw);
  }

  lemma QuietReadsSame(w: World, e: Event, o: Account)
    requires Inv(w) && !WinsCommit(w, e)
    ensures ReadCommitted(Apply(w, e).m, o) == ReadCommitted(w.m, o)
  {
    QuietEvent(w, e);
    BenignSameView(w.m, Apply(w, e).m, Actor(w, e));
    SameViewRead(w.m, Apply(w, e).m, o);
  }

  /** Transfers are atomic: an event either leaves every committed balance alone, or moves one
      transfer's amount between its two accounts, both at once. */
  lemma EventIsAtomic(w: World, e: Event, o: Account)
    requires Inv(w)
    ensures !WinsCommit(w, e) ==> ReadCommitted(Apply(w, e).m, o) == ReadCommitted(w.m, o)
    ensures WinsCommit(w, e) ==> ReadCommitted(Apply(w, e).m, o).1 == ReadCommitted(w.m, o).1 + Gain(w.xs[e.i], o)
    ensures ReadCommitted(w.m, o).0 <= ReadCommitted(Apply(w, e).m, o).0
  {
    if WinsCommit(w, e) { WinIsAtomic(w, e, o); } else { QuietReadsSame(w, e, o); }
  }

  lemma WinKeepsOutcomes(w: World, e: Event, t: nat)
    requires Inv(w) && WinsCommit(w, e) && Resolved(w.m, t).Some?
    ensures Resolved(Apply(w, e).m, t) == Resolved(w.m, t)
  {
    WinMoves(w, e);
  }

  lemma BenignOutcomes(m: Cells, m': Cells, a: nat, t: nat)
    requires Benign(m, m', a) && Resolved(m, t).Some?
    ensures Resolved(m', t) == Resolved(m, t)
  {
  }

  /** An outcome, once decided, is never changed. */
  lemma EventKeepsOutcomes(w: World, e: Event, t: nat)
    requires Inv(w) && Resolved(w.m, t).Some?
    ensures Resolved(Apply(w, e).m, t) == Resolved(w.m, t)
  {
    if WinsCommit(w, e) {
      WinKeepsOutcomes(w, e, t);
    } else {
      QuietEvent(w, e);
      BenignOutcomes(w.m, Apply(w, e).m, Actor(w, e), t);
    }
  }

  predicate SameMove(x: Xfer, y: Xfer) {
    x.low == y.low && x.high == y.high && x.from == y.from && x.amt == y.amt && x.tid == y.tid
  }

  lemma ResetSameMove(x: Xfer, m: Cells)
    ensures SameMove(x, Rollback(x, m).0) && SameMove(x, ResetOrGiveup(x, m).0)
  {
  }

  lemma PreLowSameMove(x: Xfer, m: Cells, now: nat, d: Draw)
    ensures SameMove(x, StepPreLow(x, m, now, d).0)
  {
    var (won, m1) := CreateCell(m, LogKey(x.low, x.lowSeq + 1), Log(x.tid, x.lowDelta, now));
    if !won { ResetSameMove(x, ResolveSlot(m1, x.low, x.lowSeq + 1, now).1); }
  }

  lemma PreHighSameMove(x: Xfer, m: Cells, now: nat, d: Draw)
    ensures SameMove(x, StepPreHigh(x, m, now, d).0)
  {
    var (won, m1) := CreateCell(m, LogKey(x.high, x.highSeq + 1), Log(x.tid, x.highDelta, now));
    if !won {
      var m2 := ResolveSlot(m1, x.high, x.highSeq + 1, now).1;
      ResetSameMove(x, m2);
      ResetSameMove(Rollback(x, m2).0, Rollback(x, m2).1);
    }
  }

  lemma CommitSameMove(x: Xfer, m: Cells)
    ensures SameMove(x, StepCommit(x, m).0)
  {
  }

  lemma StepSameMove(x: Xfer, m: Cells, now: nat, d: Draw)
    ensures SameMove(x, StepXfer(x, m, now, d).0)
  {
    match x.step {
      case Read => assert SameMove(x, StepRead(x, m).0);
      case PreLow => PreLowSameMove(x, m, now, d);
      case PreHigh => PreHighSameMove(x, m, now, d);
      case Commit => CommitSameMove(x, m);
      case _ =>
    }
  }

  /** Transfers never change who they move money between. */
  lemma EventKeepsTransfers(w: World, e: Event, i: nat)
    requires i < |w.xs|
    ensures |Apply(w, e).xs| == |w.xs| && SameMove(w.xs[i], Apply(w, e).xs[i])
  {
    if e.Tick? && e.i < |w.xs| { StepSameMove(w.xs[e.i], w.m, e.now, e.draw); }
  }

  ghost predicate Among(w: World, accounts: seq<Account>) {
    forall i :: 0 <= i < |w.xs| ==> w.xs[i].low in accounts && w.xs[i].high in accounts
  }

  lemma {:induction false} TotalSame(m: Cells, m': Cells, accounts: seq<Account>)
    requires forall o :: o in accounts ==> ReadCommitted(m', o).1 == ReadCommitted(m, o).1
    ensures Total(m', accounts) == Total(m, accounts)
  {
    if accounts != [] { TotalSame(m, m', accounts[1..]); }
  }

  function GainSum(x: Xfer, accounts: seq<Account>): int {
    if accounts == [] then 0 else Gain(x, accounts[0]) + GainSum(x, accounts[1..])
  }

  lemma {:induction false} TotalGains(m: Cells, m': Cells, x: Xfer, accounts: seq<Account>)
    requires forall o :: o in accounts ==> ReadCommitted(m', o).1 == ReadCommitted(m, o).1 + Gain(x, o)
    ensures Total(m', accounts) == Total(m, accounts) + GainSum(x, accounts)
  {
    if accounts != [] { TotalGains(m, m', x, accounts[1..]); }
  }

  /** Over distinct accounts the two legs of a transfer add up to what they touch. */
  lemma {:induction false} GainSumIs(x: Xfer, accounts: seq<Account>)
    requires Distinct(accounts) && x.low != x.high
    ensures GainSum(x, accounts) ==
            (if x.low in accounts then x.lowDelta else 0) + (if x.high in accounts then x.highDelta else 0)
  {
    if accounts != [] {
      assert forall j :: 0 <= j < |accounts[1..]| ==> accounts[1..][j] == accounts[j + 1];
      assert accounts[0] !in accounts[1..];
      GainSumIs(x, accounts[1..]);
    }
  }

  lemma EventConserves(w: World, e: Event, accounts: seq<Account>)
    requires Inv(w) && Distinct(accounts) && Among(w, accounts)
    ensures Total(Apply(w, e).m, accounts) == Total(w.m, accounts)
  {
    var m' := Apply(w, e).m;
    if WinsCommit(w, e) {
      var x := w.xs[e.i];
      assert Shape(x) by { assert XferInv(w.m, x); }
      forall o | o in accounts ensures ReadCommitted(m', o).1 == ReadCommitted(w.m, o).1 + Gain(x, o) {
        EventIsAtomic(w, e, o);
      }
      TotalGains(w.m, m', x, accounts);
      GainSumIs(x, accounts);
    } else {
      forall o | o in accounts ensures ReadCommitted(m', o).1 == ReadCommitted(w.m, o).1 {
        EventIsAtomic(w, e, o);
      }
      TotalSame(w.m, m', accounts);
    }
  }

  ghost predicate Solvent(w: World) {
    && (forall i :: 0 <= i < |w.xs| ==> w.xs[i].amt >= 0)
    && forall o: Account :: ReadCommitted(w.m, o).1 >= 0
  }

  lemma SpendsWhatIsThere(w: World, e: Event, o: Account)
    requires Inv(w) && Solvent(w) && WinsCommit(w, e) && Touches(w.xs[e.i], o)
    ensures ReadCommitted(w.m, o).1 + Gain(w.xs[e.i], o) >= 0
  {
    var x := w.xs[e.i];
    AboutToCommit(w, e.i);
    CommitEndsRuns(w.m, x);
    ReadCommittedMeaning(w.m, o);
    assert x.amt <= BalanceAt(w.m, x.from, FromSeq(x));
  }

  lemma EventBalance(w: World, e: Event, o: Account)
    requires Inv(w) && Solvent(w)
    ensures ReadCommitted(Apply(w, e).m, o).1 >= 0
  {
    EventIsAtomic(w, e, o);
    if WinsCommit(w, e) && Touches(w.xs[e.i], o) { SpendsWhatIsThere(w, e, o); }
  }

  /** No balance ever goes negative: the funds read at the start are still there at the commit. */
  lemma EventKeepsSolvent(w: World, e: Event)
    requires Inv(w) && Solvent(w)
    ensures Solvent(Apply(w, e))
  {
    forall i | 0 <= i < |w.xs| ensures Apply(w, e).xs[i].amt >= 0 { EventKeepsTransfers(w, e, i); }
    forall o: Account ensures ReadCommitted(Apply(w, e).m, o).1 >= 0 { EventBalance(w, e, o); }
  }

  lemma InitialInv(w: World)
    requires Initial(w)
    ensures Inv(w)
  {
    forall i | 0 <= i < |w.xs| ensures w.xs[i].tid == i + 1 && XferInv(w.m, w.xs[i]) {
      assert FreshXfer(w.xs[i], i + 1);
    }
  }

  /** The invariant and every decided outcome survive any schedule. */
  lemma {:induction false} RunKeeps(w: World, events: seq<Event>)
    requires Inv(w)
    ensures Inv(RunAll(w, events)) && |RunAll(w, events).xs| == |w.xs|
    ensures Solvent(w) ==> Solvent(RunAll(w, events))
    ensures forall t: nat :: Resolved(w.m, t).Some? ==> Resolved(RunAll(w, events).m, t) == Resolved(w.m, t)
    decreases |events|
  {
    if events != [] {
      var w1 := Apply(w, events[0]);
      EventKeepsInv(w, events[0]);
      if Solvent(w) { EventKeepsSolvent(w, events[0]); }
      forall t: nat | Resolved(w.m, t).Some? ensures Resolved(w1.m, t) == Resolved(w.m, t) {
        EventKeepsOutcomes(w, events[0], t);
      }
      RunKeeps(w1, events[1..]);
    }
  }

  lemma {:induction false} RunConserves(w: World, events: seq<Event>, accounts: seq<Account>)
    requires Inv(w) && Distinct(accounts) && Among(w, accounts)
    ensures Total(RunAll(w, events).m, accounts) == Total(w.m, accounts)
    decreases |events|
  {
    if events != [] {
      var w1 := Apply(w, events[0]);
      EventKeepsInv(w, events[0]);
      EventConserves(w, events[0], accounts);
      forall i | 0 <= i < |w1.xs| ensures w1.xs[i].low in accounts && w1.xs[i].high in accounts {
        EventKeepsTransfers(w, events[0], i);
      }
      RunConserves(w1, events[1..], accounts);
    }
  }

  lemma {:induction false} RunAppend(w: World, a: seq<Event>, b: seq<Event>)
    ensures RunAll(w, a + b) == RunAll(RunAll(w, a), b)
    decreases |a|
  {
    if a == [] {
      assert a + b == b;
    } else {
      assert (a + b)[1..] == a[1..] + b;
      RunAppend(Apply(w, a[0]), a[1..], b);
    }
  }

  /** Conservation under any schedule: however the transfers are interleaved, paused, crashed or
      swept, the committed total never moves and no balance goes negative. */
  lemma Conservation(w: World, events: seq<Event>, accounts: seq<Account>)
    requires Initial(w) && Distinct(accounts) && Among(w, accounts)
    ensures Total(RunAll(w, events).m, accounts) == Total(w.m, accounts)
    ensures Solvent(w) ==> forall o: Account :: ReadCommitted(RunAll(w, events).m, o).1 >= 0
  {
    InitialInv(w);
    RunKeeps(w, events);
    RunConserves(w, events, accounts);
  }

  /** The leg of transfer `x` on account `o` is part of what a reader of `o` sees. */
  ghost predicate LegVisible(m: Cells, x: Xfer, o: Account, q: nat, delta: int) {
    q < ReadCommitted(m, o).0 && SlotIs(m, o, q + 1, x.tid, delta)
  }

  /** An acknowledged transfer is visible on both accounts, an unacknowledged one on neither. */
  lemma AllOrNothing(w: World, i: nat)
    requires Inv(w) && i < |w.xs|
    ensures var x := w.xs[i];
            && (x.ackedCommit <==> Committed(w.m, x.tid))
            && (x.ackedCommit ==> LegVisible(w.m, x, x.low, x.lowSeq, x.lowDelta))
            && (x.ackedCommit ==> LegVisible(w.m, x, x.high, x.highSeq, x.highDelta))
    ensures var x := w.xs[i];
            !x.ackedCommit ==> forall o, q: nat :: BaseOf(w.m, o).0 < q <= ReadCommitted(w.m, o).0 ==>
              LogKey(o, q) in w.m && w.m[LogKey(o, q)].tid != x.tid
  {
    assert XferInv(w.m, w.xs[i]);
    if w.xs[i].ackedCommit {
      LegsVisible(w.m, w.xs[i]);
    } else {
      LegsInvisible(w.m, w.xs[i].tid);
    }
  }

  lemma LegsVisible(m: Cells, x: Xfer)
    requires Contiguous(m) && XferInv(m, x) && x.step.Done?
    ensures LegVisible(m, x, x.low, x.lowSeq, x.lowDelta) && LegVisible(m, x, x.high, x.highSeq, x.highDelta)
  {
    assert CommittedAt(m, x.low, x.lowSeq + 1) && CommittedAt(m, x.high, x.highSeq + 1);
  }

  lemma LegsInvisible(m: Cells, t: nat)
    requires !Committed(m, t)
    ensures forall o, q: nat :: BaseOf(m, o).0 < q <= ReadCommitted(m, o).0 ==>
              LogKey(o, q) in m && m[LogKey(o, q)].Log? && m[LogKey(o, q)].tid != t
  {
    forall o, q: nat | BaseOf(m, o).0 < q <= ReadCommitted(m, o).0
      ensures LogKey(o, q) in m && m[LogKey(o, q)].Log? && m[LogKey(o, q)].tid != t
    {
      ReadCommittedMeaning(m, o);
      assert CommittedAt(m, o, q);
    }
  }

  /** A transfer that acknowledged its commit is committed in every later state. */
  lemma AcksAreForever(w: World, before: seq<Event>, after: seq<Event>, i: nat)
    requires Initial(w) && i < |RunAll(w, before).xs| && RunAll(w, before).xs[i].ackedCommit
    ensures Committed(RunAll(w, before + after).m, RunAll(w, before).xs[i].tid)
  {
    InitialInv(w);
    RunKeeps(w, before);
    RunAppend(w, before, after);
    RunKeeps(RunAll(w, before), after);
    AllOrNothing(RunAll(w, before), i);
  }
}
