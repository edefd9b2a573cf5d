/** The objects of src/bin/protosim.rs: a store changed in place, transfers whose step
    updates their fields, and the scheduler loop with its oracle.  Each method is
    proved against the functions of `Protosim`; the oracle never reports a violation. */
module ProtosimRun {
  import opened Protosim
  import opened ProtosimProof

  class Store {
    var m: Cells

    constructor ()
      ensures m == map[]
    {
      m := map[];
    }

    method Put(k: Key, c: Cell)
      modifies this
      ensures m == old(m)[k := c]
    {
      m := m[k := c];
    }

    /** Only the first to create a key wins it. */
    method Create(k: Key, c: Cell) returns (won: bool)
      modifies this
      ensures (won, m) == CreateCell(old(m), k, c)
    {
      if k in m { return false; }
      m := m[k := c];
      return true;
    }

    method Delete(k: Key)
      modifies this
      ensures m == old(m) - {k}
    {
      m := m - {k};
    }

    method DeleteIf(k: Key, tid: nat)
      modifies this
      ensures m == SafeDelete(old(m), k, tid)
    {
      if k in m && m[k].Log? && m[k].tid == tid { Delete(k); }
    }

    /** The read loop ends at the first slot that is not committed, with the balance there. */
    method Read(o: Account) returns (at: nat, val: int)
      ensures (at, val) == ReadCommitted(m, o)
      ensures BaseOf(m, o).0 <= at && val == BalanceAt(m, o, at)
      ensures !CommittedAt(m, o, at + 1) && forall q :: BaseOf(m, o).0 < q <= at ==> CommittedAt(m, o, q)
    {
      ReadCommittedMeaning(m, o);
      at, val := BaseOf(m, o).0, BaseOf(m, o).1;
      while CommittedAt(m, o, at + 1)
        invariant ReadFrom(m, o, at, val) == ReadCommitted(m, o)
        decreases ReadCommitted(m, o).0 - at
      {
        val := val + m[LogKey(o, at + 1)].delta;
        at := at + 1;
      }
    }

    /** An entry that no rival may remove: its transfer has committed, or is undecided and no older than 40 ticks. */
    static predicate Waits(cells: Cells, c: Cell, now: nat)
      requires c.Log?
    {
      if OutcomeKey(c.tid) in cells then cells[OutcomeKey(c.tid)] == Outcome(true) else now <= c.born + 40
    }

    /** Clear a slot, if that may be done: an entry that need not be waited for goes, and its transfer is aborted. */
    method Resolve(o: Account, at: nat, now: nat) returns (free: bool)
      modifies this
      ensures (free, m) == ResolveSlot(old(m), o, at, now)
      ensures Typed(old(m)) ==>
                var k := LogKey(o, at);
                if k !in old(m) then free && m == old(m)
                else if Waits(old(m), old(m)[k], now) then !free && m == old(m)
                else free && m == old(m)[OutcomeKey(old(m)[k].tid) := Outcome(false)] - {k}
    {
      var k := LogKey(o, at);
      if k !in m { return true; }
      if !m[k].Log? { return false; }
      var tid, born := m[k].tid, m[k].born;
      match Resolved(m, tid)
      case Some(true) => return false;
      case Some(false) =>
        Delete(k);
        return true;
      case None =>
        if now <= born + TTL { return false; }
        var won := Create(OutcomeKey(tid), Outcome(false));
        if won || Resolved(m, tid) == Some(false) {
          Delete(k);
          return true;
        }
        return false;
    }
  }

  class Transfer {
    const tid: nat
    const from: Account
    const amt: int
    const low: Account
    const high: Account
    const lowDelta: int
    const highDelta: int
    const crash: bool
    var lowSeq: nat
    var highSeq: nat
    var madeLow: bool
    var madeHigh: bool
    var step: Step
    var retries: nat
    var resumeAt: nat
    var pauseBudget: nat
    var ackedCommit: bool

    constructor (tid: nat, from: Account, to: Account, amt: int, pauses: nat, crash: bool)
      ensures View() == NewXfer(tid, from, to, amt, pauses, crash)
    {
      this.tid, this.from, this.amt, this.crash := tid, from, amt, crash;
      var lo, hi := if from <= to then from else to, if from <= to then to else from;
      this.low, this.high := lo, hi;
      this.lowDelta, this.highDelta := if lo == from then -amt else amt, if lo == from then amt else -amt;
      lowSeq, highSeq, madeLow, madeHigh, step := 0, 0, false, false, Read;
      retries, resumeAt, pauseBudget, ackedCommit := 0, 0, pauses, false;
    }

    /** The transfer as a value. */
    ghost function View(): Xfer
      reads this
    {
      Xfer(tid, from, amt, low, high, lowSeq, highSeq, lowDelta, highDelta, madeLow, madeHigh, step, retries,
           resumeAt, pauseBudget, crash, ackedCommit)
    }

    predicate Runnable(now: nat)
      reads this
      ensures Runnable(now) ==> Active(View())
    {
      !step.Done? && !step.Aborted? && !step.Crashed? && now >= resumeAt
    }

    method Pause(now: nat, d: Draw)
      modifies this`pauseBudget, this`resumeAt
      ensures View() == MaybePause(old(View()), now, d)
    {
      if pauseBudget > 0 && d.coin == 0 {
        pauseBudget := pauseBudget - 1;
        resumeAt := now + 10 + d.spell;
      }
    }

    method RollBack(s: Store)
      modifies this`madeLow, this`madeHigh, s
      ensures (View(), s.m) == Rollback(old(View()), old(s.m))
    {
      if madeHigh { s.DeleteIf(LogKey(high, highSeq + 1), tid); }
      if madeLow { s.DeleteIf(LogKey(low, lowSeq + 1), tid); }
      madeLow := false;
      madeHigh := false;
    }

    method Reset(s: Store)
      modifies this, s
      ensures (View(), s.m) == ResetOrGiveup(old(View()), old(s.m))
    {
      RollBack(s);
      retries := retries + 1;
      resumeAt := 0;
      step := if retries > MAX_RETRIES then Aborted else Read;
    }

    method StepOnRead(s: Store)
      modifies this
      ensures (View(), s.m) == StepRead(old(View()), old(s.m))
    {
      var lo, lv := s.Read(low);
      var hi, hv := s.Read(high);
      var fromVal := lv;
      if low != from {
        var at;
        at, fromVal := s.Read(from);
      }
      if fromVal < amt {
        step := Aborted;
      } else {
        lowSeq, highSeq, step := lo, hi, PreLow;
      }
    }

    method StepOnPreLow(s: Store, now: nat, d: Draw)
      modifies this, s
      ensures (View(), s.m) == StepPreLow(old(View()), old(s.m), now, d)
    {
      var won := s.Create(LogKey(low, lowSeq + 1), Log(tid, lowDelta, now));
      if won {
        madeLow := true;
        Pause(now, d);
        step := PreHigh;
      } else {
        var free := s.Resolve(low, lowSeq + 1, now);
        if !free { Reset(s); }
      }
    }

    method StepOnPreHigh(s: Store, now: nat, d: Draw)
      modifies this, s
      ensures (View(), s.m) == StepPreHigh(old(View()), old(s.m), now, d)
    {
      var won := s.Create(LogKey(high, highSeq + 1), Log(tid, highDelta, now));
      if won {
        madeHigh := true;
        if crash {
          step := Crashed;
          return;
        }
        Pause(now, d);
        step := Commit;
      } else {
        var free := s.Resolve(high, highSeq + 1, now);
        if !free {
          RollBack(s);
          Reset(s);
        }
      }
    }

    method StepOnCommit(s: Store)
      modifies this, s
      ensures (View(), s.m) == StepCommit(old(View()), old(s.m))
    {
      var won := s.Create(OutcomeKey(tid), Outcome(true));
      if won {
        ackedCommit := true;
        step := Done;
      } else {
        RollBack(s);
        Reset(s);
      }
    }

    /** One call is one transition. */
    method Advance(s: Store, now: nat, d: Draw)
      modifies this, s
      ensures (View(), s.m) == StepXfer(old(View()), old(s.m), now, d)
    {
      match step
      case Read => StepOnRead(s);
      case PreLow => StepOnPreLow(s, now, d);
      case PreHigh => StepOnPreHigh(s, now, d);
      case Commit => StepOnCommit(s);
      case _ =>
    }
  }

  // ----- the scheduler and its oracle

  ghost predicate Separate(ts: seq<Transfer>) {
    forall i, j :: 0 <= i < j < |ts| ==> ts[i] != ts[j]
  }

  ghost function Views(ts: seq<Transfer>): seq<Xfer>
    reads ts
  {
    seq(|ts|, i requires 0 <= i < |ts| reads ts => ts[i].View())
  }

  /** What the generator of a simulation draws for one transfer. */
  datatype Plan = Plan(from: Account, to: Account, amt: int, pauses: nat, crash: bool)

  datatype Report = Report(conserved: bool, ackConsistent: bool, totalStart: int, totalEnd: int)

  method Sum(s: Store, names: seq<Account>) returns (total: int)
    ensures total == Total(s.m, names)
  {
    total := 0;
    var i := |names|;
    while i > 0
      invariant 0 <= i <= |names|
      invariant total == Total(s.m, names[i..])
    {
      i := i - 1;
      assert names[i..][1..] == names[i + 1..];
      var at, val := s.Read(names[i]);
      total := total + val;
    }
  }

  /** A bank just opened: every account has the same base balance, and nothing else is stored. */
  ghost predicate Opened(m: Cells, names: seq<Account>, init: int) {
    && (forall k :: k in m ==> k.BaseKey? && m[k] == Base(0, init))
    && (forall n :: n in names ==> BaseKey(n) in m)
  }

  method Open(names: seq<Account>, init: int) returns (s: Store)
    ensures fresh(s) && Opened(s.m, names, init)
  {
    s := new Store();
    for i := 0 to |names|
      invariant fresh(s) && Opened(s.m, names[..i], init)
    {
      s.Put(BaseKey(names[i]), Base(0, init));
      assert names[..i + 1] == names[..i] + [names[i]];
    }
    assert names[..|names|] == names;
  }

  lemma {:induction false} OpeningTotal(m: Cells, all: seq<Account>, names: seq<Account>, init: int)
    requires Opened(m, all, init) && forall n :: n in names ==> n in all
    ensures Total(m, names) == |names| * init
  {
    if names != [] {
      ReadCommittedMeaning(m, names[0]);
      assert !CommittedAt(m, names[0], 1);
      OpeningTotal(m, all, names[1..], init);
    }
  }

  method Hire(plans: seq<Plan>) returns (ts: seq<Transfer>)
    requires forall p :: p in plans ==> p.from != p.to
    ensures |ts| == |plans| && Separate(ts) && fresh(ts)
    ensures forall i :: 0 <= i < |ts| ==>
              ts[i].View() == NewXfer(i + 1, plans[i].from, plans[i].to, plans[i].amt, plans[i].pauses, plans[i].crash)
  {
    ts := [];
    for i := 0 to |plans|
      invariant |ts| == i && Separate(ts) && fresh(ts)
      invariant forall j :: 0 <= j < i ==>
                  ts[j].View() == NewXfer(j + 1, plans[j].from, plans[j].to, plans[j].amt, plans[j].pauses,
                      plans[j].crash)
    {
      var p := plans[i];
      var t := new Transfer(i + 1, p.from, p.to, p.amt, p.pauses, p.crash);
      ts := ts + [t];
    }
  }

  /** The transfers that may run now. */
  method Ready(ts: seq<Transfer>, now: nat) returns (idxs: seq<nat>)
    ensures forall i :: i in idxs <==> 0 <= i < |ts| && ts[i].Runnable(now)
  {
    idxs := [];
    for i := 0 to |ts|
      invariant forall j :: j in idxs <==> 0 <= j < i && ts[j].Runnable(now)
    {
      if ts[i].Runnable(now) { idxs := idxs + [i]; }
    }
  }

  /** No lock is left: every log entry belongs to a committed transfer, `but` for those. */
  ghost predicate NoLocks(m: Cells, but: set<Key>) {
    forall k :: k in m && m[k].Log? && k !in but ==> Resolved(m, m[k].tid) == Some(true)
  }

  lemma SweepClears(m: Cells, k: Key, but: set<Key>)
    requires Typed(m) && NoLocks(m, but)
    ensures NoLocks(SweepKey(m, k), but - {k})
  {
  }

  /** Abort every undecided owner of a log entry and roll back the aborted ones: readers see no difference, decided
      outcomes stay, and only committed entries are left. */
  method FinalSweep(s: Store, ghost xs: seq<Xfer>)
    requires Inv(World(s.m, xs))
    modifies s
    ensures Inv(World(s.m, xs)) && NoLocks(s.m, {})
    ensures forall o :: ReadCommitted(s.m, o) == ReadCommitted(old(s.m), o)
    ensures forall t: nat :: Resolved(old(s.m), t).Some? ==> Resolved(s.m, t) == Resolved(old(s.m), t)
  {
    var keys := set k | k in s.m && s.m[k].Log?;
    while keys != {}
      invariant Inv(World(s.m, xs)) && NoLocks(s.m, keys)
      invariant forall o :: ReadCommitted(s.m, o) == ReadCommitted(old(s.m), o)
      invariant forall t: nat :: Resolved(old(s.m), t).Some? ==> Resolved(s.m, t) == Resolved(old(s.m), t)
      decreases |keys|
    {
      var k :| k in keys;
      ghost var before := World(s.m, xs);
      SweepOne(s, k);
      SweepClears(before.m, k, keys);
      keys := keys - {k};
      EventKeepsInv(before, Sweep(k));
      forall o ensures ReadCommitted(s.m, o) == ReadCommitted(before.m, o) { EventIsAtomic(before, Sweep(k), o); }
      forall t: nat | Resolved(before.m, t).Some? ensures Resolved(s.m, t) == Resolved(before.m, t) {
        EventKeepsOutcomes(before, Sweep(k), t);
      }
    }
  }

  method SweepOne(s: Store, k: Key)
    modifies s
    ensures s.m == SweepKey(old(s.m), k)
  {
    if k in s.m && s.m[k].Log? {
      var t := s.m[k].tid;
      if Resolved(s.m, t).None? {
        var _ := s.Create(OutcomeKey(t), Outcome(false));
      }
      if Resolved(s.m, t) == Some(false) { s.Delete(k); }
    }
  }

  const MAX_TICKS: nat := 2_000_000

  ghost predicate Consistent(s: Store, ts: seq<Transfer>, names: seq<Account>, total: int)
    reads s, ts
  {
    && Separate(ts)
    && Inv(World(s.m, Views(ts)))
    && Among(World(s.m, Views(ts)), names)
    && Total(s.m, names) == total
  }

  /** One scheduled step is one event of the protocol. */
  method Schedule(s: Store, ts: seq<Transfer>, pick: nat, now: nat, d: Draw, ghost names: seq<Account>,
                  ghost total: int)
    requires pick < |ts| && Distinct(names) && Consistent(s, ts, names, total)
    modifies s, ts
    ensures Consistent(s, ts, names, total)
    ensures World(s.m, Views(ts)) == Apply(old(World(s.m, Views(ts))), Tick(pick, now, d))
  {
    ghost var before := World(s.m, Views(ts));
    ts[pick].Advance(s, now, d);
    ghost var e := Tick(pick, now, d);
    assert World(s.m, Views(ts)) == Apply(before, e) by {
      assert Views(ts) == before.xs[pick := ts[pick].View()];
    }
    EventKeepsInv(before, e);
    EventConserves(before, e, names);
    forall i | 0 <= i < |ts| ensures Views(ts)[i].low in names && Views(ts)[i].high in names {
      EventKeepsTransfers(before, e, i);
    }
  }

  /** The world before the first turn: a bank just opened, and the planned transfers. */
  ghost predicate Starts(w: World, names: seq<Account>, init: int, plans: seq<Plan>) {
    && Opened(w.m, names, init) && |w.xs| == |plans|
    && forall i :: 0 <= i < |plans| ==>
         w.xs[i] == NewXfer(i + 1, plans[i].from, plans[i].to, plans[i].amt, plans[i].pauses, plans[i].crash)
  }

  method Setup(names: seq<Account>, init: int, plans: seq<Plan>)
    returns (s: Store, ts: seq<Transfer>, total: int)
    requires Distinct(names)
    requires forall p :: p in plans ==> p.from != p.to && p.from in names && p.to in names
    ensures fresh(s) && fresh(ts) && Consistent(s, ts, names, total) && total == |names| * init
    ensures Starts(World(s.m, Views(ts)), names, init, plans)
  {
    s := Open(names, init);
    OpeningTotal(s.m, names, names, init);
    total := Sum(s, names);
    ts := Hire(plans);
    ghost var w := World(s.m, Views(ts));
    forall i | 0 <= i < |w.xs|
      ensures FreshXfer(w.xs[i], i + 1) && w.xs[i].low in names && w.xs[i].high in names
    {
      assert plans[i] in plans;
      assert w.xs[i] == NewXfer(i + 1, w.xs[i].from, plans[i].to, w.xs[i].amt, w.xs[i].pauseBudget, w.xs[i].crash);
    }
    InitialInv(w);
  }

  /** A turn of the scheduler: the clock moves on because nobody may run, or a transfer takes a step. */
  datatype Turn = Wait | Run(i: nat, d: Draw)

  ghost predicate CanRun(x: Xfer, now: nat) {
    Active(x) && now >= x.resumeAt
  }

  /** The turns lead from `w` at time `now` to `w'`. */
  ghost predicate Plays(w: World, now: nat, turns: seq<Turn>, w': World, now': nat)
    decreases |turns|
  {
    if turns == [] then w' == w && now' == now
    else
      match turns[0]
      case Wait =>
        && (forall i :: 0 <= i < |w.xs| ==> !CanRun(w.xs[i], now)) && (exists i :: 0 <= i < |w.xs| && Active(w.xs[i]))
        && Plays(w, now + 5, turns[1..], w', now')
      case Run(i, d) =>
        i < |w.xs| && CanRun(w.xs[i], now) && Plays(Apply(w, Tick(i, now, d)), now + 1, turns[1..], w', now')
  }

  /** The events among the turns. */
  function Ticks(now: nat, turns: seq<Turn>): seq<Event>
    decreases |turns|
  {
    if turns == [] then []
    else
      match turns[0]
      case Wait => Ticks(now + 5, turns[1..])
      case Run(i, d) => [Tick(i, now, d)] + Ticks(now + 1, turns[1..])
  }

  lemma {:induction false} PlaysIsRun(w: World, now: nat, turns: seq<Turn>, w': World, now': nat)
    requires Plays(w, now, turns, w', now')
    ensures w' == RunAll(w, Ticks(now, turns))
    decreases |turns|
  {
    if turns != [] {
      match turns[0]
      case Wait => PlaysIsRun(w, now + 5, turns[1..], w', now');
      case Run(i, d) =>
        PlaysIsRun(Apply(w, Tick(i, now, d)), now + 1, turns[1..], w', now');
        assert ([Tick(i, now, d)] + Ticks(now + 1, turns[1..]))[1..] == Ticks(now + 1, turns[1..]);
    }
  }

  lemma {:induction false} PlaysOn(w: World, now: nat, turns: seq<Turn>, mid: World, since: nat, turn: Turn, w': World,
                                   now': nat)
    requires Plays(w, now, turns, mid, since) && Plays(mid, since, [turn], w', now')
    ensures Plays(w, now, turns + [turn], w', now')
    decreases |turns|
  {
    if turns == [] {
      assert turns + [turn] == [turn];
    } else {
      assert (turns + [turn])[1..] == turns[1..] + [turn];
      match turns[0]
      case Wait => PlaysOn(w, now + 5, turns[1..], mid, since, turn, w', now');
      case Run(i, d) => PlaysOn(Apply(w, Tick(i, now, d)), now + 1, turns[1..], mid, since, turn, w', now');
    }
  }

  /** The scheduler's turn, if any transfer is active. */
  method TakeTurn(s: Store, ts: seq<Transfer>, now: nat, choice: nat, draw: Draw, ghost names: seq<Account>,
                  ghost total: int)
    returns (over: bool, now': nat, ghost turn: Turn)
    requires Distinct(names) && Consistent(s, ts, names, total)
    modifies s, ts
    ensures Consistent(s, ts, names, total)
    ensures over ==> now' == now && World(s.m, Views(ts)) == old(World(s.m, Views(ts))) && forall i :: 0 <= i < |ts| ==>
        !Active(ts[i].View())
    ensures !over ==> Plays(old(World(s.m, Views(ts))), now, [turn], World(s.m, Views(ts)), now')
  {
    ghost var w := World(s.m, Views(ts));
    var idxs := Ready(ts, now);
    over, now', turn := false, now, Wait;
    if idxs == [] {
      NobodyRuns(ts, w, now, idxs);
      if forall i :: 0 <= i < |ts| ==> ts[i].step.Done? || ts[i].step.Aborted? || ts[i].step.Crashed? {
        over := true;
      } else {
        ghost var i :| 0 <= i < |ts| && !(ts[i].step.Done? || ts[i].step.Aborted? || ts[i].step.Crashed?);
        assert Active(w.xs[i]);
        now' := now + 5;
      }
    } else {
      var pick := idxs[choice % |idxs|];
      assert pick in idxs;
      Schedule(s, ts, pick, now, draw, names, total);
      turn, now' := Run(pick, draw), now + 1;
    }
    assert [turn][1..] == [];
  }

  lemma NobodyRuns(ts: seq<Transfer>, w: World, now: nat, idxs: seq<nat>)
    requires w.xs == Views(ts) && idxs == [] && forall i :: i in idxs <==> 0 <= i < |ts| && ts[i].Runnable(now)
    ensures forall i :: 0 <= i < |w.xs| ==> !CanRun(w.xs[i], now)
  {
    forall i | 0 <= i < |w.xs| ensures !CanRun(w.xs[i], now) { assert !ts[i].Runnable(now); }
  }

  /** Interleave the transfers until none is active or the guard trips. */
  method Interleave(s: Store, ts: seq<Transfer>, names: seq<Account>, choices: nat -> nat, ghost total: int)
    returns (ghost turns: seq<Turn>, ghost end: nat)
    requires Distinct(names) && Consistent(s, ts, names, total)
    modifies s, ts
    ensures Consistent(s, ts, names, total)
    ensures Plays(old(World(s.m, Views(ts))), 0, turns, World(s.m, Views(ts)), end)
    ensures World(s.m, Views(ts)) == RunAll(old(World(s.m, Views(ts))), Ticks(0, turns))
    ensures |turns| == MAX_TICKS + 1 || (|turns| <= MAX_TICKS && forall i :: 0 <= i < |ts| ==> !Active(ts[i].View()))
  {
    ghost var w := World(s.m, Views(ts));
    var now, guard, drawn, over := 0, 0, 0, false;
    turns := [];
    while guard <= MAX_TICKS && !over
      invariant Consistent(s, ts, names, total) && |turns| == guard <= MAX_TICKS + 1
      invariant Plays(w, 0, turns, World(s.m, Views(ts)), now)
      invariant over ==> guard <= MAX_TICKS && forall i :: 0 <= i < |ts| ==> !Active(ts[i].View())
      decreases MAX_TICKS + 1 - guard, !over
    {
      ghost var mid, since, past := World(s.m, Views(ts)), now, turns;
      ghost var turn;
      var draw := Draw(choices(drawn + 1) % 2, choices(drawn + 2) % (TTL + 30));
      over, now, turn := TakeTurn(s, ts, now, choices(drawn), draw, names, total);
      drawn := drawn + 3;
      if !over {
        turns, guard := turns + [turn], guard + 1;
        PlaysOn(w, 0, past, mid, since, turn, World(s.m, Views(ts)), now);
      }
    }
    end := now;
    PlaysIsRun(w, 0, turns, World(s.m, Views(ts)), now);
  }

  /** Every transfer that believes it committed has a durable outcome saying so. */
  method AcksHold(s: Store, ts: seq<Transfer>) returns (ok: bool)
    ensures ok <==> forall i :: 0 <= i < |ts| ==> ts[i].ackedCommit ==> Committed(s.m, ts[i].tid)
  {
    for i := 0 to |ts|
      invariant forall j :: 0 <= j < i ==> ts[j].ackedCommit ==> Committed(s.m, ts[j].tid)
    {
      if ts[i].ackedCommit && !Committed(s.m, ts[i].tid) { return false; }
    }
    return true;
  }

  /** After the sweep readers see what they saw, decided outcomes stand, and no lock is left. */
  ghost predicate Swept(before: Cells, after: Cells) {
    && (forall o :: ReadCommitted(after, o) == ReadCommitted(before, o))
    && (forall t: nat :: Resolved(before, t).Some? ==> Resolved(after, t) == Resolved(before, t))
    && NoLocks(after, {})
  }

  ghost predicate AllAcksHold(s: Store, ts: seq<Transfer>)
    reads s, ts
  {
    forall i :: 0 <= i < |ts| ==> ts[i].ackedCommit ==> Committed(s.m, ts[i].tid)
  }

  /** The sweep and the oracle. */
  method Judge(s: Store, ts: seq<Transfer>, names: seq<Account>, totalStart: int, ghost last: World) returns (r: Report)
    requires Consistent(s, ts, names, totalStart) && last == World(s.m, Views(ts))
    modifies s
    ensures Views(ts) == last.xs && Swept(last.m, s.m)
    ensures r.totalStart == totalStart && r.totalEnd == Total(s.m, names) == Total(last.m, names)
    ensures r.conserved == (r.totalEnd == r.totalStart) && r.ackConsistent == AllAcksHold(s, ts) == true
  {
    FinalSweep(s, last.xs);
    assert Views(ts) == last.xs;
    TotalSame(last.m, s.m, names);
    AcksSwept(s, ts, last);
    var totalEnd := Sum(s, names);
    var ackConsistent := AcksHold(s, ts);
    r := Report(totalEnd == totalStart, ackConsistent, totalStart, totalEnd);
  }

  lemma AcksSwept(s: Store, ts: seq<Transfer>, last: World)
    requires Inv(last) && Views(ts) == last.xs && Swept(last.m, s.m)
    ensures AllAcksHold(s, ts)
  {
    forall i | 0 <= i < |ts| && ts[i].ackedCommit ensures Committed(s.m, ts[i].tid) {
      assert Views(ts)[i] == last.xs[i];
      AllOrNothing(last, i);
    }
  }

  /** A whole simulation with its oracle.  `choices` is the random generator; for any of its answers the transfers play
      from the opening to the end, the store is swept, the report is about what they left, and it is good. */
  method Simulate(names: seq<Account>, init: int, plans: seq<Plan>, choices: nat -> nat)
    returns (r: Report, s: Store, ts: seq<Transfer>,
             ghost first: World, ghost last: World, ghost turns: seq<Turn>, ghost end: nat)
    requires Distinct(names)
    requires forall p :: p in plans ==> p.from != p.to && p.from in names && p.to in names
    ensures Starts(first, names, init, plans) && Plays(first, 0, turns, last, end)
    ensures |turns| == MAX_TICKS + 1 || forall i :: 0 <= i < |last.xs| ==> !Active(last.xs[i])
    ensures Views(ts) == last.xs && Swept(last.m, s.m)
    ensures r.totalStart == Total(first.m, names) && r.totalEnd == Total(s.m, names)
    ensures r.conserved == (r.totalEnd == r.totalStart) && r.ackConsistent == AllAcksHold(s, ts)
    ensures r.conserved && r.ackConsistent && r.totalStart == r.totalEnd == |names| * init
  {
    var totalStart;
    s, ts, totalStart := Setup(names, init, plans);
    first := World(s.m, Views(ts));
    turns, end := Interleave(s, ts, names, choices, totalStart);
    last := World(s.m, Views(ts));
    r := Judge(s, ts, names, totalStart, last);
  }
}
