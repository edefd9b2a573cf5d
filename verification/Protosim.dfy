/** The log-structured transfer protocol at store level (src/bin/protosim.rs).

    Every account has a base cell and a log of sequenced entries, prewritten with
    create-if-absent.  One outcome cell per transfer is the single commit/abort
    decision.  A transfer's step is one atomic transition; between two steps any
    peer may run, pause, crash, or resolve somebody else's aged lock.

    This module gives the protocol as functions on values; `ProtosimRun` holds the
    objects whose methods update their fields and are proved against them. */
module Protosim {
  /** Accounts are numbered by the rank of their name. */
  type Account = nat

  datatype Key = BaseKey(o: Account) | LogKey(o: Account, at: nat) | OutcomeKey(tid: nat)

  datatype Cell =
    | Base(upTo: nat, val: int)
    | Log(tid: nat, delta: int, born: nat)
    | Outcome(committed: bool)

  type Cells = map<Key, Cell>

  datatype Option<T> = None | Some(value: T)

  const TTL: nat := 40
  const MAX_RETRIES: nat := 120

  // ----- reading the store

  function Resolved(m: Cells, tid: nat): Option<bool> {
    if OutcomeKey(tid) in m && m[OutcomeKey(tid)].Outcome? then Some(m[OutcomeKey(tid)].committed) else None
  }

  predicate Committed(m: Cells, tid: nat) {
    Resolved(m, tid) == Some(true)
  }

  /** Slot `q` of `o` holds an entry whose transfer is committed. */
  predicate CommittedAt(m: Cells, o: Account, q: nat) {
    LogKey(o, q) in m && m[LogKey(o, q)].Log? && Committed(m, m[LogKey(o, q)].tid)
  }

  function DeltaAt(m: Cells, o: Account, q: nat): int {
    if CommittedAt(m, o, q) then m[LogKey(o, q)].delta else 0
  }

  function BaseOf(m: Cells, o: Account): (nat, int) {
    if BaseKey(o) in m && m[BaseKey(o)].Base? then (m[BaseKey(o)].upTo, m[BaseKey(o)].val) else (0, 0)
  }

  ghost function LogsAbove(m: Cells, o: Account, at: nat): set<Key> {
    set k | k in m.Keys && k.LogKey? && k.o == o && k.at > at
  }

  /** The read loop: advance over committed entries until the first slot that is not. */
  function ReadFrom(m: Cells, o: Account, at: nat, val: int): (r: (nat, int))
    ensures at <= r.0
    ensures forall q :: at < q <= r.0 ==> CommittedAt(m, o, q)
    ensures !CommittedAt(m, o, r.0 + 1)
    decreases |LogsAbove(m, o, at)|
  {
    if CommittedAt(m, o, at + 1) then
      assert LogsAbove(m, o, at + 1) < LogsAbove(m, o, at) by {
        assert LogKey(o, at + 1) in LogsAbove(m, o, at);
      }
      SmallerSet(LogsAbove(m, o, at + 1), LogsAbove(m, o, at));
      ReadFrom(m, o, at + 1, val + m[LogKey(o, at + 1)].delta)
    else (at, val)
  }

  lemma SmallerSet<T>(a: set<T>, b: set<T>)
    requires a < b
    ensures |a| < |b|
  {
    assert b == a + (b - a);
    assert b - a != {};
  }

  function ReadCommitted(m: Cells, o: Account): (nat, int) {
    var (at, val) := BaseOf(m, o);
    ReadFrom(m, o, at, val)
  }

  /** The balance of `o` after its first `q` slots, by definition. */
  ghost function BalanceAt(m: Cells, o: Account, q: nat): int {
    if q <= BaseOf(m, o).0 then BaseOf(m, o).1 else BalanceAt(m, o, q - 1) + DeltaAt(m, o, q)
  }

  // ----- resolving a lock

  /** Returns whether the slot is now free, and the store afterwards. */
  function ResolveSlot(m: Cells, o: Account, at: nat, now: nat): (bool, Cells) {
    var k := LogKey(o, at);
    if k !in m then (true, m)
    else if !m[k].Log? then (false, m)
    else
      var tid := m[k].tid;
      match Resolved(m, tid)
      case Some(true) => (false, m)
      case Some(false) => (true, m - {k})
      case None =>
        if now <= m[k].born + TTL then (false, m)
        else
          var (won, m1) := CreateCell(m, OutcomeKey(tid), Outcome(false));
          if won || Resolved(m1, tid) == Some(false) then (true, m1 - {k}) else (false, m1)
  }

  /** create-if-absent: whether it won, and the store afterwards. */
  function CreateCell(m: Cells, k: Key, c: Cell): (bool, Cells) {
    if k in m then (false, m) else (true, m[k := c])
  }

  function SafeDelete(m: Cells, k: Key, tid: nat): Cells {
    if k in m && m[k].Log? && m[k].tid == tid then m - {k} else m
  }

  // ----- one transfer

  datatype Step = Read | PreLow | PreHigh | Commit | Done | Aborted | Crashed

  datatype Xfer = Xfer(
    tid: nat, from: Account, amt: int, low: Account, high: Account,
    lowSeq: nat, highSeq: nat, lowDelta: int, highDelta: int,
    madeLow: bool, madeHigh: bool, step: Step, retries: nat,
    resumeAt: nat, pauseBudget: nat, crash: bool, ackedCommit: bool)

  function NewXfer(tid: nat, from: Account, to: Account, amt: int, pauses: nat, crash: bool): Xfer {
    var low := if from <= to then from else to;
    var high := if from <= to then to else from;
    var (lowDelta, highDelta) := if low == from then (-amt, amt) else (amt, -amt);
    Xfer(tid, from, amt, low, high, 0, 0, lowDelta, highDelta, false, false, Read, 0, 0, pauses, crash, false)
  }

  predicate Active(x: Xfer) {
    !x.step.Done? && !x.step.Aborted? && !x.step.Crashed?
  }

  /** What the random generator answered in one step: the coin of a pause, and its length. */
  datatype Draw = Draw(coin: nat, spell: nat)

  function MaybePause(x: Xfer, now: nat, d: Draw): Xfer {
    if x.pauseBudget > 0 && d.coin == 0
    then x.(pauseBudget := x.pauseBudget - 1, resumeAt := now + 10 + d.spell)
    else x
  }

  function Rollback(x: Xfer, m: Cells): (Xfer, Cells) {
    var m1 := if x.madeHigh then SafeDelete(m, LogKey(x.high, x.highSeq + 1), x.tid) else m;
    var m2 := if x.madeLow then SafeDelete(m1, LogKey(x.low, x.lowSeq + 1), x.tid) else m1;
    (x.(madeLow := false, madeHigh := false), m2)
  }

  function ResetOrGiveup(x: Xfer, m: Cells): (Xfer, Cells) {
    var (x1, m1) := Rollback(x, m);
    var x2 := x1.(retries := x1.retries + 1, resumeAt := 0);
    (x2.(step := if x2.retries > MAX_RETRIES then Aborted else Read), m1)
  }

  function StepRead(x: Xfer, m: Cells): (Xfer, Cells) {
    var (lo, lv) := ReadCommitted(m, x.low);
    var (hi, hv) := ReadCommitted(m, x.high);
    var fromVal := if x.low == x.from then lv else ReadCommitted(m, x.from).1;
    if fromVal < x.amt then (x.(step := Aborted), m)
    else (x.(lowSeq := lo, highSeq := hi, step := PreLow), m)
  }

  function StepPreLow(x: Xfer, m: Cells, now: nat, d: Draw): (Xfer, Cells) {
    var (won, m1) := CreateCell(m, LogKey(x.low, x.lowSeq + 1), Log(x.tid, x.lowDelta, now));
    if won then (MaybePause(x.(madeLow := true), now, d).(step := PreHigh), m1)
    else
      var (free, m2) := ResolveSlot(m1, x.low, x.lowSeq + 1, now);
      if free then (x, m2) else ResetOrGiveup(x, m2)
  }

  function StepPreHigh(x: Xfer, m: Cells, now: nat, d: Draw): (Xfer, Cells) {
    var (won, m1) := CreateCell(m, LogKey(x.high, x.highSeq + 1), Log(x.tid, x.highDelta, now));
    if won then
      var x1 := x.(madeHigh := true);
      if x.crash then (x1.(step := Crashed), m1)
      else (MaybePause(x1, now, d).(step := Commit), m1)
    else
      var (free, m2) := ResolveSlot(m1, x.high, x.highSeq + 1, now);
      if free then (x, m2)
      else
        var (x3, m3) := Rollback(x, m2);
        ResetOrGiveup(x3, m3)
  }

  function StepCommit(x: Xfer, m: Cells): (Xfer, Cells) {
    var (won, m1) := CreateCell(m, OutcomeKey(x.tid), Outcome(true));
    if won then (x.(ackedCommit := true, step := Done), m1)
    else
      var (x2, m2) := Rollback(x, m1);
      ResetOrGiveup(x2, m2)
  }

  /** One call of the transfer's step. */
  function StepXfer(x: Xfer, m: Cells, now: nat, d: Draw): (Xfer, Cells) {
    match x.step
    case Read => StepRead(x, m)
    case PreLow => StepPreLow(x, m, now, d)
    case PreHigh => StepPreHigh(x, m, now, d)
    case Commit => StepCommit(x, m)
    case _ => (x, m)
  }

  /** The final sweep's treatment of one log key: abort an undecided owner, then roll back an aborted one. */
  function SweepKey(m: Cells, k: Key): Cells {
    if k in m && m[k].Log? then
      var t := m[k].tid;
      var m1 := if Resolved(m, t).None? then CreateCell(m, OutcomeKey(t), Outcome(false)).1 else m;
      if Resolved(m1, t) == Some(false) then m1 - {k} else m1
    else m
  }

  // ----- whole runs

  /** A store and the transfers working on it; transfer `i` carries the id `i + 1`. */
  datatype World = World(m: Cells, xs: seq<Xfer>)

  /** A schedule may pick any transfer at any clock value, or run the sweep on any key. */
  datatype Event = Tick(i: nat, now: nat, draw: Draw) | Sweep(k: Key)

  function Apply(w: World, e: Event): World {
    match e
    case Tick(i, now, draw) =>
      if i < |w.xs| then
        var (x, m) := StepXfer(w.xs[i], w.m, now, draw);
        World(m, w.xs[i := x])
      else w
    case Sweep(k) => World(SweepKey(w.m, k), w.xs)
  }

  function RunAll(w: World, events: seq<Event>): World
    decreases |events|
  {
    if events == [] then w else RunAll(Apply(w, events[0]), events[1..])
  }

  /** Sum of the committed balances of `accounts`. */
  function Total(m: Cells, accounts: seq<Account>): int {
    if accounts == [] then 0 else ReadCommitted(m, accounts[0]).1 + Total(m, accounts[1..])
  }

  ghost predicate Distinct(accounts: seq<Account>) {
    forall i, j :: 0 <= i < j < |accounts| ==> accounts[i] != accounts[j]
  }

  /** A world nothing has happened in yet: bases only, and fresh transfers between distinct accounts. */
  ghost predicate Initial(w: World) {
    && (forall k :: k in w.m ==> k.BaseKey? && w.m[k].Base?)
    && forall i :: 0 <= i < |w.xs| ==> FreshXfer(w.xs[i], i + 1)
  }

  ghost predicate FreshXfer(x: Xfer, tid: nat) {
    exists to :: to != x.from && x == NewXfer(tid, x.from, to, x.amt, x.pauseBudget, x.crash)
  }
}
