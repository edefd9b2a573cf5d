/** Admission step by step: what each thing a worker does to its queues changes, and under which condition of the code.
    A run of these steps is what the worker of `AdmissionWorker` leaves behind as its trace. */
module AdmissionSteps {
  import opened Bytes
  import opened Admission

  /** The first seven are what a message brings; the others are the worker's own. */
  datatype Step =
    | Arrive(t: TxnId, participants: seq<Obj>)
    | Fetched(t: TxnId, o: Obj, ok: bool)
    | TakeEnds(t: TxnId, o: Obj, got: bool, purged: bool)
    | TakeJoins(o: Obj, taker: Wid)
    | Landed(boat: set<Obj>, cleaned: set<Obj>)
    | Routed(o: Obj, here: bool)
    | Adopted(o: Obj, purged: bool)
    | Reroute(o: Obj, here: bool)
    | Ask(t: TxnId)
    | Join(t: TxnId)
    | Fetch(t: TxnId)
    | Acquire(t: TxnId)
    | Run(t: TxnId)
    | Fail(t: TxnId)
    | Leave(t: TxnId, o: Obj)
    | SendHome(o: Obj)
    | Grant(o: Obj, recorded: bool)
    | Elsewhere(soiled: set<Obj>, reverted: set<Obj>)
    | Attend(o: Obj)

  predicate Internal(step: Step) {
    !(step.Arrive? || step.Fetched? || step.TakeEnds? || step.TakeJoins? || step.Landed? || step.Routed?
        || step.Adopted?)
  }

  const START: Moment := Moment(S(map[], map[], {}, {}, {}, {}, {}), map[])

  // ----- what a step needs

  /** The worker takes the object for its own. */
  predicate Here(s: S, o: Obj) {
    o in s.owned || o in s.routed
  }

  /** The transaction is under way and still lacks an object. */
  predicate Lacks(s: S, t: TxnId) {
    t in s.parked && s.parked[t].acquired < |s.parked[t].participants|
  }

  /** The object it is after. */
  function Next(s: S, t: TxnId): Obj
    requires Lacks(s, t)
  {
    s.parked[t].participants[s.parked[t].acquired]
  }

  /** A transaction has a take under way while it is after the object. */
  predicate Asking(s: S, o: Obj) {
    exists t :: t in s.parked && s.parked[t].taking.Some? && Lacks(s, t) && Next(s, t) == o
  }

  function QueueOf(s: S, o: Obj): seq<Entry> {
    if o in s.queues then s.queues[o] else []
  }

  predicate AtHead(s: S, o: Obj, t: TxnId) {
    QueueOf(s, o) != [] && QueueOf(s, o)[0] == Txn(t)
  }

  ghost predicate Can(m: Moment, step: Step) {
    var s := m.s;
    match step
    case Arrive(t, participants) => t !in s.parked && t !in m.answers && Sorted(participants)
    case Fetched(t, o, ok) => true
    case TakeEnds(t, o, got, purged) => t in s.parked && s.parked[t].taking == Some(o)
    case TakeJoins(o, taker) => o in s.owned
    case Landed(boat, cleaned) => cleaned <= boat
    case Routed(o, here) => true
    case Adopted(o, purged) => true
    case Reroute(o, here) => (o in s.owned ==> here) && (here ==> Here(s, o))
    case Ask(t) => Lacks(s, t) && !Here(s, Next(s, t))
    case Join(t) => Lacks(s, t) && Here(s, Next(s, t)) && Txn(t) !in QueueOf(s, Next(s, t))
    case Fetch(t) => Lacks(s, t) && Here(s, Next(s, t)) && AtHead(s, Next(s, t), t) && Next(s, t) !in s.live
    case Acquire(t) => Lacks(s, t) && Here(s, Next(s, t)) && AtHead(s, Next(s, t), t) && Next(s, t) in s.live
    case Run(t) => t in s.parked && s.parked[t].acquired == |s.parked[t].participants|
    case Fail(t) => t in s.parked
    case Leave(t, o) => t !in s.parked && o in s.queues
    case SendHome(o) => o !in s.queues && o in s.routed && o !in s.unshipped
    case Grant(o, recorded) => QueueOf(s, o) != [] && QueueOf(s, o)[0].Take? && o !in s.unshipped
    case Elsewhere(soiled, reverted) => true
    case Attend(o) => o in s.flagged
  }

  // ----- what a step does

  function SetQueue(s: S, o: Obj, q: seq<Entry>): S {
    s.(queues := if q == [] then s.queues - {o} else s.queues[o := q])
  }

  function Gone(s: S, o: Obj): S {
    s.(owned := s.owned - {o}, routed := s.routed - {o}, live := s.live - {o})
  }

  function Given(s: S, o: Obj, purged: bool): S {
    s.(owned := s.owned + {o}, routed := s.routed + {o}, live := if purged then s.live - {o} else s.live)
  }

  function Deed(s: S, t: TxnId, o: Obj, purged: bool): S {
    var s' := if o in s.owned then s else Given(s, o, purged);
    if o in s.queues then s' else SetQueue(s', o, [Txn(t)])
  }

  function SetParked(s: S, t: TxnId, p: Parked): S {
    s.(parked := s.parked[t := p])
  }

  function DoMessage(s: S, step: Step): S
    requires !Internal(step)
  {
    match step
    case Arrive(t, participants) => SetParked(s, t, Parked(participants, 0, None, false))
    case Fetched(t, o, ok) =>
      (if t in s.parked then SetParked(s, t, s.parked[t].(activating := false)) else s)
      .(live := if ok && o in s.routed then s.live + {o} else s.live)
    case TakeEnds(t, o, got, purged) =>
      if t !in s.parked then s
      else
        var s' := SetParked(s, t, s.parked[t].(taking := None));
        if got then Deed(s', t, o, purged) else s'
    case TakeJoins(o, taker) => SetQueue(s, o, QueueOf(s, o) + [Take(taker)])
    case Landed(boat, cleaned) => s.(unshipped := s.unshipped - cleaned)
    case Routed(o, here) => s.(routed := if here then s.routed + {o} else s.routed - {o})
    case Adopted(o, purged) => Given(s, o, purged)
  }

  function DoWork(s: S, step: Step): S
    requires Internal(step)
  {
    match step
    case Reroute(o, here) => s.(routed := if here then s.routed + {o} else s.routed - {o})
    case Ask(t) =>
      if !Lacks(s, t) || s.parked[t].taking.Some? then s else SetParked(s, t, s.parked[t].(taking := Some(Next(s, t))))
    case Join(t) => if !Lacks(s, t) then s else SetQueue(s, Next(s, t), QueueOf(s, Next(s, t)) + [Txn(t)])
    case Fetch(t) => if !Lacks(s, t) then s else SetParked(s, t, s.parked[t].(activating := true))
    case Acquire(t) => if !Lacks(s, t) then s else SetParked(s, t, s.parked[t].(acquired := s.parked[t].acquired + 1))
    case Run(t) => s.(parked := s.parked - {t})
    case Fail(t) => s.(parked := s.parked - {t})
    case Leave(t, o) => SetQueue(s, o, Without(QueueOf(s, o), t))
    case SendHome(o) => Gone(s, o)
    case Grant(o, recorded) =>
      if recorded then Gone(s.(queues := s.queues - {o}), o) else SetQueue(s, o, Txns(QueueOf(s, o)))
    case Elsewhere(soiled, reverted) =>
      s.(unshipped := s.unshipped + soiled - reverted, live := s.live - reverted,
         flagged := s.flagged + set o | o in reverted && o in s.queues)
    case Attend(o) => s.(flagged := s.flagged - {o})
  }

  function Told(answers: map<TxnId, Answer>, step: Step): map<TxnId, Answer> {
    match step
    case Run(t) => answers[t := Ran]
    case Fail(t) => answers[t := Failed]
    case _ => answers
  }

  function Do(m: Moment, step: Step): Moment {
    Moment(if Internal(step) then DoWork(m.s, step) else DoMessage(m.s, step), Told(m.answers, step))
  }

  // ----- several steps

  ghost predicate Leads(m: Moment, steps: seq<Step>, m': Moment)
    decreases |steps|
  {
    if steps == [] then m' == m else Can(m, steps[0]) && Leads(Do(m, steps[0]), steps[1..], m')
  }

  lemma {:induction false} LeadsOn(a: Moment, xs: seq<Step>, b: Moment, ys: seq<Step>, c: Moment)
    requires Leads(a, xs, b) && Leads(b, ys, c)
    ensures Leads(a, xs + ys, c)
    decreases |xs|
  {
    if xs == [] {
      assert xs + ys == ys;
    } else {
      LeadsOn(Do(a, xs[0]), xs[1..], b, ys, c);
      assert (xs + ys)[1..] == xs[1..] + ys;
    }
  }

  lemma OneMore(a: Moment, steps: seq<Step>, m: Moment, step: Step)
    requires Leads(a, steps, m) && Can(m, step)
    ensures Leads(a, steps + [step], Do(m, step))
  {
    assert [step][1..] == [];
    LeadsOn(a, steps, m, [step], Do(m, step));
  }

  /** What the first steps lead to, the later ones go on from. */
  lemma {:induction false} LeadsFrom(a: Moment, xs: seq<Step>, b: Moment, ys: seq<Step>, c: Moment)
    requires Leads(a, xs, b) && Leads(a, xs + ys, c)
    ensures Leads(b, ys, c)
    decreases |xs|
  {
    if xs == [] {
      assert xs + ys == ys;
    } else {
      assert (xs + ys)[1..] == xs[1..] + ys;
      LeadsFrom(Do(a, xs[0]), xs[1..], b, ys, c);
    }
  }

  // ----- whole runs

  ghost predicate IsRun(ms: seq<Moment>, steps: seq<Step>) {
    && |ms| == |steps| + 1
    && forall k :: 0 <= k < |steps| ==> Takes(ms[k], steps[k], ms[k + 1])
  }

  ghost predicate Takes(m: Moment, step: Step, m': Moment) {
    Can(m, step) && m' == Do(m, step)
  }

  /** The moments along a trace. */
  lemma {:induction false} LeadsIsRun(m: Moment, steps: seq<Step>, m': Moment) returns (ms: seq<Moment>)
    requires Leads(m, steps, m')
    ensures IsRun(ms, steps) && ms[0] == m && ms[|steps|] == m'
    decreases |steps|
  {
    if steps == [] {
      ms := [m];
    } else {
      var rest := LeadsIsRun(Do(m, steps[0]), steps[1..], m');
      ms := [m] + rest;
      forall k | 0 <= k < |steps| ensures Takes(ms[k], steps[k], ms[k + 1]) {
        if k > 0 { assert Takes(rest[k - 1], steps[1..][k - 1], rest[k]); }
      }
    }
  }

  /** Whoever has acquired an object stands at the head of its queue. */
  ghost predicate Holding(s: S) {
    forall t :: TxnOk(s, t)
  }

  lemma SameHolders(s: S, s': S)
    requires Holding(s) && s'.queues == s.queues && s'.parked == s.parked
    ensures Holding(s')
  {
    forall u ensures TxnOk(s', u) { assert TxnOk(s, u); }
  }

  /** Queues change only behind the heads of holders. */
  ghost predicate HeadsStay(s: S, s': S) {
    s'.parked == s.parked && forall u, o :: u in s.parked && IsHead(s, o, u) ==> IsHead(s', o, u)
  }

  lemma HeadsStayHolding(s: S, s': S)
    requires Holding(s) && HeadsStay(s, s')
    ensures Holding(s')
  {
    forall u ensures TxnOk(s', u) { assert TxnOk(s, u); }
  }

  /** One transaction's flags or progress change. */
  lemma ProgressHolding(s: S, t: TxnId, p: Parked)
    requires Holding(s) && t in s.parked && p.participants == s.parked[t].participants
    requires p.taking.Some? ==> p.taking == s.parked[t].taking || Reached(p, p.taking.value)
    requires p.acquired == s.parked[t].acquired
        || (Lacks(s, t) && p.acquired == s.parked[t].acquired + 1 && AtHead(s, Next(s, t), t))
    ensures Holding(SetParked(s, t, p))
  {
    assert TxnOk(s, t);
    if p.taking.Some? && p.taking == s.parked[t].taking {
      var k :| 0 <= k <= s.parked[t].acquired && k < |p.participants| && p.participants[k] == p.taking.value;
      assert 0 <= k <= p.acquired;
    }
    forall u ensures TxnOk(SetParked(s, t, p), u) { assert TxnOk(s, u); }
  }

  lemma FewerHolding(s: S, t: TxnId)
    requires Holding(s)
    ensures Holding(s.(parked := s.parked - {t}))
  {
    forall u ensures TxnOk(s.(parked := s.parked - {t}), u) { assert TxnOk(s, u); }
  }

  lemma LeaveHeads(s: S, t: TxnId, o: Obj)
    requires t !in s.parked
    ensures HeadsStay(s, SetQueue(s, o, Without(QueueOf(s, o), t)))
  {
    WithoutThinned(QueueOf(s, o), t);
  }

  lemma DeedHolding(s: S, t: TxnId, o: Obj, purged: bool)
    requires Holding(s)
    ensures Holding(Deed(s, t, o, purged))
  {
    HeadsStayHolding(s, Deed(s, t, o, purged));
  }

  lemma MessageKeepsHolding(m: Moment, step: Step)
    requires Holding(m.s) && Can(m, step) && !Internal(step)
    ensures Holding(Do(m, step).s)
  {
    var s, s' := m.s, Do(m, step).s;
    match step
    case Arrive(t, participants) =>
      forall u ensures TxnOk(s', u) { assert TxnOk(s, u); }
    case Fetched(t, o, ok) =>
      if t in s.parked {
        ProgressHolding(s, t, s.parked[t].(activating := false));
        SameHolders(SetParked(s, t, s.parked[t].(activating := false)), s');
      } else {
        SameHolders(s, s');
      }
    case TakeEnds(t, o, got, purged) =>
      ProgressHolding(s, t, s.parked[t].(taking := None));
      DeedHolding(SetParked(s, t, s.parked[t].(taking := None)), t, o, purged);
    case TakeJoins(o, taker) => HeadsStayHolding(s, s');
    case _ => SameHolders(s, s');
  }

  lemma WorkKeepsHolding(m: Moment, step: Step)
    requires Holding(m.s) && Can(m, step) && Internal(step)
    ensures Holding(Do(m, step).s)
  {
    var s, s' := m.s, Do(m, step).s;
    match step
    case Ask(t) => AskHolding(s, t);
    case Join(t) => HeadsStayHolding(s, s');
    case Fetch(t) => ProgressHolding(s, t, s.parked[t].(activating := true));
    case Acquire(t) => ProgressHolding(s, t, s.parked[t].(acquired := s.parked[t].acquired + 1));
    case Run(t) => FewerHolding(s, t);
    case Fail(t) => FewerHolding(s, t);
    case Leave(t, o) =>
      LeaveHeads(s, t, o);
      HeadsStayHolding(s, s');
    case Grant(o, recorded) => HeadsStayHolding(s, s');
    case _ => SameHolders(s, s');
  }

  lemma AskHolding(s: S, t: TxnId)
    requires Holding(s) && Lacks(s, t)
    ensures Holding(DoWork(s, Ask(t)))
  {
    if s.parked[t].taking.None? {
      var p := s.parked[t].(taking := Some(Next(s, t)));
      assert p.participants[p.acquired] == Next(s, t);
      assert Reached(p, Next(s, t));
      ProgressHolding(s, t, p);
    }
  }

  /** In every moment of a run, whoever has acquired an object stands at the head of its queue. */
  lemma {:induction false} RunHolds(ms: seq<Moment>, steps: seq<Step>, k: nat)
    requires IsRun(ms, steps) && ms[0] == START && k < |ms|
    ensures Holding(ms[k].s)
  {
    if k > 0 {
      RunHolds(ms, steps, k - 1);
      assert Takes(ms[k - 1], steps[k - 1], ms[k - 1 + 1]);
      if Internal(steps[k - 1]) {
        WorkKeepsHolding(ms[k - 1], steps[k - 1]);
      } else {
        MessageKeepsHolding(ms[k - 1], steps[k - 1]);
      }
    }
  }

  // ----- main results

  /** What becomes of one transaction in a step. */
  lemma OneTxn(m: Moment, step: Step, t: TxnId)
    requires Can(m, step) && t in Do(m, step).s.parked
    ensures var p := Do(m, step).s.parked[t];
            if step.Arrive? && step.t == t then p.participants == step.participants && p.acquired == 0
            else t in m.s.parked && p.participants == m.s.parked[t].participants
                 && p.acquired == m.s.parked[t].acquired + if step == Acquire(t) then 1 else 0
  {
  }

  /** Whoever is under way arrived, with these participants. */
  lemma {:induction false} Arrived(ms: seq<Moment>, steps: seq<Step>, k: nat, t: TxnId) returns (j: nat)
    requires IsRun(ms, steps) && ms[0] == START && k < |ms| && t in ms[k].s.parked
    ensures j < k && steps[j] == Arrive(t, ms[k].s.parked[t].participants)
  {
    assert Takes(ms[k - 1], steps[k - 1], ms[k - 1 + 1]);
    OneTxn(ms[k - 1], steps[k - 1], t);
    if steps[k - 1].Arrive? && steps[k - 1].t == t { j := k - 1; } else { j := Arrived(ms, steps, k - 1, t); }
  }

  /** Whatever a transaction holds, it took in a step of its own, as the head of a live object's queue, and it has been
      the head of that queue ever since. */
  lemma {:induction false} HeldSince(ms: seq<Moment>, steps: seq<Step>, k: nat, t: TxnId, c: nat) returns (i: nat)
    requires IsRun(ms, steps) && ms[0] == START && k < |ms| && t in ms[k].s.parked && c < ms[k].s.parked[t].acquired
    ensures c < |ms[k].s.parked[t].participants|
    ensures i < k && steps[i] == Acquire(t) && t in ms[i].s.parked && ms[i].s.parked[t].acquired == c
    ensures var o := ms[k].s.parked[t].participants[c];
            && Lacks(ms[i].s, t) && Next(ms[i].s, t) == o && Here(ms[i].s, o) && o in ms[i].s.live
            && forall l :: i <= l <= k ==> IsHead(ms[l].s, o, t)
  {
    RunHolds(ms, steps, k);
    assert TxnOk(ms[k].s, t);
    assert Takes(ms[k - 1], steps[k - 1], ms[k - 1 + 1]);
    OneTxn(ms[k - 1], steps[k - 1], t);
    if steps[k - 1] == Acquire(t) && ms[k - 1].s.parked[t].acquired == c {
      i := k - 1;
    } else {
      i := HeldSince(ms, steps, k - 1, t, c);
    }
  }

  /** A transaction runs only in its turn: when it runs, it heads the queues of all the participants it arrived with,
      and nobody else holds any of them. */
  lemma RunsInTurn(ms: seq<Moment>, steps: seq<Step>, k: nat, t: TxnId) returns (j: nat)
    requires IsRun(ms, steps) && ms[0] == START && k < |steps| && steps[k] == Run(t)
    ensures MayRun(ms[k].s, t) && j < k && steps[j] == Arrive(t, ms[k].s.parked[t].participants)
  {
    RunHolds(ms, steps, k);
    assert Takes(ms[k], steps[k], ms[k + 1]);
    RunsAsHeadOfAll(ms[k].s, t);
    j := Arrived(ms, steps, k, t);
  }

  /** Clients are told the truth, once: an answer stands, and it is that of the step that ended the transaction. */
  lemma {:induction false} AnswersAreTrue(ms: seq<Moment>, steps: seq<Step>, k: nat, t: TxnId) returns (j: nat)
    requires IsRun(ms, steps) && ms[0] == START && k < |ms| && t in ms[k].answers
    ensures j < k && steps[j] == (if ms[k].answers[t].Ran? then Run(t) else Fail(t)) && t !in ms[k].s.parked
    ensures forall l :: j < l <= k ==> t in ms[l].answers && ms[l].answers[t] == ms[k].answers[t]
    ensures forall l :: 0 <= l <= j ==> t !in ms[l].answers
  {
    assert Takes(ms[k - 1], steps[k - 1], ms[k - 1 + 1]);
    if t in ms[k - 1].answers {
      j := AnswersAreTrue(ms, steps, k - 1, t);
    } else {
      j := k - 1;
      NotYet(ms, steps, k - 1, t);
    }
  }

  lemma {:induction false} NotYet(ms: seq<Moment>, steps: seq<Step>, k: nat, t: TxnId)
    requires IsRun(ms, steps) && k < |ms| && t !in ms[k].answers
    ensures forall l :: 0 <= l <= k ==> t !in ms[l].answers
  {
    if k > 0 {
      assert Takes(ms[k - 1], steps[k - 1], ms[k - 1 + 1]);
      NotYet(ms, steps, k - 1, t);
    }
  }
}
