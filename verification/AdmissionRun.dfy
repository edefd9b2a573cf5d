/** Admission over whole runs: a worker takes messages one by one, from the start, and every state in between is
    orderly. */
module AdmissionRun {
  import opened Bytes
  import opened Admission
  import opened AdmissionSteps
  import opened AdmissionWorker

  /** What can come in next.  `good` says that a deed is newer than what the worker knows, `adopt` that the checkpoints
      let it adopt the object. */
  datatype Message =
    | Submit(participants: seq<Obj>)
    | Activated(t: TxnId, o: Obj, ok: bool)
    | Taken(t: TxnId, o: Obj, got: bool, good: bool, failed: bool)
    | TakeFrom(o: Obj, taker: Wid, adopt: bool)
    | ShipDone(boat: set<Obj>)
    | Routing(o: Obj, here: bool)
    | Adopt(o: Obj, good: bool)

  // ----- what holds between two messages

  /** Whoever has acquired an object stands at the head of its queue, alone. */
  ghost predicate Holders(s: S) {
    forall t :: t in s.parked ==> HoldsHeads(s, t)
  }

  ghost predicate HoldsHeads(s: S, t: TxnId)
    requires t in s.parked
  {
    && s.parked[t].acquired <= |s.parked[t].participants|
    && forall k :: 0 <= k < s.parked[t].acquired ==> IsHead(s, s.parked[t].participants[k], t)
  }

  /** If anything is parked, an answer or a landing is on its way that moves something. */
  ghost predicate Moving(s: S) {
    s.parked != map[] ==> (exists u :: Enabled(s, u)) || (exists o :: AwaitsShip(s, o))
  }

  /** Everyone who waits for another transaction waits for one that holds, or itself waits for a higher object. */
  ghost predicate WaitsClimb(s: S) {
    forall t, u, o :: WaitsFor(s, t, u, o) && !Enabled(s, u) ==>
      s.parked[u].acquired < |s.parked[u].participants| && o < s.parked[u].participants[s.parked[u].acquired]
  }

  /** `t` stands in the queue of its next object `o`, behind `u`. */
  ghost predicate WaitsFor(s: S, t: TxnId, u: TxnId, o: Obj) {
    && t in s.parked && u in s.parked && s.parked[t].acquired < |s.parked[t].participants|
    && o == s.parked[t].participants[s.parked[t].acquired] && Behind(s, o, t) && IsHead(s, o, u)
  }

  ghost predicate Orderly(s: S) {
    Quiescent(s) && Holders(s) && Moving(s) && WaitsClimb(s)
  }

  lemma QuietIsOrderly(s: S)
    requires Quiescent(s)
    ensures Orderly(s)
  {
    forall t | t in s.parked ensures HoldsHeads(s, t) { assert TxnOk(s, t); }
    forall t, u, o | WaitsFor(s, t, u, o) && !Enabled(s, u)
      ensures s.parked[u].acquired < |s.parked[u].participants| && o < s.parked[u].participants[s.parked[u].acquired]
    {
      assert QueueOk(s, o, 0, {});
      assert Entitled(s, s.queues[o][0].t, o, 0, {});
      NextHolder(s, u, o);
    }
    if s.parked != map[] { NothingStuck(s); }
  }

  // ----- what a message does

  /** The steps begin with `head`; all others are the worker's own. */
  ghost predicate BeginsWith(steps: seq<Step>, head: seq<Step>) {
    Extends(head, steps)
  }

  /** The answer is to a take that the transaction has under way. */
  predicate Awaits(s: S, t: TxnId, o: Obj) {
    t in s.parked && s.parked[t].taking == Some(o)
  }

  /** The steps a message brings about: first those that it stands for, then only the worker's own. */
  ghost predicate Brings(s: S, m: Message, next: TxnId, steps: seq<Step>) {
    match m
    case Submit(participants) => BeginsWith(steps, [Arrive(next, participants)])
    case Activated(t, o, ok) => BeginsWith(steps, [Fetched(t, o, ok)])
    case Taken(t, o, got, good, failed) =>
      if !Awaits(s, t, o) then steps == []
      else
        && steps != [] && steps[0].TakeEnds? && BeginsWith(steps, steps[..1])
        && steps[0] == TakeEnds(t, o, !failed && got && (good || o in s.owned), steps[0].purged)
    case TakeFrom(o, taker, adopt) =>
      if o in s.owned then BeginsWith(steps, [TakeJoins(o, taker)])
      else if !adopt || Asking(s, o) then steps == []
      else
        && |steps| >= 2 && steps[0].Adopted? && BeginsWith(steps, steps[..2])
        && steps[0] == Adopted(o, steps[0].purged) && steps[1] == TakeJoins(o, taker)
    case ShipDone(boat) =>
      && |steps| >= 2 && steps[0].Elsewhere? && steps[1].Landed? && BeginsWith(steps, steps[..2])
      && steps[1].boat == boat
    case Routing(o, here) => steps == [Routed(o, here)]
    case Adopt(o, good) =>
      if !good then steps == [] else |steps| == 1 && steps[0].Adopted? && steps[0].o == o
  }

  /** The transactions a message brings down. */
  ghost predicate FailedBy(s: S, m: Message, u: TxnId) {
    u in s.parked &&
    match m
    case Activated(t, o, ok) => u == t && !ok
    case Taken(t, o, got, good, failed) =>
      u == t && Awaits(s, t, o) && (failed || (got && !good && o !in s.owned))
    case _ => false
  }

  /** Answers stand; those the message brings down have failed, whatever else was answered has run; and apart from a new
      arrival everyone parked was parked or is answered. */
  ghost predicate Answers(a: Moment, m: Message, next: TxnId, b: Moment) {
    && (forall u :: u in a.answers ==> u in b.answers && b.answers[u] == a.answers[u])
    && (forall u :: FailedBy(a.s, m, u) ==> u in b.answers && b.answers[u].Failed?)
    && (forall u :: u in b.answers && u !in a.answers && !FailedBy(a.s, m, u) ==> b.answers[u].Ran?)
    && b.s.parked.Keys + b.answers.Keys == a.s.parked.Keys + a.answers.Keys + if m.Submit? then {next} else {}
  }

  ghost predicate Follows(a: Moment, m: Message, next: TxnId, steps: seq<Step>, b: Moment) {
    Brings(a.s, m, next, steps) && Leads(a, steps, b) && Answers(a, m, next, b)
  }

  /** The numbers given out so far. */
  ghost function Numbers(next: TxnId): (r: set<TxnId>)
    ensures forall t: TxnId :: t in r <==> t < next
  {
    if next == 0 then {} else Numbers(next - 1) + {next - 1}
  }

  function After(next: TxnId, m: Message): TxnId {
    if m.Submit? then next + 1 else next
  }

  /** What was recorded since. */
  ghost function Since(before: seq<Step>, now: seq<Step>): seq<Step> {
    if |before| <= |now| then now[|before|..] else []
  }

  lemma SinceBegins(before: seq<Step>, head: seq<Step>, now: seq<Step>)
    requires Extends(before + head, now)
    ensures now == before + Since(before, now) && BeginsWith(Since(before, now), head)
    ensures BeginsWith(Since(before, now), Since(before, now)[..|head|]) && Since(before, now)[..|head|] == head
  {
    var steps := Since(before, now);
    assert now == before + steps;
    assert head == steps[..|head|];
    forall k | |head| <= k < |steps| ensures Internal(steps[k]) { assert steps[k] == now[|before| + k]; }
  }

  lemma SinceAll(before: seq<Step>, steps: seq<Step>)
    ensures Since(before, before + steps) == steps
  {
  }

  ghost predicate Ready(worker: Worker, next: TxnId)
    reads worker
  {
    Quiescent(worker.View()) && worker.Counted(Numbers(next)) && worker.Traced()
  }

  /** The answer to a take counts only for a transaction that awaits it. */
  method HandleTaken(worker: Worker, t: TxnId, o: Obj, got: bool, good: bool, failed: bool, ghost next: TxnId)
    requires Ready(worker, next)
    modifies worker
    ensures Ready(worker, next)
    ensures var m, steps := Taken(t, o, got, good, failed), Since(old(worker.trace), worker.trace);
            && worker.trace == old(worker.trace) + steps && Brings(old(worker.View()), m, next, steps)
            && Answers(old(worker.Now()), m, next, worker.Now())
  {
    ghost var before := worker.trace;
    SinceAll(before, []);
    if t in worker.parked && worker.parked[t].taking == Some(o) {
      ghost var granted := !failed && got && (good || o in worker.owned);
      ghost var purged := worker.OnTaken(t, o, got, good, failed, Numbers(next));
      SinceBegins(before, [TakeEnds(t, o, granted, purged)], worker.trace);
    }
    assert before + [] == before;
  }

  /** A take of an object not owned is turned away, unless the object may be adopted and no transaction of this worker
      is taking it. */
  method HandleTake(worker: Worker, o: Obj, taker: Wid, adopt: bool, ghost next: TxnId)
    requires Ready(worker, next)
    modifies worker
    ensures Ready(worker, next)
    ensures var m, steps := TakeFrom(o, taker, adopt), Since(old(worker.trace), worker.trace);
            && worker.trace == old(worker.trace) + steps && Brings(old(worker.View()), m, next, steps)
            && Answers(old(worker.Now()), m, next, worker.Now())
  {
    ghost var before := worker.trace;
    SinceAll(before, []);
    assert before + [] == before;
    if o in worker.owned {
      worker.OnTake(o, taker, Numbers(next));
      SinceBegins(before, [TakeJoins(o, taker)], worker.trace);
      return;
    }
    var taking := worker.IsTaking(o);
    if adopt && !taking {
      ghost var purged := worker.OnAdopted(o);
      worker.OnTake(o, taker, Numbers(next));
      assert before + [Adopted(o, purged)] + [TakeJoins(o, taker)] ==
          before + [Adopted(o, purged), TakeJoins(o, taker)];
      SinceBegins(before, [Adopted(o, purged), TakeJoins(o, taker)], worker.trace);
    }
  }

  method HandleShipDone(worker: Worker, boat: set<Obj>, ghost next: TxnId)
    requires Ready(worker, next)
    modifies worker
    ensures Ready(worker, next)
    ensures var m, steps := ShipDone(boat), Since(old(worker.trace), worker.trace);
            && worker.trace == old(worker.trace) + steps && Brings(old(worker.View()), m, next, steps)
            && Answers(old(worker.Now()), m, next, worker.Now())
  {
    ghost var before := worker.trace;
    ghost var first, cleaned := worker.OnShipDone(boat, Numbers(next));
    SinceBegins(before, [first, Landed(boat, cleaned)], worker.trace);
  }

  method HandleSubmit(worker: Worker, participants: seq<Obj>, next: TxnId)
    requires Ready(worker, next) && Sorted(participants)
    modifies worker
    ensures Ready(worker, next + 1)
    ensures var m, steps := Submit(participants), Since(old(worker.trace), worker.trace);
            && worker.trace == old(worker.trace) + steps && Brings(old(worker.View()), m, next, steps)
            && Answers(old(worker.Now()), m, next, worker.Now())
  {
    ghost var before := worker.trace;
    assert Numbers(next + 1) == Numbers(next) + {next};
    worker.Submit(next, participants, Numbers(next));
    SinceBegins(before, [Arrive(next, participants)], worker.trace);
  }

  method HandleActivated(worker: Worker, t: TxnId, o: Obj, ok: bool, ghost next: TxnId)
    requires Ready(worker, next)
    modifies worker
    ensures Ready(worker, next)
    ensures var m, steps := Activated(t, o, ok), Since(old(worker.trace), worker.trace);
            && worker.trace == old(worker.trace) + steps && Brings(old(worker.View()), m, next, steps)
            && Answers(old(worker.Now()), m, next, worker.Now())
  {
    ghost var before := worker.trace;
    worker.OnActivated(t, o, ok, Numbers(next));
    SinceBegins(before, [Fetched(t, o, ok)], worker.trace);
  }

  /** Word of where an object lives. */
  method HandlePlace(worker: Worker, m: Message, ghost next: TxnId)
    requires Ready(worker, next) && (m.Routing? || m.Adopt?)
    modifies worker
    ensures Ready(worker, next)
    ensures var steps := Since(old(worker.trace), worker.trace);
            && worker.trace == old(worker.trace) + steps && Brings(old(worker.View()), m, next, steps)
            && Answers(old(worker.Now()), m, next, worker.Now())
  {
    ghost var before := worker.trace;
    SinceAll(before, []);
    assert before + [] == before;
    if m.Routing? {
      worker.OnRouting(m.o, m.here);
      SinceAll(before, [Routed(m.o, m.here)]);
    } else if m.good {
      ghost var purged := worker.OnAdopted(m.o);
      SinceAll(before, [Adopted(m.o, purged)]);
    }
  }

  /** One message. */
  method Handle(worker: Worker, m: Message, next: TxnId) returns (ghost steps: seq<Step>)
    requires Ready(worker, next) && (m.Submit? ==> Sorted(m.participants))
    modifies worker
    ensures Ready(worker, After(next, m)) && worker.trace == old(worker.trace) + steps
    ensures Follows(old(worker.Now()), m, next, steps, worker.Now())
  {
    ghost var before, was := worker.trace, worker.Now();
    match m {
      case Taken(t, o, got, good, failed) => HandleTaken(worker, t, o, got, good, failed, next);
      case TakeFrom(o, taker, adopt) => HandleTake(worker, o, taker, adopt, next);
      case ShipDone(boat) => HandleShipDone(worker, boat, next);
      case Submit(participants) => HandleSubmit(worker, participants, next);
      case Activated(t, o, ok) => HandleActivated(worker, t, o, ok, next);
      case Routing(_, _) => HandlePlace(worker, m, next);
      case Adopt(_, _) => HandlePlace(worker, m, next);
    }
    steps := Since(before, worker.trace);
    LeadsFrom(START, before, was, steps, worker.Now());
  }

  // ----- any messages

  /** How many transactions have come in; they are numbered in the order of their arrival. */
  function Arrivals(messages: seq<Message>): TxnId {
    if messages == [] then 0 else After(Arrivals(messages[..|messages| - 1]), messages[|messages| - 1])
  }

  function Flat(chunks: seq<seq<Step>>): seq<Step> {
    if chunks == [] then [] else Flat(chunks[..|chunks| - 1]) + chunks[|chunks| - 1]
  }

  /** The moments of a run, one message after the other, and the steps in between. */
  ghost predicate Unfolds(moments: seq<Moment>, messages: seq<Message>, chunks: seq<seq<Step>>) {
    && |moments| == |messages| + 1 && |chunks| == |messages|
    && forall i :: 0 <= i < |messages| ==>
         Follows(moments[i], messages[i], Arrivals(messages[..i]), chunks[i], moments[i + 1])
  }

  ghost predicate AllOrderly(moments: seq<Moment>) {
    forall i :: 0 <= i < |moments| ==> Orderly(moments[i].s)
  }

  /** A run from the start, up to `now`; `trace` has all its steps. */
  ghost predicate Story(moments: seq<Moment>, messages: seq<Message>, chunks: seq<seq<Step>>, trace: seq<Step>,
                        now: Moment) {
    && Unfolds(moments, messages, chunks) && AllOrderly(moments) && moments[0] == START && moments[|messages|] == now
    && trace == Flat(chunks) && Leads(START, trace, now)
  }

  lemma Opens()
    requires Quiescent(START.s)
    ensures Story([START], [], [], [], START)
  {
    QuietIsOrderly(START.s);
  }

  lemma UnfoldsMore(moments: seq<Moment>, messages: seq<Message>, chunks: seq<seq<Step>>, m: Message, steps: seq<Step>,
                    b: Moment)
    requires Unfolds(moments, messages, chunks)
    requires Follows(moments[|messages|], m, Arrivals(messages), steps, b)
    ensures Unfolds(moments + [b], messages + [m], chunks + [steps])
    ensures Arrivals(messages + [m]) == After(Arrivals(messages), m)
  {
    var ms, es, cs := moments + [b], messages + [m], chunks + [steps];
    assert es[..|messages|] == messages;
    forall i | 0 <= i < |es| ensures Follows(ms[i], es[i], Arrivals(es[..i]), cs[i], ms[i + 1]) {
      if i < |messages| {
        assert es[..i] == messages[..i];
        assert Follows(moments[i], messages[i], Arrivals(messages[..i]), chunks[i], moments[i + 1]);
      }
    }
  }

  lemma StoryGoesOn(moments: seq<Moment>, messages: seq<Message>, chunks: seq<seq<Step>>, trace: seq<Step>, a: Moment,
                    m: Message, steps: seq<Step>, b: Moment)
    requires Story(moments, messages, chunks, trace, a) && Follows(a, m, Arrivals(messages), steps, b) && Orderly(b.s)
    ensures Story(moments + [b], messages + [m], chunks + [steps], trace + steps, b)
    ensures Arrivals(messages + [m]) == After(Arrivals(messages), m)
  {
    UnfoldsMore(moments, messages, chunks, m, steps, b);
    LeadsOn(START, trace, a, steps, b);
    assert (chunks + [steps])[..|chunks|] == chunks;
  }

  /** Any messages in any order: every moment in between is orderly, every transaction is parked or answered, and the
      worker's trace is a run of `AdmissionSteps` from the start, message by message. */
  method Drive(messages: seq<Message>)
    returns (worker: Worker, ghost moments: seq<Moment>, ghost chunks: seq<seq<Step>>)
    requires forall m :: m in messages && m.Submit? ==> Sorted(m.participants)
    ensures fresh(worker) && Story(moments, messages, chunks, worker.trace, worker.Now())
    ensures worker.Counted(Numbers(Arrivals(messages)))
  {
    worker := new Worker();
    var next: TxnId := 0;
    moments, chunks := [START], [];
    assert messages[..0] == [];
    Opens();
    for i := 0 to |messages|
      invariant fresh(worker) && next == Arrivals(messages[..i]) && Ready(worker, next)
      invariant Story(moments, messages[..i], chunks, worker.trace, worker.Now())
    {
      assert messages[..i + 1] == messages[..i] + [messages[i]];
      moments, chunks := Go(worker, messages[i], next, moments, messages[..i], chunks);
      next := After(next, messages[i]);
    }
    assert messages[..|messages|] == messages;
  }

  method Go(worker: Worker, m: Message, next: TxnId, ghost moments: seq<Moment>, ghost past: seq<Message>,
            ghost chunks: seq<seq<Step>>)
    returns (ghost moments': seq<Moment>, ghost chunks': seq<seq<Step>>)
    requires Ready(worker, next) && (m.Submit? ==> Sorted(m.participants)) && next == Arrivals(past)
    requires Story(moments, past, chunks, worker.trace, worker.Now())
    modifies worker
    ensures Ready(worker, After(next, m)) && Arrivals(past + [m]) == After(next, m)
    ensures Story(moments', past + [m], chunks', worker.trace, worker.Now())
  {
    ghost var a, trace := worker.Now(), worker.trace;
    ghost var steps := Handle(worker, m, next);
    QuietIsOrderly(worker.View());
    StoryGoesOn(moments, past, chunks, trace, a, m, steps, worker.Now());
    moments', chunks' := moments + [worker.Now()], chunks + [steps];
  }

  // ----- what a run has told its clients

  /** Of the steps a message brings about, only the first of a submission is an arrival. */
  lemma BringsArrival(s: S, m: Message, next: TxnId, steps: seq<Step>, k: nat)
    requires Brings(s, m, next, steps) && k < |steps| && steps[k].Arrive?
    ensures m == Submit(steps[k].participants) && steps[k].t == next
  {
    assert !Internal(steps[k]);
  }

  /** Who arrived was submitted, and is numbered by its place among the submissions. */
  lemma {:induction false} Submitted(moments: seq<Moment>, messages: seq<Message>, chunks: seq<seq<Step>>, k: nat)
    returns (i: nat)
    requires Unfolds(moments, messages, chunks) && k < |Flat(chunks)| && Flat(chunks)[k].Arrive?
    ensures i < |messages| && messages[i] == Submit(Flat(chunks)[k].participants)
        && Arrivals(messages[..i]) == Flat(chunks)[k].t
    decreases |messages|
  {
    var n := |messages| - 1;
    var before := Flat(chunks[..n]);
    if k < |before| {
      UnfoldsLess(moments, messages, chunks);
      i := Submitted(moments[..n + 1], messages[..n], chunks[..n], k);
      assert messages[..n][..i] == messages[..i];
    } else {
      i := n;
      assert Follows(moments[n], messages[n], Arrivals(messages[..n]), chunks[n], moments[n + 1]);
      BringsArrival(moments[n].s, messages[n], Arrivals(messages[..n]), chunks[n], k - |before|);
    }
  }

  lemma UnfoldsLess(moments: seq<Moment>, messages: seq<Message>, chunks: seq<seq<Step>>)
    requires Unfolds(moments, messages, chunks) && messages != []
    ensures var n := |messages| - 1; Unfolds(moments[..n + 1], messages[..n], chunks[..n])
  {
    var n := |messages| - 1;
    forall i | 0 <= i < n
      ensures Follows(moments[..n + 1][i], messages[..n][i], Arrivals(messages[..n][..i]), chunks[..n][i],
                      moments[..n + 1][i + 1])
    {
      assert messages[..n][..i] == messages[..i];
      assert Follows(moments[i], messages[i], Arrivals(messages[..i]), chunks[i], moments[i + 1]);
    }
  }

  /** Whoever was told that a transaction ran can rely on it: at one step of the trace it ran, in its turn, heading the
      queues of all the participants it was submitted with, while nobody else held any of them. */
  lemma RanInTurn(moments: seq<Moment>, messages: seq<Message>, chunks: seq<seq<Step>>, trace: seq<Step>, now: Moment,
                  t: TxnId)
    returns (ms: seq<Moment>, k: nat, i: nat)
    requires Story(moments, messages, chunks, trace, now) && t in now.answers && now.answers[t].Ran?
    ensures IsRun(ms, trace) && ms[0] == START && ms[|trace|] == now
    ensures k < |trace| && trace[k] == Run(t) && MayRun(ms[k].s, t)
    ensures i < |messages| && Arrivals(messages[..i]) == t && messages[i] == Submit(ms[k].s.parked[t].participants)
  {
    ms := LeadsIsRun(START, trace, now);
    k := AnswersAreTrue(ms, trace, |trace|, t);
    var j := RunsInTurn(ms, trace, k, t);
    i := Submitted(moments, messages, chunks, j);
  }
}
