/** Why an object changes hands, why a transaction waits, and who goes first, step by step and over whole runs of
    `AdmissionSteps`. */
module AdmissionCauses {
  import opened Bytes
  import opened Admission
  import opened AdmissionSteps

  // ----- objects

  /** An object is given away only by a grant that is recorded or by being sent home, and never while writes to it are
      not yet durable; it comes in only by a deed or an adoption. */
  lemma OwnershipMoves(m: Moment, step: Step, o: Obj)
    requires Can(m, step)
    ensures var s, s' := m.s, Do(m, step).s;
            && (o in s.owned && o !in s'.owned ==>
                  && (step == Grant(o, true) || step == SendHome(o))
                  && o !in s.unshipped && o !in s'.live && o !in s'.routed)
            && (o !in s.owned && o in s'.owned ==>
                  o in s'.routed && ((step.TakeEnds? && step.o == o && step.got) || (step.Adopted? && step.o == o)))
            && (step == Grant(o, true) ==> o !in s'.owned && o !in s'.queues)
            && (step.TakeEnds? && step.o == o && step.got ==> o in s'.owned && o in s'.queues)
  {
  }

  /** An object becomes live only by a fetch that succeeded while routing sends it here, and every such fetch makes it
      so. */
  lemma LiveByFetch(m: Moment, step: Step, o: Obj)
    requires Can(m, step)
    ensures o !in m.s.live && o in Do(m, step).s.live ==> step.Fetched? && step.o == o && step.ok && o in m.s.routed
    ensures step.Fetched? && step.o == o && step.ok && o in m.s.routed ==> o in Do(m, step).s.live
  {
  }

  // ----- queues

  /** Both stand in the queue, the one before the other. */
  ghost predicate Before(q: seq<Entry>, e: Entry, f: Entry) {
    exists i, j :: 0 <= i < j < |q| && q[i] == e && q[j] == f
  }

  lemma BeforeIn(q: seq<Entry>, e: Entry, f: Entry)
    requires q != []
    ensures Before(q, e, f) <==> (q[0] == e && f in q[1..]) || Before(q[1..], e, f)
  {
    if Before(q, e, f) {
      var i, j :| 0 <= i < j < |q| && q[i] == e && q[j] == f;
      assert q[1..][j - 1] == f;
      if i > 0 { assert q[1..][i - 1] == e; }
    }
    if q[0] == e && f in q[1..] {
      var j :| 0 <= j < |q[1..]| && q[1..][j] == f;
      assert q[j + 1] == f;
    } else if Before(q[1..], e, f) {
      var i, j :| 0 <= i < j < |q[1..]| && q[1..][i] == e && q[1..][j] == f;
      assert q[i + 1] == e && q[j + 1] == f;
    }
  }

  lemma {:induction false} WithoutInOrder(q: seq<Entry>, t: TxnId, e: Entry, f: Entry)
    requires Before(q, e, f) && e != Txn(t) && f != Txn(t)
    ensures Before(Without(q, t), e, f)
  {
    BeforeIn(q, e, f);
    var rest := Without(q[1..], t);
    if Before(q[1..], e, f) { WithoutInOrder(q[1..], t, e, f); } else { WithoutThinned(q[1..], t); }
    if q[0] != Txn(t) {
      assert Without(q, t) == [q[0]] + rest && ([q[0]] + rest)[1..] == rest;
      BeforeIn([q[0]] + rest, e, f);
    } else {
      assert Without(q, t) == [] + rest == rest;
    }
  }

  lemma {:induction false} TxnsInOrder(q: seq<Entry>, e: Entry, f: Entry)
    requires Before(q, e, f) && e.Txn? && f.Txn?
    ensures Before(Txns(q), e, f)
  {
    BeforeIn(q, e, f);
    var rest := Txns(q[1..]);
    if Before(q[1..], e, f) { TxnsInOrder(q[1..], e, f); } else { TxnsThinned(q[1..]); }
    if q[0].Txn? {
      assert Txns(q) == [q[0]] + rest && ([q[0]] + rest)[1..] == rest;
      BeforeIn([q[0]] + rest, e, f);
    } else {
      assert Txns(q) == [] + rest == rest;
    }
  }

  lemma AppendInOrder(q: seq<Entry>, x: Entry, e: Entry, f: Entry)
    requires Before(q, e, f)
    ensures Before(q + [x], e, f)
  {
    var i, j :| 0 <= i < j < |q| && q[i] == e && q[j] == f;
    assert (q + [x])[i] == e && (q + [x])[j] == f;
  }

  /** Whoever stands before another in a queue does so as long as both stand in it. */
  lemma FirstComeFirst(m: Moment, step: Step, o: Obj, e: Entry, f: Entry)
    requires Can(m, step) && Before(QueueOf(m.s, o), e, f)
    requires e in QueueOf(Do(m, step).s, o) && f in QueueOf(Do(m, step).s, o)
    ensures Before(QueueOf(Do(m, step).s, o), e, f)
  {
    var q, s' := QueueOf(m.s, o), Do(m, step).s;
    match step
    case TakeJoins(p, taker) => if p == o { AppendInOrder(q, Take(taker), e, f); }
    case Join(t) => if Next(m.s, t) == o { AppendInOrder(q, Txn(t), e, f); }
    case Leave(t, p) =>
      WithoutThinned(q, t);
      if p == o { WithoutInOrder(q, t, e, f); }
    case Grant(p, recorded) =>
      TxnsThinned(q);
      if p == o && !recorded { TxnsInOrder(q, e, f); }
    case _ =>
  }

  /** Whoever comes into a queue comes in at its end. */
  lemma JoinsLast(m: Moment, step: Step, o: Obj, e: Entry)
    requires Can(m, step) && e !in QueueOf(m.s, o) && e in QueueOf(Do(m, step).s, o)
    ensures QueueOf(Do(m, step).s, o) == QueueOf(m.s, o) + [e]
    ensures if step.TakeJoins? then e == Take(step.taker) else (step.Join? || step.TakeEnds?) && e == Txn(step.t)
  {
    var q := QueueOf(m.s, o);
    match step
    case Leave(t, p) => WithoutThinned(q, t);
    case Grant(p, recorded) => TxnsThinned(q);
    case TakeEnds(t, p, got, purged) => assert [] + [Txn(t)] == [Txn(t)];
    case _ =>
  }

  // ----- waiting

  /** A fetch under way was begun by this transaction as head of its next object's queue, the object being here and not
      live, and it has not ended since. */
  lemma {:induction false} FetchesForCause(ms: seq<Moment>, steps: seq<Step>, k: nat, t: TxnId) returns (j: nat)
    requires IsRun(ms, steps) && ms[0] == START && k < |ms| && t in ms[k].s.parked && ms[k].s.parked[t].activating
    ensures j < k && steps[j] == Fetch(t) && Lacks(ms[j].s, t)
    ensures var o := Next(ms[j].s, t);
            AtHead(ms[j].s, o, t) && o !in ms[j].s.live && (o in ms[j].s.owned || o in ms[j].s.routed)
    ensures forall l :: j <= l < k ==> !(steps[l].Fetched? && steps[l].t == t)
  {
    assert Takes(ms[k - 1], steps[k - 1], ms[k - 1 + 1]);
    if steps[k - 1] == Fetch(t) { j := k - 1; } else { j := FetchesForCause(ms, steps, k - 1, t); }
  }

  /** A take under way was begun by this transaction for its next object, which was not here, and it has not been
      answered since. */
  lemma {:induction false} TakesForCause(ms: seq<Moment>, steps: seq<Step>, k: nat, t: TxnId) returns (j: nat)
    requires IsRun(ms, steps) && ms[0] == START && k < |ms| && t in ms[k].s.parked && ms[k].s.parked[t].taking.Some?
    ensures j < k && steps[j] == Ask(t) && Lacks(ms[j].s, t)
    ensures var o := Next(ms[j].s, t);
            ms[k].s.parked[t].taking == Some(o) && o !in ms[j].s.owned && o !in ms[j].s.routed
    ensures forall l :: j <= l < k ==> !(steps[l].TakeEnds? && steps[l].t == t)
  {
    assert Takes(ms[k - 1], steps[k - 1], ms[k - 1 + 1]);
    if t in ms[k - 1].s.parked && ms[k - 1].s.parked[t].taking.Some? {
      j := TakesForCause(ms, steps, k - 1, t);
    } else {
      j := k - 1;
    }
  }

  /** Between two messages a transaction is parked only for a cause: a take or a fetch under way, or because it stands
      behind another in the queue of its next object; and a take stands at the head of a queue only while writes to the
      object are not yet durable. */
  lemma ParkedForCause(s: S)
    requires Quiescent(s)
    ensures forall t :: t in s.parked ==>
              || s.parked[t].taking.Some? || s.parked[t].activating
              || (Lacks(s, t) && Txn(t) in QueueOf(s, Next(s, t)) && QueueOf(s, Next(s, t))[0] != Txn(t))
    ensures forall o :: o in s.queues ==> s.queues[o] != [] && (s.queues[o][0].Take? ==> o in s.unshipped)
  {
    forall t | t in s.parked
      ensures s.parked[t].taking.Some? || s.parked[t].activating
        || (Lacks(s, t) && Txn(t) in QueueOf(s, Next(s, t)) && QueueOf(s, Next(s, t))[0] != Txn(t))
    {
      assert Awake(s, t, {} + Heads(s, {}));
    }
    forall o | o in s.queues ensures s.queues[o] != [] && (s.queues[o][0].Take? ==> o in s.unshipped) {
      assert QueueOk(s, o, 0, {}) && TakeOk(s, o);
    }
  }
}
