/** The admission queues of a worker, updated in place (src/worker.rs).  What the rest of the worker and the world do in
    between (grants that can or cannot be recorded, routing, shipments, reverts) is left open: the methods are proved
    for every behaviour.  Each change of the fields is a step of `AdmissionSteps`, kept in the trace. */
module AdmissionWorker {
  import opened Bytes
  import opened Admission
  import opened AdmissionSteps

  ghost function FirstId(q: seq<Entry>): set<TxnId> {
    if q != [] && q[0].Txn? then {q[0].t} else {}
  }

  ghost function SetOf(ts: seq<TxnId>): set<TxnId> {
    set t | t in ts
  }

  /** `longer` is the trace `shorter` with more of the worker's own steps. */
  ghost predicate Extends(shorter: seq<Step>, longer: seq<Step>) {
    shorter <= longer && forall k :: |shorter| <= k < |longer| ==> Internal(longer[k])
  }

  class Worker {
    var queues: map<Obj, seq<Entry>>
    var parked: map<TxnId, Parked>
    var owned: set<Obj>
    var routed: set<Obj>
    var live: set<Obj>
    var unshipped: set<Obj>
    var flagged: set<Obj>
    var answers: map<TxnId, Answer>
    ghost var trace: seq<Step>

    ghost function View(): S
      reads this
    {
      S(queues, parked, owned, routed, live, unshipped, flagged)
    }

    ghost function Now(): Moment
      reads this
    {
      Moment(View(), answers)
    }

    /** The trace leads from the start to the present moment. */
    ghost predicate Traced()
      reads this
    {
      Leads(START, trace, Now())
    }

    constructor ()
      ensures Quiescent(View()) && Now() == START && trace == [] && Traced()
    {
      queues, parked, owned, routed, live, unshipped, flagged := map[], map[], {}, {}, {}, {}, {};
      answers, trace := map[], [];
    }

    ghost method Record(step: Step, before: Moment)
      requires Leads(START, trace, before) && Can(before, step) && Do(before, step) == Now()
      modifies `trace
      ensures Traced() && trace == old(trace) + [step]
    {
      AdmissionSteps.OneMore(START, trace, before, step);
      trace := trace + [step];
    }

    /** Every transaction is either parked or has been answered, once. */
    ghost predicate Counted(submitted: set<TxnId>)
      reads this
    {
      parked.Keys + answers.Keys == submitted && parked.Keys !! answers.Keys
    }

    /** No answer is taken back, and nothing was given up in the meantime: whatever was answered ran. */
    twostate predicate OnlyRuns()
      reads this
    {
      && (forall t :: t in old(answers) ==> t in answers && answers[t] == old(answers)[t])
      && (forall t :: t in answers && t !in old(answers) ==> answers[t].Ran?)
    }

    /** The same, but for one transaction that has failed. */
    twostate predicate OnlyFails(t: TxnId)
      reads this
    {
      && (forall u :: u in old(answers) ==> u in answers && answers[u] == old(answers)[u])
      && (forall u :: u in answers && u !in old(answers) ==> if u == t then answers[u].Failed? else answers[u].Ran?)
    }

    // ----- serving a queue

    /** Serve whatever stands at the head of a queue; returns the transactions to drive on. */
    method ServiceFront(o: Obj, ghost ready: set<TxnId>, ghost x: TxnId, ghost left: set<Obj>, ghost due: set<Obj>)
      returns (more: seq<TxnId>)
      requires Inv(View(), ready, x, left, due) && o !in left && o in due && Traced()
      modifies `queues, `owned, `routed, `live, `trace
      ensures Inv(View(), ready + SetOf(more), x, left, due - {o})
      ensures Traced() && Extends(old(trace), trace)
      ensures if old(Grantable(o)) then GrantOutcome(o, more)
              else Untouched() && SetOf(more) == if o in queues then FirstId(queues[o]) else {}
    {
      assert SetOf([]) == {};
      if o !in queues {
        ServedTake(View(), ready, x, left, due, o);
        return [];
      }
      assert QueueOk(View(), o, x, left);
      match queues[o][0]
      case Txn(t) =>
        more := [t];
        assert SetOf(more) == {t};
        ServedTxn(View(), ready, x, left, due, o);
      case Take(taker) =>
        if o in unshipped {
          more := [];
          ServedTake(View(), ready, x, left, due, o);
        } else {
          more := GrantFront(o, ready, x, left, due);
        }
    }

    twostate predicate Untouched()
      reads this
    {
      queues == old(queues) && owned == old(owned) && routed == old(routed) && live == old(live)
    }

    /** What a grant comes to: recorded, the object and its whole queue are gone; refused, the transactions stay in
        their order. */
    twostate predicate GrantOutcome(o: Obj, more: seq<TxnId>)
      requires o in old(queues)
      reads this
    {
      var keep := Txns(old(queues)[o]);
      || (View() == Gone(old(View()).(queues := old(queues) - {o}), o) && SetOf(more) == Ids(keep))
      || (View() == SetQueue(old(View()), o, keep) && SetOf(more) == FirstId(keep))
    }

    ghost predicate Grantable(o: Obj)
      reads this
    {
      o in queues && queues[o] != [] && queues[o][0].Take? && o !in unshipped
    }

    /** Grant the take at the head of the queue.  Granted, the object is gone and everyone else must look for it anew;
        if the grant cannot be recorded, the waiting takes are turned away and the transactions stay. */
    method GrantFront(o: Obj, ghost ready: set<TxnId>, ghost x: TxnId, ghost left: set<Obj>, ghost due: set<Obj>)
      returns (more: seq<TxnId>)
      requires Inv(View(), ready, x, left, due) && o !in left && o in due && Traced() && Grantable(o)
      modifies `queues, `owned, `routed, `live, `trace
      ensures Inv(View(), ready + SetOf(more), x, left, due - {o}) && GrantOutcome(o, more)
      ensures Traced() && Extends(old(trace), trace)
    {
      TxnsThinned(queues[o]);
      var keep := TxnsIn(queues[o]);
      var recorded: bool := *;
      if recorded {
        more := HandOver(o, keep, ready, x, left, due);
      } else {
        more := KeepTxns(o, keep, ready, x, left, due);
      }
    }

    /** The grant is recorded: object and queue are gone. */
    method HandOver(o: Obj, keep: seq<Entry>, ghost ready: set<TxnId>, ghost x: TxnId, ghost left: set<Obj>,
                    ghost due: set<Obj>)
      returns (more: seq<TxnId>)
      requires Inv(View(), ready, x, left, due) && Traced() && Grantable(o)
      requires keep == Txns(queues[o]) && forall e :: e in keep ==> e.Txn?
      modifies `queues, `owned, `routed, `live, `trace
      ensures Inv(View(), ready + SetOf(more), x, left, due - {o}) && SetOf(more) == Ids(keep)
      ensures View() == Gone(old(View()).(queues := old(queues) - {o}), o) && Traced() && Extends(old(trace), trace)
    {
      ghost var before := Now();
      DropShrinks(before.s, o);
      queues, owned, routed, live := queues - {o}, owned - {o}, routed - {o}, live - {o};
      assert View() == Gone(before.s.(queues := before.s.queues - {o}), o);
      more := IdsIn(keep);
      assert SetOf(more) == Ids(keep);
      Granted(before.s, View(), ready, x, left, due, o);
      Record(Grant(o, true), before);
    }

    /** The grant cannot be recorded: the transactions stay. */
    method KeepTxns(o: Obj, keep: seq<Entry>, ghost ready: set<TxnId>, ghost x: TxnId, ghost left: set<Obj>,
                    ghost due: set<Obj>)
      returns (more: seq<TxnId>)
      requires Inv(View(), ready, x, left, due) && Traced() && Grantable(o) && o !in left
      requires keep == Txns(queues[o]) && forall e :: e in keep ==> e.Txn?
      modifies `queues, `trace
      ensures Inv(View(), ready + SetOf(more), x, left, due - {o}) && SetOf(more) == FirstId(keep)
      ensures View() == SetQueue(old(View()), o, keep) && Traced() && Extends(old(trace), trace)
    {
      ghost var before := Now();
      KeptShrinks(before.s, o);
      queues := if keep == [] then queues - {o} else queues[o := keep];
      assert View() == SetQueue(before.s, o, keep);
      more := if keep == [] then [] else [keep[0].t];
      assert SetOf(more) == FirstId(keep);
      Refused(before.s, View(), ready, x, left, due, o);
      Record(Grant(o, false), before);
    }

    // ----- driving a transaction

    /** Apart from the transaction's own progress, all it may do is line up at the end of queues. */
    twostate predicate OnlyJoins(t: TxnId)
      reads this
    {
      && parked.Keys == old(parked).Keys
      && (forall u :: u in parked && u != t ==> parked[u] == old(parked)[u])
      && (t in parked ==> parked[t].participants == old(parked)[t].participants)
      && (forall o :: o in old(queues) ==>
            o in queues && (queues[o] == old(queues)[o] || queues[o] == old(queues)[o] + [Txn(t)]))
      && (forall o :: o in queues && o !in old(queues) ==> queues[o] == [Txn(t)])
    }

    /** Try for the next participant: the transaction acquires it, or else has something to wait for. */
    method Acquire(t: TxnId, ghost ready: set<TxnId>) returns (got: bool)
      requires Inv(View(), ready + {t}, 0, {}, {}) && Traced() && Lacks(View(), t)
      modifies `queues, `parked, `routed, `trace
      ensures OnlyJoins(t) && Traced() && Extends(old(trace), trace)
      ensures forall o :: o in queues && o != old(Next(View(), t)) ==> o in old(queues) && queues[o] == old(queues)[o]
      ensures got ==> parked[t].acquired == old(parked[t].acquired) + 1 && Inv(View(), ready + {t}, 0, {}, {})
      ensures !got ==> parked[t].acquired == old(parked[t].acquired) && Inv(View(), ready, 0, {}, {})
      ensures got ==> var o := old(Next(View(), t)); Here(View(), o) && o in live && IsHead(View(), o, t)
    {
      var p := parked[t];
      var o := p.participants[p.acquired];
      var here := Locate(o, t, ready);
      if !here {
        AskFor(t, o, ready);
        return false;
      }
      LineUp(t, o, ready);
      got := HeadOrWait(t, o, ready);
    }

    /** An owned object is here whatever routing says; otherwise an entry that only names this worker is dropped. */
    method Locate(o: Obj, ghost t: TxnId, ghost ready: set<TxnId>) returns (here: bool)
      requires Inv(View(), ready + {t}, 0, {}, {}) && Traced()
      modifies `routed, `trace
      ensures Inv(View(), ready + {t}, 0, {}, {}) && Traced() && Extends(old(trace), trace)
      ensures here == Here(View(), o)
    {
      ghost var before := Now();
      var stale: bool := *;
      here := o in owned || (o in routed && !stale);
      routed := if here then routed + {o} else routed - {o};
      OnlyPlace(before.s, View(), ready + {t}, 0, {}, {});
      Record(Reroute(o, here), before);
    }

    /** Send for an object that is elsewhere, unless the transaction has a take under way. */
    method AskFor(t: TxnId, o: Obj, ghost ready: set<TxnId>)
      requires Inv(View(), ready + {t}, 0, {}, {}) && Traced()
      requires Lacks(View(), t) && o == Next(View(), t) && !Here(View(), o)
      modifies `parked, `trace
      ensures Inv(View(), ready, 0, {}, {}) && Traced() && Extends(old(trace), trace)
      ensures parked.Keys == old(parked).Keys && forall u :: u in parked && u != t ==> parked[u] == old(parked)[u]
      ensures parked[t].participants == old(parked)[t].participants && parked[t].acquired == old(parked)[t].acquired
    {
      ghost var before := Now();
      var p := parked[t];
      var p' := p.(taking := if p.taking.Some? then p.taking else Some(o));
      assert TxnOk(View(), t) && Reached(p, o);
      parked := parked[t := p'];
      Answered(p, p');
      NowWaits(before.s, t, p', ready);
      Record(Ask(t), before);
    }

    /** Join the object's queue, unless the transaction stands in it. */
    method LineUp(t: TxnId, o: Obj, ghost ready: set<TxnId>)
      requires Inv(View(), ready + {t}, 0, {}, {}) && Traced()
      requires Lacks(View(), t) && o == Next(View(), t) && Here(View(), o)
      modifies `queues, `trace
      ensures Inv(View(), ready + {t}, 0, {}, {}) && Traced() && Extends(old(trace), trace)
      ensures o in queues && Txn(t) in queues[o]
      ensures queues == old(queues) || queues == old(queues)[o := QueueOf(old(View()), o) + [Txn(t)]]
    {
      ghost var before := Now();
      var queue := if o in queues then queues[o] else [];
      if Txn(t) !in queue {
        queues := queues[o := queue + [Txn(t)]];
        Joins(before.s, t, ready);
        Record(Join(t), before);
      }
    }

    /** In the queue of its next object: the transaction acquires it as the head of a live object's queue. */
    method HeadOrWait(t: TxnId, o: Obj, ghost ready: set<TxnId>) returns (got: bool)
      requires Inv(View(), ready + {t}, 0, {}, {}) && Traced()
      requires Lacks(View(), t) && o == Next(View(), t) && Here(View(), o) && o in queues && Txn(t) in queues[o]
      modifies `parked, `trace
      ensures Traced() && Extends(old(trace), trace)
      ensures parked.Keys == old(parked).Keys && forall u :: u in parked && u != t ==> parked[u] == old(parked)[u]
      ensures parked[t].participants == old(parked)[t].participants
      ensures got ==> parked[t].acquired == old(parked[t].acquired) + 1 && Inv(View(), ready + {t}, 0, {}, {})
      ensures !got ==> parked[t].acquired == old(parked[t].acquired) && Inv(View(), ready, 0, {}, {})
      ensures got ==> o in live && IsHead(View(), o, t)
    {
      assert TxnOk(View(), t) && QueueOk(View(), o, 0, {});
      got := false;
      if queues[o][0] != Txn(t) {
        StandsBehind(View(), t, ready);
      } else if o !in live {
        StartFetch(t, o, ready);
      } else {
        TakeHead(t, o, ready);
        got := true;
      }
    }

    /** Head of the queue of an object that is not live: it is fetched. */
    method StartFetch(t: TxnId, o: Obj, ghost ready: set<TxnId>)
      requires Inv(View(), ready + {t}, 0, {}, {}) && Traced()
      requires Lacks(View(), t) && o == Next(View(), t) && Here(View(), o) && AtHead(View(), o, t) && o !in live
      modifies `parked, `trace
      ensures Inv(View(), ready, 0, {}, {}) && Traced() && Extends(old(trace), trace)
      ensures parked == old(parked)[t := old(parked)[t].(activating := true)]
    {
      ghost var before := Now();
      var p' := parked[t].(activating := true);
      assert TxnOk(View(), t);
      Answered(parked[t], p');
      NowWaits(View(), t, p', ready);
      parked := parked[t := p'];
      Record(Fetch(t), before);
    }

    method TakeHead(t: TxnId, o: Obj, ghost ready: set<TxnId>)
      requires Inv(View(), ready + {t}, 0, {}, {}) && Traced()
      requires Lacks(View(), t) && o == Next(View(), t) && Here(View(), o) && AtHead(View(), o, t) && o in live
      modifies `parked, `trace
      ensures Inv(View(), ready + {t}, 0, {}, {}) && Traced() && Extends(old(trace), trace)
      ensures parked == old(parked)[t := old(parked)[t].(acquired := old(parked)[t].acquired + 1)]
    {
      ghost var before := Now();
      Acquires(View(), t, ready);
      parked := parked[t := parked[t].(acquired := parked[t].acquired + 1)];
      Record(Step.Acquire(t), before);
    }

    /** Acquire participants in ascending order until all are held, or until something has to be waited for. */
    method Advance(t: TxnId, ghost ready: set<TxnId>) returns (run: bool)
      requires Inv(View(), ready + {t}, 0, {}, {}) && Traced()
      modifies `queues, `parked, `routed, `trace
      ensures Traced() && Extends(old(trace), trace)
      ensures parked.Keys == old(parked).Keys && forall u :: u in parked && u != t ==> parked[u] == old(parked)[u]
      ensures run ==>
              t in parked && parked[t].acquired == |parked[t].participants| && Inv(View(), ready + {t}, 0, {}, {})
      ensures !run ==> Inv(View(), ready, 0, {}, {})
    {
      if t !in parked {
        NotParked(View(), t, ready);
        return false;
      }
      assert TxnOk(View(), t);
      while parked[t].acquired < |parked[t].participants|
        invariant parked.Keys == old(parked).Keys && t in parked && parked[t].acquired <= |parked[t].participants|
        invariant forall u :: u in parked && u != t ==> parked[u] == old(parked)[u]
        invariant Inv(View(), ready + {t}, 0, {}, {}) && Traced() && Extends(old(trace), trace)
        decreases |parked[t].participants| - parked[t].acquired
      {
        var got := Acquire(t, ready);
        if !got { return false; }
      }
      run := true;
    }

    /** Take a transaction out of one queue and serve whoever comes next.  An object left idle by a transaction that ran
        (`ran`) may be sent home. */
    method LeaveQueue(t: TxnId, o: Obj, ran: bool, ghost ready: set<TxnId>, ghost left: set<Obj>)
      returns (more: seq<TxnId>)
      requires Inv(View(), ready, t, left, {}) && o in left && t !in parked && Traced()
      modifies `queues, `owned, `routed, `live, `trace
      ensures Inv(View(), ready + SetOf(more), t, left - {o}, {}) && Traced() && Extends(old(trace), trace)
      ensures forall p :: p != o ==>
              (p in queues <==> p in old(queues)) && (p in queues ==> queues[p] == old(queues)[p])
    {
      if o !in queues {
        Absent(View(), ready, t, left, o);
        return [];
      }
      var idle := StepOut(t, o, ready, left);
      if idle {
        more := [];
        if ran { MaybeReturnHome(o, ready, t, left - {o}); }
        NothingDue(View(), ready, t, left - {o}, o);
      } else {
        more := ServiceFront(o, ready, t, left - {o}, {o});
        assert {o} - {o} == {};
      }
    }

    method StepOut(t: TxnId, o: Obj, ghost ready: set<TxnId>, ghost left: set<Obj>) returns (idle: bool)
      requires Inv(View(), ready, t, left, {}) && o in left && t !in parked && Traced() && o in queues
      modifies `queues, `trace
      ensures Inv(View(), ready, t, left - {o}, {o}) && Traced() && Extends(old(trace), trace)
      ensures forall p :: p != o ==>
                (p in queues <==> p in old(queues)) && (p in queues ==> queues[p] == old(queues)[p])
      ensures idle == (o !in queues)
    {
      ghost var before := Now();
      var rest := Drop(queues[o], t);
      idle := rest == [];
      queues := if idle then queues - {o} else queues[o := rest];
      Leaves(before.s, View(), o, t, left, ready);
      Record(Leave(t, o), before);
    }

    /** An idle object that was lent may go home, unless it has writes to ship. */
    method MaybeReturnHome(o: Obj, ghost ready: set<TxnId>, ghost x: TxnId, ghost left: set<Obj>)
      requires Inv(View(), ready, x, left, {o}) && o !in queues && Traced()
      modifies `owned, `routed, `live, `trace
      ensures Inv(View(), ready, x, left, {o}) && Traced() && Extends(old(trace), trace)
    {
      var lent: bool := *;
      if lent && o !in unshipped && o in routed {
        ghost var before := Now();
        owned, routed, live := owned - {o}, routed - {o}, live - {o};
        OnlyPlace(before.s, View(), ready, x, left, {o});
        Record(SendHome(o), before);
      }
    }

    method LeaveAll(t: TxnId, participants: seq<Obj>, ran: bool, ghost ready: set<TxnId>) returns (more: seq<TxnId>)
      requires Inv(View(), ready, t, Rest(participants, 0), {}) && t !in parked && Traced()
      modifies `queues, `owned, `routed, `live, `trace
      ensures Inv(View(), ready + SetOf(more), 0, {}, {}) && Traced() && Extends(old(trace), trace)
    {
      more := [];
      assert SetOf([]) == {} && ready + {} == ready;
      for i := 0 to |participants|
        invariant Inv(View(), ready + SetOf(more), t, Rest(participants, i), {})
        invariant Traced() && Extends(old(trace), trace)
      {
        var o := participants[i];
        assert o in Rest(participants, i);
        var woken := LeaveQueue(t, o, ran, ready + SetOf(more), Rest(participants, i));
        assert ready + SetOf(more) + SetOf(woken) == ready + SetOf(more + woken);
        more := more + woken;
        Fewer(View(), ready + SetOf(more), t, Rest(participants, i) - {o}, Rest(participants, i + 1));
      }
      assert Rest(participants, |participants|) == {};
      NobodyLeaves(View(), ready + SetOf(more), t);
    }

    /** Give a transaction up: it leaves every queue it stands in, and its client is told. */
    method FailTxn(t: TxnId, ghost ready: set<TxnId>, ghost submitted: set<TxnId>) returns (more: seq<TxnId>)
      requires Inv(View(), ready + {t}, 0, {}, {}) && Counted(submitted) && Traced()
      modifies `queues, `owned, `routed, `live, `parked, `answers, `trace
      ensures Inv(View(), ready + SetOf(more), 0, {}, {}) && Counted(submitted)
      ensures Traced() && Extends(old(trace), trace)
      ensures parked == old(parked) - {t}
          && answers == if t in old(parked) then old(answers)[t := Failed] else old(answers)
    {
      if t !in parked {
        NotParked(View(), t, ready);
        assert SetOf([]) == {} && ready + {} == ready;
        assert parked - {t} == parked;
        return [];
      }
      ghost var before := Now();
      var p := parked[t];
      Departs(View(), t, ready);
      parked, answers := parked - {t}, answers[t := Failed];
      Record(Fail(t), before);
      more := LeaveAll(t, p.participants, false, ready);
    }

    /** Run a transaction that holds all its objects; it leaves its queues, at the head of each of which it stands. */
    method RunAndComplete(t: TxnId, ghost ready: set<TxnId>, ghost submitted: set<TxnId>) returns (more: seq<TxnId>)
      requires Inv(View(), ready + {t}, 0, {}, {}) && Counted(submitted) && Traced()
      requires t in parked && parked[t].acquired == |parked[t].participants|
      modifies this
      ensures Inv(View(), ready + SetOf(more), 0, {}, {}) && Counted(submitted)
      ensures Traced() && Extends(old(trace) + [Run(t)], trace)
      ensures parked == old(parked) - {t} && answers == old(answers)[t := Ran]
    {
      var p := parked[t];
      Execute(t, ready, submitted);
      more := LeaveAll(t, p.participants, true, ready);
      ghost var _ := Elsewhere(ready + SetOf(more), 0, {});
    }

    /** The transaction runs, and whatever it brings about. */
    method Execute(t: TxnId, ghost ready: set<TxnId>, ghost submitted: set<TxnId>)
      requires Inv(View(), ready + {t}, 0, {}, {}) && Counted(submitted) && Traced()
      requires t in parked && parked[t].acquired == |parked[t].participants|
      modifies `parked, `answers, `unshipped, `live, `flagged, `trace
      ensures Inv(View(), ready, t, Rest(old(parked)[t].participants, 0), {}) && Counted(submitted)
      ensures Traced() && Extends(old(trace) + [Run(t)], trace)
      ensures parked == old(parked) - {t} && answers == old(answers)[t := Ran]
    {
      ghost var left := Rest(parked[t].participants, 0);
      NoteRun(t, ready, submitted);
      ghost var _ := Elsewhere(ready, t, left);
    }

    method NoteRun(t: TxnId, ghost ready: set<TxnId>, ghost submitted: set<TxnId>)
      requires Inv(View(), ready + {t}, 0, {}, {}) && Counted(submitted) && Traced()
      requires t in parked && parked[t].acquired == |parked[t].participants|
      modifies `parked, `answers, `trace
      ensures Inv(View(), ready, t, Rest(old(parked)[t].participants, 0), {}) && Counted(submitted)
      ensures Traced() && trace == old(trace) + [Run(t)]
      ensures parked == old(parked) - {t} && answers == old(answers)[t := Ran]
    {
      ghost var before := Now();
      Departs(View(), t, ready);
      parked, answers := parked - {t}, answers[t := Ran];
      Record(Run(t), before);
    }

    /** The rest of the worker at work: transactions soil objects, boats leave, land and sink.  Objects that become
        clean outside a landing are flagged if they have a queue. */
    method Elsewhere(ghost ready: set<TxnId>, ghost x: TxnId, ghost left: set<Obj>) returns (ghost step: Step)
      requires Inv(View(), ready, x, left, {}) && Traced()
      modifies `unshipped, `live, `flagged, `trace
      ensures Inv(View(), ready, x, left, {}) && Traced() && step.Elsewhere? && trace == old(trace) + [step]
    {
      ghost var before := Now();
      var soiled: set<Obj> := *;
      var reverted: set<Obj> := *;
      unshipped := unshipped + soiled - reverted;
      live := live - reverted;
      flagged := flagged + set o | o in reverted && o in queues;
      StillInv(before.s, View(), ready, x, left);
      step := Step.Elsewhere(soiled, reverted);
      Record(step, before);
    }

    /** Drive transactions on and serve flagged queues until nothing is left to do. */
    method Pump(start: seq<TxnId>, ghost submitted: set<TxnId>)
      requires Inv(View(), SetOf(start), 0, {}, {}) && Counted(submitted) && Traced()
      modifies this
      ensures Quiescent(View()) && Counted(submitted) && OnlyRuns() && Traced() && Extends(old(trace), trace)
    {
      var ready := start;
      var busy := true;
      while busy
        invariant Inv(View(), SetOf(ready), 0, {}, {}) && Counted(submitted) && OnlyRuns()
        invariant Traced() && Extends(old(trace), trace)
        invariant !busy ==> ready == [] && flagged == {}
        decreases |parked.Keys|, |flagged|, |ready|, busy
      {
        ready, busy := Turn(ready, submitted);
      }
      assert SetOf([]) == {};
    }

    /** Serve what is flagged, then drive one transaction, if any is left to be driven. */
    method Turn(start: seq<TxnId>, ghost submitted: set<TxnId>) returns (ready: seq<TxnId>, busy: bool)
      requires Inv(View(), SetOf(start), 0, {}, {}) && Counted(submitted) && Traced()
      modifies this
      ensures Inv(View(), SetOf(ready), 0, {}, {}) && Counted(submitted) && OnlyRuns()
      ensures Traced() && Extends(old(trace), trace)
      ensures !busy ==> ready == [] && flagged == {} && parked.Keys == old(parked).Keys
      ensures |parked.Keys| < |old(parked).Keys| ||
              (parked.Keys == old(parked).Keys && flagged == {} && (old(flagged) == {} && busy ==> |ready| < |start|))
    {
      ready := ServeFlagged(start);
      busy := ready != [];
      if busy { ready := DriveLast(ready, submitted); }
    }

    /** Drive the last of the ready transactions: it waits for something, or it runs and wakes others. */
    method DriveLast(start: seq<TxnId>, ghost submitted: set<TxnId>) returns (ready: seq<TxnId>)
      requires Inv(View(), SetOf(start), 0, {}, {}) && Counted(submitted) && start != [] && Traced()
      modifies this
      ensures Inv(View(), SetOf(ready), 0, {}, {}) && Counted(submitted) && OnlyRuns()
      ensures Traced() && Extends(old(trace), trace)
      ensures |parked.Keys| < |old(parked).Keys|
           || (parked.Keys == old(parked).Keys && flagged == old(flagged) && |ready| < |start|)
    {
      var t := start[|start| - 1];
      ready := start[..|start| - 1];
      assert start == ready + [t];
      assert SetOf(start) == SetOf(ready) + {t};
      var run := Advance(t, SetOf(ready));
      if run { ready := Complete(t, ready, submitted); }
    }

    /** Run a transaction; those it wakes are to be driven as well. */
    method Complete(t: TxnId, others: seq<TxnId>, ghost submitted: set<TxnId>) returns (ready: seq<TxnId>)
      requires Inv(View(), SetOf(others) + {t}, 0, {}, {}) && Counted(submitted) && Traced()
      requires t in parked && parked[t].acquired == |parked[t].participants|
      modifies this
      ensures Inv(View(), SetOf(ready), 0, {}, {}) && Counted(submitted) && OnlyRuns()
      ensures Traced() && Extends(old(trace), trace)
      ensures parked.Keys == old(parked).Keys - {t} && |parked.Keys| < |old(parked).Keys|
    {
      var more := RunAndComplete(t, SetOf(others), submitted);
      assert old(trace) <= old(trace) + [Run(t)] <= trace;
      ready := others + more;
      assert SetOf(ready) == SetOf(others) + SetOf(more);
    }

    method ServeFlagged(start: seq<TxnId>) returns (ready: seq<TxnId>)
      requires Inv(View(), SetOf(start), 0, {}, {}) && Traced()
      modifies `queues, `owned, `routed, `live, `flagged, `trace
      ensures Inv(View(), SetOf(ready), 0, {}, {}) && flagged == {} && Traced() && Extends(old(trace), trace)
      ensures old(flagged) == {} ==> ready == start
    {
      ready := start;
      while flagged != {}
        invariant Inv(View(), SetOf(ready), 0, {}, {}) && Traced() && Extends(old(trace), trace)
        invariant old(flagged) == {} ==> ready == start && flagged == {}
        decreases |flagged|
      {
        var o :| o in flagged;
        ghost var before := Now();
        Due(View(), SetOf(ready), o);
        flagged := flagged - {o};
        Record(Attend(o), before);
        var more := ServiceFront(o, SetOf(ready), 0, {}, {o});
        assert {o} - {o} == {};
        assert SetOf(ready) + SetOf(more) == SetOf(ready + more);
        ready := ready + more;
      }
    }

    // ----- messages

    /** A transaction arrives, its participants sorted and without repetition. */
    method Submit(t: TxnId, participants: seq<Obj>, ghost submitted: set<TxnId>)
      requires Quiescent(View()) && Counted(submitted) && t !in submitted && Sorted(participants) && Traced()
      modifies this
      ensures Quiescent(View()) && Counted(submitted + {t}) && OnlyRuns()
      ensures Traced() && Extends(old(trace) + [Arrive(t, participants)], trace)
    {
      ghost var before := Now();
      Arrives(View(), t, participants);
      parked := parked[t := Parked(participants, 0, None, false)];
      Record(Arrive(t, participants), before);
      assert SetOf([t]) == {t};
      Pump([t], submitted + {t});
    }

    /** The end of a fetch is noted: the transaction no longer waits for it, and an object that routing still sends here
        is live. */
    method NoteActivated(t: TxnId, o: Obj, ok: bool)
      requires Quiescent(View()) && Traced()
      modifies `parked, `live, `trace
      ensures Now() == Do(old(Now()), Fetched(t, o, ok)) && Traced() && trace == old(trace) + [Fetched(t, o, ok)]
      ensures parked.Keys == old(parked).Keys && Inv(View(), {t}, 0, {}, {})
    {
      ghost var before := Now();
      if t in parked {
        NowDriven(View(), t, parked[t].(activating := false));
        parked := parked[t := parked[t].(activating := false)];
      } else {
        InvMore(View(), {}, {t}, 0, {}, {});
      }
      ghost var s := View();
      if ok && o in routed { live := live + {o}; }
      OnlyPlace(s, View(), {t}, 0, {}, {});
      Record(Fetched(t, o, ok), before);
    }

    /** The fetch of an object for a transaction has ended; if it failed, so does the transaction. */
    method OnActivated(t: TxnId, o: Obj, ok: bool, ghost submitted: set<TxnId>)
      requires Quiescent(View()) && Counted(submitted) && Traced()
      modifies this
      ensures Quiescent(View()) && Counted(submitted)
      ensures Traced() && Extends(old(trace) + [Fetched(t, o, ok)], trace)
      ensures if ok then OnlyRuns() else OnlyFails(t)
      ensures !ok && t in old(parked) ==> t in answers && answers[t].Failed?
    {
      NoteActivated(t, o, ok);
      if ok {
        assert SetOf([t]) == {t};
        Pump([t], submitted);
      } else {
        assert {} + {t} == {t};
        var more := FailTxn(t, {}, submitted);
        assert {} + SetOf(more) == SetOf(more);
        Pump(more, submitted);
      }
    }

    /** A take's answer is noted; with the deed, the object is owned, and without a queue the taker opens one. */
    method NoteTaken(t: TxnId, o: Obj, got: bool) returns (ghost purged: bool)
      requires Quiescent(View()) && t in parked && parked[t].taking == Some(o) && Traced()
      modifies `parked, `owned, `routed, `live, `queues, `trace
      ensures Now() == Do(old(Now()), TakeEnds(t, o, got, purged))
      ensures Traced() && trace == old(trace) + [TakeEnds(t, o, got, purged)]
      ensures parked.Keys == old(parked).Keys && Inv(View(), {t}, 0, {}, {})
    {
      ghost var before := Now();
      assert TxnOk(View(), t);
      var p := parked[t].(taking := None);
      NowDriven(View(), t, p);
      parked := parked[t := p];
      purged := false;
      if got {
        purged := Receive(o, t);
        if o !in queues {
          OpensQueue(View(), t, o);
          queues := queues[o := [Txn(t)]];
        }
      }
      Record(TakeEnds(t, o, got, purged), before);
    }

    /** A deed for an object not yet owned makes it so; a live file of an earlier tenure may be dropped. */
    method Receive(o: Obj, ghost t: TxnId) returns (ghost purged: bool)
      requires Inv(View(), {t}, 0, {}, {})
      modifies `owned, `routed, `live
      ensures Inv(View(), {t}, 0, {}, {})
      ensures View() == if o in old(owned) then old(View()) else Given(old(View()), o, purged)
    {
      ghost var s := View();
      var purge: bool := *;
      purged := purge;
      if o !in owned {
        owned, routed, live := owned + {o}, routed + {o}, if purge then live - {o} else live;
      }
      OnlyPlace(s, View(), {t}, 0, {}, {});
    }

    /** The answer to a take: the deed, with whether it is still good; word that the object is here after all; or
        failure. */
    method OnTaken(t: TxnId, o: Obj, got: bool, good: bool, failed: bool, ghost submitted: set<TxnId>)
      returns (ghost purged: bool)
      requires Quiescent(View()) && Counted(submitted) && Traced()
      requires t in parked ==> parked[t].taking == Some(o)
      modifies this
      ensures Quiescent(View()) && Counted(submitted)
      ensures t !in old(parked) ==> Now() == old(Now()) && trace == old(trace)
      ensures t in old(parked) ==>
                var granted := !failed && got && (good || o in old(owned));
                Traced() && Extends(old(trace) + [TakeEnds(t, o, granted, purged)], trace)
      ensures failed || (got && !good && o !in old(owned)) ==> t in old(parked) ==> t in answers && answers[t].Failed?
      ensures if failed || (got && !good && o !in old(owned)) then OnlyFails(t) else OnlyRuns()
    {
      purged := false;
      if t !in parked {
        return;
      }
      assert {} + {t} == {t} && SetOf([t]) == {t};
      if failed || (got && o !in owned && !good) {
        purged := NoteTaken(t, o, false);
        var more := FailTxn(t, {}, submitted);
        assert {} + SetOf(more) == SetOf(more);
        Pump(more, submitted);
      } else {
        purged := NoteTaken(t, o, got);
        Pump([t], submitted);
      }
    }

    /** Another worker's take joins the end of the queue. */
    method NoteTake(o: Obj, taker: Wid) returns (alone: bool)
      requires Quiescent(View()) && o in owned && Traced()
      modifies `queues, `trace
      ensures alone == (o !in old(queues))
      ensures Now() == Do(old(Now()), TakeJoins(o, taker)) && Traced() && trace == old(trace) + [TakeJoins(o, taker)]
      ensures Inv(View(), {}, 0, {}, if alone then {o} else {})
    {
      ghost var before := Now();
      var queue := if o in queues then queues[o] else [];
      alone := o !in queues;
      queues := queues[o := queue + [Take(taker)]];
      TakeQueued(before.s, View(), o, taker);
      Record(TakeJoins(o, taker), before);
    }

    /** Another worker asks for an object that this one owns. */
    method OnTake(o: Obj, taker: Wid, ghost submitted: set<TxnId>)
      requires Quiescent(View()) && Counted(submitted) && o in owned && Traced()
      modifies this
      ensures Quiescent(View()) && Counted(submitted) && OnlyRuns()
      ensures Traced() && Extends(old(trace) + [TakeJoins(o, taker)], trace)
    {
      var alone := NoteTake(o, taker);
      if alone {
        var ready := ServiceFront(o, {}, 0, {}, {o});
        assert {o} - {o} == {} && {} + SetOf(ready) == SetOf(ready);
        Pump(ready, submitted);
      }
    }

    /** The object is admitted outside any take of a transaction: an adoption, or a claim found in the checkpoints. */
    method OnAdopted(o: Obj) returns (ghost purged: bool)
      requires Quiescent(View()) && Traced()
      modifies `owned, `routed, `live, `trace
      ensures Quiescent(View()) && Now() == Do(old(Now()), Adopted(o, purged))
      ensures Traced() && trace == old(trace) + [Adopted(o, purged)]
    {
      ghost var before := Now();
      var purge: bool := *;
      purged := purge;
      owned, routed, live := owned + {o}, routed + {o}, if purge then live - {o} else live;
      OnlyPlace(before.s, View(), {}, 0, {}, {});
      Record(Adopted(o, purged), before);
    }

    /** Whether a transaction of this worker is taking the object. */
    method IsTaking(o: Obj) returns (taking: bool)
      ensures taking == Asking(View(), o)
    {
      taking := exists t :: t in parked && parked[t].taking.Some? && parked[t].acquired < |parked[t].participants|
                            && parked[t].participants[parked[t].acquired] == o;
    }

    /** A boat has landed or sunk: some of its objects have become clean, and the queues of all are served. */
    method OnShipDone(boat: set<Obj>, ghost submitted: set<TxnId>) returns (ghost first: Step, ghost cleaned: set<Obj>)
      requires Quiescent(View()) && Counted(submitted) && Traced()
      modifies this
      ensures Quiescent(View()) && Counted(submitted) && OnlyRuns()
      ensures first.Elsewhere? && Traced() && Extends(old(trace) + [first, Landed(boat, cleaned)], trace)
    {
      first := Elsewhere({}, 0, {});
      ghost var before := Now();
      var clean: set<Obj> := *;
      cleaned := clean * boat;
      unshipped := unshipped - (clean * boat);
      Cleaned(before.s, View(), boat);
      Record(Landed(boat, cleaned), before);
      var ready := ServeAll(boat);
      Pump(ready, submitted);
    }

    method ServeAll(boat: set<Obj>) returns (ready: seq<TxnId>)
      requires Inv(View(), {}, 0, {}, boat) && Traced()
      modifies `queues, `owned, `routed, `live, `trace
      ensures Inv(View(), SetOf(ready), 0, {}, {}) && Traced() && Extends(old(trace), trace)
    {
      ready := [];
      var todo := boat;
      assert SetOf([]) == {};
      while todo != {}
        invariant Inv(View(), SetOf(ready), 0, {}, todo) && Traced() && Extends(old(trace), trace)
        decreases |todo|
      {
        var o :| o in todo;
        var more := ServiceFront(o, SetOf(ready), 0, {}, todo);
        assert SetOf(ready) + SetOf(more) == SetOf(ready + more);
        ready := ready + more;
        todo := todo - {o};
      }
    }

    /** Routing changes its mind about where an object lives. */
    method OnRouting(o: Obj, here: bool)
      requires Quiescent(View()) && Traced()
      modifies `routed, `trace
      ensures Quiescent(View()) && Now() == Do(old(Now()), Routed(o, here))
      ensures Traced() && trace == old(trace) + [Routed(o, here)]
    {
      ghost var before := Now();
      routed := if here then routed + {o} else routed - {o};
      OnlyPlace(before.s, View(), {}, 0, {}, {});
      Record(Routed(o, here), before);
    }
  }

  ghost function Rest(participants: seq<Obj>, i: nat): set<Obj> {
    set k | i <= k < |participants| :: participants[k]
  }

  // ----- what each change does to the invariant

  lemma Answered(p: Parked, p': Parked)
    requires p'.participants == p.participants && p'.acquired == p.acquired
    ensures forall o :: Reached(p, o) <==> Reached(p', o)
  {
    forall o | Reached(p, o) ensures Reached(p', o) {
      var k :| 0 <= k <= p.acquired && k < |p.participants| && p.participants[k] == o;
      assert p'.participants[k] == o;
    }
    forall o | Reached(p', o) ensures Reached(p, o) {
      var k :| 0 <= k <= p.acquired && k < |p'.participants| && p'.participants[k] == o;
      assert p.participants[k] == o;
    }
  }

  /** A transaction's flags change; it is driven on next. */
  lemma NowDriven(s: S, t: TxnId, p: Parked)
    requires Inv(s, {}, 0, {}, {}) && t in s.parked
    requires p.participants == s.parked[t].participants && p.acquired == s.parked[t].acquired
    requires p.taking.Some? ==> p.taking == s.parked[t].taking
    ensures Inv(s.(parked := s.parked[t := p]), {t}, 0, {}, {})
  {
    assert TxnOk(s, t);
    Answered(s.parked[t], p);
    SameStanding(s, t, p);
    var s' := s.(parked := s.parked[t := p]);
    forall u ensures Awake(s', u, {t} + Heads(s', {})) { assert Awake(s, u, {} + Heads(s, {})); }
    forall o ensures TakeOk(s', o) { assert TakeOk(s, o); }
  }

  lemma SameStanding(s: S, t: TxnId, p: Parked)
    requires (forall o :: QueueOk(s, o, 0, {})) && (forall u :: TxnOk(s, u)) && t in s.parked
    requires p.participants == s.parked[t].participants && p.acquired == s.parked[t].acquired
    requires p.taking.Some? ==> Reached(p, p.taking.value)
    ensures var s' := s.(parked := s.parked[t := p]);
            (forall o :: QueueOk(s', o, 0, {})) && (forall u :: TxnOk(s', u))
  {
    var s' := s.(parked := s.parked[t := p]);
    forall o ensures QueueOk(s', o, 0, {}) {
      assert QueueOk(s, o, 0, {});
      if o in s.queues {
        forall i | 0 <= i < |s.queues[o]| && s.queues[o][i].Txn? ensures Entitled(s', s.queues[o][i].t, o, 0, {}) {
          assert Entitled(s, s.queues[o][i].t, o, 0, {});
        }
      }
    }
    forall u ensures TxnOk(s', u) { assert TxnOk(s, u); }
  }

  /** A transaction's take or activation goes out. */
  lemma NowWaits(s: S, t: TxnId, p: Parked, ready: set<TxnId>)
    requires Inv(s, ready + {t}, 0, {}, {}) && t in s.parked
    requires p.participants == s.parked[t].participants && p.acquired == s.parked[t].acquired
    requires p.taking.Some? || p.activating
    requires p.taking.Some? ==> Reached(p, p.taking.value)
    ensures Inv(s.(parked := s.parked[t := p]), ready, 0, {}, {})
  {
    SameStanding(s, t, p);
    var s' := s.(parked := s.parked[t := p]);
    forall u ensures Awake(s', u, ready + Heads(s', {})) { assert Awake(s, u, ready + {t} + Heads(s, {})); }
    forall o ensures TakeOk(s', o) { assert TakeOk(s, o); }
  }

  lemma NotParked(s: S, t: TxnId, ready: set<TxnId>)
    requires Inv(s, ready + {t}, 0, {}, {}) && t !in s.parked
    ensures Inv(s, ready, 0, {}, {})
  {
    forall u ensures Awake(s, u, ready + Heads(s, {})) { assert Awake(s, u, ready + {t} + Heads(s, {})); }
  }

  lemma StandsBehind(s: S, t: TxnId, ready: set<TxnId>)
    requires Inv(s, ready + {t}, 0, {}, {}) && t in s.parked && s.parked[t].acquired < |s.parked[t].participants|
    requires Behind(s, s.parked[t].participants[s.parked[t].acquired], t)
    ensures Inv(s, ready, 0, {}, {})
  {
    forall u ensures Awake(s, u, ready + Heads(s, {})) { assert Awake(s, u, ready + {t} + Heads(s, {})); }
  }

  /** A transaction lines up for its next object. */
  lemma Joins(s: S, t: TxnId, ready: set<TxnId>)
    requires Inv(s, ready + {t}, 0, {}, {}) && t in s.parked && s.parked[t].acquired < |s.parked[t].participants|
    requires var o := s.parked[t].participants[s.parked[t].acquired]; o in s.queues ==> Txn(t) !in s.queues[o]
    ensures var o := s.parked[t].participants[s.parked[t].acquired];
            Inv(s.(queues := s.queues[o := (if o in s.queues then s.queues[o] else []) + [Txn(t)]]),
                ready + {t}, 0, {}, {})
  {
    var p := s.parked[t];
    var o := p.participants[p.acquired];
    var q := if o in s.queues then s.queues[o] else [];
    var s' := s.(queues := s.queues[o := q + [Txn(t)]]);
    assert Reached(p, o);
    forall a ensures QueueOk(s', a, 0, {}) {
      assert QueueOk(s, a, 0, {});
      if a in s'.queues {
        forall i | 0 <= i < |s'.queues[a]| && s'.queues[a][i].Txn? ensures Entitled(s', s'.queues[a][i].t, a, 0, {}) {
          if a in s.queues && i < |s.queues[a]| { assert Entitled(s, s.queues[a][i].t, a, 0, {}); }
        }
      }
    }
    forall u ensures TxnOk(s', u) { assert TxnOk(s, u); }
    forall u ensures Awake(s', u, ready + {t} + Heads(s', {})) { assert Awake(s, u, ready + {t} + Heads(s, {})); }
    forall a ensures TakeOk(s', a) { assert TakeOk(s, a); }
  }

  /** At the head of a live object's queue, a transaction acquires it. */
  lemma Acquires(s: S, t: TxnId, ready: set<TxnId>)
    requires Inv(s, ready + {t}, 0, {}, {}) && t in s.parked && s.parked[t].acquired < |s.parked[t].participants|
    requires IsHead(s, s.parked[t].participants[s.parked[t].acquired], t)
    ensures Inv(s.(parked := s.parked[t := s.parked[t].(acquired := s.parked[t].acquired + 1)]), ready + {t}, 0, {}, {})
  {
    var p, p' := s.parked[t], s.parked[t].(acquired := s.parked[t].acquired + 1);
    var s' := s.(parked := s.parked[t := p']);
    assert TxnOk(s, t);
    forall o | Reached(p, o) ensures Reached(p', o) {
      var k :| 0 <= k <= p.acquired && k < |p.participants| && p.participants[k] == o;
      assert p'.participants[k] == o;
    }
    forall o ensures QueueOk(s', o, 0, {}) {
      assert QueueOk(s, o, 0, {});
      if o in s.queues {
        forall i | 0 <= i < |s.queues[o]| && s.queues[o][i].Txn? ensures Entitled(s', s.queues[o][i].t, o, 0, {}) {
          assert Entitled(s, s.queues[o][i].t, o, 0, {});
        }
      }
    }
    forall u ensures TxnOk(s', u) { assert TxnOk(s, u); }
    forall u ensures Awake(s', u, ready + {t} + Heads(s', {})) { assert Awake(s, u, ready + {t} + Heads(s, {})); }
    forall a ensures TakeOk(s', a) { assert TakeOk(s, a); }
  }

  /** A transaction is no longer parked; it may still stand in the queues of its participants. */
  lemma Departs(s: S, t: TxnId, ready: set<TxnId>)
    requires Inv(s, ready + {t}, 0, {}, {}) && t in s.parked
    ensures Inv(s.(parked := s.parked - {t}), ready, t, Rest(s.parked[t].participants, 0), {})
  {
    var s', left := s.(parked := s.parked - {t}), Rest(s.parked[t].participants, 0);
    forall o ensures QueueOk(s', o, t, left) {
      assert QueueOk(s, o, 0, {});
      if o in s.queues {
        forall i | 0 <= i < |s.queues[o]| && s.queues[o][i].Txn? ensures Entitled(s', s.queues[o][i].t, o, t, left) {
          assert Entitled(s, s.queues[o][i].t, o, 0, {});
        }
      }
    }
    forall u ensures TxnOk(s', u) { assert TxnOk(s, u); }
    forall u ensures Awake(s', u, ready + Heads(s', {})) { assert Awake(s, u, ready + {t} + Heads(s, {})); }
    forall a ensures TakeOk(s', a) { assert TakeOk(s, a); }
  }

  method Drop(q: seq<Entry>, t: TxnId) returns (rest: seq<Entry>)
    ensures rest == Without(q, t)
  {
    rest := [];
    for i := 0 to |q|
      invariant rest + Without(q[i..], t) == Without(q, t)
    {
      WithoutHead(q, i, t, rest);
      if q[i] != Txn(t) { rest := rest + [q[i]]; }
    }
  }

  lemma WithoutHead(q: seq<Entry>, i: nat, t: TxnId, done: seq<Entry>)
    requires i < |q|
    ensures done + Without(q[i..], t) == (if q[i] == Txn(t) then done else done + [q[i]]) + Without(q[i + 1..], t)
  {
    assert q[i..][1..] == q[i + 1..];
    var rest := Without(q[i + 1..], t);
    assert [] + rest == rest && done + ([q[i]] + rest) == done + [q[i]] + rest;
  }

  /** A departed transaction leaves one queue, whose new head is to be served. */
  lemma Leaves(s: S, s': S, o: Obj, t: TxnId, left: set<Obj>, ready: set<TxnId>)
    requires Inv(s, ready, t, left, {}) && t !in s.parked && o in left && o in s.queues
    requires s' == s.(queues := if Without(s.queues[o], t) == [] then s.queues - {o}
        else s.queues[o := Without(s.queues[o], t)])
    ensures Inv(s', ready, t, left - {o}, {o})
  {
    var q, q' := s.queues[o], Without(s.queues[o], t);
    WithoutThinned(q, t);
    assert QueueShrinks(s, s', o);
    ShrinkKeepsQueues(s, s', o, t, left, left - {o});
    assert QueueOk(s, o, t, left);
    ShrinkKeepsTxns(s, s', o);
    forall u ensures Awake(s', u, ready + Heads(s', {o})) {
      assert Awake(s, u, ready + Heads(s, {}));
      if u in s.parked && Behind(s, o, u) {
        assert Txn(u) in q';
        if q'[0] == Txn(u) { HeadIn(s', {o}, o); }
      }
    }
    forall a | a !in {o} ensures TakeOk(s', a) { assert TakeOk(s, a); }
  }

  lemma NothingDue(s: S, ready: set<TxnId>, x: TxnId, left: set<Obj>, o: Obj)
    requires Inv(s, ready, x, left, {o}) && o !in s.queues
    ensures Inv(s, ready + SetOf([]), x, left, {})
  {
    assert Heads(s, {o}) == {} && SetOf([]) == {};
    forall u ensures Awake(s, u, ready + SetOf([]) + Heads(s, {})) { assert Awake(s, u, ready + Heads(s, {o})); }
    forall a ensures TakeOk(s, a) { if a == o { } else { assert a !in {o}; } }
  }

  lemma Absent(s: S, ready: set<TxnId>, x: TxnId, left: set<Obj>, o: Obj)
    requires Inv(s, ready, x, left, {}) && o !in s.queues
    ensures Inv(s, ready + SetOf([]), x, left - {o}, {})
  {
    assert SetOf([]) == {} && ready + {} == ready;
    forall a ensures QueueOk(s, a, x, left - {o}) {
      assert QueueOk(s, a, x, left);
      if a in s.queues {
        forall i | 0 <= i < |s.queues[a]| && s.queues[a][i].Txn?
          ensures Entitled(s, s.queues[a][i].t, a, x, left - {o})
        {
          assert Entitled(s, s.queues[a][i].t, a, x, left);
        }
      }
    }
  }

  lemma Fewer(s: S, ready: set<TxnId>, x: TxnId, left: set<Obj>, left': set<Obj>)
    requires Inv(s, ready, x, left, {}) && left <= left'
    ensures Inv(s, ready, x, left', {})
  {
    forall a ensures QueueOk(s, a, x, left') {
      assert QueueOk(s, a, x, left);
      if a in s.queues {
        forall i | 0 <= i < |s.queues[a]| && s.queues[a][i].Txn? ensures Entitled(s, s.queues[a][i].t, a, x, left') {
          assert Entitled(s, s.queues[a][i].t, a, x, left);
        }
      }
    }
  }

  lemma NobodyLeaves(s: S, ready: set<TxnId>, x: TxnId)
    requires Inv(s, ready, x, {}, {})
    ensures Inv(s, ready, 0, {}, {})
  {
    forall a ensures QueueOk(s, a, 0, {}) {
      assert QueueOk(s, a, x, {});
      if a in s.queues {
        forall i | 0 <= i < |s.queues[a]| && s.queues[a][i].Txn? ensures Entitled(s, s.queues[a][i].t, a, 0, {}) {
          assert Entitled(s, s.queues[a][i].t, a, x, {});
        }
      }
    }
  }

  /** Queues and transactions are as before, and every object that became clean is flagged if it has a queue. */
  lemma StillInv(s: S, s': S, ready: set<TxnId>, x: TxnId, left: set<Obj>)
    requires Inv(s, ready, x, left, {}) && s'.queues == s.queues && s'.parked == s.parked && s.flagged <= s'.flagged
    requires forall o :: o in s.unshipped && o in s.queues ==> o in s'.unshipped || o in s'.flagged
    ensures Inv(s', ready, x, left, {})
  {
    SameQueues(s, s', ready, x, left, {});
    forall o ensures TakeOk(s', o) { assert TakeOk(s, o); }
  }

  lemma SameQueues(s: S, s': S, ready: set<TxnId>, x: TxnId, left: set<Obj>, due: set<Obj>)
    requires Inv(s, ready, x, left, {}) && s'.queues == s.queues && s'.parked == s.parked
    ensures forall o :: QueueOk(s', o, x, left)
    ensures forall t :: TxnOk(s', t)
    ensures forall t :: Awake(s', t, ready + Heads(s', due))
  {
    forall o ensures QueueOk(s', o, x, left) {
      assert QueueOk(s, o, x, left);
      if o in s.queues {
        forall i | 0 <= i < |s.queues[o]| && s.queues[o][i].Txn? ensures Entitled(s', s.queues[o][i].t, o, x, left) {
          assert Entitled(s, s.queues[o][i].t, o, x, left);
        }
      }
    }
    forall t ensures TxnOk(s', t) { assert TxnOk(s, t); }
    forall t ensures Awake(s', t, ready + Heads(s', due)) { assert Awake(s, t, ready + Heads(s, {})); }
  }

  /** Where objects live and which are activated is none of the queues' business. */
  lemma OnlyPlace(s: S, s': S, ready: set<TxnId>, x: TxnId, left: set<Obj>, due: set<Obj>)
    requires Inv(s, ready, x, left, due) && s' == s.(owned := s'.owned, routed := s'.routed, live := s'.live)
    ensures Inv(s', ready, x, left, due)
  {
    forall o ensures QueueOk(s', o, x, left) {
      assert QueueOk(s, o, x, left);
      if o in s.queues {
        forall i | 0 <= i < |s.queues[o]| && s.queues[o][i].Txn? ensures Entitled(s', s.queues[o][i].t, o, x, left) {
          assert Entitled(s, s.queues[o][i].t, o, x, left);
        }
      }
    }
    forall t ensures TxnOk(s', t) { assert TxnOk(s, t); }
    assert Heads(s', due) == Heads(s, due);
    forall t ensures Awake(s', t, ready + Heads(s', due)) { assert Awake(s, t, ready + Heads(s, due)); }
    forall o | o !in due ensures TakeOk(s', o) { assert TakeOk(s, o); }
  }

  lemma Due(s: S, ready: set<TxnId>, o: Obj)
    requires Inv(s, ready, 0, {}, {})
    ensures Inv(s.(flagged := s.flagged - {o}), ready, 0, {}, {o})
  {
    var s' := s.(flagged := s.flagged - {o});
    SameQueues(s, s', ready, 0, {}, {o});
    forall a | a !in {o} ensures TakeOk(s', a) { assert TakeOk(s, a); }
  }

  lemma Cleaned(s: S, s': S, boat: set<Obj>)
    requires Inv(s, {}, 0, {}, {}) && s'.queues == s.queues && s'.parked == s.parked && s'.flagged == s.flagged
    requires s.unshipped - boat <= s'.unshipped
    ensures Inv(s', {}, 0, {}, boat)
  {
    SameQueues(s, s', {}, 0, {}, boat);
    forall a | a !in boat ensures TakeOk(s', a) { assert TakeOk(s, a); }
  }

  lemma Arrives(s: S, t: TxnId, participants: seq<Obj>)
    requires Inv(s, {}, 0, {}, {}) && t !in s.parked && Sorted(participants)
    ensures Inv(s.(parked := s.parked[t := Parked(participants, 0, None, false)]), {t}, 0, {}, {})
  {
    var s' := s.(parked := s.parked[t := Parked(participants, 0, None, false)]);
    forall o ensures QueueOk(s', o, 0, {}) {
      assert QueueOk(s, o, 0, {});
      if o in s.queues {
        forall i | 0 <= i < |s.queues[o]| && s.queues[o][i].Txn? ensures Entitled(s', s.queues[o][i].t, o, 0, {}) {
          assert Entitled(s, s.queues[o][i].t, o, 0, {});
        }
      }
    }
    forall u ensures TxnOk(s', u) { assert TxnOk(s, u); }
    forall u ensures Awake(s', u, {t} + Heads(s', {})) { assert Awake(s, u, {} + Heads(s, {})); }
    forall a ensures TakeOk(s', a) { assert TakeOk(s, a); }
  }

  /** The taker of an object without a queue opens one; the object is its next, or it would hold the queue's head. */
  lemma OpensQueue(s: S, t: TxnId, o: Obj)
    requires Inv(s, {t}, 0, {}, {}) && t in s.parked && Reached(s.parked[t], o) && o !in s.queues
    ensures Inv(s.(queues := s.queues[o := [Txn(t)]]), {t}, 0, {}, {})
  {
    var p := s.parked[t];
    assert TxnOk(s, t);
    var k :| 0 <= k <= p.acquired && k < |p.participants| && p.participants[k] == o;
    assert k == p.acquired;
    assert {} + {t} == {t} && [] + [Txn(t)] == [Txn(t)];
    Joins(s, t, {});
  }

  /** A take joins the end of a queue; alone in it, it is due for service. */
  lemma TakeQueued(s: S, s': S, o: Obj, taker: Wid)
    requires Inv(s, {}, 0, {}, {})
    requires s' == s.(queues := s.queues[o := (if o in s.queues then s.queues[o] else []) + [Take(taker)]])
    ensures Inv(s', {}, 0, {}, if o in s.queues then {} else {o})
  {
    var due: set<Obj> := if o in s.queues then {} else {o};
    assert QueueOk(s, o, 0, {});
    assert o in s.queues ==> s'.queues[o][0] == s.queues[o][0];
    forall a ensures QueueOk(s', a, 0, {}) {
      assert QueueOk(s, a, 0, {});
      if a in s'.queues {
        forall i | 0 <= i < |s'.queues[a]| && s'.queues[a][i].Txn? ensures Entitled(s', s'.queues[a][i].t, a, 0, {}) {
          assert a in s.queues && i < |s.queues[a]|;
          assert Entitled(s, s.queues[a][i].t, a, 0, {});
        }
      }
    }
    forall u ensures TxnOk(s', u) { assert TxnOk(s, u); }
    forall u ensures Awake(s', u, {} + Heads(s', due)) { assert Awake(s, u, {} + Heads(s, {})); }
    forall a | a !in due ensures TakeOk(s', a) { assert TakeOk(s, a); }
  }

  /** The transactions of a queue, bouncing its takes. */
  method TxnsIn(q: seq<Entry>) returns (keep: seq<Entry>)
    ensures keep == Txns(q)
  {
    keep := [];
    for i := 0 to |q|
      invariant keep + Txns(q[i..]) == Txns(q)
    {
      TxnsHead(q, i, keep);
      if q[i].Txn? { keep := keep + [q[i]]; }
    }
  }

  lemma TxnsHead(q: seq<Entry>, i: nat, done: seq<Entry>)
    requires i < |q|
    ensures done + Txns(q[i..]) == (if q[i].Txn? then done + [q[i]] else done) + Txns(q[i + 1..])
  {
    assert q[i..][1..] == q[i + 1..];
    var rest := Txns(q[i + 1..]);
    assert [] + rest == rest && done + ([q[i]] + rest) == done + [q[i]] + rest;
  }

  method IdsIn(q: seq<Entry>) returns (ids: seq<TxnId>)
    requires forall e :: e in q ==> e.Txn?
    ensures forall t :: t in ids <==> Txn(t) in q
  {
    ids := [];
    for i := 0 to |q|
      invariant forall t :: t in ids <==> Txn(t) in q[..i]
    {
      assert q[..i + 1] == q[..i] + [q[i]] && q[i] in q;
      ids := ids + [q[i].t];
    }
    assert q[..|q|] == q;
  }

  lemma ServedTxn(s: S, ready: set<TxnId>, x: TxnId, left: set<Obj>, due: set<Obj>, o: Obj)
    requires Inv(s, ready, x, left, due) && o in s.queues && s.queues[o] != [] && s.queues[o][0].Txn?
    ensures Inv(s, ready + {s.queues[o][0].t}, x, left, due - {o})
  {
    var t, due' := s.queues[o][0].t, due - {o};
    forall u ensures Awake(s, u, ready + {t} + Heads(s, due')) {
      assert Awake(s, u, ready + Heads(s, due));
      if u in Heads(s, due) && u != t { assert u in Heads(s, due'); }
    }
  }

  lemma ServedTake(s: S, ready: set<TxnId>, x: TxnId, left: set<Obj>, due: set<Obj>, o: Obj)
    requires Inv(s, ready, x, left, due)
    requires o in s.queues ==> s.queues[o] == [] || (s.queues[o][0].Take? && o in s.unshipped)
    ensures Inv(s, ready + {}, x, left, due - {o})
  {
    assert Heads(s, due - {o}) == Heads(s, due);
    assert ready + {} == ready;
  }

  /** Those who stood in the queue of a granted object are all driven on. */
  lemma Granted(s: S, s': S, ready: set<TxnId>, x: TxnId, left: set<Obj>, due: set<Obj>, o: Obj)
    requires Inv(s, ready, x, left, due) && o in s.queues && s.queues[o] != [] && s.queues[o][0].Take?
    requires QueueShrinks(s, s', o) && o !in s'.queues
    ensures Inv(s', ready + Ids(Txns(s.queues[o])), x, left, due - {o})
  {
    ShrinkKeepsQueues(s, s', o, x, left, left);
    ShrinkKeepsTxns(s, s', o);
    TxnsThinned(s.queues[o]);
    var woken := Ids(Txns(s.queues[o]));
    forall u ensures Awake(s', u, ready + woken + Heads(s', due - {o})) {
      assert Awake(s, u, ready + Heads(s, due));
      if u in s.parked && Behind(s, o, u) { assert u in woken; }
      HeadsElsewhere(s, s', due, o);
    }
    forall p | p !in due - {o} ensures TakeOk(s', p) { if p != o { assert TakeOk(s, p); } }
  }

  lemma HeadsElsewhere(s: S, s': S, due: set<Obj>, o: Obj)
    requires QueueShrinks(s, s', o)
    ensures Heads(s, due - {o}) == Heads(s', due - {o})
    ensures forall t :: t in Heads(s, due) && t !in Heads(s', due - {o}) ==> IsHead(s, o, t)
  {
  }

  lemma DropShrinks(s: S, o: Obj)
    requires o in s.queues
    ensures QueueShrinks(s, Gone(s.(queues := s.queues - {o}), o), o)
  {
  }

  lemma KeptShrinks(s: S, o: Obj)
    requires o in s.queues
    ensures QueueShrinks(s, SetQueue(s, o, Txns(s.queues[o])), o)
  {
    TxnsThinned(s.queues[o]);
  }

  /** After a refusal the transactions keep their order, and the first of them is driven on. */
  lemma Refused(s: S, s': S, ready: set<TxnId>, x: TxnId, left: set<Obj>, due: set<Obj>, o: Obj)
    requires Inv(s, ready, x, left, due) && o in s.queues && s.queues[o] != [] && s.queues[o][0].Take? && o !in left
    requires QueueShrinks(s, s', o)
    requires if Txns(s.queues[o]) == [] then o !in s'.queues else o in s'.queues && s'.queues[o] == Txns(s.queues[o])
    ensures Inv(s', ready + FirstId(Txns(s.queues[o])), x, left, due - {o})
  {
    ShrinkKeepsQueues(s, s', o, x, left, left);
    ShrinkKeepsTxns(s, s', o);
    TxnsThinned(s.queues[o]);
    var woken := FirstId(Txns(s.queues[o]));
    forall u ensures Awake(s', u, ready + woken + Heads(s', due - {o})) {
      assert Awake(s, u, ready + Heads(s, due));
      HeadsElsewhere(s, s', due, o);
      if u in s.parked && Behind(s, o, u) { assert Txn(u) in s'.queues[o]; }
    }
    forall p | p !in due - {o} ensures TakeOk(s', p) { if p != o { assert TakeOk(s, p); } }
  }
}
