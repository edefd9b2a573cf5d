/** Ordered admission on one worker (src/worker.rs `advance`, `service_front`, `grant_front`, `fail_txn`, `pump`):
    every object has a first-come queue, and a transaction takes the heads of its objects' queues in ascending order. */
module Admission {
  import opened Bytes

  type Obj = nat
  type TxnId = nat
  type Wid = nat

  datatype Entry = Txn(t: TxnId) | Take(taker: Wid)

  /** A transaction under way: it holds the heads of its first `acquired` participants.  `taking` is the object of its
      take in flight. */
  datatype Parked = Parked(participants: seq<Obj>, acquired: nat, taking: Option<Obj>, activating: bool)

  /** `owned` are the objects the worker was given, `routed` those that routing sends here, `live` the activated ones,
      `unshipped` those with writes not yet durable, `flagged` those whose queue needs a look. */
  datatype S = S(queues: map<Obj, seq<Entry>>, parked: map<TxnId, Parked>, owned: set<Obj>, routed: set<Obj>,
                 live: set<Obj>, unshipped: set<Obj>, flagged: set<Obj>)

  datatype Answer = Ran | Failed

  /** The queues and what clients have been told. */
  datatype Moment = Moment(s: S, answers: map<TxnId, Answer>)

  ghost predicate Sorted(participants: seq<Obj>) {
    forall i, j :: 0 <= i < j < |participants| ==> participants[i] < participants[j]
  }

  // ----- the invariant

  ghost predicate IsHead(s: S, o: Obj, t: TxnId) {
    o in s.queues && s.queues[o] != [] && s.queues[o][0] == Txn(t)
  }

  /** The object is one the transaction has acquired, or its next one. */
  ghost predicate Reached(p: Parked, o: Obj) {
    exists k :: 0 <= k <= p.acquired && k < |p.participants| && p.participants[k] == o
  }

  ghost predicate NoTwice(q: seq<Entry>) {
    forall i, j :: 0 <= i < j < |q| && q[i].Txn? ==> q[i] != q[j]
  }

  /** A queue holds parked transactions that have reached the object, and each once.  `x` may still stand in the queues
      of `left` while it is being removed. */
  ghost predicate QueueOk(s: S, o: Obj, x: TxnId, left: set<Obj>) {
    o in s.queues ==>
      && s.queues[o] != [] && NoTwice(s.queues[o])
      && forall i :: 0 <= i < |s.queues[o]| && s.queues[o][i].Txn? ==> Entitled(s, s.queues[o][i].t, o, x, left)
  }

  ghost predicate Entitled(s: S, t: TxnId, o: Obj, x: TxnId, left: set<Obj>) {
    (t in s.parked && Reached(s.parked[t], o)) || (t == x && o in left)
  }

  ghost predicate TxnOk(s: S, t: TxnId) {
    t in s.parked ==>
      var p := s.parked[t];
      && Sorted(p.participants) && p.acquired <= |p.participants|
      && (p.taking.Some? ==> Reached(p, p.taking.value))
      && forall k :: 0 <= k < p.acquired ==> IsHead(s, p.participants[k], t)
  }

  /** In the queue, but not first. */
  ghost predicate Behind(s: S, o: Obj, t: TxnId) {
    o in s.queues && Txn(t) in s.queues[o] && s.queues[o][0] != Txn(t)
  }

  /** Something will wake the transaction: the answer to its take, the end of its activation, or whoever stands before
      it in the queue of its next object. */
  ghost predicate Waits(s: S, t: TxnId)
    requires t in s.parked
  {
    var p := s.parked[t];
    p.taking.Some? || p.activating || (p.acquired < |p.participants| && Behind(s, p.participants[p.acquired], t))
  }

  ghost predicate Awake(s: S, t: TxnId, ready: set<TxnId>) {
    t in s.parked ==> Waits(s, t) || t in ready
  }

  /** A take waits at the head of a queue only for the object's writes to become durable. */
  ghost predicate TakeOk(s: S, o: Obj) {
    o in s.queues && s.queues[o] != [] && s.queues[o][0].Take? ==> o in s.unshipped || o in s.flagged
  }

  /** All is well, given that the transactions in `ready` are about to be driven on, that `x` is being removed from the
      queues of `left`, and that the queues of `due` are about to be serviced. */
  ghost predicate Inv(s: S, ready: set<TxnId>, x: TxnId, left: set<Obj>, due: set<Obj>) {
    && (forall o :: QueueOk(s, o, x, left))
    && (forall t :: TxnOk(s, t))
    && (forall t :: Awake(s, t, ready + Heads(s, due)))
    && (forall o :: o !in due ==> TakeOk(s, o))
  }

  ghost function Heads(s: S, due: set<Obj>): set<TxnId> {
    set o | o in due && o in s.queues && s.queues[o] != [] && s.queues[o][0].Txn? :: s.queues[o][0].t
  }

  /** Between two messages nothing is left to be driven or serviced. */
  ghost predicate Quiescent(s: S) {
    Inv(s, {}, 0, {}, {}) && s.flagged == {}
  }

  lemma HeadIn(s: S, due: set<Obj>, o: Obj)
    requires o in due && o in s.queues && s.queues[o] != [] && s.queues[o][0].Txn?
    ensures s.queues[o][0].t in Heads(s, due)
  {
  }

  lemma InvMore(s: S, ready: set<TxnId>, ready': set<TxnId>, x: TxnId, left: set<Obj>, due: set<Obj>)
    requires Inv(s, ready, x, left, due) && ready <= ready'
    ensures Inv(s, ready', x, left, due)
  {
    forall t ensures Awake(s, t, ready' + Heads(s, due)) { assert Awake(s, t, ready + Heads(s, due)); }
  }

  // ----- queues

  /** The transactions of a queue, in order. */
  function Txns(q: seq<Entry>): seq<Entry> {
    if q == [] then [] else (if q[0].Txn? then [q[0]] else []) + Txns(q[1..])
  }

  /** The queue without one transaction. */
  function Without(q: seq<Entry>, t: TxnId): seq<Entry> {
    if q == [] then [] else (if q[0] == Txn(t) then [] else [q[0]]) + Without(q[1..], t)
  }

  ghost function Ids(q: seq<Entry>): set<TxnId> {
    set e | e in q && e.Txn? :: e.t
  }

  /** `r` is what remains of `q` when some entries are taken out. */
  ghost predicate Thinned(q: seq<Entry>, r: seq<Entry>) {
    (forall e :: e in r ==> e in q) && (NoTwice(q) ==> NoTwice(r))
  }

  lemma ThinnedCons(e: Entry, q: seq<Entry>, r: seq<Entry>, keep: bool)
    requires Thinned(q, r)
    ensures Thinned([e] + q, (if keep then [e] else []) + r)
  {
    var q', r' := [e] + q, (if keep then [e] else []) + r;
    if NoTwice(q') {
      forall i, j | 0 <= i < j < |q| && q[i].Txn? ensures q[i] != q[j] { assert q'[i + 1] != q'[j + 1]; }
      forall i, j | 0 <= i < j < |r'| && r'[i].Txn? ensures r'[i] != r'[j] {
        if keep {
          if i == 0 {
            assert r[j - 1] in q;
            var k :| 0 <= k < |q| && q[k] == r[j - 1];
            assert q'[0] != q'[k + 1];
          } else {
            assert r[i - 1] != r[j - 1];
          }
        } else {
          assert r' == r;
        }
      }
    }
  }

  lemma {:induction false} TxnsThinned(q: seq<Entry>)
    ensures Thinned(q, Txns(q)) && forall e :: e in Txns(q) <==> e in q && e.Txn?
  {
    if q != [] {
      TxnsThinned(q[1..]);
      ThinnedCons(q[0], q[1..], Txns(q[1..]), q[0].Txn?);
      assert q == [q[0]] + q[1..];
    }
  }

  lemma {:induction false} WithoutThinned(q: seq<Entry>, t: TxnId)
    ensures Thinned(q, Without(q, t)) && forall e :: e in Without(q, t) <==> e in q && e != Txn(t)
    ensures q != [] && q[0] != Txn(t) ==> Without(q, t) != [] && Without(q, t)[0] == q[0]
  {
    if q != [] {
      WithoutThinned(q[1..], t);
      ThinnedCons(q[0], q[1..], Without(q[1..], t), q[0] != Txn(t));
      assert q == [q[0]] + q[1..];
    }
  }

  /** Thinning the queue of one object, or dropping it: everybody else's standing is unchanged. */
  ghost predicate QueueShrinks(s: S, s': S, o: Obj) {
    && s'.parked == s.parked && s'.unshipped == s.unshipped && s'.flagged == s.flagged
    && (forall p :: p != o ==> (p in s'.queues <==> p in s.queues) && (p in s.queues ==> s'.queues[p] == s.queues[p]))
    && o in s.queues && (o in s'.queues ==> s'.queues[o] != [] && Thinned(s.queues[o], s'.queues[o]))
  }

  lemma ShrinkKeepsQueues(s: S, s': S, o: Obj, x: TxnId, left: set<Obj>, left': set<Obj>)
    requires QueueShrinks(s, s', o) && forall p :: QueueOk(s, p, x, left)
    requires left' == left || (left' == left - {o} && (o in s'.queues ==> Txn(x) !in s'.queues[o]))
    ensures forall p :: QueueOk(s', p, x, left')
  {
    forall p ensures QueueOk(s', p, x, left') {
      assert QueueOk(s, p, x, left);
      if p == o && o in s'.queues {
        var q, q' := s.queues[o], s'.queues[o];
        forall i | 0 <= i < |q'| && q'[i].Txn? ensures Entitled(s', q'[i].t, o, x, left') {
          assert q'[i] in q;
          var j :| 0 <= j < |q| && q[j] == q'[i];
          assert Entitled(s, q[j].t, o, x, left);
        }
      } else if p in s'.queues {
        forall i | 0 <= i < |s.queues[p]| && s.queues[p][i].Txn? ensures Entitled(s', s.queues[p][i].t, p, x, left') {
          assert Entitled(s, s.queues[p][i].t, p, x, left);
        }
      }
    }
  }

  /** A holder keeps its heads when the queue that shrinks is not one it holds, or keeps its head. */
  lemma ShrinkKeepsTxns(s: S, s': S, o: Obj)
    requires QueueShrinks(s, s', o) && forall t :: TxnOk(s, t)
    requires forall t :: t in s.parked && IsHead(s, o, t) ==> IsHead(s', o, t)
    ensures forall t :: TxnOk(s', t)
  {
    forall t ensures TxnOk(s', t) {
      assert TxnOk(s, t);
    }
  }

  // ----- main results

  /** The transaction may run: it has acquired all its participants, stands at the head of all their queues, and nobody
      else holds any of them. */
  ghost predicate MayRun(s: S, t: TxnId) {
    && t in s.parked && s.parked[t].acquired == |s.parked[t].participants|
    && (forall k :: 0 <= k < |s.parked[t].participants| ==> IsHead(s, s.parked[t].participants[k], t))
    && (forall u, k :: u in s.parked && u != t && 0 <= k < s.parked[u].acquired <= |s.parked[u].participants| ==>
          s.parked[u].participants[k] !in s.parked[t].participants)
  }

  /** Once a transaction has acquired all its participants, it is its turn: it heads all its queues, alone. */
  lemma RunsAsHeadOfAll(s: S, t: TxnId)
    requires (forall u :: TxnOk(s, u)) && t in s.parked && s.parked[t].acquired == |s.parked[t].participants|
    ensures MayRun(s, t)
  {
    var p := s.parked[t];
    assert TxnOk(s, t);
    forall u, k | u in s.parked && u != t && 0 <= k < s.parked[u].acquired <= |s.parked[u].participants|
      ensures s.parked[u].participants[k] !in p.participants
    {
      if s.parked[u].participants[k] in p.participants {
        var i :| 0 <= i < |p.participants| && p.participants[i] == s.parked[u].participants[k];
        Exclusive(s, t, u, i, k);
      }
    }
  }

  /** No two transactions hold the same object. */
  lemma Exclusive(s: S, t: TxnId, u: TxnId, i: nat, j: nat)
    requires (forall v :: TxnOk(s, v)) && t in s.parked && u in s.parked
    requires i < s.parked[t].acquired <= |s.parked[t].participants|
        && j < s.parked[u].acquired <= |s.parked[u].participants|
    requires s.parked[t].participants[i] == s.parked[u].participants[j]
    ensures t == u
  {
    assert TxnOk(s, t) && TxnOk(s, u);
    assert IsHead(s, s.parked[t].participants[i], t) && IsHead(s, s.parked[u].participants[j], u);
  }

  /** Someone whose wait ends from outside: the answer to a take or the end of an activation is on its way. */
  ghost predicate Enabled(s: S, t: TxnId) {
    t in s.parked && (s.parked[t].taking.Some? || s.parked[t].activating)
  }

  /** A take that goes on as soon as the object's writes are durable. */
  ghost predicate AwaitsShip(s: S, o: Obj) {
    o in s.queues && s.queues[o] != [] && s.queues[o][0].Take? && o in s.unshipped
  }

  /** No wait cycle: from any parked transaction, the chain of those it waits for goes to ever higher objects and ends
      with a take or an activation under way, or at an object whose writes are on their way to the store. */
  lemma {:induction false} NoDeadlock(s: S, t: TxnId, bound: nat)
    requires Quiescent(s) && t in s.parked
    requires forall u, k :: u in s.parked && 0 <= k < |s.parked[u].participants| ==> s.parked[u].participants[k] < bound
    ensures (exists u :: Enabled(s, u)) || (exists o :: AwaitsShip(s, o))
    decreases bound - if s.parked[t].acquired < |s.parked[t].participants|
        then s.parked[t].participants[s.parked[t].acquired] else 0
  {
    assert TxnOk(s, t) && Awake(s, t, {} + Heads(s, {}));
    var p := s.parked[t];
    if Enabled(s, t) {
    } else {
      var o := p.participants[p.acquired];
      assert QueueOk(s, o, 0, {});
      var head := s.queues[o][0];
      if head.Take? {
        assert TakeOk(s, o);
        assert AwaitsShip(s, o);
      } else {
        assert Entitled(s, head.t, o, 0, {});
        NextHolder(s, head.t, o);
        if !Enabled(s, head.t) { NoDeadlock(s, head.t, bound); }
      }
    }
  }

  /** The head of a queue, if it waits at all, waits for a higher object or for an answer from outside. */
  lemma NextHolder(s: S, u: TxnId, o: Obj)
    requires Quiescent(s) && u in s.parked && IsHead(s, o, u) && Reached(s.parked[u], o)
    ensures Enabled(s, u) ||
            var p := s.parked[u]; p.acquired < |p.participants| && o < p.participants[p.acquired]
  {
    assert TxnOk(s, u) && Awake(s, u, {} + Heads(s, {}));
    var p := s.parked[u];
    var k :| 0 <= k <= p.acquired && k < |p.participants| && p.participants[k] == o;
    if !Enabled(s, u) {
      assert Behind(s, p.participants[p.acquired], u);
      assert k != p.acquired;
    }
  }

  ghost function Ceiling(participants: seq<Obj>): nat
    decreases |participants|
  {
    if participants == [] then 0 else
      var rest := Ceiling(participants[1..]);
      if participants[0] < rest then rest else participants[0] + 1
  }

  lemma {:induction false} UnderCeiling(participants: seq<Obj>, k: nat)
    requires k < |participants|
    ensures participants[k] < Ceiling(participants)
    decreases |participants|
  {
    if k > 0 { UnderCeiling(participants[1..], k - 1); }
  }

  lemma {:induction false} Bounded(parked: map<TxnId, Parked>) returns (bound: nat)
    ensures forall u, k :: u in parked && 0 <= k < |parked[u].participants| ==> parked[u].participants[k] < bound
    decreases |parked|
  {
    bound := 0;
    if parked != map[] {
      var t :| t in parked;
      var rest := parked - {t};
      assert |rest| < |parked| by {
        assert rest.Keys == parked.Keys - {t};
        assert |rest| == |rest.Keys| && |parked| == |parked.Keys|;
      }
      var below := Bounded(rest);
      var own := Ceiling(parked[t].participants);
      bound := if below < own then own else below;
      forall u, k | u in parked && 0 <= k < |parked[u].participants| ensures parked[u].participants[k] < bound {
        if u == t { UnderCeiling(parked[t].participants, k); } else { assert u in rest && rest[u] == parked[u]; }
      }
    }
  }

  /** Whenever anything is parked between two messages, something outside the queues is under way that will move it. */
  lemma NothingStuck(s: S)
    requires Quiescent(s) && s.parked != map[]
    ensures (exists u :: Enabled(s, u)) || (exists o :: AwaitsShip(s, o))
  {
    var t :| t in s.parked;
    var bound := Bounded(s.parked);
    NoDeadlock(s, t, bound);
  }
}
