/** The durability pipeline of one worker (src/worker.rs): transactions apply locally and become
    pending, boats carry them to the store, a boat lands atomically or sinks, and a sunk boat
    reverts everything connected to it.

    `W` is the worker's state together with the durable store and, for stating properties, the
    history of what was applied, what landed and what was reverted; `gone[i]` is what had been
    reverted when the i-th transaction ran. */
module Boats {
  import opened Bytes
  import opened Sums
  import opened TxnComponents

  /** An object's database file. */
  type Image = seq<Byte>

  /** What the operations of a transaction do with the images of the objects it holds: the images they leave in some of
      them, or nothing when an operation fails and everything is rolled back. */
  type Program = map<Obj, Image> -> Option<map<Obj, Image>>

  /** A locally committed transaction: the objects it held, those it durably changed, and what it left in them.  With a
      waiter, its client is answered when its boat lands. */
  datatype Applied = Applied(id: nat, held: set<Obj>, program: Program, participants: seq<Obj>, writes: map<Obj, Image>,
                             waiter: bool)

  datatype Phase = Sailing | Committed | Failed

  /** A boat captured the images of its objects when it was launched. */
  datatype Boat = Boat(txns: seq<Applied>, images: map<Obj, Image>, phase: Phase)

  datatype Reply = Acked | Refused

  datatype W = W(
    live: map<Obj, Image>,
    dirty: map<Obj, nat>,
    dirtyBytes: nat,
    pending: seq<Applied>,
    inflight: Option<Boat>,
    durable: map<Obj, Image>,
    replies: map<nat, Reply>,
    history: seq<Applied>,
    landed: seq<Applied>,
    reverted: set<nat>,
    gone: seq<set<nat>>,
    genesis: map<Obj, Image>)

  // ----- images and transactions

  function Of(m: map<Obj, Image>, o: Obj): Image {
    if o in m then m[o] else []
  }

  function Seen(m: map<Obj, Image>, objs: set<Obj>): map<Obj, Image> {
    map o | o in objs :: Of(m, o)
  }

  /** What a program leaves when it runs on `m` holding `objs`. */
  function Effect(p: Program, objs: set<Obj>, m: map<Obj, Image>): map<Obj, Image> {
    match p(Seen(m, objs))
    case None => map[]
    case Some(out) => map o | o in out && o in objs :: out[o]
  }

  /** An image after the transactions that touch it, in order. */
  function After(base: Image, txns: seq<Applied>, o: Obj): Image
    decreases |txns|
  {
    if txns == [] then base
    else After(if o in txns[0].writes then txns[0].writes[o] else base, txns[1..], o)
  }

  predicate Touches(t: Applied, o: Obj) {
    o in t.writes
  }

  ghost predicate Share(a: Applied, b: Applied) {
    exists o :: o in a.writes && o in b.writes
  }

  ghost function Touched(txns: seq<Applied>): set<Obj> {
    if txns == [] then {} else txns[0].writes.Keys + Touched(txns[1..])
  }

  lemma {:induction false} TouchedMember(txns: seq<Applied>, o: Obj)
    ensures o in Touched(txns) <==> exists i :: 0 <= i < |txns| && Touches(txns[i], o)
  {
    if txns != [] {
      TouchedMember(txns[1..], o);
      if o in Touched(txns[1..]) {
        var i :| 0 <= i < |txns[1..]| && Touches(txns[1..][i], o);
        assert Touches(txns[i + 1], o);
      }
      if i :| 0 <= i < |txns| && Touches(txns[i], o) {
        if i > 0 { assert Touches(txns[1..][i - 1], o); }
      }
    }
  }

  lemma {:induction false} TouchedAppend(a: seq<Applied>, b: seq<Applied>)
    ensures Touched(a + b) == Touched(a) + Touched(b)
  {
    if a == [] {
      assert a + b == b;
    } else {
      assert (a + b)[1..] == a[1..] + b;
      TouchedAppend(a[1..], b);
    }
  }

  lemma {:induction false} AfterAppend(base: Image, a: seq<Applied>, b: seq<Applied>, o: Obj)
    ensures After(base, a + b, o) == After(After(base, a, o), b, o)
    decreases |a|
  {
    if a == [] {
      assert a + b == b;
    } else {
      assert (a + b)[1..] == a[1..] + b;
      AfterAppend(if o in a[0].writes then a[0].writes[o] else base, a[1..], b, o);
    }
  }

  lemma {:induction false} AfterUntouched(base: Image, txns: seq<Applied>, o: Obj)
    requires o !in Touched(txns)
    ensures After(base, txns, o) == base
    decreases |txns|
  {
    if txns != [] { AfterUntouched(base, txns[1..], o); }
  }

  // ----- splitting the pending transactions

  /** Those whose flag is `v`, in order. */
  function Filter(txns: seq<Applied>, flags: seq<bool>, v: bool): (r: seq<Applied>)
    requires |flags| == |txns|
    decreases |txns|
  {
    if txns == [] then [] else (if flags[0] == v then [txns[0]] else []) + Filter(txns[1..], flags[1..], v)
  }

  lemma {:induction false} FilterMember(txns: seq<Applied>, flags: seq<bool>, v: bool, t: Applied)
    requires |flags| == |txns|
    ensures t in Filter(txns, flags, v) <==> exists i :: 0 <= i < |txns| && txns[i] == t && flags[i] == v
    decreases |txns|
  {
    if txns != [] {
      FilterMember(txns[1..], flags[1..], v, t);
      if t in Filter(txns[1..], flags[1..], v) {
        var i :| 0 <= i < |txns[1..]| && txns[1..][i] == t && flags[1..][i] == v;
        assert txns[i + 1] == t && flags[i + 1] == v;
      }
      if i :| 0 <= i < |txns| && txns[i] == t && flags[i] == v {
        if i > 0 { assert txns[1..][i - 1] == t && flags[1..][i - 1] == v; }
      }
    }
  }

  /** No transaction aboard shares an object with one left behind. */
  ghost predicate NeverSplits(txns: seq<Applied>, flags: seq<bool>)
    requires |flags| == |txns|
  {
    forall i, j :: 0 <= i < |txns| && 0 <= j < |txns| && flags[i] && !flags[j] ==> !Share(txns[i], txns[j])
  }

  lemma NeverSplitsTail(txns: seq<Applied>, flags: seq<bool>)
    requires |flags| == |txns| && txns != [] && NeverSplits(txns, flags)
    ensures NeverSplits(txns[1..], flags[1..])
  {
    forall i, j | 0 <= i < |txns[1..]| && 0 <= j < |txns[1..]| && flags[1..][i] && !flags[1..][j]
      ensures !Share(txns[1..][i], txns[1..][j])
    {
      assert !Share(txns[i + 1], txns[j + 1]);
    }
  }

  /** An object is changed by transactions of one side only, and that side alone gives its image. */
  lemma {:induction false} FilterAfter(base: Image, txns: seq<Applied>, flags: seq<bool>, v: bool, o: Obj)
    requires |flags| == |txns|
    requires forall i :: 0 <= i < |txns| && Touches(txns[i], o) ==> flags[i] == v
    ensures After(base, Filter(txns, flags, v), o) == After(base, txns, o)
    ensures o !in Touched(Filter(txns, flags, !v))
    decreases |txns|
  {
    if txns != [] {
      var next := if o in txns[0].writes then txns[0].writes[o] else base;
      forall i | 0 <= i < |txns[1..]| && Touches(txns[1..][i], o) ensures flags[1..][i] == v {
        assert Touches(txns[i + 1], o);
      }
      assert Touches(txns[0], o) ==> flags[0] == v;
      FilterAfter(next, txns[1..], flags[1..], v, o);
      var rest, others := Filter(txns[1..], flags[1..], v), Filter(txns[1..], flags[1..], !v);
      if flags[0] == v {
        assert ([txns[0]] + rest)[1..] == rest && [] + others == others;
      } else {
        assert [] + rest == rest && ([txns[0]] + others)[1..] == others;
      }
    }
  }

  // ----- the invariant

  /** Applied but not durable, carried by the boat in flight. */
  function Afloat(w: W): seq<Applied> {
    if w.inflight.Some? && !w.inflight.value.phase.Committed? then w.inflight.value.txns else []
  }

  /** Everything applied and not reverted: landed first, then afloat, then pending. */
  function Standing(w: W): seq<Applied> {
    w.landed + Afloat(w) + w.pending
  }

  /** Live images are the durable ones, then what is in flight, then what is pending. */
  ghost predicate Refines(w: W) {
    forall o :: o in w.live ==> w.live[o] == After(After(Of(w.durable, o), Afloat(w), o), w.pending, o)
  }

  /** The durable images are the first ones after everything that landed: each transaction on all it changed. */
  ghost predicate DurableIsLanded(w: W) {
    forall o :: Of(w.durable, o) == After(Of(w.genesis, o), w.landed, o)
  }

  ghost predicate DirtyOk(w: W) {
    w.dirty.Keys == Touched(w.pending) && w.dirtyBytes == SumOver(w.dirty.Keys, w.dirty)
  }

  ghost predicate LiveOk(w: W) {
    Touched(w.pending) <= w.live.Keys && Touched(Afloat(w)) <= w.live.Keys
  }

  ghost predicate BoatOk(w: W) {
    w.inflight.Some? ==>
      var b := w.inflight.value;
      && b.images.Keys == Touched(b.txns)
      && (!b.phase.Committed? ==> forall o :: o in b.images ==> b.images[o] == After(Of(w.durable, o), b.txns, o))
  }

  ghost predicate Wf(t: Applied) {
    t.writes.Keys <= t.held && t.writes != map[] && forall o :: o in t.participants <==> o in t.writes
  }

  /** Transactions that share an object stand in the order in which they were applied; none stands twice. */
  ghost predicate Ordered(txns: seq<Applied>) {
    forall i, j :: 0 <= i < j < |txns| ==>
      txns[i].id != txns[j].id && (Share(txns[i], txns[j]) ==> txns[i].id < txns[j].id)
  }

  /** Every transaction ever applied either stands or was reverted, and is known by its number. */
  ghost predicate Accounted(w: W) {
    && (forall i :: 0 <= i < |w.history| ==> w.history[i].id == i && Wf(w.history[i]))
    && (forall t :: t in Standing(w) ==> t.id < |w.history| && w.history[t.id] == t && t.id !in w.reverted)
    && (forall i: nat :: i < |w.history| ==> w.history[i] in Standing(w) || i in w.reverted)
    && (forall i :: i in w.reverted ==> i < |w.history|)
  }

  ghost predicate PendingWait(w: W) {
    forall t :: t in w.pending && t.waiter ==> t.id !in w.replies
  }

  ghost predicate BoatWaits(w: W) {
    forall t :: t in Afloat(w) && t.waiter ==>
      if w.inflight.value.phase.Failed? then t.id in w.replies && w.replies[t.id].Refused? else t.id !in w.replies
  }

  ghost predicate LandedAcked(w: W) {
    forall t :: t in w.landed ==> t.id in w.replies && w.replies[t.id].Acked?
  }

  ghost predicate AckedLanded(w: W) {
    forall i :: i in w.replies ==>
      i < |w.history| && (w.replies[i].Acked? && w.history[i].waiter ==> w.history[i] in w.landed)
  }

  ghost predicate OptimistsAcked(w: W) {
    forall i :: 0 <= i < |w.history| && !w.history[i].waiter ==> i in w.replies && w.replies[i].Acked?
  }

  /** Waiters are answered when their fate is decided, and an acknowledged waiter's transaction has landed. */
  ghost predicate RepliesOk(w: W) {
    PendingWait(w) && BoatWaits(w) && LandedAcked(w) && AckedLanded(w) && OptimistsAcked(w)
  }

  ghost predicate Inv(w: W) {
    && Refines(w) && DurableIsLanded(w) && DirtyOk(w) && LiveOk(w) && BoatOk(w)
    && Ordered(Standing(w)) && Accounted(w) && RepliesOk(w)
  }

  // ----- consequences

  /** A pessimistic transaction that was acknowledged is durable, and so is every earlier transaction on its
      objects that was not reverted. */
  lemma AckedMeansDurable(w: W, i: nat, k: nat)
    requires Inv(w) && i < |w.history| && w.history[i].waiter && i in w.replies && w.replies[i].Acked?
    ensures w.history[i] in w.landed
    ensures k < i && Share(w.history[k], w.history[i]) && k !in w.reverted ==> w.history[k] in w.landed
  {
    if k < i && Share(w.history[k], w.history[i]) && k !in w.reverted {
      var all := Standing(w);
      assert w.history[k] in all;
      var p :| 0 <= p < |w.landed| && w.landed[p] == w.history[i];
      var q :| 0 <= q < |all| && all[q] == w.history[k];
      assert all[p] == w.history[i] && Share(all[p], all[q]);
      assert q <= p;
      assert all[q] == w.landed[q];
    }
  }

  /** The latest transaction on an object decides its image. */
  lemma {:induction false} LastWriterWins(base: Image, txns: seq<Applied>, i: nat, o: Obj)
    requires i < |txns| && o in txns[i].writes
    requires forall j :: i < j < |txns| ==> o !in txns[j].writes
    ensures After(base, txns, o) == txns[i].writes[o]
    decreases |txns|
  {
    if i == 0 {
      forall j | 0 <= j < |txns[1..]| ensures !Touches(txns[1..][j], o) { assert txns[1..][j] == txns[j + 1]; }
      TouchedMember(txns[1..], o);
      AfterUntouched(txns[0].writes[o], txns[1..], o);
    } else {
      LastWriterWins(if o in txns[0].writes then txns[0].writes[o] else base, txns[1..], i - 1, o);
    }
  }

  /** A landed transaction is durable on every object it changed, until a later landed one changes that object again. */
  lemma LandedIsDurable(w: W, i: nat, o: Obj)
    requires Inv(w) && i < |w.landed| && o in w.landed[i].writes
    requires forall j :: i < j < |w.landed| ==> o !in w.landed[j].writes
    ensures Of(w.durable, o) == w.landed[i].writes[o]
  {
    LastWriterWins(Of(w.genesis, o), w.landed, i, o);
  }
}
