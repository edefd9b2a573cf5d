/** Atomicity, exclusiveness and permanence of commits, and linearizable folds, for any
    interleaving of boats, faults, folds and compactions in which every delete finds the
    entry its get saw. */
module ObjLogProof {
  import opened Bytes
  import opened PageDelta
  import opened LogEntry
  import opened ObjLog

  // ----- what only ever grows

  ghost predicate Grows(s: Store, s': Store) {
    && (forall t :: t in s.outcomes ==> t in s'.outcomes && s'.outcomes[t] == s.outcomes[t])
    && (forall k :: k in s.bases ==> k in s'.bases && s'.bases[k] == s.bases[k])
    && (forall o, q :: CommittedAt(s, o, q) ==> CommittedAt(s', o, q) && s'.log[(o, q)] == s.log[(o, q)])
  }

  lemma RawSeqGrows(s: Store, s': Store, o: Obj)
    requires Grows(s, s')
    ensures RawSeq(s, o) <= RawSeq(s', o)
  {
    var n := RawSeq(s', o);
    assert !CommittedAt(s', o, n + 1);
    assert !CommittedAt(s, o, n + 1);
  }

  lemma {:induction false} RawFoldGrows(s: Store, s': Store, o: Obj, n: nat)
    requires Grows(s, s') && n <= RawSeq(s, o)
    ensures RawFold(s', o, n) == RawFold(s, o, n)
  {
    if n > 0 {
      assert CommittedAt(s, o, n);
      RawFoldGrows(s, s', o, n - 1);
    }
  }

  lemma RawSeqIs(s: Store, o: Obj, n: nat)
    requires !CommittedAt(s, o, n + 1)
    requires forall q: nat :: 0 < q <= n ==> CommittedAt(s, o, q)
    ensures RawSeq(s, o) == n
  {
    assert !CommittedAt(s, o, RawSeq(s, o) + 1);
  }

  ghost predicate Contiguous(s: Store) {
    forall o, q: nat :: CommittedAt(s, o, q) ==> 0 < q <= RawSeq(s, o)
  }

  /** Every published base is the raw log folded up to its sequence number. */
  ghost predicate BasesFaithful(s: Store) {
    forall o, n: nat :: (o, n) in s.bases ==> n <= RawSeq(s, o) && RawFold(s, o, n) == Some(s.bases[(o, n)])
  }

  // ----- boats and the entries they own

  /** Entry `e` in slot `q` of `o` is what boat `t` puts there for one of its first `i` items. */
  ghost predicate ItemOf(boats: map<Txn, Boat>, e: Entry, o: Obj, q: nat) {
    e.txn in boats && exists j: nat :: PlacedBy(boats[e.txn], j, e, o, q)
  }

  ghost predicate PlacedBy(b: Boat, j: nat, e: Entry, o: Obj, q: nat) {
    j < b.i && j < |b.items| && b.items[j].o == o && b.items[j].expected + 1 == q && b.items[j].payload == e.payload
  }

  ghost predicate HoldsSlot(s: Store, t: Txn, item: Item) {
    var k := (item.o, item.expected + 1);
    k in s.log && s.log[k].txn == t && s.log[k].payload == item.payload
  }

  ghost predicate BoatShape(s: Store, t: Txn, b: Boat) {
    && SortedItems(b.items)
    && b.i <= |b.items|
    && (AtItem(b.pc) ==> b.i < |b.items|)
    && (b.pc.CommitCreate? || b.pc.CommitRecheck? || b.pc.Landed? ==> b.i == |b.items|)
    && (b.pc.Landed? <==> Committed(s, t))
    && (b.pc.CommitRecheck? ==> t in s.outcomes)
  }

  /** Unless aborted or failing, a boat holds every slot it prewrote, right after a committed run. */
  ghost predicate BoatHolds(s: Store, t: Txn, b: Boat) {
    b.i <= |b.items| && (!Failing(b) ==>
      && (!Aborted(s, t) ==> forall j :: 0 <= j < b.i ==> HoldsSlot(s, t, b.items[j]))
      && (forall j :: 0 <= j < b.i ==> b.items[j].expected <= RawSeq(s, b.items[j].o)))
  }

  /** Where the boat stands with its current item. */
  ghost predicate BoatAt(s: Store, boats: map<Txn, Boat>, b: Boat)
    requires b.i <= |b.items| && (AtItem(b.pc) ==> b.i < |b.items|)
  {
    && (b.pc.Checking? ==> ReaderOk(s, boats, b.items[b.i].o, 0, b.pc.r))
    && (AtItem(b.pc) && !b.pc.Checking? ==> b.items[b.i].expected <= RawSeq(s, b.items[b.i].o))
    && (b.pc.HolderOutcome? ==> b.pc.held.txn in boats)
    && (b.pc.AbortHolder? ==> b.pc.u in boats)
    && (b.pc.DropGet? ==> Aborted(s, b.pc.u))
    && (b.pc.DropDelete? ==> Aborted(s, b.pc.u))
    && (b.pc.ClearDelete? ==> b.j < b.i)
  }

  ghost predicate BoatOk(s: Store, boats: map<Txn, Boat>, t: Txn, b: Boat) {
    BoatShape(s, t, b) && BoatHolds(s, t, b) && BoatAt(s, boats, b)
  }

  ghost predicate BoatsOk(s: Store, boats: map<Txn, Boat>) {
    forall t :: t in boats ==> BoatOk(s, boats, t, boats[t])
  }

  ghost predicate LogOwned(s: Store, boats: map<Txn, Boat>) {
    forall k :: k in s.log ==> ItemOf(boats, s.log[k], k.0, k.1)
  }

  ghost predicate OutcomesKnown(s: Store, boats: map<Txn, Boat>) {
    forall t :: t in s.outcomes ==> t in boats
  }

  // ----- readers

  /** The scan's payloads on top of its base are the raw log folded up to where it stands. */
  ghost predicate ScanOk(s: Store, o: Obj, since: nat, sc: Scan) {
    && sc.base <= sc.at <= RawSeq(s, o)
    && Fold(sc.img, sc.payloads) == RawFold(s, o, sc.at)
    && since <= RawSeq(s, o)
  }

  ghost predicate ListedEnough(since: nat, sc: Scan) {
    forall q: nat :: sc.base < q <= since ==> q in sc.listed
  }

  ghost predicate ReaderOk(s: Store, boats: map<Txn, Boat>, o: Obj, since: nat, r: Reader) {
    match r
    case ListBases(_) => since <= RawSeq(s, o)
    case GetBase(_, b) => (o, b) in s.bases && since <= RawSeq(s, o)
    case ListLogs(_, img, b) => b <= RawSeq(s, o) && RawFold(s, o, b) == Some(img) && since <= RawSeq(s, o)
    case Walking(_, sc) => ScanOk(s, o, since, sc) && ListedEnough(since, sc)
    case Judging(_, sc, e) =>
      && ScanOk(s, o, since, sc) && ListedEnough(since, sc)
      && ItemOf(boats, e, o, sc.at + 1)
      && (sc.at < since ==> Committed(s, e.txn))
    case Rechecking(_, sc) => ScanOk(s, o, since, sc) && since <= sc.at
    case Settled(at, image) => since <= at <= RawSeq(s, o) && image == RawFold(s, o, at)
    case Raced => true
  }

  ghost predicate JobOk(s: Store, boats: map<Txn, Boat>, c: Job) {
    && ReaderOk(s, boats, c.o, c.since, c.r)
    && (c.phase.SecondBase? ==> c.phase.at <= RawSeq(s, c.o) && RawFold(s, c.o, c.phase.at) == Some(c.phase.image))
    && (c.phase.Publishing? ==> c.phase.at <= RawSeq(s, c.o) && RawFold(s, c.o, c.phase.at) == Some(c.phase.image))
  }

  ghost predicate JobsOk(w: World) {
    forall id :: id in w.jobs ==> JobOk(w.s, w.boats, w.jobs[id])
  }

  ghost predicate Inv(w: World) {
    && Contiguous(w.s) && BasesFaithful(w.s) && LogOwned(w.s, w.boats) && OutcomesKnown(w.s, w.boats)
    && BoatsOk(w.s, w.boats) && JobsOk(w)
  }

  // ----- readers are stable under everybody else's steps

  /** No boat is forgotten, and none gives up an item it placed. */
  ghost predicate BoatsGrow(a: map<Txn, Boat>, b: map<Txn, Boat>) {
    forall t :: t in a ==> t in b && b[t].items == a[t].items && a[t].i <= b[t].i
  }

  lemma ItemOfGrows(a: map<Txn, Boat>, b: map<Txn, Boat>, e: Entry, o: Obj, q: nat)
    requires BoatsGrow(a, b) && ItemOf(a, e, o, q)
    ensures ItemOf(b, e, o, q)
  {
    var j: nat :| PlacedBy(a[e.txn], j, e, o, q);
    assert PlacedBy(b[e.txn], j, e, o, q);
  }

  lemma ReaderStable(s: Store, s': Store, a: map<Txn, Boat>, b: map<Txn, Boat>, o: Obj, since: nat, r: Reader)
    requires Grows(s, s') && BoatsGrow(a, b) && ReaderOk(s, a, o, since, r)
    ensures ReaderOk(s', b, o, since, r)
  {
    RawSeqGrows(s, s', o);
    match r {
      case ListLogs(_, img, base) => RawFoldGrows(s, s', o, base);
      case Walking(_, sc) => RawFoldGrows(s, s', o, sc.at);
      case Judging(_, sc, e) =>
        RawFoldGrows(s, s', o, sc.at);
        ItemOfGrows(a, b, e, o, sc.at + 1);
      case Rechecking(_, sc) => RawFoldGrows(s, s', o, sc.at);
      case Settled(at, image) => RawFoldGrows(s, s', o, at);
      case _ =>
    }
  }

  lemma JobStable(s: Store, s': Store, a: map<Txn, Boat>, b: map<Txn, Boat>, c: Job)
    requires Grows(s, s') && BoatsGrow(a, b) && JobOk(s, a, c)
    ensures JobOk(s', b, c)
  {
    ReaderStable(s, s', a, b, c.o, c.since, c.r);
    RawSeqGrows(s, s', c.o);
    if c.phase.SecondBase? { RawFoldGrows(s, s', c.o, c.phase.at); }
    if c.phase.Publishing? { RawFoldGrows(s, s', c.o, c.phase.at); }
  }

  // ----- a reader's own step

  /** A committed transaction holds every slot an entry of it was ever seen in. */
  lemma CommittedEntryInPlace(w: World, e: Entry, o: Obj, q: nat)
    requires BoatsOk(w.s, w.boats) && ItemOf(w.boats, e, o, q) && Committed(w.s, e.txn)
    ensures CommittedAt(w.s, o, q) && w.s.log[(o, q)].payload == e.payload
  {
    var b := w.boats[e.txn];
    assert BoatOk(w.s, w.boats, e.txn, b);
    var j: nat :| PlacedBy(b, j, e, o, q);
    assert HoldsSlot(w.s, e.txn, b.items[j]);
  }

  lemma ScanExtends(s: Store, o: Obj, since: nat, sc: Scan, e: Entry)
    requires ScanOk(s, o, since, sc) && CommittedAt(s, o, sc.at + 1)
    requires s.log[(o, sc.at + 1)].payload == e.payload
    ensures ScanOk(s, o, since, sc.(at := sc.at + 1, payloads := sc.payloads + [e.payload]))
  {
    FoldAppend(sc.img, sc.payloads, [e.payload]);
    assert [e.payload][1..] == [];
  }

  lemma JudgingAdvances(w: World, o: Obj, since: nat, n: nat, sc: Scan, e: Entry)
    requires BoatsOk(w.s, w.boats) && ReaderOk(w.s, w.boats, o, since, Judging(n, sc, e))
    ensures ReaderOk(w.s, w.boats, o, since, ReaderStep(w.s, o, Judging(n, sc, e)))
  {
    if Committed(w.s, e.txn) {
      CommittedEntryInPlace(w, e, o, sc.at + 1);
      ScanExtends(w.s, o, since, sc, e);
    }
  }

  lemma WalkingAdvances(w: World, o: Obj, since: nat, n: nat, sc: Scan)
    requires LogOwned(w.s, w.boats) && ReaderOk(w.s, w.boats, o, since, Walking(n, sc))
    ensures ReaderOk(w.s, w.boats, o, since, ReaderStep(w.s, o, Walking(n, sc)))
  {
    if sc.at < since { assert CommittedAt(w.s, o, sc.at + 1); }
    if (o, sc.at + 1) in w.s.log { assert ItemOf(w.boats, w.s.log[(o, sc.at + 1)], o, sc.at + 1); }
  }

  lemma ListingAdvances(w: World, o: Obj, since: nat, n: nat, img: File, base: nat)
    requires ReaderOk(w.s, w.boats, o, since, ListLogs(n, img, base))
    ensures ReaderOk(w.s, w.boats, o, since, ReaderStep(w.s, o, ListLogs(n, img, base)))
  {
    forall q: nat | base < q <= since ensures q in ListedSeqs(w.s, o) {
      assert CommittedAt(w.s, o, q);
      assert (o, q) in w.s.log;
    }
  }

  lemma ReaderAdvances(w: World, o: Obj, since: nat, r: Reader)
    requires Inv(w) && ReaderOk(w.s, w.boats, o, since, r)
    ensures ReaderOk(w.s, w.boats, o, since, ReaderStep(w.s, o, r))
  {
    match r {
      case ListLogs(n, img, base) => ListingAdvances(w, o, since, n, img, base);
      case Walking(n, sc) => WalkingAdvances(w, o, since, n, sc);
      case Judging(n, sc, e) => JudgingAdvances(w, o, since, n, sc, e);
      case _ =>
    }
  }

  // ----- steps that commit nothing

  /** A step of boat `t` that commits nothing: its own undecided entries come and go, outcomes of undecided
      transactions become aborts, entries of aborted transactions disappear. */
  ghost predicate Tame(s: Store, s': Store, boats: map<Txn, Boat>, t: Txn) {
    && !Committed(s, t)
    && s'.bases == s.bases
    && (forall u :: u in s.outcomes ==> u in s'.outcomes && s'.outcomes[u] == s.outcomes[u])
    && (forall u :: u in s'.outcomes && u !in s.outcomes ==> !s'.outcomes[u] && u in boats)
    && (forall k :: k in s.log ==>
          || (k in s'.log && s'.log[k] == s.log[k])
          || (k !in s'.log && !Committed(s, s.log[k].txn)
              && (s.log[k].txn == t || Expendable(s', boats, s.log[k].txn))))
    && (forall k :: k in s'.log && k !in s.log ==> s'.log[k].txn == t)
  }

  /** Nobody relies on the entries of this transaction any more. */
  ghost predicate Expendable(s: Store, boats: map<Txn, Boat>, u: Txn) {
    Aborted(s, u) || (u in boats && Failing(boats[u]))
  }

  lemma TameView(s: Store, s': Store, boats: map<Txn, Boat>, t: Txn)
    requires Tame(s, s', boats, t)
    ensures forall o, q :: CommittedAt(s', o, q) <==> CommittedAt(s, o, q)
    ensures Grows(s, s')
    ensures forall o :: RawSeq(s', o) == RawSeq(s, o)
  {
    forall o: Obj, q: nat ensures CommittedAt(s', o, q) <==> CommittedAt(s, o, q) {
      if CommittedAt(s, o, q) { assert (o, q) in s'.log; }
      if CommittedAt(s', o, q) { assert (o, q) in s.log; }
    }
    forall o ensures RawSeq(s', o) == RawSeq(s, o) {
      assert !CommittedAt(s', o, RawSeq(s, o) + 1);
      RawSeqIs(s', o, RawSeq(s, o));
    }
  }

  lemma BasesStayFaithful(s: Store, s': Store)
    requires Grows(s, s') && s'.bases == s.bases && BasesFaithful(s)
    ensures BasesFaithful(s')
  {
    forall o, n: nat | (o, n) in s'.bases ensures n <= RawSeq(s', o) && RawFold(s', o, n) == Some(s'.bases[(o, n)]) {
      RawSeqGrows(s, s', o);
      RawFoldGrows(s, s', o, n);
    }
  }

  lemma TameContiguous(s: Store, s': Store, boats: map<Txn, Boat>, t: Txn)
    requires Tame(s, s', boats, t) && Contiguous(s)
    ensures Contiguous(s')
  {
    TameView(s, s', boats, t);
  }

  /** The slots boat `u` prewrote are untouched, unless nobody relies on them. */
  ghost predicate KeepsLocks(s: Store, s': Store, boats: map<Txn, Boat>, u: Txn) {
    && Committed(s', u) == Committed(s, u)
    && forall k :: k in s.log && s.log[k].txn == u ==>
            (k in s'.log && s'.log[k] == s.log[k]) || Expendable(s', boats, u)
  }

  lemma BoatHoldsStays(s: Store, s': Store, boats: map<Txn, Boat>, u: Txn, b: Boat)
    requires Grows(s, s') && KeepsLocks(s, s', boats, u) && BoatHolds(s, u, b) && u in boats && boats[u] == b
    ensures BoatHolds(s', u, b)
  {
    if !Failing(b) {
      forall j | 0 <= j < b.i ensures b.items[j].expected <= RawSeq(s', b.items[j].o) {
        RawSeqGrows(s, s', b.items[j].o);
      }
      if !Aborted(s', u) {
        forall j | 0 <= j < b.i ensures HoldsSlot(s', u, b.items[j]) { assert HoldsSlot(s, u, b.items[j]); }
      }
    }
  }

  lemma BoatAtStays(s: Store, s': Store, a: map<Txn, Boat>, boats: map<Txn, Boat>, b: Boat)
    requires Grows(s, s') && BoatsGrow(a, boats)
    requires b.i <= |b.items| && (AtItem(b.pc) ==> b.i < |b.items|) && BoatAt(s, a, b)
    ensures BoatAt(s', boats, b)
  {
    if AtItem(b.pc) {
      RawSeqGrows(s, s', b.items[b.i].o);
      if b.pc.Checking? { ReaderStable(s, s', a, boats, b.items[b.i].o, 0, b.pc.r); }
    }
  }

  /** Everybody but `t` is as well off after the step. */
  lemma OthersStay(s: Store, s': Store, a: map<Txn, Boat>, boats: map<Txn, Boat>, t: Txn)
    requires Grows(s, s') && BoatsGrow(a, boats) && BoatsOk(s, a)
    requires forall u :: u in a && u != t ==> KeepsLocks(s, s', a, u)
    ensures forall u :: u in a && u != t ==> BoatOk(s', boats, u, a[u])
  {
    forall u | u in a && u != t ensures BoatOk(s', boats, u, a[u]) {
      assert BoatOk(s, a, u, a[u]);
      BoatHoldsStays(s, s', a, u, a[u]);
      BoatAtStays(s, s', a, boats, a[u]);
    }
  }

  lemma JobsStay(w: World, s': Store, boats: map<Txn, Boat>)
    requires JobsOk(w) && Grows(w.s, s') && BoatsGrow(w.boats, boats)
    ensures JobsOk(World(s', boats, w.jobs))
  {
    forall id | id in w.jobs ensures JobOk(s', boats, w.jobs[id]) {
      JobStable(w.s, s', w.boats, boats, w.jobs[id]);
    }
  }

  /** What a step of boat `t` must establish; everything else about the world follows. */
  lemma BoatStepSuffices(w: World, t: Txn, s': Store, b': Boat)
    requires Inv(w) && t in w.boats && Tame(w.s, s', w.boats, t)
    requires b'.items == w.boats[t].items && w.boats[t].i <= b'.i
    requires BoatOk(s', w.boats[t := b'], t, b')
    requires forall k :: k in s'.log && k !in w.s.log ==> exists j: nat :: PlacedBy(b', j, s'.log[k], k.0, k.1)
    ensures Inv(World(s', w.boats[t := b'], w.jobs))
    ensures Grows(w.s, s')
  {
    var s, boats := w.s, w.boats[t := b'];
    assert BoatsGrow(w.boats, boats);
    TameView(s, s', w.boats, t);
    TameContiguous(s, s', w.boats, t);
    BasesStayFaithful(s, s');
    forall k | k in s'.log ensures ItemOf(boats, s'.log[k], k.0, k.1) {
      if k in s.log { ItemOfGrows(w.boats, boats, s.log[k], k.0, k.1); }
    }
    OthersStay(s, s', w.boats, boats, t);
    JobsStay(w, s', boats);
  }

  // ----- the boat's own account of its step

  lemma Same(s: Store, boats: map<Txn, Boat>, t: Txn)
    requires !Committed(s, t)
    ensures Tame(s, s, boats, t)
  {
  }

  lemma FailOk(s: Store, boats: map<Txn, Boat>, t: Txn, b: Boat)
    requires BoatShape(s, t, b) && !b.pc.Landed?
    ensures BoatOk(s, boats, t, Fail(b))
  {
  }

  lemma RetryOk(s: Store, boats: map<Txn, Boat>, t: Txn, b: Boat)
    requires BoatShape(s, t, b) && BoatHolds(s, t, b) && AtItem(b.pc)
    requires b.items[b.i].expected <= RawSeq(s, b.items[b.i].o)
    ensures BoatOk(s, boats, t, Retry(b))
  {
  }

  /** A boat that has just got hold of its slot. */
  lemma PrewrittenOk(s: Store, boats: map<Txn, Boat>, t: Txn, b: Boat)
    requires BoatShape(s, t, b) && BoatHolds(s, t, b) && AtItem(b.pc)
    requires b.items[b.i].expected <= RawSeq(s, b.items[b.i].o)
    requires !Aborted(s, t) ==> HoldsSlot(s, t, b.items[b.i])
    ensures BoatOk(s, boats, t, Prewritten(b))
  {
    var b' := Prewritten(b);
    assert BoatHolds(s, t, b');
    if b'.pc.Checking? { assert ReaderOk(s, boats, b'.items[b'.i].o, 0, b'.pc.r); }
  }

  /** No boat finds its own entry in a slot it has yet to take. */
  lemma NeverOwn(w: World, t: Txn)
    requires Inv(w) && t in w.boats && AtItem(w.boats[t].pc)
    ensures Slot(w.boats[t]) in w.s.log ==> w.s.log[Slot(w.boats[t])].txn != t
  {
    assert BoatOk(w.s, w.boats, t, w.boats[t]);
  }

  /** The slot whose entry the event is about to delete, if it is a delete. */
  ghost function Deletes(w: World, e: Event): Option<(Obj, nat)> {
    if e.Boats? && e.t in w.boats && w.boats[e.t].pc.DropDelete? && w.boats[e.t].i < |w.boats[e.t].items| then
      Some(Slot(w.boats[e.t]))
    else if e.Boats? && e.t in w.boats && w.boats[e.t].pc.ClearDelete? && w.boats[e.t].j < |w.boats[e.t].items| then
      Some(ClearSlot(w.boats[e.t]))
    else None
  }

  /** A delete finds the slot empty, or an entry of an aborted transaction or of a boat that is failing. */
  ghost predicate CleanDelete(w: World, e: Event) {
    var d := Deletes(w, e);
    d.Some? && d.value in w.s.log ==> Expendable(w.s, w.boats, w.s.log[d.value].txn)
  }

  /** A delete that is one operation with the get before it still finds the entry the get saw. */
  ghost predicate AtomicDelete(w: World, e: Event) {
    var d := Deletes(w, e);
    d.Some? && d.value in w.s.log ==>
      var b := w.boats[e.t];
      w.s.log[d.value].txn == if b.pc.DropDelete? then b.pc.u else e.t
  }

  ghost predicate Wins(w: World, e: Event) {
    e.Boats? && e.t in w.boats && w.boats[e.t].pc.CommitCreate? && e.t !in w.s.outcomes
  }

  /** What `BoatStepSuffices` asks for. */
  ghost predicate Good(w: World, t: Txn, s': Store, b': Boat)
    requires t in w.boats
  {
    && Tame(w.s, s', w.boats, t)
    && b'.items == w.boats[t].items && w.boats[t].i <= b'.i
    && BoatOk(s', w.boats[t := b'], t, b')
    && forall k :: k in s'.log && k !in w.s.log ==> exists j: nat :: PlacedBy(b', j, s'.log[k], k.0, k.1)
  }

  lemma CheckingGood(w: World, t: Txn)
    requires Inv(w) && t in w.boats && w.boats[t].pc.Checking?
    ensures var (s', b') := PrewriteStep(w.s, t, w.boats[t]); Good(w, t, s', b')
  {
    var b, s := w.boats[t], w.s;
    assert BoatOk(s, w.boats, t, b);
    var (s', b') := PrewriteStep(s, t, b);
    var r := b.pc.r;
    Same(s, w.boats, t);
    if r.Settled? {
      if r.at != b.items[b.i].expected { FailOk(s, w.boats[t := b'], t, b); }
    } else if r.Raced? {
      FailOk(s, w.boats[t := b'], t, b);
    } else {
      ReaderAdvances(w, b.items[b.i].o, 0, r);
      ReaderStable(s, s, w.boats, w.boats[t := b'], b.items[b.i].o, 0, ReaderStep(s, b.items[b.i].o, r));
    }
  }

  lemma CreateTame(s: Store, boats: map<Txn, Boat>, t: Txn, k: (Obj, nat), e: Entry)
    requires !Committed(s, t) && k !in s.log && e.txn == t
    ensures Tame(s, s.(log := s.log[k := e]), boats, t)
  {
  }

  lemma CreateGood(w: World, t: Txn)
    requires Inv(w) && t in w.boats && w.boats[t].pc.TryCreate?
    ensures var (s', b') := PrewriteStep(w.s, t, w.boats[t]); Good(w, t, s', b')
  {
    var b, s := w.boats[t], w.s;
    assert BoatOk(s, w.boats, t, b);
    var k, e := Slot(b), Entry(t, b.born, b.items[b.i].payload);
    if k in s.log {
      Same(s, w.boats, t);
    } else {
      CreateTame(s, w.boats, t, k, e);
      WonSlot(s, s.(log := s.log[k := e]), w.boats, t, b, e);
    }
  }

  lemma WonSlot(s: Store, s': Store, boats: map<Txn, Boat>, t: Txn, b: Boat, e: Entry)
    requires t in boats && boats[t] == b
    requires BoatShape(s, t, b) && BoatHolds(s, t, b) && b.pc.TryCreate? && Slot(b) !in s.log
    requires b.items[b.i].expected <= RawSeq(s, b.items[b.i].o)
    requires e.txn == t && e.payload == b.items[b.i].payload
    requires s' == s.(log := s.log[Slot(b) := e]) && Tame(s, s', boats, t)
    ensures BoatOk(s', boats[t := Prewritten(b)], t, Prewritten(b))
    ensures PlacedBy(Prewritten(b), b.i, e, Slot(b).0, Slot(b).1)
  {
    TameView(s, s', boats, t);
    BoatHoldsStays(s, s', boats, t, b);
    PrewrittenOk(s', boats[t := Prewritten(b)], t, b);
  }

  lemma GetHolderGood(w: World, t: Txn)
    requires Inv(w) && t in w.boats && w.boats[t].pc.GetHolder?
    ensures var (s', b') := PrewriteStep(w.s, t, w.boats[t]); Good(w, t, s', b')
  {
    var b, s := w.boats[t], w.s;
    assert BoatOk(s, w.boats, t, b);
    Same(s, w.boats, t);
    NeverOwn(w, t);
    if Slot(b) in s.log {
      assert ItemOf(w.boats, s.log[Slot(b)], Slot(b).0, Slot(b).1);
    } else {
      RetryOk(s, w.boats[t := Retry(b)], t, b);
    }
  }

  lemma JudgeHolderGood(w: World, t: Txn)
    requires t in w.boats && BoatOk(w.s, w.boats, t, w.boats[t])
        && (w.boats[t].pc.HolderOutcome? || w.boats[t].pc.AbortRecheck?)
    ensures var (s', b') := PrewriteStep(w.s, t, w.boats[t]); Good(w, t, s', b')
  {
    if w.boats[t].pc.HolderOutcome? { HolderOutcomeGood(w, t); } else { RecheckGood(w, t); }
  }

  lemma HolderOutcomeGood(w: World, t: Txn)
    requires t in w.boats && BoatOk(w.s, w.boats, t, w.boats[t]) && w.boats[t].pc.HolderOutcome?
    ensures var (s', b') := PrewriteStep(w.s, t, w.boats[t]); Good(w, t, s', b')
  {
    var b, s := w.boats[t], w.s;
    Same(s, w.boats, t);
    var held := b.pc.held;
    if Committed(s, held.txn) || (!Aborted(s, held.txn) && b.born <= held.born + b.ttl) {
      FailOk(s, w.boats[t := Fail(b)], t, b);
    }
  }

  lemma RecheckGood(w: World, t: Txn)
    requires t in w.boats && BoatOk(w.s, w.boats, t, w.boats[t]) && w.boats[t].pc.AbortRecheck?
    ensures var (s', b') := PrewriteStep(w.s, t, w.boats[t]); Good(w, t, s', b')
  {
    var b, s := w.boats[t], w.s;
    Same(s, w.boats, t);
    if !Aborted(s, b.pc.u) { FailOk(s, w.boats[t := Fail(b)], t, b); }
  }

  lemma DropGetGood(w: World, t: Txn)
    requires t in w.boats && BoatOk(w.s, w.boats, t, w.boats[t]) && w.boats[t].pc.DropGet?
    ensures var (s', b') := PrewriteStep(w.s, t, w.boats[t]); Good(w, t, s', b')
  {
    var b, s := w.boats[t], w.s;
    Same(s, w.boats, t);
    RetryOk(s, w.boats[t := Retry(b)], t, b);
  }

  lemma AbortGood(w: World, t: Txn)
    requires t in w.boats && BoatOk(w.s, w.boats, t, w.boats[t]) && w.boats[t].pc.AbortHolder?
    ensures var (s', b') := PrewriteStep(w.s, t, w.boats[t]); Good(w, t, s', b')
  {
    var b, s := w.boats[t], w.s;
    var (s', b') := PrewriteStep(s, t, b);
    assert Tame(s, s', w.boats, t);
    TameView(s, s', w.boats, t);
    BoatHoldsStays(s, s', w.boats, t, b);
  }

  lemma DropGood(w: World, t: Txn)
    requires Inv(w) && t in w.boats && w.boats[t].pc.DropDelete? && CleanDelete(w, Boats(t))
    ensures var (s', b') := PrewriteStep(w.s, t, w.boats[t]); Good(w, t, s', b')
  {
    var b, s := w.boats[t], w.s;
    assert BoatOk(s, w.boats, t, b);
    var (s', b') := PrewriteStep(s, t, b);
    DeleteTame(s, w.boats, t, Slot(b));
    TameView(s, s', w.boats, t);
    NeverOwn(w, t);
    BoatHoldsStays(s, s', w.boats, t, b);
    RetryOk(s', w.boats[t := b'], t, b);
  }

  lemma CommitLostGood(w: World, t: Txn)
    requires t in w.boats && BoatOk(w.s, w.boats, t, w.boats[t])
        && (w.boats[t].pc.CommitCreate? || w.boats[t].pc.CommitRecheck?)
    requires !Wins(w, Boats(t))
    ensures var (s', b') := FinishStep(w.s, t, w.boats[t]); Good(w, t, s', b')
  {
    var b, s := w.boats[t], w.s;
    Same(s, w.boats, t);
    FailOk(s, w.boats[t := Fail(b)], t, b);
  }

  lemma DeleteTame(s: Store, boats: map<Txn, Boat>, t: Txn, k: (Obj, nat))
    requires !Committed(s, t) && BoatsOk(s, boats)
    requires k in s.log ==> Expendable(s, boats, s.log[k].txn)
    ensures Tame(s, s.(log := s.log - {k}), boats, t)
  {
  }

  lemma ClearGood(w: World, t: Txn)
    requires Inv(w) && t in w.boats && Failing(w.boats[t]) && CleanDelete(w, Boats(t))
    ensures var (s', b') := FinishStep(w.s, t, w.boats[t]); Good(w, t, s', b')
  {
    assert BoatOk(w.s, w.boats, t, w.boats[t]);
    if w.boats[t].pc.ClearDelete? { ClearDeleteGood(w, t); } else { ClearLooksGood(w, t); }
  }

  lemma ClearLooksGood(w: World, t: Txn)
    requires t in w.boats && BoatOk(w.s, w.boats, t, w.boats[t]) && Failing(w.boats[t]) && !w.boats[t].pc.ClearDelete?
    requires LogOwned(w.s, w.boats)
    ensures var (s', b') := FinishStep(w.s, t, w.boats[t]); Good(w, t, s', b')
  {
    var b, s := w.boats[t], w.s;
    Same(s, w.boats, t);
    if b.pc.ClearGet? && b.j < |b.items| && ClearSlot(b) in s.log && s.log[ClearSlot(b)].txn == t {
      OwnsSlot(s, w.boats, t, b.j);
    }
  }

  /** An entry of a boat in the slot of one of its items means that the item is prewritten. */
  lemma OwnsSlot(s: Store, boats: map<Txn, Boat>, t: Txn, j: nat)
    requires LogOwned(s, boats) && t in boats && SortedItems(boats[t].items) && j < |boats[t].items|
    requires var k := (boats[t].items[j].o, boats[t].items[j].expected + 1); k in s.log && s.log[k].txn == t
    ensures j < boats[t].i
  {
    var k := (boats[t].items[j].o, boats[t].items[j].expected + 1);
    assert ItemOf(boats, s.log[k], k.0, k.1);
    var l: nat :| PlacedBy(boats[t], l, s.log[k], k.0, k.1);
    assert l == j;
  }

  lemma ClearDeleteGood(w: World, t: Txn)
    requires Inv(w) && t in w.boats && w.boats[t].pc.ClearDelete? && CleanDelete(w, Boats(t))
    ensures var (s', b') := FinishStep(w.s, t, w.boats[t]); Good(w, t, s', b')
  {
    var b, s := w.boats[t], w.s;
    assert BoatOk(s, w.boats, t, b);
    DeleteTame(s, w.boats, t, ClearSlot(b));
  }

  // ----- the step that commits

  ghost predicate Carries(b: Boat, o: Obj) {
    exists j :: 0 <= j < |b.items| && b.items[j].o == o
  }

  /** Boat `t` is about to win its outcome. */
  ghost predicate Switching(s: Store, boats: map<Txn, Boat>, t: Txn) {
    && t in boats && boats[t].pc.CommitCreate? && t !in s.outcomes
    && BoatShape(s, t, boats[t]) && BoatHolds(s, t, boats[t])
    && LogOwned(s, boats) && Contiguous(s)
  }

  lemma AboutToWin(w: World, t: Txn)
    requires Inv(w) && Wins(w, Boats(t))
    ensures Switching(w.s, w.boats, t)
  {
    assert BoatOk(w.s, w.boats, t, w.boats[t]);
  }

  /** Every item of a boat at its switch waits in the slot right after its object's committed run. */
  lemma AtTheSwitch(s: Store, boats: map<Txn, Boat>, t: Txn, j: nat)
    requires Switching(s, boats, t) && j < |boats[t].items|
    ensures var item := boats[t].items[j]; RawSeq(s, item.o) == item.expected && HoldsSlot(s, t, item)
  {
    var item := boats[t].items[j];
    assert HoldsSlot(s, t, item) && item.expected <= RawSeq(s, item.o);
    assert !CommittedAt(s, item.o, item.expected + 1);
  }

  lemma OwnSlot(s: Store, boats: map<Txn, Boat>, t: Txn, o: Obj, q: nat)
    requires Switching(s, boats, t) && (o, q) in s.log && s.log[(o, q)].txn == t
    ensures Carries(boats[t], o) && q == RawSeq(s, o) + 1
  {
    assert ItemOf(boats, s.log[(o, q)], o, q);
    var j: nat :| PlacedBy(boats[t], j, s.log[(o, q)], o, q);
    AtTheSwitch(s, boats, t, j);
  }

  lemma CarriedSlot(s: Store, boats: map<Txn, Boat>, t: Txn, o: Obj)
    requires Switching(s, boats, t) && Carries(boats[t], o)
    ensures var k := (o, RawSeq(s, o) + 1); k in s.log && s.log[k].txn == t
  {
    var j :| 0 <= j < |boats[t].items| && boats[t].items[j].o == o;
    AtTheSwitch(s, boats, t, j);
  }

  lemma CommitsOneSlot(s: Store, boats: map<Txn, Boat>, t: Txn, o: Obj, q: nat)
    requires Switching(s, boats, t)
    ensures CommittedAt(Decide(s, t, true), o, q) <==>
              CommittedAt(s, o, q) || (Carries(boats[t], o) && q == RawSeq(s, o) + 1)
  {
    if (o, q) in s.log && s.log[(o, q)].txn == t { OwnSlot(s, boats, t, o, q); }
    if Carries(boats[t], o) { CarriedSlot(s, boats, t, o); }
  }

  /** Winning the outcome extends the run of every object aboard by one, and no other. */
  lemma CommitExtends(s: Store, boats: map<Txn, Boat>, t: Txn, o: Obj)
    requires Switching(s, boats, t)
    ensures RawSeq(Decide(s, t, true), o) == RawSeq(s, o) + if Carries(boats[t], o) then 1 else 0
    ensures forall q: nat :: CommittedAt(Decide(s, t, true), o, q) ==> 0 < q <= RawSeq(Decide(s, t, true), o)
  {
    var s', b := Decide(s, t, true), boats[t];
    var n := RawSeq(s, o) + if Carries(b, o) then 1 else 0;
    forall q: nat ensures CommittedAt(s', o, q) <==> CommittedAt(s, o, q) || (Carries(b, o) && q == RawSeq(s, o) + 1) {
      CommitsOneSlot(s, boats, t, o, q);
    }
    assert !CommittedAt(s, o, n + 1);
    RawSeqIs(s', o, n);
  }

  lemma CommitGrows(s: Store, boats: map<Txn, Boat>, t: Txn)
    requires t !in s.outcomes
    ensures Grows(s, Decide(s, t, true))
    ensures forall u :: u != t ==> KeepsLocks(s, Decide(s, t, true), boats, u)
  {
  }

  lemma CommitOwnOk(s: Store, boats: map<Txn, Boat>, t: Txn)
    requires Switching(s, boats, t)
    ensures var b' := boats[t].(pc := Landed);
            BoatOk(Decide(s, t, true), boats[t := b'], t, b')
  {
    var s', b := Decide(s, t, true), boats[t];
    CommitGrows(s, boats, t);
    forall j | 0 <= j < b.i
      ensures HoldsSlot(s', t, b.items[j]) && b.items[j].expected <= RawSeq(s', b.items[j].o)
    {
      AtTheSwitch(s, boats, t, j);
      RawSeqGrows(s, s', b.items[j].o);
    }
  }

  lemma CommitStore(s: Store, boats: map<Txn, Boat>, t: Txn)
    requires Switching(s, boats, t) && BasesFaithful(s)
    ensures Contiguous(Decide(s, t, true)) && BasesFaithful(Decide(s, t, true))
  {
    CommitGrows(s, boats, t);
    forall o: Obj, q: nat | CommittedAt(Decide(s, t, true), o, q) ensures 0 < q <= RawSeq(Decide(s, t, true), o) {
      CommitExtends(s, boats, t, o);
    }
    BasesStayFaithful(s, Decide(s, t, true));
  }

  lemma CommitKeepsInv(w: World, t: Txn)
    requires Inv(w) && Wins(w, Boats(t))
    ensures Inv(World(Decide(w.s, t, true), w.boats[t := w.boats[t].(pc := Landed)], w.jobs))
    ensures Grows(w.s, Decide(w.s, t, true))
  {
    var s, s', b' := w.s, Decide(w.s, t, true), w.boats[t].(pc := Landed);
    var boats := w.boats[t := b'];
    AboutToWin(w, t);
    CommitGrows(s, w.boats, t);
    assert BoatsGrow(w.boats, boats);
    CommitStore(s, w.boats, t);
    forall k | k in s'.log ensures ItemOf(boats, s'.log[k], k.0, k.1) {
      ItemOfGrows(w.boats, boats, s.log[k], k.0, k.1);
    }
    OthersStay(s, s', w.boats, boats, t);
    CommitOwnOk(s, w.boats, t);
    JobsStay(w, s', boats);
  }

  // ----- folds and compactions

  /** A base created at a committed sequence number with the fold there disturbs nobody. */
  lemma PublishKeepsView(s: Store, k: (Obj, nat), img: File)
    requires k !in s.bases && Contiguous(s)
    ensures var s' := s.(bases := s.bases[k := img]);
            Grows(s, s') && Contiguous(s') && forall o :: RawSeq(s', o) == RawSeq(s, o)
  {
    var s' := s.(bases := s.bases[k := img]);
    forall o, q: nat ensures CommittedAt(s', o, q) <==> CommittedAt(s, o, q) {}
    forall o ensures RawSeq(s', o) == RawSeq(s, o) {
      assert !CommittedAt(s', o, RawSeq(s, o) + 1);
      RawSeqIs(s', o, RawSeq(s, o));
    }
  }

  lemma PublishFaithful(s: Store, k: (Obj, nat), img: File)
    requires k !in s.bases && Contiguous(s) && BasesFaithful(s)
    requires k.1 <= RawSeq(s, k.0) && RawFold(s, k.0, k.1) == Some(img)
    ensures BasesFaithful(s.(bases := s.bases[k := img]))
  {
    var s' := s.(bases := s.bases[k := img]);
    PublishKeepsView(s, k, img);
    forall o, n: nat | (o, n) in s'.bases
      ensures n <= RawSeq(s', o) && RawFold(s', o, n) == Some(s'.bases[(o, n)])
    {
      RawFoldGrows(s, s', o, n);
    }
  }

  lemma PublishKeepsBoats(s: Store, boats: map<Txn, Boat>, k: (Obj, nat), img: File)
    requires k !in s.bases && Contiguous(s) && BoatsOk(s, boats)
    ensures BoatsOk(s.(bases := s.bases[k := img]), boats)
  {
    var s' := s.(bases := s.bases[k := img]);
    PublishKeepsView(s, k, img);
    forall t | t in boats ensures BoatOk(s', boats, t, boats[t]) {
      assert BoatOk(s, boats, t, boats[t]);
      BoatHoldsStays(s, s', boats, t, boats[t]);
      BoatAtStays(s, s', boats, boats, boats[t]);
    }
  }

  lemma PublishKeepsInv(w: World, k: (Obj, nat), img: File)
    requires Inv(w) && k !in w.s.bases
    requires k.1 <= RawSeq(w.s, k.0) && RawFold(w.s, k.0, k.1) == Some(img)
    ensures Inv(w.(s := w.s.(bases := w.s.bases[k := img])))
    ensures Grows(w.s, w.s.(bases := w.s.bases[k := img]))
  {
    PublishKeepsView(w.s, k, img);
    PublishFaithful(w.s, k, img);
    PublishKeepsBoats(w.s, w.boats, k, img);
    JobsStay(w, w.s.(bases := w.s.bases[k := img]), w.boats);
  }

  lemma FoldingOk(w: World, c: Job)
    requires Inv(w) && JobOk(w.s, w.boats, c) && c.phase.Folding?
    ensures JobOk(w.s, w.boats, JobStep(w.s, c).1) && JobStep(w.s, c).0 == w.s
  {
    if !c.r.Settled? && !c.r.Raced? { ReaderAdvances(w, c.o, c.since, c.r); }
  }

  lemma PublishingOk(w: World, c: Job)
    requires Inv(w) && JobOk(w.s, w.boats, c) && c.phase.Publishing?
    ensures var (s', c') := JobStep(w.s, c);
            && Inv(w.(s := s')) && Grows(w.s, s') && JobOk(s', w.boats, c')
  {
    var k := (c.o, c.phase.at);
    assert w.(s := w.s) == w;
    if k !in w.s.bases { PublishKeepsInv(w, k, c.phase.image); }
    JobStable(w.s, JobStep(w.s, c).0, w.boats, w.boats, c);
  }

  lemma JobStepOk(w: World, id: nat)
    requires Inv(w) && id in w.jobs
    ensures var (s', c') := JobStep(w.s, w.jobs[id]);
            && Inv(w.(s := s')) && Grows(w.s, s') && JobOk(s', w.boats, c')
  {
    var c := w.jobs[id];
    assert JobOk(w.s, w.boats, c) && w.(s := w.s) == w;
    match c.phase {
      case Folding => FoldingOk(w, c);
      case Publishing(_, _) => PublishingOk(w, c);
      case _ =>
    }
  }

  lemma JobKeepsInv(w: World, id: nat)
    requires Inv(w) && id in w.jobs
    ensures Inv(Apply(w, Jobs(id))) && Grows(w.s, Apply(w, Jobs(id)).s)
  {
    JobStepOk(w, id);
  }

  // ----- every event

  lemma PrewriteGood(w: World, t: Txn)
    requires Inv(w) && t in w.boats && AtItem(w.boats[t].pc) && w.boats[t].i < |w.boats[t].items|
    requires CleanDelete(w, Boats(t))
    ensures var (s', b') := PrewriteStep(w.s, t, w.boats[t]); Good(w, t, s', b')
  {
    assert BoatOk(w.s, w.boats, t, w.boats[t]);
    match w.boats[t].pc {
      case Checking(_) => CheckingGood(w, t);
      case TryCreate => CreateGood(w, t);
      case GetHolder => GetHolderGood(w, t);
      case HolderOutcome(_) => JudgeHolderGood(w, t);
      case AbortHolder(_) => AbortGood(w, t);
      case AbortRecheck(_) => JudgeHolderGood(w, t);
      case DropGet(_) => DropGetGood(w, t);
      case DropDelete(_) => DropGood(w, t);
    }
  }

  lemma FinishGood(w: World, t: Txn)
    requires Inv(w) && t in w.boats && !AtItem(w.boats[t].pc) && !w.boats[t].pc.Landed?
    requires CleanDelete(w, Boats(t)) && !Wins(w, Boats(t))
    ensures var (s', b') := FinishStep(w.s, t, w.boats[t]); Good(w, t, s', b')
  {
    assert BoatOk(w.s, w.boats, t, w.boats[t]);
    if Failing(w.boats[t]) { ClearGood(w, t); } else { CommitLostGood(w, t); }
  }

  lemma BoatKeepsInv(w: World, t: Txn)
    requires Inv(w) && t in w.boats && CleanDelete(w, Boats(t))
    ensures Inv(Apply(w, Boats(t))) && Grows(w.s, Apply(w, Boats(t)).s)
  {
    var b := w.boats[t];
    assert BoatShape(w.s, t, b) by { assert BoatOk(w.s, w.boats, t, b); }
    if Wins(w, Boats(t)) {
      CommitKeepsInv(w, t);
    } else if b.pc.Landed? {
      assert w.boats[t := b] == w.boats;
    } else {
      if AtItem(b.pc) { PrewriteGood(w, t); } else { FinishGood(w, t); }
      var (s', b') := BoatStep(w.s, t, b);
      BoatStepSuffices(w, t, s', b');
    }
  }

  lemma FaultKeepsInv(w: World, t: Txn)
    requires Inv(w) && t in w.boats
    ensures Inv(Apply(w, Fault(t))) && Grows(w.s, Apply(w, Fault(t)).s)
  {
    var b := w.boats[t];
    assert BoatOk(w.s, w.boats, t, b);
    if b.pc.Landed? {
      assert w.boats[t := b] == w.boats;
    } else {
      Same(w.s, w.boats, t);
      FailOk(w.s, w.boats[t := Fail(b)], t, b);
      BoatStepSuffices(w, t, w.s, BoatFault(b));
    }
  }

  lemma SailKeepsInv(w: World, t: Txn, items: seq<Item>, born: nat, ttl: nat)
    requires Inv(w) && t !in w.boats && SortedItems(items)
    ensures Inv(Apply(w, Sail(t, items, born, ttl)))
  {
    var b := Launch(items, born, ttl);
    var boats := w.boats[t := b];
    assert BoatsGrow(w.boats, boats);
    assert BoatOk(w.s, boats, t, b);
    forall k | k in w.s.log ensures ItemOf(boats, w.s.log[k], k.0, k.1) {
      ItemOfGrows(w.boats, boats, w.s.log[k], k.0, k.1);
    }
    OthersStay(w.s, w.s, w.boats, boats, t);
    JobsStay(w, w.s, boats);
  }

  /** Every event whose delete is clean keeps the invariant, and nothing durable is ever lost. */
  lemma EventKeepsInv(w: World, e: Event)
    requires Inv(w) && Enabled(w, e) && CleanDelete(w, e)
    ensures Inv(Apply(w, e)) && Grows(w.s, Apply(w, e).s)
  {
    match e {
      case Sail(t, items, born, ttl) => SailKeepsInv(w, t, items, born, ttl);
      case Boats(t) => BoatKeepsInv(w, t);
      case Fault(t) => FaultKeepsInv(w, t);
      case StartJob(id, o, publish, keep) =>
      case Jobs(id) => JobKeepsInv(w, id);
    }
  }

  // ----- boats never give up an item

  lemma PrewriteGrows(s: Store, t: Txn, b: Boat)
    requires AtItem(b.pc) && b.i < |b.items|
    ensures var b' := PrewriteStep(s, t, b).1; b'.items == b.items && b.i <= b'.i
  {
  }

  lemma FinishGrows(s: Store, t: Txn, b: Boat)
    requires !AtItem(b.pc)
    ensures var b' := FinishStep(s, t, b).1; b'.items == b.items && b.i <= b'.i
  {
  }

  lemma BoatGrows(s: Store, t: Txn, b: Boat)
    ensures var b' := BoatStep(s, t, b).1; b'.items == b.items && b.i <= b'.i
  {
    if AtItem(b.pc) {
      if b.i < |b.items| { PrewriteGrows(s, t, b); }
    } else {
      FinishGrows(s, t, b);
    }
  }

  lemma EventGrowsBoats(w: World, e: Event)
    requires Enabled(w, e)
    ensures BoatsGrow(w.boats, Apply(w, e).boats)
  {
    if e.Boats? { BoatGrows(w.s, e.t, w.boats[e.t]); }
  }
}
