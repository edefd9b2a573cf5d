/** What the log-structured commit promises over whole runs, and the exact condition its
    deletes need for it. */
module ObjLogTheorems {
  import opened Bytes
  import opened PageDelta
  import opened LogEntry
  import opened ObjLog
  import opened ObjLogProof

  // ----- deletes

  /** A delete that is atomic with its get is clean. */
  lemma AtomicDeleteIsClean(w: World, e: Event)
    requires Inv(w) && AtomicDelete(w, e)
    ensures CleanDelete(w, e)
  {
    if Deletes(w, e).Some? { assert BoatOk(w.s, w.boats, e.t, w.boats[e.t]); }
  }

  /** The get and the delete of `delete_if_txn` are separate operations; the system stays sound through
      the delete if and only if nobody relies on the entry it finds. */
  lemma DeleteSoundIffClean(w: World, e: Event)
    requires Inv(w) && Enabled(w, e) && Deletes(w, e).Some?
    ensures Inv(Apply(w, e)) <==> CleanDelete(w, e)
  {
    if CleanDelete(w, e) {
      EventKeepsInv(w, e);
    } else {
      UncleanBreaks(w, e);
    }
  }

  /** A live boat robbed of a slot it prewrote contradicts the invariant. */
  lemma RobbedBoat(w: World, v: Txn, j: nat)
    requires v in w.boats && !Expendable(w.s, w.boats, v)
    requires j < w.boats[v].i && j < |w.boats[v].items| && !HoldsSlot(w.s, v, w.boats[v].items[j])
    ensures !Inv(w)
  {
    assert !BoatHolds(w.s, v, w.boats[v]);
    assert !BoatOk(w.s, w.boats, v, w.boats[v]);
  }

  lemma NotTheDeleter(w: World, e: Event)
    requires Inv(w) && Enabled(w, e) && !CleanDelete(w, e)
    ensures w.s.log[Deletes(w, e).value].txn != e.t
  {
    assert BoatOk(w.s, w.boats, e.t, w.boats[e.t]);
    if w.boats[e.t].pc.DropDelete? { NeverOwn(w, e.t); }
  }

  lemma DeleteEffect(w: World, e: Event)
    requires Inv(w) && Enabled(w, e) && Deletes(w, e).Some?
    ensures Apply(w, e).s == w.s.(log := w.s.log - {Deletes(w, e).value})
    ensures forall u :: u in w.boats && u != e.t ==> u in Apply(w, e).boats && Apply(w, e).boats[u] == w.boats[u]
  {
  }

  lemma UncleanBreaks(w: World, e: Event)
    requires Inv(w) && Enabled(w, e) && !CleanDelete(w, e)
    ensures !Inv(Apply(w, e))
  {
    var k := Deletes(w, e).value;
    var v := w.s.log[k].txn;
    NotTheDeleter(w, e);
    DeleteEffect(w, e);
    assert ItemOf(w.boats, w.s.log[k], k.0, k.1);
    var j: nat :| PlacedBy(w.boats[v], j, w.s.log[k], k.0, k.1);
    RobbedBoat(Apply(w, e), v, j);
  }

  // ----- what a delete can do, whoever runs

  lemma PrewriteMoves(s: Store, t: Txn, b: Boat)
    requires AtItem(b.pc) && b.i < |b.items|
    ensures var s' := PrewriteStep(s, t, b).0;
            && s'.bases == s.bases
            && (forall u :: u in s.outcomes ==> u in s'.outcomes && s'.outcomes[u] == s.outcomes[u])
            && (s'.log == s.log || (b.pc.DropDelete? && s'.log == s.log - {Slot(b)})
                || (b.pc.TryCreate? && Slot(b) !in s.log && exists e: Entry ::
                        e.txn == t && s'.log == s.log[Slot(b) := e]))
  {
    if b.pc.TryCreate? && Slot(b) !in s.log {
      var e := Entry(t, b.born, b.items[b.i].payload);
      assert PrewriteStep(s, t, b).0.log == s.log[Slot(b) := e];
    }
  }

  lemma FinishMoves(s: Store, t: Txn, b: Boat)
    requires !AtItem(b.pc)
    ensures var s' := FinishStep(s, t, b).0;
            && s'.bases == s.bases
            && (forall u :: u in s.outcomes ==> u in s'.outcomes && s'.outcomes[u] == s.outcomes[u])
            && (s'.log == s.log || (b.pc.ClearDelete? && b.j < |b.items| && s'.log == s.log - {ClearSlot(b)}))
  {
  }

  /** Whatever happens, nothing but a delete takes an entry from the log, and only a boat puts its own there, in the
      slot it is after. */
  lemma LogMoves(w: World, e: Event)
    requires Enabled(w, e)
    ensures var s, s' := w.s, Apply(w, e).s;
            && (forall u :: u in s.outcomes ==> u in s'.outcomes && s'.outcomes[u] == s.outcomes[u])
            && (forall k :: k in s.bases ==> k in s'.bases && s'.bases[k] == s.bases[k])
            && (s'.log == s.log || (Deletes(w, e).Some? && s'.log == s.log - {Deletes(w, e).value})
                || Creates(w, e, s'))
  {
    if e.Boats? {
      var b := w.boats[e.t];
      if AtItem(b.pc) {
        if b.i < |b.items| { PrewriteMoves(w.s, e.t, b); }
      } else {
        FinishMoves(w.s, e.t, b);
      }
    }
  }

  ghost predicate Creates(w: World, e: Event, s': Store) {
    && e.Boats? && e.t in w.boats && w.boats[e.t].pc.TryCreate? && w.boats[e.t].i < |w.boats[e.t].items|
    && Slot(w.boats[e.t]) !in w.s.log
    && exists entry: Entry :: entry.txn == e.t && s'.log == w.s.log[Slot(w.boats[e.t]) := entry]
  }

  /** The event deletes an entry that readers see. */
  ghost predicate Erases(w: World, e: Event) {
    Deletes(w, e).Some? && CommittedAt(w.s, Deletes(w, e).value.0, Deletes(w, e).value.1)
  }

  lemma DeleteShrinks(w: World, e: Event)
    requires Enabled(w, e) && Deletes(w, e).Some?
    ensures Apply(w, e).s.log == w.s.log - {Deletes(w, e).value}
  {
  }

  /** In any state whatsoever: what is durable stays through an event if and only if the event does not delete an entry
      of a committed transaction. */
  lemma GrowsIffSpared(w: World, e: Event)
    requires Enabled(w, e)
    ensures Grows(w.s, Apply(w, e).s) <==> !Erases(w, e)
  {
    var s, s' := w.s, Apply(w, e).s;
    LogMoves(w, e);
    if Deletes(w, e).Some? {
      DeleteShrinks(w, e);
      var k := Deletes(w, e).value;
      if Erases(w, e) { assert !CommittedAt(s', k.0, k.1); }
    }
    if !Erases(w, e) {
      forall o: Obj, q: nat | CommittedAt(s, o, q) ensures CommittedAt(s', o, q) && s'.log[(o, q)] == s.log[(o, q)] {
        if Deletes(w, e).Some? { assert Deletes(w, e).value != (o, q); }
      }
    }
  }

  /** An item of the boat that it believes prewritten is not in its slot. */
  ghost predicate Missing(w: World, v: Txn, j: nat) {
    && v in w.boats && SortedItems(w.boats[v].items) && j < w.boats[v].i && j < |w.boats[v].items|
    && !HoldsSlot(w.s, v, w.boats[v].items[j])
  }

  lemma StaysMissing(w: World, e: Event, v: Txn, j: nat)
    requires Enabled(w, e) && Missing(w, v, j)
    ensures Missing(Apply(w, e), v, j)
  {
    var item := w.boats[v].items[j];
    EventGrowsBoats(w, e);
    LogMoves(w, e);
    if Creates(w, e, Apply(w, e).s) && e.t == v { assert w.boats[v].items[j].o < w.boats[v].items[w.boats[v].i].o; }
  }

  /** What follows, without any condition on deletes. */
  ghost predicate History(ws: seq<World>, es: seq<Event>) {
    |ws| == |es| + 1 && forall i :: 0 <= i < |es| ==> Enabled(ws[i], es[i]) && ws[i + 1] == Apply(ws[i], es[i])
  }

  lemma MissingForever(ws: seq<World>, es: seq<Event>, i: nat, n: nat, v: Txn, j: nat)
    requires History(ws, es) && i <= n < |ws| && Missing(ws[i], v, j)
    ensures Missing(ws[n], v, j)
  {
    forall k | 0 <= k < |ws| - 1 && Missing(ws[k], v, j) ensures Missing(ws[k + 1], v, j) {
      assert ws[k + 1] == Apply(ws[k], es[k]);
      StaysMissing(ws[k], es[k], v, j);
    }
    ChainMissing(ws, i, n, v, j);
  }

  lemma {:induction false} ChainMissing(ws: seq<World>, i: nat, n: nat, v: Txn, j: nat)
    requires i <= n < |ws| && forall k :: 0 <= k < |ws| - 1 && Missing(ws[k], v, j) ==> Missing(ws[k + 1], v, j)
    requires Missing(ws[i], v, j)
    ensures Missing(ws[n], v, j)
    decreases n
  {
    if i < n {
      ChainMissing(ws, i, n - 1, v, j);
      assert Missing(ws[n - 1 + 1], v, j);
    }
  }

  /** The delete takes an entry that somebody still relies on. */
  ghost predicate Robs(w: World, e: Event, v: Txn) {
    && Deletes(w, e).Some? && Deletes(w, e).value in w.s.log && w.s.log[Deletes(w, e).value].txn == v
    && !Expendable(w.s, w.boats, v)
  }

  lemma RobbedItem(w: World, e: Event, v: Txn) returns (j: nat)
    requires Inv(w) && Enabled(w, e) && Robs(w, e, v)
    ensures Missing(Apply(w, e), v, j) && v != e.t && Apply(w, e).boats[v] == w.boats[v]
  {
    var k := Deletes(w, e).value;
    NotTheDeleter(w, e);
    DeleteEffect(w, e);
    assert ItemOf(w.boats, w.s.log[k], k.0, k.1);
    j :| PlacedBy(w.boats[v], j, w.s.log[k], k.0, k.1);
    assert BoatShape(w.s, v, w.boats[v]) by { assert BoatOk(w.s, w.boats, v, w.boats[v]); }
  }

  /** The boat acknowledges its commit and one of its entries is not there. */
  ghost predicate Torn(w: World, v: Txn) {
    && v in w.boats && w.boats[v].pc.Landed?
    && exists item :: item in w.boats[v].items && !HoldsSlot(w.s, v, item)
  }

  /** What an unclean delete took never comes back: in whatever follows, if the boat lands, it has landed without it. */
  lemma RobbedLandsTorn(ws: seq<World>, es: seq<Event>, n: nat, v: Txn)
    requires History(ws, es) && 0 < n < |ws| && Inv(ws[0]) && Robs(ws[0], es[0], v)
    ensures v in ws[n].boats && (ws[n].boats[v].pc.Landed? ==> Torn(ws[n], v))
  {
    assert ws[0 + 1] == Apply(ws[0], es[0]);
    var j := RobbedItem(ws[0], es[0], v);
    MissingForever(ws, es, 1, n, v, j);
    assert ws[n].boats[v].items[j] in ws[n].boats[v].items;
  }

  /** A boat about to flip its outcome lands with its next step, torn. */
  lemma TornAtTheSwitch(w: World, e: Event, v: Txn)
    requires Inv(w) && Enabled(w, e) && Robs(w, e, v) && w.boats[v].pc.CommitCreate? && v !in w.s.outcomes
    ensures Torn(Apply(Apply(w, e), Boats(v)), v)
  {
    var j := RobbedItem(w, e, v);
    var w1 := Apply(w, e);
    DeleteEffect(w, e);
    StaysMissing(w1, Boats(v), v, j);
    assert w1.boats[v].items[j] in w1.boats[v].items;
  }

  /** For an entry of a boat that has prewritten everything: its deletion goes unnoticed, at once and after the boat's
      next step, if and only if nobody relies on it. */
  lemma UnnoticedIffClean(w: World, e: Event)
    requires Inv(w) && Enabled(w, e) && Deletes(w, e).Some? && Deletes(w, e).value in w.s.log
    requires var v := w.s.log[Deletes(w, e).value].txn; v in w.boats && !AtItem(w.boats[v].pc)
    ensures var v := w.s.log[Deletes(w, e).value].txn;
            (Grows(w.s, Apply(w, e).s) && !Torn(Apply(Apply(w, e), Boats(v)), v)) <==> CleanDelete(w, e)
  {
    var k := Deletes(w, e).value;
    var v := w.s.log[k].txn;
    GrowsIffSpared(w, e);
    assert BoatOk(w.s, w.boats, v, w.boats[v]);
    if CleanDelete(w, e) {
      ExpendableStays(w, e, v);
    } else if !Committed(w.s, v) {
      TornAtTheSwitch(w, e, v);
    }
  }

  /** A boat whose entries nobody relies on does not land with its next step. */
  lemma ExpendableStays(w: World, e: Event, v: Txn)
    requires Inv(w) && Enabled(w, e) && Deletes(w, e).Some? && v in w.boats && Expendable(w.s, w.boats, v)
        && !AtItem(w.boats[v].pc)
    requires !Committed(w.s, v)
    ensures !Apply(Apply(w, e), Boats(v)).boats[v].pc.Landed?
  {
    assert BoatShape(w.s, v, w.boats[v]) by { assert BoatOk(w.s, w.boats, v, w.boats[v]); }
    DeleteEffect(w, e);
    if v == e.t { OwnDelete(w, e); }
    DoesNotLand(Apply(w, e), v);
  }

  lemma OwnDelete(w: World, e: Event)
    requires Enabled(w, e) && Deletes(w, e).Some? && !AtItem(w.boats[e.t].pc)
    ensures Apply(w, e).boats[e.t].pc.ClearCheck? && !AtItem(Apply(w, e).boats[e.t].pc)
  {
  }

  lemma DoesNotLand(w: World, v: Txn)
    requires v in w.boats && !AtItem(w.boats[v].pc) && !w.boats[v].pc.Landed? && !Committed(w.s, v)
    requires Aborted(w.s, v) || Failing(w.boats[v])
    ensures !Apply(w, Boats(v)).boats[v].pc.Landed?
  {
  }

  // ----- one event

  /** Commits are atomic: an event either changes nothing a reader can see, or it appends to the committed
      run of every object aboard one boat, at exactly the sequence number the boat expected, its payload. */
  lemma CommitsAreAtomic(w: World, e: Event, o: Obj)
    requires Inv(w) && Enabled(w, e) && CleanDelete(w, e)
    ensures !(Wins(w, e) && Carries(w.boats[e.t], o)) ==>
              RawSeq(Apply(w, e).s, o) == RawSeq(w.s, o) &&
              RawFold(Apply(w, e).s, o, RawSeq(w.s, o)) == RawFold(w.s, o, RawSeq(w.s, o))
    ensures Wins(w, e) ==>
              forall item :: item in w.boats[e.t].items && item.o == o ==>
                && RawSeq(w.s, o) == item.expected
                && RawSeq(Apply(w, e).s, o) == item.expected + 1
                && HoldsSlot(Apply(w, e).s, e.t, item)
  {
    EventKeepsInv(w, e);
    RawFoldGrows(w.s, Apply(w, e).s, o, RawSeq(w.s, o));
    if Wins(w, e) {
      AboutToWin(w, e.t);
      CommitExtends(w.s, w.boats, e.t, o);
      forall item | item in w.boats[e.t].items && item.o == o
        ensures RawSeq(w.s, o) == item.expected && HoldsSlot(Apply(w, e).s, e.t, item)
      {
        var j :| 0 <= j < |w.boats[e.t].items| && w.boats[e.t].items[j] == item;
        AtTheSwitch(w.s, w.boats, e.t, j);
      }
    } else {
      QuietRuns(w, e, o);
    }
  }

  lemma QuietRuns(w: World, e: Event, o: Obj)
    requires Inv(w) && Enabled(w, e) && CleanDelete(w, e) && !Wins(w, e)
    ensures RawSeq(Apply(w, e).s, o) == RawSeq(w.s, o)
  {
    var s, s' := w.s, Apply(w, e).s;
    if e.Boats? && !w.boats[e.t].pc.Landed? {
      var b := w.boats[e.t];
      assert BoatOk(s, w.boats, e.t, b);
      if AtItem(b.pc) { PrewriteGood(w, e.t); } else { FinishGood(w, e.t); }
      TameView(s, s', w.boats, e.t);
    } else {
      assert s'.log == s.log && s'.outcomes == s.outcomes;
      assert forall q: nat :: CommittedAt(s', o, q) <==> CommittedAt(s, o, q);
      RawSeqIs(s', o, RawSeq(s, o));
    }
  }

  lemma LandedIsVisible(s: Store, t: Txn, b: Boat, item: Item)
    requires BoatShape(s, t, b) && BoatHolds(s, t, b) && b.pc.Landed? && Contiguous(s) && item in b.items
    ensures HoldsSlot(s, t, item) && item.expected + 1 <= RawSeq(s, item.o)
  {
    var j :| 0 <= j < |b.items| && b.items[j] == item;
    assert HoldsSlot(s, t, b.items[j]);
    assert CommittedAt(s, item.o, item.expected + 1);
  }

  lemma UncommittedIsInvisible(s: Store, t: Txn, o: Obj, q: nat)
    requires !Committed(s, t) && 0 < q <= RawSeq(s, o)
    ensures (o, q) in s.log && s.log[(o, q)].txn != t
  {
    assert CommittedAt(s, o, q);
  }

  /** A boat that acknowledged its commit has every entry in the committed prefix of its object; a boat
      that did not has none. */
  lemma AllOrNothing(w: World, t: Txn)
    requires Inv(w) && t in w.boats
    ensures w.boats[t].pc.Landed? <==> Committed(w.s, t)
    ensures w.boats[t].pc.Landed? ==>
              forall item :: item in w.boats[t].items ==>
                      HoldsSlot(w.s, t, item) && item.expected + 1 <= RawSeq(w.s, item.o)
    ensures !w.boats[t].pc.Landed? ==>
              forall o: Obj, q: nat :: 0 < q <= RawSeq(w.s, o) ==> (o, q) in w.s.log && w.s.log[(o, q)].txn != t
  {
    var b := w.boats[t];
    assert BoatShape(w.s, t, b) && BoatHolds(w.s, t, b) by { assert BoatOk(w.s, w.boats, t, b); }
    if b.pc.Landed? {
      forall item | item in b.items ensures HoldsSlot(w.s, t, item) && item.expected + 1 <= RawSeq(w.s, item.o) {
        LandedIsVisible(w.s, t, b, item);
      }
    } else {
      forall o: Obj, q: nat | 0 < q <= RawSeq(w.s, o) ensures (o, q) in w.s.log && w.s.log[(o, q)].txn != t {
        UncommittedIsInvisible(w.s, t, o, q);
      }
    }
  }

  // ----- whole runs

  /** A run from the empty store in which every delete is clean. */
  ghost predicate Run(ws: seq<World>, es: seq<Event>) {
    && |ws| == |es| + 1 && ws[0] == START
    && forall i :: 0 <= i < |es| ==>
            Enabled(ws[i], es[i]) && CleanDelete(ws[i], es[i]) && ws[i + 1] == Apply(ws[i], es[i])
  }

  lemma {:induction false} RunInv(ws: seq<World>, es: seq<Event>, n: nat)
    requires Run(ws, es) && n < |ws|
    ensures Inv(ws[n])
  {
    if n > 0 {
      RunInv(ws, es, n - 1);
      EventKeepsInv(ws[n - 1], es[n - 1]);
    }
  }

  lemma GrowsTrans(a: Store, b: Store, c: Store)
    requires Grows(a, b) && Grows(b, c)
    ensures Grows(a, c)
  {
  }

  lemma RunStepGrows(ws: seq<World>, es: seq<Event>, n: nat)
    requires Run(ws, es) && n < |es|
    ensures Grows(ws[n].s, ws[n + 1].s)
  {
    RunInv(ws, es, n);
    EventKeepsInv(ws[n], es[n]);
  }

  lemma {:induction false} ChainGrows(ss: seq<Store>, i: nat, n: nat)
    requires i <= n < |ss| && forall k :: 0 <= k < |ss| - 1 ==> Grows(ss[k], ss[k + 1])
    ensures Grows(ss[i], ss[n])
    decreases n
  {
    if i < n {
      ChainGrows(ss, i, n - 1);
      assert Grows(ss[n - 1], ss[n - 1 + 1]);
      GrowsTrans(ss[i], ss[n - 1], ss[n]);
    }
  }

  lemma AllSeqsGrow(s: Store, s': Store)
    requires Grows(s, s')
    ensures forall o :: RawSeq(s, o) <= RawSeq(s', o)
  {
    forall o ensures RawSeq(s, o) <= RawSeq(s', o) { RawSeqGrows(s, s', o); }
  }

  /** What is durable stays: outcomes, bases and committed entries are never removed or replaced, and the
      committed sequence numbers never decrease, as long as no delete hits an entry of a committed transaction. */
  lemma DurableForever(ws: seq<World>, es: seq<Event>, i: nat, n: nat)
    requires History(ws, es) && (forall k :: 0 <= k < |es| ==> !Erases(ws[k], es[k])) && i <= n < |ws|
    ensures Grows(ws[i].s, ws[n].s)
    ensures forall o :: RawSeq(ws[i].s, o) <= RawSeq(ws[n].s, o)
  {
    var ss := seq(|ws|, (k: nat) requires k < |ws| => ws[k].s);
    forall k | 0 <= k < |ss| - 1 ensures Grows(ss[k], ss[k + 1]) {
      assert ws[k + 1] == Apply(ws[k], es[k]);
      GrowsIffSpared(ws[k], es[k]);
    }
    ChainGrows(ss, i, n);
    AllSeqsGrow(ws[i].s, ws[n].s);
  }

  /** When every delete is one operation with the get before it, every run from the empty store is one in which deletes
      are clean, and none hits a committed entry. */
  lemma {:induction false} AtomicRunIsClean(ws: seq<World>, es: seq<Event>, n: nat)
    requires History(ws, es) && ws[0] == START && n < |ws|
    requires forall i :: 0 <= i < |es| ==> AtomicDelete(ws[i], es[i])
    ensures Run(ws[..n + 1], es[..n]) && forall k :: 0 <= k < n ==> !Erases(ws[k], es[k])
  {
    if n > 0 {
      AtomicRunIsClean(ws, es, n - 1);
      RunInv(ws[..n], es[..n - 1], n - 1);
      AtomicDeleteIsClean(ws[n - 1], es[n - 1]);
      CleanSpares(ws[n - 1], es[n - 1]);
    }
  }

  lemma CleanSpares(w: World, e: Event)
    requires Inv(w) && Enabled(w, e) && CleanDelete(w, e)
    ensures !Erases(w, e)
  {
    EventKeepsInv(w, e);
    GrowsIffSpared(w, e);
  }

  /** Commit and abort exclude each other for good, whatever happens and whatever is deleted. */
  lemma OutcomesStay(ws: seq<World>, es: seq<Event>, i: nat, n: nat, t: Txn)
    requires History(ws, es) && i <= n < |ws| && t in ws[i].s.outcomes
    ensures t in ws[n].s.outcomes && ws[n].s.outcomes[t] == ws[i].s.outcomes[t]
  {
    var ss := seq(|ws|, (k: nat) requires k < |ws| => ws[k].s);
    forall k | 0 <= k < |ss| - 1 ensures SameOutcome(ss[k], ss[k + 1], t) {
      assert ws[k + 1] == Apply(ws[k], es[k]);
      if t in ws[k].s.outcomes { OutcomeStays(ws[k], es[k], t); }
    }
    ChainOutcome(ss, i, n, t);
  }

  ghost predicate SameOutcome(s: Store, s': Store, t: Txn) {
    t in s.outcomes ==> t in s'.outcomes && s'.outcomes[t] == s.outcomes[t]
  }

  lemma {:induction false} ChainOutcome(ss: seq<Store>, i: nat, n: nat, t: Txn)
    requires i <= n < |ss| && forall k :: 0 <= k < |ss| - 1 ==> SameOutcome(ss[k], ss[k + 1], t)
    ensures SameOutcome(ss[i], ss[n], t)
    decreases n
  {
    if i < n {
      ChainOutcome(ss, i, n - 1, t);
      assert SameOutcome(ss[n - 1], ss[n - 1 + 1], t);
    }
  }

  lemma OutcomeStays(w: World, e: Event, t: Txn)
    requires Enabled(w, e) && t in w.s.outcomes
    ensures t in Apply(w, e).s.outcomes && Apply(w, e).s.outcomes[t] == w.s.outcomes[t]
  {
    LogMoves(w, e);
  }

  lemma OneOutcome(ws: seq<World>, es: seq<Event>, i: nat, n: nat, t: Txn)
    requires History(ws, es) && i < |ws| && n < |ws|
    ensures !(Committed(ws[i].s, t) && Aborted(ws[n].s, t))
  {
    if t in ws[i].s.outcomes && t in ws[n].s.outcomes {
      if i <= n { OutcomesStay(ws, es, i, n, t); } else { OutcomesStay(ws, es, n, i, t); }
    }
  }

  /** Every base, whenever it was published, is the raw log folded up to its number: a reader that starts
      from it sees exactly what one that folds the whole log sees. */
  lemma CompactionInvisible(ws: seq<World>, es: seq<Event>, n: nat, o: Obj, b: nat)
    requires Run(ws, es) && n < |ws| && (o, b) in ws[n].s.bases
    ensures b <= RawSeq(ws[n].s, o) && RawFold(ws[n].s, o, b) == Some(ws[n].s.bases[(o, b)])
  {
    RunInv(ws, es, n);
  }

  lemma {:induction false} JobKeepsTask(ws: seq<World>, es: seq<Event>, i: nat, n: nat, id: nat)
    requires Run(ws, es) && i <= n < |ws| && id in ws[i].jobs
    ensures id in ws[n].jobs && ws[n].jobs[id].o == ws[i].jobs[id].o && ws[n].jobs[id].since == ws[i].jobs[id].since
  {
    if i < n {
      JobKeepsTask(ws, es, i, n - 1, id);
      assert Enabled(ws[n - 1], es[n - 1]);
    }
  }

  /** Folds are linearizable: whatever commits and compactions run between its reads, a fold returns the raw
      log folded up to some number that was the committed sequence number at an instant of its run. */
  lemma FoldIsLinearizable(ws: seq<World>, es: seq<Event>, i: nat, n: nat)
    requires Run(ws, es) && i < n < |ws| && es[i].StartJob?
    requires es[i].id in ws[n].jobs && ws[n].jobs[es[i].id].r.Settled?
    ensures var o, r := es[i].o, ws[n].jobs[es[i].id].r;
            && RawSeq(ws[i].s, o) <= r.at <= RawSeq(ws[n].s, o)
            && r.image == RawFold(ws[n].s, o, r.at)
            && exists m: nat :: i <= m <= n && r.at == RawSeq(ws[m].s, o)
  {
    var id, o := es[i].id, es[i].o;
    var at := ws[n].jobs[id].r.at;
    assert Enabled(ws[i], es[i]);
    assert ws[i + 1].jobs[id].since == RawSeq(ws[i].s, o) && ws[i + 1].jobs[id].o == o;
    JobKeepsTask(ws, es, i + 1, n, id);
    RunInv(ws, es, n);
    assert JobOk(ws[n].s, ws[n].boats, ws[n].jobs[id]);
    PassedThrough(ws, es, i, n, o, at);
  }

  lemma MovesByOne(ws: seq<World>, es: seq<Event>, n: nat, o: Obj)
    requires Run(ws, es) && 0 < n < |ws|
    ensures RawSeq(ws[n].s, o) <= RawSeq(ws[n - 1].s, o) + 1
  {
    var w, e := ws[n - 1], es[n - 1];
    RunInv(ws, es, n - 1);
    if Wins(w, e) {
      AboutToWin(w, e.t);
      CommitExtends(w.s, w.boats, e.t, o);
    } else {
      QuietRuns(w, e, o);
    }
  }

  /** Committed sequence numbers move one at a time, so every value in between was current at some instant. */
  lemma {:induction false} PassedThrough(ws: seq<World>, es: seq<Event>, i: nat, n: nat, o: Obj, at: nat)
    requires Run(ws, es) && i <= n < |ws| && RawSeq(ws[i].s, o) <= at <= RawSeq(ws[n].s, o)
    ensures exists m: nat :: i <= m <= n && at == RawSeq(ws[m].s, o)
    decreases n
  {
    if at != RawSeq(ws[n].s, o) && i < n {
      MovesByOne(ws, es, n, o);
      PassedThrough(ws, es, i, n - 1, o, at);
    }
  }
}
