/** What happens when nobody interferes (src/objlog.rs): a fold returns exactly what is committed, and a boat that
    expects the committed numbers and finds its slots free lands with all it carries. */
module ObjLogSolo {
  import opened Bytes
  import opened PageDelta
  import opened LogEntry
  import opened ObjLog
  import opened ObjLogProof
  import opened ObjLogTheorems
  import opened ObjLogAge

  // ----- a fold

  ghost function Reads(s: Store, o: Obj, r: Reader, n: nat): Reader
    decreases n
  {
    if n == 0 then r else Reads(s, o, ReaderStep(s, o, r), n - 1)
  }

  lemma {:induction false} ReadsOn(s: Store, o: Obj, r: Reader, m: nat, n: nat)
    ensures Reads(s, o, r, m + n) == Reads(s, o, Reads(s, o, r, m), n)
    decreases m
  {
    if m > 0 { ReadsOn(s, o, ReaderStep(s, o, r), m - 1, n); }
  }

  /** A scan of the store as it stands. */
  ghost predicate Scanning(s: Store, o: Obj, sc: Scan) {
    && ScanOk(s, o, 0, sc) && sc.listed == ListedSeqs(s, o)
    && (match HighestBase(s, o) case None => sc.base == 0 case Some(b) => sc.base == b)
  }

  lemma ScanEnds(s: Store, o: Obj, n: nat, sc: Scan) returns (k: nat)
    requires Scanning(s, o, sc) && sc.at == RawSeq(s, o)
    ensures Reads(s, o, Walking(n, sc), k) == Settled(RawSeq(s, o), RawFold(s, o, RawSeq(s, o)))
  {
    var next := ReaderStep(s, o, Walking(n, sc));
    assert !CommittedAt(s, o, sc.at + 1);
    assert ReaderStep(s, o, Rechecking(n, sc)) == Settled(sc.at, Fold(sc.img, sc.payloads));
    if next.Judging? {
      assert ReaderStep(s, o, next) == Rechecking(n, sc);
      ReadsOn(s, o, Walking(n, sc), 2, 1);
      k := 3;
    } else {
      ReadsOn(s, o, Walking(n, sc), 1, 1);
      k := 2;
    }
  }

  lemma ScanMoves(s: Store, o: Obj, n: nat, sc: Scan) returns (sc': Scan)
    requires Scanning(s, o, sc) && sc.at < RawSeq(s, o)
    ensures Scanning(s, o, sc') && sc'.at == sc.at + 1 && Reads(s, o, Walking(n, sc), 2) == Walking(n, sc')
  {
    assert CommittedAt(s, o, sc.at + 1);
    assert (o, sc.at + 1).1 in ListedSeqs(s, o);
    var e := s.log[(o, sc.at + 1)];
    sc' := sc.(at := sc.at + 1, payloads := sc.payloads + [e.payload]);
    ScanExtends(s, o, 0, sc, e);
    assert ReaderStep(s, o, Walking(n, sc)) == Judging(n, sc, e);
    assert ReaderStep(s, o, Judging(n, sc, e)) == Walking(n, sc');
    assert Reads(s, o, Judging(n, sc, e), 1) == Walking(n, sc');
  }

  lemma {:induction false} ScanRuns(s: Store, o: Obj, n: nat, sc: Scan) returns (k: nat)
    requires Scanning(s, o, sc)
    ensures Reads(s, o, Walking(n, sc), k) == Settled(RawSeq(s, o), RawFold(s, o, RawSeq(s, o)))
    decreases RawSeq(s, o) - sc.at
  {
    if sc.at == RawSeq(s, o) {
      k := ScanEnds(s, o, n, sc);
    } else {
      var sc' := ScanMoves(s, o, n, sc);
      var rest := ScanRuns(s, o, n, sc');
      ReadsOn(s, o, Walking(n, sc), 2, rest);
      k := 2 + rest;
    }
  }

  /** A fold of a store that stands still returns the whole committed log. */
  lemma FoldAlone(s: Store, o: Obj, n: nat) returns (k: nat)
    requires BasesFaithful(s)
    ensures Reads(s, o, ListBases(n), k) == Settled(RawSeq(s, o), RawFold(s, o, RawSeq(s, o)))
  {
    var b := match HighestBase(s, o) { case None => 0 case Some(c) => c };
    var img := if HighestBase(s, o).Some? then s.bases[(o, b)] else [];
    var sc := Scan(img, b, ListedSeqs(s, o), b, []);
    assert Scanning(s, o, sc);
    assert ReaderStep(s, o, ListLogs(n, img, b)) == Walking(n, sc);
    var rest := ScanRuns(s, o, n, sc);
    if HighestBase(s, o).Some? {
      assert ReaderStep(s, o, ListBases(n)) == GetBase(n, b);
      assert ReaderStep(s, o, GetBase(n, b)) == ListLogs(n, img, b);
      assert Reads(s, o, GetBase(n, b), 2) == Reads(s, o, ListLogs(n, img, b), 1) == Walking(n, sc);
      ReadsOn(s, o, ListBases(n), 3, rest);
      k := 3 + rest;
    } else {
      assert ReaderStep(s, o, ListBases(n)) == ListLogs(n, img, b);
      assert Reads(s, o, ListLogs(n, img, b), 1) == Walking(n, sc);
      ReadsOn(s, o, ListBases(n), 2, rest);
      k := 2 + rest;
    }
  }

  // ----- a boat

  /** While it checks its item, a boat only reads. */
  lemma {:induction false} ChecksAlone(w: World, t: Txn, r: Reader, k: nat, last: Reader) returns (n: nat)
    requires t in w.boats && w.boats[t].i < |w.boats[t].items| && w.boats[t].pc == Checking(r)
    requires Reads(w.s, w.boats[t].items[w.boats[t].i].o, r, k) == last && last.Settled?
    ensures Alone(w, t, n) == Put(w, w.s, t, w.boats[t].(pc := Checking(last)))
    decreases k
  {
    var b, o := w.boats[t], w.boats[t].items[w.boats[t].i].o;
    if r.Settled? {
      SettledStays(w.s, o, r, k);
      assert Put(w, w.s, t, b) == w;
      return 0;
    }
    assert k > 0 && !r.Raced? by { if r.Raced? { RacedStays(w.s, o, k); } }
    var b1 := b.(pc := Checking(ReaderStep(w.s, o, r)));
    var w1 := Put(w, w.s, t, b1);
    var m := ChecksAlone(w1, t, ReaderStep(w.s, o, r), k - 1, last);
    NextOp(w, t, w.s, b1, m);
    n := m + 1;
  }

  lemma {:induction false} SettledStays(s: Store, o: Obj, r: Reader, k: nat)
    requires r.Settled?
    ensures Reads(s, o, r, k) == r
    decreases k
  {
    if k > 0 { SettledStays(s, o, r, k - 1); }
  }

  lemma {:induction false} RacedStays(s: Store, o: Obj, k: nat)
    ensures Reads(s, o, Raced, k) == Raced
    decreases k
  {
    if k > 0 { RacedStays(s, o, k - 1); }
  }

  /** The boat is at its next item, expects what is committed, and the slot is free. */
  ghost predicate Clear(w: World, t: Txn) {
    && t in w.boats && w.boats[t].i < |w.boats[t].items| && w.boats[t].pc == Checking(ListBases(0))
    && w.boats[t].items[w.boats[t].i].expected == RawSeq(w.s, w.boats[t].items[w.boats[t].i].o)
    && Slot(w.boats[t]) !in w.s.log
  }

  /** Then it prewrites the item. */
  lemma PrewritesAlone(w: World, t: Txn) returns (n: nat)
    requires BasesFaithful(w.s) && Clear(w, t)
    ensures Alone(w, t, n) == Put(w, Taken(w.s, t, w.boats[t]), t, Prewritten(w.boats[t].(pc := TryCreate)))
  {
    var b, o := w.boats[t], w.boats[t].items[w.boats[t].i].o;
    var last := Settled(RawSeq(w.s, o), RawFold(w.s, o, RawSeq(w.s, o)));
    var k := FoldAlone(w.s, o, 0);
    var m := ChecksAlone(w, t, ListBases(0), k, last);
    var b1, b2 := b.(pc := Checking(last)), b.(pc := TryCreate);
    AloneOn(w, t, m, 2);
    NextOp(Put(w, w.s, t, b1), t, w.s, b2, 1);
    assert Put(Put(w, w.s, t, b1), w.s, t, b2) == Put(w, w.s, t, b2);
    OneOp(Put(w, w.s, t, b2), t, Taken(w.s, t, b), Prewritten(b2));
    assert Put(Put(w, w.s, t, b2), Taken(w.s, t, b), t, Prewritten(b2)) == Put(w, Taken(w.s, t, b), t, Prewritten(b2));
    n := m + 2;
  }

  /** The boat's first items are in their slots, the others' slots are free and right after what is committed. */
  ghost predicate Underway(w: World, t: Txn) {
    && t in w.boats && t !in w.s.outcomes && BasesFaithful(w.s) && SortedItems(w.boats[t].items)
    && w.boats[t].i <= |w.boats[t].items|
    && w.boats[t].pc == (if w.boats[t].i < |w.boats[t].items| then Checking(ListBases(0)) else CommitCreate)
    && (forall j :: 0 <= j < w.boats[t].i ==> HoldsSlot(w.s, t, w.boats[t].items[j]))
    && (forall j :: 0 <= j < |w.boats[t].items| ==> w.boats[t].items[j].expected == RawSeq(w.s, w.boats[t].items[j].o))
    && (forall j :: w.boats[t].i <= j < |w.boats[t].items| ==>
          (w.boats[t].items[j].o, w.boats[t].items[j].expected + 1) !in w.s.log)
  }

  /** An entry of an undecided transaction changes nothing that is committed. */
  lemma EntryUnseen(s: Store, boats: map<Txn, Boat>, t: Txn, k: (Obj, nat), e: Entry)
    requires k !in s.log && e.txn == t && t !in s.outcomes && BasesFaithful(s)
    ensures var s' := s.(log := s.log[k := e]); BasesFaithful(s') && forall o :: RawSeq(s', o) == RawSeq(s, o)
  {
    var s' := s.(log := s.log[k := e]);
    CreateTame(s, boats, t, k, e);
    TameView(s, s', boats, t);
    BasesStayFaithful(s, s');
  }

  lemma UnderwayGoesOn(w: World, t: Txn, w': World)
    requires Underway(w, t) && w.boats[t].i < |w.boats[t].items|
    requires w' == Put(w, Taken(w.s, t, w.boats[t]), t, Prewritten(w.boats[t].(pc := TryCreate)))
    ensures Underway(w', t) && w'.boats[t].items == w.boats[t].items && w'.boats[t].i == w.boats[t].i + 1
  {
    var b, items := w.boats[t], w.boats[t].items;
    EntryUnseen(w.s, w.boats, t, Slot(b), Entry(t, b.born, items[b.i].payload));
    forall j | 0 <= j < b.i + 1 ensures HoldsSlot(w'.s, t, items[j]) {
      if j < b.i { assert items[j].o < items[b.i].o; }
    }
    forall j | b.i + 1 <= j < |items| ensures (items[j].o, items[j].expected + 1) !in w'.s.log {
      assert items[b.i].o < items[j].o;
    }
  }

  /** A boat underway lands when it is left alone, with every item committed in its slot. */
  lemma {:induction false} LandsAlone(w: World, t: Txn) returns (n: nat)
    requires Underway(w, t)
    ensures var w' := Alone(w, t, n);
            && t in w'.boats && w'.boats[t].pc.Landed? && Committed(w'.s, t) && w'.boats[t].items == w.boats[t].items
            && forall j :: 0 <= j < |w.boats[t].items| ==> HoldsSlot(w'.s, t, w.boats[t].items[j])
    decreases |w.boats[t].items| - w.boats[t].i
  {
    var b := w.boats[t];
    if b.i < |b.items| {
      var m := PrewritesAlone(w, t);
      var w' := Put(w, Taken(w.s, t, b), t, Prewritten(b.(pc := TryCreate)));
      UnderwayGoesOn(w, t, w');
      var rest := LandsAlone(w', t);
      AloneOn(w, t, m, rest);
      n := m + rest;
    } else {
      OneOp(w, t, Decide(w.s, t, true), b.(pc := Landed));
      n := 1;
    }
  }

  /** A new boat that expects the committed numbers and finds its slots free lands when it is left alone. */
  lemma SailsAlone(w: World, t: Txn, items: seq<Item>, born: nat, ttl: nat) returns (n: nat)
    requires Inv(w) && Enabled(w, Sail(t, items, born, ttl))
    requires forall j :: 0 <= j < |items| ==>
               items[j].expected == RawSeq(w.s, items[j].o) && (items[j].o, items[j].expected + 1) !in w.s.log
    ensures var w' := Alone(Apply(w, Sail(t, items, born, ttl)), t, n);
            && t in w'.boats && w'.boats[t].pc.Landed? && w'.boats[t].items == items && Committed(w'.s, t)
            && forall j :: 0 <= j < |items| ==> HoldsSlot(w'.s, t, items[j])
  {
    n := LandsAlone(Apply(w, Sail(t, items, born, ttl)), t);
  }

  /** A boat that expects another number than the committed one gives up without having written anything for its item.
      */
  lemma StaleGivesUp(w: World, t: Txn) returns (n: nat)
    requires BasesFaithful(w.s) && t in w.boats && w.boats[t].i < |w.boats[t].items|
    requires w.boats[t].pc == Checking(ListBases(0))
    requires w.boats[t].items[w.boats[t].i].expected != RawSeq(w.s, w.boats[t].items[w.boats[t].i].o)
    ensures Alone(w, t, n) == Put(w, w.s, t, Fail(w.boats[t]))
  {
    var b, o := w.boats[t], w.boats[t].items[w.boats[t].i].o;
    var last := Settled(RawSeq(w.s, o), RawFold(w.s, o, RawSeq(w.s, o)));
    var k := FoldAlone(w.s, o, 0);
    var m := ChecksAlone(w, t, ListBases(0), k, last);
    var b1 := b.(pc := Checking(last));
    AloneOn(w, t, m, 1);
    OneOp(Put(w, w.s, t, b1), t, w.s, Fail(b1));
    assert Put(Put(w, w.s, t, b1), w.s, t, Fail(b1)) == Put(w, w.s, t, Fail(b));
    n := m + 1;
  }

  // ----- what others did in the meantime

  /** At its current item, with tries to spare. */
  predicate Trying(b: Boat) {
    b.i < |b.items| && b.tries < 63
  }

  lemma TriesAgain(s: Store, t: Txn, b: Boat, u: Txn)
    requires Trying(b) && Slot(b) !in s.log && (b.pc.GetHolder? || b.pc == DropGet(u))
    ensures BoatStep(s, t, b) == (s, Again(b))
  {
  }

  /** A slot that was vacated before the boat could look at its holder, or could clear it, is tried again and taken. */
  lemma VacatedIsTaken(s: Store, t: Txn, b: Boat, u: Txn)
    requires Trying(b) && Slot(b) !in s.log && (b.pc.GetHolder? || b.pc == DropGet(u))
    ensures Ops(s, t, b, 2) == (Taken(s, t, b), Prewritten(Again(b)))
  {
    TriesAgain(s, t, b, u);
    FirstOp(s, t, b, s, Again(b), 1);
    Writes(s, t, Again(b));
    assert Taken(s, t, Again(b)) == Taken(s, t, b);
  }

  /** A rival that another boat aborted first is cleared and the slot taken all the same. */
  lemma AbortedByAnother(s: Store, t: Txn, b: Boat, u: Txn)
    requires Trying(b) && b.pc == AbortHolder(u) && Aborted(s, u) && Slot(b) in s.log && s.log[Slot(b)].txn == u
    ensures Ops(s, t, b, 5) == (Taken(s, t, b), Prewritten(Again(b)))
  {
    var b1, b2 := b.(pc := AbortRecheck(u)), b.(pc := DropGet(u));
    FirstOp(s, t, b, s, b1, 4);
    FirstOp(s, t, b1, s, b2, 3);
    Retakes(s, t, b2, u);
    assert Again(b2) == Again(b) && Taken(s, t, b2) == Taken(s, t, b);
  }

  /** A rival that committed first makes the boat give up. */
  lemma CommittedFirst(s: Store, t: Txn, b: Boat, u: Txn)
    requires b.i < |b.items| && b.pc == AbortHolder(u) && Committed(s, u)
    ensures Ops(s, t, b, 2) == (s, Fail(b))
  {
    FirstOp(s, t, b, s, b.(pc := AbortRecheck(u)), 1);
    FirstOp(s, t, b.(pc := AbortRecheck(u)), s, Fail(b), 0);
  }

  /** An entry of its own in the slot counts as written. */
  lemma OwnEntryCounts(s: Store, t: Txn, b: Boat)
    requires b.i < |b.items| && b.pc.GetHolder? && Slot(b) in s.log && s.log[Slot(b)].txn == t
    ensures Ops(s, t, b, 1) == (s, Prewritten(b))
  {
    FirstOp(s, t, b, s, Prewritten(b), 0);
  }

  /** An outcome of its own that turns out decided settles it: landed if committed, given up if aborted. */
  lemma OwnOutcomeCounts(s: Store, t: Txn, b: Boat)
    requires b.pc.CommitCreate? && t in s.outcomes
    ensures Ops(s, t, b, 2) == (s, if s.outcomes[t] then b.(pc := Landed) else Fail(b))
  {
    FirstOp(s, t, b, s, b.(pc := CommitRecheck), 1);
    FirstOp(s, t, b.(pc := CommitRecheck), s, if s.outcomes[t] then b.(pc := Landed) else Fail(b), 0);
  }

  /** The 64th try is the last. */
  lemma LastTry(s: Store, t: Txn, b: Boat, u: Txn)
    requires b.i < |b.items| && b.tries == 63 && Slot(b) !in s.log && (b.pc.GetHolder? || b.pc == DropGet(u))
    ensures Ops(s, t, b, 1) == (s, Fail(b))
  {
    FirstOp(s, t, b, s, Fail(b), 0);
  }

  // ----- the clean-up

  /** The slot of one of the boat's items from the j-th on that holds the boat's own entry. */
  ghost predicate Own(s: Store, t: Txn, b: Boat, j: nat, k: (Obj, nat)) {
    && k in s.log && s.log[k].txn == t
    && exists l :: j <= l < b.i && l < |b.items| && k == (b.items[l].o, b.items[l].expected + 1)
  }

  /** The store without the boat's own entries, from its j-th item on. */
  ghost predicate Cleared(s: Store, s': Store, t: Txn, b: Boat, j: nat) {
    && s'.bases == s.bases && s'.outcomes == s.outcomes
    && forall k :: (k in s'.log <==> k in s.log && !Own(s, t, b, j, k)) && (k in s'.log ==> s'.log[k] == s.log[k])
  }

  lemma ClearedStep(s: Store, s1: Store, s': Store, t: Txn, b: Boat, j: nat)
    requires j < b.i && j < |b.items| && Cleared(s1, s', t, b, j + 1)
    requires var k := (b.items[j].o, b.items[j].expected + 1);
             s1 == if k in s.log && s.log[k].txn == t then s.(log := s.log - {k}) else s
    ensures Cleared(s, s', t, b, j)
  {
    var slot := (b.items[j].o, b.items[j].expected + 1);
    forall k ensures (k in s'.log <==> k in s.log && !Own(s, t, b, j, k)) && (k in s'.log ==> s'.log[k] == s.log[k]) {
      if Own(s1, t, b, j + 1, k) {
        var l :| j + 1 <= l < b.i && l < |b.items| && k == (b.items[l].o, b.items[l].expected + 1);
        assert Own(s, t, b, j, k);
      }
      if Own(s, t, b, j, k) && k != slot {
        var l :| j <= l < b.i && l < |b.items| && k == (b.items[l].o, b.items[l].expected + 1);
        assert Own(s1, t, b, j + 1, k);
      }
    }
  }

  lemma OpsOn(s: Store, t: Txn, b: Boat, m: nat, s1: Store, b1: Boat, n: nat)
    requires Ops(s, t, b, m) == (s1, b1)
    ensures Ops(s, t, b, m + n) == Ops(s1, t, b1, n)
  {
    IterateOn(Stepper(t), (s, b), m, n);
  }

  /** A committed boat's clean-up leaves everything as it is. */
  lemma {:induction false} ClearsNothing(s: Store, t: Txn, b: Boat) returns (n: nat)
    requires b.pc.ClearCheck? && b.j <= b.i <= |b.items| && Committed(s, t)
    ensures Ops(s, t, b, n).0 == s && Ops(s, t, b, n).1.pc.Sunk?
    decreases b.i - b.j
  {
    if b.j >= b.i {
      FirstOp(s, t, b, s, b.(pc := Sunk), 0);
      n := 1;
    } else {
      var b1 := b.(j := b.j + 1);
      var rest := ClearsNothing(s, t, b1);
      FirstOp(s, t, b, s, b1, rest);
      n := rest + 1;
    }
  }

  /** One item: its entry goes if it is the boat's own. */
  lemma ClearsOne(s: Store, t: Txn, b: Boat) returns (m: nat, s1: Store)
    requires b.pc.ClearCheck? && b.j < b.i <= |b.items| && !Committed(s, t)
    ensures Ops(s, t, b, m) == (s1, b.(j := b.j + 1))
    ensures var k := ClearSlot(b); s1 == if k in s.log && s.log[k].txn == t then s.(log := s.log - {k}) else s
  {
    var k := ClearSlot(b);
    if k in s.log && s.log[k].txn == t {
      s1, m := s.(log := s.log - {k}), 3;
      FirstOp(s, t, b, s, b.(pc := ClearGet), 2);
      FirstOp(s, t, b.(pc := ClearGet), s, b.(pc := ClearDelete), 1);
      FirstOp(s, t, b.(pc := ClearDelete), s1, b.(j := b.j + 1), 0);
    } else {
      s1, m := s, 2;
      FirstOp(s, t, b, s, b.(pc := ClearGet), 1);
      FirstOp(s, t, b.(pc := ClearGet), s, b.(j := b.j + 1), 0);
    }
  }

  lemma {:induction false} ClearsOwn(s: Store, t: Txn, b: Boat) returns (n: nat)
    requires b.pc.ClearCheck? && b.j <= b.i <= |b.items| && !Committed(s, t)
    ensures Ops(s, t, b, n).1.pc.Sunk? && Cleared(s, Ops(s, t, b, n).0, t, b, b.j)
    decreases b.i - b.j
  {
    if b.j >= b.i {
      FirstOp(s, t, b, s, b.(pc := Sunk), 0);
      n := 1;
    } else {
      var m, s1 := ClearsOne(s, t, b);
      var b1 := b.(j := b.j + 1);
      var rest := ClearsOwn(s1, t, b1);
      OpsOn(s, t, b, m, s1, b1, rest);
      n := m + rest;
      SameOwn(s1, Ops(s, t, b, n).0, t, b, b1);
      ClearedStep(s, s1, Ops(s, t, b, n).0, t, b, b.j);
    }
  }

  /** A boat that failed, left alone, takes its own entries out of its slots and nothing else, unless it is committed.
      */
  lemma ClearsAlone(w: World, t: Txn) returns (n: nat)
    requires t in w.boats && w.boats[t].pc.ClearCheck? && w.boats[t].j <= w.boats[t].i <= |w.boats[t].items|
    ensures var w' := Alone(w, t, n);
            && t in w'.boats && w'.boats[t].pc.Sunk?
            && if Committed(w.s, t) then w'.s == w.s else Cleared(w.s, w'.s, t, w.boats[t], w.boats[t].j)
  {
    if Committed(w.s, t) {
      n := ClearsNothing(w.s, t, w.boats[t]);
    } else {
      n := ClearsOwn(w.s, t, w.boats[t]);
    }
    AloneIsOps(w, t, n);
  }

  lemma SameOwn(s: Store, s': Store, t: Txn, b: Boat, b1: Boat)
    requires b1.items == b.items && b1.i == b.i && Cleared(s, s', t, b1, b1.j)
    ensures Cleared(s, s', t, b, b1.j)
  {
    forall k ensures Own(s, t, b, b1.j, k) <==> Own(s, t, b1, b1.j, k) {}
  }

  /** A boat that has not landed gives up at its first failed operation, and left alone then it clears up after itself.
      */
  lemma FaultGivesUp(w: World, t: Txn) returns (n: nat)
    requires t in w.boats && !w.boats[t].pc.Landed? && !Failing(w.boats[t]) && w.boats[t].i <= |w.boats[t].items|
    ensures var w' := Alone(Apply(w, Fault(t)), t, n);
            && t in w'.boats && w'.boats[t].pc.Sunk?
            && if Committed(w.s, t) then w'.s == w.s else Cleared(w.s, w'.s, t, w.boats[t], 0)
  {
    var w1 := Apply(w, Fault(t));
    n := ClearsAlone(w1, t);
    if !Committed(w.s, t) { SameOwn(w.s, Alone(w1, t, n).s, t, w.boats[t], w1.boats[t]); }
  }

  /** An operation of the clean-up that fails leaves at most one entry behind: the clean-up goes on with the next. */
  lemma FaultSkipsOne(w: World, t: Txn) returns (n: nat)
    requires t in w.boats && Failing(w.boats[t]) && !w.boats[t].pc.Sunk?
    requires w.boats[t].j < w.boats[t].i <= |w.boats[t].items|
    ensures var w' := Alone(Apply(w, Fault(t)), t, n);
            && t in w'.boats && w'.boats[t].pc.Sunk?
            && if Committed(w.s, t) then w'.s == w.s else Cleared(w.s, w'.s, t, w.boats[t], w.boats[t].j + 1)
  {
    var w1 := Apply(w, Fault(t));
    n := ClearsAlone(w1, t);
    if !Committed(w.s, t) { SameOwn(w.s, Alone(w1, t, n).s, t, w.boats[t], w1.boats[t]); }
  }

  /** What has become of a boat does not change: one that landed has landed, one that sank has sunk, and one that is
      clearing up neither writes an entry nor decides an outcome again. */
  lemma FatesAreFinal(w: World, e: Event, t: Txn)
    requires Enabled(w, e) && t in w.boats
    ensures t in Apply(w, e).boats
    ensures w.boats[t].pc.Landed? ==> Apply(w, e).boats[t].pc.Landed?
    ensures w.boats[t].pc.Sunk? ==> Apply(w, e).boats[t].pc.Sunk?
    ensures Failing(w.boats[t]) ==> Failing(Apply(w, e).boats[t])
    ensures Failing(w.boats[t]) && e == Boats(t) ==>
              && Apply(w, e).s.outcomes == w.s.outcomes && Apply(w, e).s.bases == w.s.bases
              && forall k :: k in Apply(w, e).s.log ==> k in w.s.log && Apply(w, e).s.log[k] == w.s.log[k]
  {
  }

  // ----- a compaction

  ghost function JobAlone(s: Store, c: Job, n: nat): (Store, Job)
    decreases n
  {
    if n == 0 then (s, c) else JobAlone(JobStep(s, c).0, JobStep(s, c).1, n - 1)
  }

  lemma {:induction false} FoldsFirst(s: Store, c: Job, k: nat, last: Reader) returns (n: nat)
    requires c.phase.Folding? && Reads(s, c.o, c.r, k) == last && last.Settled?
    ensures forall m :: JobAlone(s, c, n + m) == JobAlone(s, c.(r := last), m)
    decreases k
  {
    if c.r.Settled? {
      SettledStays(s, c.o, c.r, k);
      assert c.(r := last) == c;
      return 0;
    }
    assert k > 0 && !c.r.Raced? by { if c.r.Raced? { RacedStays(s, c.o, k); } }
    var c1 := c.(r := ReaderStep(s, c.o, c.r));
    assert JobStep(s, c) == (s, c1);
    var m := FoldsFirst(s, c1, k - 1, last);
    n := m + 1;
    forall l: nat ensures JobAlone(s, c, n + l) == JobAlone(s, c.(r := last), l) {
      assert JobAlone(s, c, n + l) == JobAlone(s, c1, m + l);
      assert c1.(r := last) == c.(r := last);
    }
  }

  /** A compaction that nobody disturbs publishes the committed log as a base, unless it does not fold or fewer than
      `keep` entries lie beyond the highest base; it changes nothing else. */
  lemma CompactsAlone(s: Store, o: Obj, keep: nat) returns (n: nat)
    requires BasesFaithful(s)
    ensures var at, image := RawSeq(s, o), RawFold(s, o, RawSeq(s, o));
            var top := match HighestBase(s, o) { case None => 0 case Some(b) => b };
            var (s', c') := JobAlone(s, Job(o, true, keep, ListBases(0), Folding, at), n);
            && c'.phase.Finished?
            && s' == if image.Some? && at >= top + keep && (o, at) !in s.bases
                     then s.(bases := s.bases[(o, at) := image.value]) else s
  {
    var at, image := RawSeq(s, o), RawFold(s, o, RawSeq(s, o));
    var c := Job(o, true, keep, ListBases(0), Folding, at);
    var k := FoldAlone(s, o, 0);
    var last := Settled(at, image);
    var m := FoldsFirst(s, c, k, last);
    var c1 := c.(r := last);
    n := m + 3;
    assert JobAlone(s, c, m + 3) == JobAlone(s, c1, 3);
    Publishes(s, c1);
  }

  lemma Publishes(s: Store, c: Job)
    requires c.phase.Folding? && c.r.Settled? && c.publish
    ensures var top := match HighestBase(s, c.o) { case None => 0 case Some(b) => b };
            var (s', c') := JobAlone(s, c, 3);
            && c'.phase.Finished?
            && s' == if c.r.image.Some? && c.r.at >= top + c.keep && (c.o, c.r.at) !in s.bases
                     then s.(bases := s.bases[(c.o, c.r.at) := c.r.image.value]) else s
  {
    var (s1, c1) := JobStep(s, c);
    var (s2, c2) := JobStep(s1, c1);
    var (s3, c3) := JobStep(s2, c2);
    assert JobAlone(s, c, 3) == JobAlone(s1, c1, 2) == JobAlone(s2, c2, 1) == JobAlone(s3, c3, 0);
  }
}
