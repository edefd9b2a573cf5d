/** Whom a boat may abort (src/objlog.rs, `prewrite`): a rival's entry in the slot it is after is waited out while it is
    fresh, and only once it has aged past the time to live is its transaction aborted and the slot taken over. */
module ObjLogAge {
  import opened Bytes
  import opened PageDelta
  import opened LogEntry
  import opened ObjLog
  import opened ObjLogProof
  import opened ObjLogTheorems

  // ----- only aged locks are aborted

  /** The rival started longer before the boat than its time to live. */
  predicate Aged(boats: map<Txn, Boat>, t: Txn, u: Txn) {
    t in boats && u in boats && boats[t].born > boats[u].born + boats[t].ttl
  }

  /** Entries carry the birth time of their boat. */
  ghost predicate EntryDated(boats: map<Txn, Boat>, e: Entry) {
    e.txn in boats && e.born == boats[e.txn].born
  }

  ghost predicate LogDated(w: World) {
    forall k :: k in w.s.log ==> EntryDated(w.boats, w.s.log[k])
  }

  ghost predicate BoatDated(boats: map<Txn, Boat>, t: Txn)
    requires t in boats
  {
    && (boats[t].pc.HolderOutcome? ==> EntryDated(boats, boats[t].pc.held))
    && (boats[t].pc.AbortHolder? ==> Aged(boats, t, boats[t].pc.u))
  }

  ghost predicate Dated(w: World) {
    LogDated(w) && forall t :: t in w.boats ==> BoatDated(w.boats, t)
  }

  /** A boat's birth and patience never change. */
  ghost predicate SameAges(a: map<Txn, Boat>, b: map<Txn, Boat>) {
    forall t :: t in a ==> t in b && b[t].born == a[t].born && b[t].ttl == a[t].ttl
  }

  lemma StepKeepsAge(s: Store, t: Txn, b: Boat)
    ensures var b' := BoatStep(s, t, b).1; b'.born == b.born && b'.ttl == b.ttl
  {
    if AtItem(b.pc) {
      if b.i < |b.items| { PrewriteKeepsAge(s, t, b); }
    } else {
      FinishKeepsAge(s, t, b);
    }
  }

  lemma PrewriteKeepsAge(s: Store, t: Txn, b: Boat)
    requires AtItem(b.pc) && b.i < |b.items|
    ensures var b' := PrewriteStep(s, t, b).1; b'.born == b.born && b'.ttl == b.ttl
  {
  }

  lemma FinishKeepsAge(s: Store, t: Txn, b: Boat)
    requires !AtItem(b.pc)
    ensures var b' := FinishStep(s, t, b).1; b'.born == b.born && b'.ttl == b.ttl && !AtItem(b'.pc)
  {
  }

  lemma AgesStay(w: World, e: Event)
    requires Enabled(w, e)
    ensures SameAges(w.boats, Apply(w, e).boats)
  {
    if e.Boats? { StepKeepsAge(w.s, e.t, w.boats[e.t]); }
  }

  lemma DatedStays(a: map<Txn, Boat>, b: map<Txn, Boat>, e: Entry)
    requires SameAges(a, b) && EntryDated(a, e)
    ensures EntryDated(b, e)
  {
  }

  /** What a boat's own step does to what it knows of a rival. */
  lemma StepDated(w: World, t: Txn)
    requires Dated(w) && t in w.boats
    ensures BoatDated(Apply(w, Boats(t)).boats, t)
  {
    AgesStay(w, Boats(t));
    assert BoatDated(w.boats, t);
    var b := w.boats[t];
    if AtItem(b.pc) {
      if b.i < |b.items| { PrewriteDated(w, t); }
    } else {
      FinishKeepsAge(w.s, t, b);
    }
  }

  lemma PrewriteDated(w: World, t: Txn)
    requires Dated(w) && t in w.boats && AtItem(w.boats[t].pc) && w.boats[t].i < |w.boats[t].items|
    ensures BoatDated(w.boats[t := PrewriteStep(w.s, t, w.boats[t]).1], t)
  {
    var b := w.boats[t];
    assert BoatDated(w.boats, t);
    PrewriteKeepsAge(w.s, t, b);
    if b.pc.GetHolder? && Slot(b) in w.s.log { assert EntryDated(w.boats, w.s.log[Slot(b)]); }
  }

  /** A new entry is its boat's. */
  lemma NewEntryDated(w: World, e: Event)
    requires Enabled(w, e) && Creates(w, e, Apply(w, e).s)
    ensures EntryDated(w.boats, Apply(w, e).s.log[Slot(w.boats[e.t])])
  {
  }

  lemma EventKeepsDated(w: World, e: Event)
    requires Dated(w) && Enabled(w, e)
    ensures Dated(Apply(w, e))
  {
    var w' := Apply(w, e);
    AgesStay(w, e);
    LogMoves(w, e);
    forall k | k in w'.s.log ensures EntryDated(w'.boats, w'.s.log[k]) {
      if k in w.s.log && w'.s.log[k] == w.s.log[k] {
        DatedStays(w.boats, w'.boats, w.s.log[k]);
      } else {
        NewEntryDated(w, e);
        DatedStays(w.boats, w'.boats, w'.s.log[k]);
      }
    }
    forall t | t in w'.boats ensures BoatDated(w'.boats, t) {
      if e.Boats? && e.t == t {
        StepDated(w, t);
      } else if t in w.boats {
        assert BoatDated(w.boats, t);
        OthersDated(w, e, t);
      }
    }
  }

  lemma OthersDated(w: World, e: Event, t: Txn)
    requires Enabled(w, e) && t in w.boats && BoatDated(w.boats, t) && !(e.Boats? && e.t == t)
    ensures t in Apply(w, e).boats && BoatDated(Apply(w, e).boats, t)
  {
    AgesStay(w, e);
  }

  lemma {:induction false} HistoryDated(ws: seq<World>, es: seq<Event>, n: nat)
    requires History(ws, es) && ws[0] == START && n < |ws|
    ensures Dated(ws[n])
  {
    if n > 0 {
      HistoryDated(ws, es, n - 1);
      assert ws[n - 1 + 1] == Apply(ws[n - 1], es[n - 1]);
      EventKeepsDated(ws[n - 1], es[n - 1]);
    }
  }

  /** An event that aborts a transaction is the step of a boat that was about to. */
  lemma AbortsWhom(w: World, e: Event, u: Txn)
    requires Enabled(w, e) && u !in w.s.outcomes && Aborted(Apply(w, e).s, u)
    ensures e.Boats? && e.t in w.boats && w.boats[e.t].pc == AbortHolder(u)
  {
    assert e.Boats?;
    var b := w.boats[e.t];
    if AtItem(b.pc) {
      assert b.i < |b.items|;
    }
  }

  /** In every history, whatever is deleted: a transaction is aborted by nobody but another boat that was born more than
      its time to live after it.  A rival within the time to live is never aborted. */
  lemma OnlyAgedAreAborted(ws: seq<World>, es: seq<Event>, n: nat, u: Txn)
    requires History(ws, es) && ws[0] == START && n < |es| && u !in ws[n].s.outcomes && Aborted(ws[n + 1].s, u)
    ensures es[n].Boats? && es[n].t in ws[n].boats && u in ws[n].boats && es[n].t != u
    ensures ws[n].boats[es[n].t].born > ws[n].boats[u].born + ws[n].boats[es[n].t].ttl
  {
    HistoryDated(ws, es, n);
    AbortsWhom(ws[n], es[n], u);
    assert BoatDated(ws[n].boats, es[n].t);
  }

  /** What a boat knows of its rival it read in its slot. */
  ghost predicate Knows(b: Boat, u: Txn) {
    (b.pc.HolderOutcome? && b.pc.held.txn == u) || b.pc == AbortHolder(u)
  }

  lemma LearnsHow(s: Store, t: Txn, b: Boat, u: Txn)
    requires AtItem(b.pc) && b.i < |b.items| && Knows(PrewriteStep(s, t, b).1, u)
    ensures var b' := PrewriteStep(s, t, b).1;
            && b'.i == b.i && b'.items == b.items
            && (Knows(b, u) || (b.pc.GetHolder? && Slot(b) in s.log && s.log[Slot(b)].txn == u))
  {
  }

  /** A boat about to abort a rival met an entry of it in the slot it is after. */
  lemma {:induction false} MetInSlot(ws: seq<World>, es: seq<Event>, n: nat, t: Txn, u: Txn) returns (k: nat)
    requires History(ws, es) && ws[0] == START && n < |ws| && t in ws[n].boats && Knows(ws[n].boats[t], u)
    requires ws[n].boats[t].i < |ws[n].boats[t].items|
    ensures k < n && Slot(ws[n].boats[t]) in ws[k].s.log && ws[k].s.log[Slot(ws[n].boats[t])].txn == u
  {
    var w, e := ws[n - 1], es[n - 1];
    assert ws[n - 1 + 1] == Apply(w, e);
    if e.Boats? && e.t == t {
      var b := w.boats[t];
      if AtItem(b.pc) {
        if b.i < |b.items| { LearnsHow(w.s, t, b, u); }
      } else {
        FinishKeepsAge(w.s, t, b);
      }
      if Knows(b, u) { k := MetInSlot(ws, es, n - 1, t, u); } else { k := n - 1; }
    } else {
      assert ws[n].boats[t] == w.boats[t] by { OtherBoat(w, e, t, u); }
      k := MetInSlot(ws, es, n - 1, t, u);
    }
  }

  lemma OtherBoat(w: World, e: Event, t: Txn, u: Txn)
    requires Enabled(w, e) && t in Apply(w, e).boats && Knows(Apply(w, e).boats[t], u) && !(e.Boats? && e.t == t)
    ensures t in w.boats && Apply(w, e).boats[t] == w.boats[t]
  {
  }

  // ----- a boat left to itself

  /** The next `n` store operations are all the boat's. */
  ghost function Alone(w: World, t: Txn, n: nat): World
    decreases n
  {
    if n == 0 then w else Alone(Operate(w, t), t, n - 1)
  }

  /** The boat's next store operation. */
  ghost function Operate(w: World, t: Txn): World {
    if t in w.boats then Apply(w, Boats(t)) else w
  }

  lemma {:induction false} AloneOn(w: World, t: Txn, m: nat, n: nat)
    ensures Alone(w, t, m + n) == Alone(Alone(w, t, m), t, n)
    decreases m
  {
    if m > 0 { AloneOn(Operate(w, t), t, m - 1, n); }
  }

  function Put(w: World, s: Store, t: Txn, b: Boat): World {
    w.(s := s, boats := w.boats[t := b])
  }

  lemma OneOp(w: World, t: Txn, s: Store, b: Boat)
    requires t in w.boats && BoatStep(w.s, t, w.boats[t]) == (s, b)
    ensures Alone(w, t, 1) == Put(w, s, t, b)
  {
  }

  lemma NextOp(w: World, t: Txn, s: Store, b: Boat, n: nat)
    requires t in w.boats && BoatStep(w.s, t, w.boats[t]) == (s, b)
    ensures Alone(w, t, n + 1) == Alone(Put(w, s, t, b), t, n)
  {
    AloneOn(w, t, 1, n);
    OneOp(w, t, s, b);
  }

  /** The boat looks at who holds its slot, and it is not itself. */
  ghost predicate MeetsRival(w: World, t: Txn) {
    && t in w.boats && w.boats[t].pc.GetHolder? && w.boats[t].i < |w.boats[t].items|
    && Slot(w.boats[t]) in w.s.log && w.s.log[Slot(w.boats[t])].txn != t
  }

  /** A committed rival, or one that is undecided and fresh, is left alone: nothing is written, and the boat gives up.
      */
  lemma RivalStays(w: World, t: Txn)
    requires MeetsRival(w, t)
    requires var e := w.s.log[Slot(w.boats[t])];
             Committed(w.s, e.txn) || (e.txn !in w.s.outcomes && w.boats[t].born <= e.born + w.boats[t].ttl)
    ensures Alone(w, t, 2).s == w.s && t in Alone(w, t, 2).boats && Failing(Alone(w, t, 2).boats[t])
  {
    var b, e := w.boats[t], w.s.log[Slot(w.boats[t])];
    var b1 := b.(pc := HolderOutcome(e));
    NextOp(w, t, w.s, b1, 1);
    OneOp(Put(w, w.s, t, b1), t, w.s, Fail(b1));
  }

  /** The slot as the boat leaves it when it has taken it. */
  function Taken(s: Store, t: Txn, b: Boat): Store
    requires b.i < |b.items|
  {
    s.(log := s.log[Slot(b) := Entry(t, b.born, b.items[b.i].payload)])
  }

  /** The same operations, on the store and the boat alone. */
  ghost function Ops(s: Store, t: Txn, b: Boat, n: nat): (Store, Boat) {
    Iterate(Stepper(t), (s, b), n)
  }

  ghost function Stepper(t: Txn): ((Store, Boat)) -> (Store, Boat) {
    (p: (Store, Boat)) => BoatStep(p.0, t, p.1)
  }

  ghost function Iterate<A>(f: A -> A, x: A, n: nat): A
    decreases n
  {
    if n == 0 then x else Iterate(f, f(x), n - 1)
  }

  lemma {:induction false} IterateOn<A>(f: A -> A, x: A, m: nat, n: nat)
    ensures Iterate(f, x, m + n) == Iterate(f, Iterate(f, x, m), n)
    decreases m
  {
    if m > 0 { IterateOn(f, f(x), m - 1, n); }
  }

  lemma {:induction false} AloneIsOps(w: World, t: Txn, n: nat)
    requires t in w.boats
    ensures Alone(w, t, n) == Put(w, Ops(w.s, t, w.boats[t], n).0, t, Ops(w.s, t, w.boats[t], n).1)
    decreases n
  {
    if n == 0 {
      assert Put(w, w.s, t, w.boats[t]) == w;
    } else {
      var (s, b) := BoatStep(w.s, t, w.boats[t]);
      assert Operate(w, t) == Put(w, s, t, b);
      FirstOp(w.s, t, w.boats[t], s, b, n - 1);
      AloneIsOps(Put(w, s, t, b), t, n - 1);
    }
  }

  lemma FirstOp(s: Store, t: Txn, b: Boat, s1: Store, b1: Boat, n: nat)
    requires BoatStep(s, t, b) == (s1, b1)
    ensures Ops(s, t, b, n + 1) == Ops(s1, t, b1, n)
    ensures n == 0 ==> Ops(s, t, b, n + 1) == (s1, b1)
  {
    assert Stepper(t)((s, b)) == (s1, b1);
  }

  /** The boat with its item written, after one more try. */
  function Again(b: Boat): Boat {
    b.(tries := b.tries + 1, pc := TryCreate)
  }

  lemma Writes(s: Store, t: Txn, b: Boat)
    requires b.i < |b.items| && b.pc.TryCreate? && Slot(b) !in s.log
    ensures Ops(s, t, b, 1) == (Taken(s, t, b), Prewritten(b))
  {
    FirstOp(s, t, b, Taken(s, t, b), Prewritten(b), 0);
  }

  lemma Retakes(s: Store, t: Txn, b: Boat, u: Txn)
    requires b.i < |b.items| && b.tries < 63 && b.pc == DropGet(u)
    requires Slot(b) in s.log && s.log[Slot(b)].txn == u
    ensures Ops(s, t, b, 3) == (Taken(s, t, b), Prewritten(Again(b)))
  {
    var b1, s1 := b.(pc := DropDelete(u)), s.(log := s.log - {Slot(b)});
    FirstOp(s, t, b, s, b1, 2);
    FirstOp(s, t, b1, s1, Again(b), 1);
    Writes(s1, t, Again(b));
    assert Taken(s1, t, Again(b)) == Taken(s, t, b);
  }

  lemma RetakesAged(s: Store, t: Txn, b: Boat, u: Txn)
    requires b.i < |b.items| && b.tries < 63 && b.pc == AbortHolder(u) && u !in s.outcomes
    requires Slot(b) in s.log && s.log[Slot(b)].txn == u
    ensures Ops(s, t, b, 4) == (Taken(Decide(s, u, false), t, b), Prewritten(Again(b)))
  {
    FirstOp(s, t, b, Decide(s, u, false), b.(pc := DropGet(u)), 3);
    Retakes(Decide(s, u, false), t, b.(pc := DropGet(u)), u);
  }

  /** An undecided rival past the time to live is aborted, and an aborted one loses the slot to the boat: left to itself
      and not at its last try, the boat has prewritten its item after at most six operations. */
  lemma AgedIsTakenOver(w: World, t: Txn)
    requires MeetsRival(w, t) && w.boats[t].tries < 63
    requires var e := w.s.log[Slot(w.boats[t])];
             Aborted(w.s, e.txn) || (e.txn !in w.s.outcomes && w.boats[t].born > e.born + w.boats[t].ttl)
    ensures var b, u := w.boats[t], w.s.log[Slot(w.boats[t])].txn;
            var w' := Alone(w, t, if Aborted(w.s, u) then 5 else 6);
            w'.s == Taken(Decide(w.s, u, false), t, b) && t in w'.boats && w'.boats[t] == Prewritten(Again(b))
  {
    var b := w.boats[t];
    if Aborted(w.s, w.s.log[Slot(b)].txn) {
      TakesAborted(w.s, t, b);
      AloneIsOps(w, t, 5);
    } else {
      TakesAged(w.s, t, b);
      AloneIsOps(w, t, 6);
    }
  }

  lemma TakesAborted(s: Store, t: Txn, b: Boat)
    requires b.i < |b.items| && b.tries < 63 && b.pc.GetHolder? && Slot(b) in s.log && s.log[Slot(b)].txn != t
    requires Aborted(s, s.log[Slot(b)].txn)
    ensures Ops(s, t, b, 5) == (Taken(s, t, b), Prewritten(Again(b)))
  {
    var e := s.log[Slot(b)];
    var b1, b2 := b.(pc := HolderOutcome(e)), b.(pc := DropGet(e.txn));
    FirstOp(s, t, b, s, b1, 4);
    FirstOp(s, t, b1, s, b2, 3);
    Retakes(s, t, b2, e.txn);
  }

  lemma TakesAged(s: Store, t: Txn, b: Boat)
    requires b.i < |b.items| && b.tries < 63 && b.pc.GetHolder? && Slot(b) in s.log && s.log[Slot(b)].txn != t
    requires s.log[Slot(b)].txn !in s.outcomes && b.born > s.log[Slot(b)].born + b.ttl
    ensures Ops(s, t, b, 6) == (Taken(Decide(s, s.log[Slot(b)].txn, false), t, b), Prewritten(Again(b)))
  {
    var e := s.log[Slot(b)];
    var b1, b2 := b.(pc := HolderOutcome(e)), b.(pc := AbortHolder(e.txn));
    FirstOp(s, t, b, s, b1, 5);
    FirstOp(s, t, b1, s, b2, 4);
    RetakesAged(s, t, b2, e.txn);
  }
}
