/** Why the deletes of `ObjLogTheorems` have a condition: a reachable run of the code as it is,
    in which a get and the delete after it straddle a commit, erases a committed entry. */
module ObjLogRace {
  import opened Bytes
  import opened PageDelta
  import opened LogEntry
  import opened ObjLog

  ghost predicate Steps(w: World, es: seq<Event>, last: World)
    decreases |es|
  {
    if es == [] then w == last else Enabled(w, es[0]) && Steps(Apply(w, es[0]), es[1..], last)
  }

  ghost predicate Reachable(w: World) {
    exists es :: Steps(START, es, w)
  }

  lemma {:induction false} StepsThen(w: World, es: seq<Event>, mid: World, e: Event)
    requires Steps(w, es, mid) && Enabled(mid, e)
    ensures Steps(w, es + [e], Apply(mid, e))
    decreases |es|
  {
    if es != [] {
      StepsThen(Apply(w, es[0]), es[1..], mid, e);
      assert (es + [e])[1..] == es[1..] + [e];
    }
  }

  lemma Next(w: World, e: Event)
    requires Reachable(w) && Enabled(w, e)
    ensures Reachable(Apply(w, e))
  {
    var es :| Steps(START, es, w);
    StepsThen(START, es, w, e);
  }

  function With(w: World, s: Store, t: Txn, b: Boat): World {
    World(s, w.boats[t := b], w.jobs)
  }

  /** One step of boat `t`, whose effect is given. */
  lemma Go(w: World, t: Txn, s: Store, b: Boat)
    requires Reachable(w) && t in w.boats && BoatStep(w.s, t, w.boats[t]) == (s, b)
    ensures Reachable(With(w, s, t, b))
  {
    Next(w, Boats(t));
  }

  /** The one item every boat of the story carries. */
  const CARGO: seq<Item> := [Item(0, Snapshot([]), 0)]

  function At(born: nat, tries: nat, i: nat, pc: Pc): Boat {
    Boat(CARGO, born, 0, i, tries, 0, pc)
  }

  ghost predicate Idle(s: Store) {
    s.bases == map[] && !CommittedAt(s, 0, 1)
  }

  lemma Looking(w: World, t: Txn, born: nat, r: Reader, r': Reader)
    requires Reachable(With(w, w.s, t, At(born, 0, 0, Checking(r))))
    requires !r.Settled? && !r.Raced? && ReaderStep(w.s, 0, r) == r'
    ensures Reachable(With(w, w.s, t, At(born, 0, 0, Checking(r'))))
  {
    var w1 := With(w, w.s, t, At(born, 0, 0, Checking(r)));
    Go(w1, t, w.s, At(born, 0, 0, Checking(r')));
    assert With(w1, w.s, t, At(born, 0, 0, Checking(r'))) == With(w, w.s, t, At(born, 0, 0, Checking(r')));
  }

  function Listing(listed: set<nat>): Scan {
    Scan([], 0, listed, 0, [])
  }

  lemma ReadsNothing(s: Store)
    requires Idle(s)
    ensures var sc := Listing(ListedSeqs(s, 0));
            && ReaderStep(s, 0, ListBases(0)) == ListLogs(0, [], 0)
            && ReaderStep(s, 0, ListLogs(0, [], 0)) == Walking(0, sc)
            && ((0, 1) !in s.log ==> ReaderStep(s, 0, Walking(0, sc)) == Rechecking(0, sc))
            && ((0, 1) in s.log ==> ReaderStep(s, 0, Walking(0, sc)) == Judging(0, sc, s.log[(0, 1)]))
            && ((0, 1) in s.log ==> ReaderStep(s, 0, Judging(0, sc, s.log[(0, 1)])) == Rechecking(0, sc))
            && ReaderStep(s, 0, Rechecking(0, sc)) == Settled(0, Some([]))
  {
    assert HighestBase(s, 0) == None;
    if (0, 1) in s.log { assert (0, 1).1 in ListedSeqs(s, 0); }
  }

  lemma Walks(w: World, t: Txn, born: nat)
    requires Reachable(With(w, w.s, t, At(born, 0, 0, Checking(Walking(0, Listing(ListedSeqs(w.s, 0))))))) && Idle(w.s)
    ensures Reachable(With(w, w.s, t, At(born, 0, 0, Checking(Settled(0, Some([]))))))
  {
    var s, sc := w.s, Listing(ListedSeqs(w.s, 0));
    ReadsNothing(s);
    if (0, 1) in s.log {
      Looking(w, t, born, Walking(0, sc), Judging(0, sc, s.log[(0, 1)]));
      Looking(w, t, born, Judging(0, sc, s.log[(0, 1)]), Rechecking(0, sc));
    } else {
      Looking(w, t, born, Walking(0, sc), Rechecking(0, sc));
    }
    Looking(w, t, born, Rechecking(0, sc), Settled(0, Some([])));
  }

  /** On an object with nothing committed, a boat expecting 0 gets as far as creating its entry. */
  lemma Arrive(w: World, t: Txn, born: nat)
    requires Reachable(With(w, w.s, t, At(born, 0, 0, Checking(ListBases(0))))) && Idle(w.s)
    ensures Reachable(With(w, w.s, t, At(born, 0, 0, TryCreate)))
  {
    ReadsNothing(w.s);
    Looking(w, t, born, ListBases(0), ListLogs(0, [], 0));
    Looking(w, t, born, ListLogs(0, [], 0), Walking(0, Listing(ListedSeqs(w.s, 0))));
    Walks(w, t, born);
    Then(w, t, At(born, 0, 0, Checking(Settled(0, Some([])))), w.s, At(born, 0, 0, TryCreate));
  }

  /** A new boat that got as far as creating its entry. */
  lemma Enter(w: World, t: Txn, born: nat)
    requires Reachable(w) && t !in w.boats && Idle(w.s)
    ensures Reachable(With(w, w.s, t, At(born, 0, 0, TryCreate)))
  {
    var w1 := With(w, w.s, t, At(born, 0, 0, Checking(ListBases(0))));
    assert Apply(w, Sail(t, CARGO, born, 0)) == w1;
    Next(w, Sail(t, CARGO, born, 0));
    Arrive(w, t, born);
  }

  /** A step of boat `t` in the world `w` with that boat replaced. */
  lemma Then(w: World, t: Txn, b: Boat, s: Store, b': Boat)
    requires Reachable(With(w, w.s, t, b)) && BoatStep(w.s, t, b) == (s, b')
    ensures Reachable(With(w, s, t, b'))
  {
    var w1 := With(w, w.s, t, b);
    Go(w1, t, s, b');
    assert With(w1, s, t, b') == With(w, s, t, b');
  }

  function Held(t: Txn, born: nat): Store {
    Store(map[(0, 1) := Entry(t, born, Snapshot([]))], map[], map[])
  }

  /** The first boat prewrites its entry and stalls before its commit. */
  lemma Orphan(a: Txn)
    ensures Reachable(With(START, Held(a, 0), a, At(0, 0, 1, CommitCreate)))
  {
    assert Steps(START, [], START);
    Enter(START, a, 0);
    Then(START, a, At(0, 0, 0, TryCreate), Held(a, 0), At(0, 0, 1, CommitCreate));
  }

  /** The slot is taken, and the boat reads by whom. */
  lemma SeesHolder(w: World, a: Txn, t: Txn, born: nat)
    requires Reachable(With(w, w.s, t, At(born, 0, 0, TryCreate))) && w.s.log == Held(a, 0).log && a != t
    ensures Reachable(With(w, w.s, t, At(born, 0, 0, HolderOutcome(Entry(a, 0, Snapshot([]))))))
  {
    Then(w, t, At(born, 0, 0, TryCreate), w.s, At(born, 0, 0, GetHolder));
    Then(w, t, At(born, 0, 0, GetHolder), w.s, At(born, 0, 0, HolderOutcome(Entry(a, 0, Snapshot([])))));
  }

  /** The slot still shows the holder: the boat is about to delete it. */
  lemma SeesItAgain(w: World, a: Txn, t: Txn, born: nat)
    requires Reachable(With(w, w.s, t, At(born, 0, 0, DropGet(a)))) && w.s.log == Held(a, 0).log
    ensures Reachable(With(w, w.s, t, At(born, 0, 0, DropDelete(a))))
  {
    Then(w, t, At(born, 0, 0, DropGet(a)), w.s, At(born, 0, 0, DropDelete(a)));
  }

  lemma Aborts(w: World, a: Txn, r: Txn)
    requires Reachable(With(w, w.s, r, At(10, 0, 0, HolderOutcome(Entry(a, 0, Snapshot([])))))) && w.s == Held(a, 0)
    ensures Reachable(With(w, w.s.(outcomes := map[a := false]), r, At(10, 0, 0, DropGet(a))))
  {
    Then(w, r, At(10, 0, 0, HolderOutcome(Entry(a, 0, Snapshot([])))), w.s, At(10, 0, 0, AbortHolder(a)));
    assert w.s.outcomes[a := false] == map[a := false];
    Then(w, r, At(10, 0, 0, AbortHolder(a)), w.s.(outcomes := map[a := false]), At(10, 0, 0, DropGet(a)));
  }

  /** A resolver finds the aged lock, aborts its transaction, sees the entry once more, and stalls before its delete. */
  lemma Resolver(w: World, a: Txn, r: Txn)
    requires Reachable(w) && w.s == Held(a, 0) && r !in w.boats && a != r
    ensures Reachable(With(w, w.s.(outcomes := map[a := false]), r, At(10, 0, 0, DropDelete(a))))
  {
    Enter(w, r, 10);
    SeesHolder(w, a, r, 10);
    Aborts(w, a, r);
    var s' := w.s.(outcomes := map[a := false]);
    SeesItAgain(World(s', w.boats, w.jobs), a, r, 10);
  }

  function Finale(a: Txn, v: Txn): Store {
    Held(v, 20).(outcomes := map[a := false, v := true])
  }

  /** A second boat finds the aborted entry, deletes it, takes the slot, and commits. */
  lemma Successor(w: World, a: Txn, v: Txn)
    requires Reachable(w) && w.s == Held(a, 0).(outcomes := map[a := false]) && v !in w.boats && a != v
    ensures Reachable(With(w, Finale(a, v), v, At(20, 0, 1, Landed)))
  {
    SuccessorClears(w, a, v);
    SuccessorCommits(w, a, v);
  }

  lemma SuccessorCommits(w: World, a: Txn, v: Txn)
    requires a != v && Reachable(With(w, Store(map[], map[], map[a := false]), v, At(20, 1, 0, TryCreate)))
    ensures Reachable(With(w, Finale(a, v), v, At(20, 0, 1, Landed)))
  {
    var s1 := Store(map[], map[], map[a := false]);
    var s2 := Held(v, 20).(outcomes := map[a := false]);
    Then(World(s1, w.boats, w.jobs), v, At(20, 1, 0, TryCreate), s2, At(20, 0, 1, CommitCreate));
    var s3 := s2.(outcomes := map[a := false, v := true]);
    assert s2.outcomes[v := true] == s3.outcomes;
    Then(World(s2, w.boats, w.jobs), v, At(20, 0, 1, CommitCreate), s3, At(20, 0, 1, Landed));
  }

  lemma SuccessorClears(w: World, a: Txn, v: Txn)
    requires Reachable(w) && w.s == Held(a, 0).(outcomes := map[a := false]) && v !in w.boats && a != v
    ensures Reachable(With(w, Store(map[], map[], map[a := false]), v, At(20, 1, 0, TryCreate)))
  {
    Enter(w, v, 20);
    SeesHolder(w, a, v, 20);
    FindsAborted(w, a, v);
    SeesItAgain(w, a, v, 20);
    Deletes(w, a, v);
  }

  lemma FindsAborted(w: World, a: Txn, v: Txn)
    requires Reachable(With(w, w.s, v, At(20, 0, 0, HolderOutcome(Entry(a, 0, Snapshot([])))))) && Aborted(w.s, a)
    ensures Reachable(With(w, w.s, v, At(20, 0, 0, DropGet(a))))
  {
    Then(w, v, At(20, 0, 0, HolderOutcome(Entry(a, 0, Snapshot([])))), w.s, At(20, 0, 0, DropGet(a)));
  }

  lemma Deletes(w: World, a: Txn, v: Txn)
    requires Reachable(With(w, w.s, v, At(20, 0, 0, DropDelete(a)))) && w.s.log == Held(a, 0).log
    ensures Reachable(With(w, w.s.(log := map[]), v, At(20, 1, 0, TryCreate)))
  {
    assert w.s.log - {(0, 1)} == map[];
    Then(w, v, At(20, 0, 0, DropDelete(a)), w.s.(log := map[]), At(20, 1, 0, TryCreate));
  }

  lemma Visible(a: Txn, v: Txn)
    requires a != v
    ensures CommittedAt(Finale(a, v), 0, 1) && RawSeq(Finale(a, v), 0) == 1
  {
    assert !CommittedAt(Finale(a, v), 0, 2);
    assert RawSeq(Finale(a, v), 0) < 2;
    assert !CommittedAt(Finale(a, v), 0, RawSeq(Finale(a, v), 0) + 1);
  }

  lemma Gone(s: Store)
    requires s.log == map[]
    ensures RawSeq(s, 0) == 0
  {
    assert !CommittedAt(s, 0, 1);
  }

  /** With get and delete as separate operations, a reachable state exists in which a boat has acknowledged its
      commit, its entry is visible, and the next operation of another boat erases it. */
  lemma CommittedEntryLost() returns (w: World, r: Txn, v: Txn)
    ensures Reachable(w) && r in w.boats && v in w.boats && w.boats[v].pc.Landed?
    ensures CommittedAt(w.s, 0, 1) && RawSeq(w.s, 0) == 1
    ensures Reachable(Apply(w, Boats(r))) && RawSeq(Apply(w, Boats(r)).s, 0) == 0
  {
    var a: Txn := [1];
    r, v := [2], [3];
    Orphan(a);
    var w1 := With(START, Held(a, 0), a, At(0, 0, 1, CommitCreate));
    Resolver(w1, a, r);
    var w2 := With(w1, Held(a, 0).(outcomes := map[a := false]), r, At(10, 0, 0, DropDelete(a)));
    Successor(w2, a, v);
    w := With(w2, Finale(a, v), v, At(20, 0, 1, Landed));
    Visible(a, v);
    Erases(w, a, r, v);
  }

  lemma Erases(w: World, a: Txn, r: Txn, v: Txn)
    requires Reachable(w) && r in w.boats && w.boats[r] == At(10, 0, 0, DropDelete(a)) && w.s == Finale(a, v)
    ensures Reachable(Apply(w, Boats(r))) && RawSeq(Apply(w, Boats(r)).s, 0) == 0
  {
    Next(w, Boats(r));
    Gone(Apply(w, Boats(r)).s);
  }
}
