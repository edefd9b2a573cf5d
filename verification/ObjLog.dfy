/** The log-structured commit of src/objlog.rs as an interleaving of store operations.

    Any number of boats, folds and compactions run against one blob store; each event is
    one store operation of one of them (or a purely local move).  A boat that gets no more
    events has crashed or is paused.  `delete_if_txn` is what the source makes of it: a get,
    and later a delete.  A fold reads the highest base, lists the log, reads entry after
    entry and its outcome, and looks at the bases once more, everything as separate reads. */
module ObjLog {
  import opened Bytes
  import opened PageDelta
  import opened LogEntry

  /** Object ids are numbered by the rank of their name. */
  type Obj = nat
  type Txn = seq<Byte>

  /** objects/<id>.L.<seq>, objects/<id>.B.<seq> and txns/<txn>.O */
  datatype Store = Store(log: map<(Obj, nat), Entry>, bases: map<(Obj, nat), File>, outcomes: map<Txn, bool>)

  const EMPTY: Store := Store(map[], map[], map[])

  predicate Committed(s: Store, t: Txn) {
    t in s.outcomes && s.outcomes[t]
  }

  predicate Aborted(s: Store, t: Txn) {
    t in s.outcomes && !s.outcomes[t]
  }

  /** create-if-absent on an outcome key: commit and abort race for the same key. */
  function Decide(s: Store, t: Txn, commit: bool): Store {
    if t in s.outcomes then s else s.(outcomes := s.outcomes[t := commit])
  }

  // ----- reading: read_base, then the walk of fold_committed and committed_seq

  ghost predicate IsHighestBase(s: Store, o: Obj, b: nat) {
    (o, b) in s.bases && forall c: nat :: (o, c) in s.bases ==> c <= b
  }

  /** What a listing of the bases shows as the highest. */
  ghost function HighestBase(s: Store, o: Obj): (r: Option<nat>)
    ensures r.Some? ==> IsHighestBase(s, o, r.value)
    ensures r.None? ==> forall c: nat :: (o, c) !in s.bases
  {
    if exists b: nat :: IsHighestBase(s, o, b) then
      var b: nat :| IsHighestBase(s, o, b);
      Some(b)
    else
      assert forall c: nat :: (o, c) !in s.bases by {
        forall c: nat ensures (o, c) !in s.bases { if (o, c) in s.bases { HighestBaseExists(s, o, c); } }
      }
      None
  }

  lemma HighestBaseExists(s: Store, o: Obj, c: nat)
    requires (o, c) in s.bases
    ensures exists b: nat :: IsHighestBase(s, o, b)
  {
    var keys := set k | k in s.bases && k.0 == o;
    assert (o, c) in keys;
    HighestExists(s, o, keys);
    var b: nat :| (o, b) in keys && forall d: nat :: (o, d) in keys ==> d <= b;
    assert forall d: nat :: (o, d) in s.bases ==> (o, d) in keys;
    assert IsHighestBase(s, o, b);
  }

  lemma {:induction false} HighestExists(s: Store, o: Obj, keys: set<(Obj, nat)>)
    requires keys <= s.bases.Keys && forall k :: k in keys ==> k.0 == o
    ensures keys != {} ==> exists b: nat :: (o, b) in keys && forall c: nat :: (o, c) in keys ==> c <= b
    decreases |keys|
  {
    if keys != {} {
      var k :| k in keys;
      var rest := keys - {k};
      HighestExists(s, o, rest);
      assert k == (o, k.1) && forall c: nat :: (o, c) in keys ==> c == k.1 || (o, c) in rest;
      if rest == {} {
        assert forall c: nat :: (o, c) in keys ==> c <= k.1;
      } else {
        var b: nat :| (o, b) in rest && forall c: nat :: (o, c) in rest ==> c <= b;
        var top := if b < k.1 then k.1 else b;
        assert (o, top) in keys && forall c: nat :: (o, c) in keys ==> c <= top;
      }
    }
  }

  ghost function ListedSeqs(s: Store, o: Obj): set<nat> {
    set k | k in s.log && k.0 == o :: k.1
  }

  /** One pass over base and log: the base taken, the sequence numbers listed, and how far it got. */
  datatype Scan = Scan(img: File, base: nat, listed: set<nat>, at: nat, payloads: seq<Payload>)

  datatype Reader =
    | ListBases(attempt: nat)
    | GetBase(attempt: nat, best: nat)
    | ListLogs(attempt: nat, img: File, base: nat)
    | Walking(attempt: nat, sc: Scan)
    | Judging(attempt: nat, sc: Scan, e: Entry)
    | Rechecking(attempt: nat, sc: Scan)
    | Settled(at: nat, image: Option<File>)
    | Raced

  const ATTEMPTS: nat := 16

  /** The next read of a fold of `o`. */
  ghost function ReaderStep(s: Store, o: Obj, r: Reader): Reader {
    match r
    case ListBases(n) =>
      (match HighestBase(s, o)
       case None => ListLogs(n, [], 0)
       case Some(b) => GetBase(n, b))
    case GetBase(n, b) => ListLogs(n, if (o, b) in s.bases then s.bases[(o, b)] else [], b)
    case ListLogs(n, img, b) => Walking(n, Scan(img, b, ListedSeqs(s, o), b, []))
    case Walking(n, sc) =>
      if sc.at + 1 !in sc.listed || (o, sc.at + 1) !in s.log then Rechecking(n, sc)
      else Judging(n, sc, s.log[(o, sc.at + 1)])
    case Judging(n, sc, e) =>
      if Committed(s, e.txn) then Walking(n, sc.(at := sc.at + 1, payloads := sc.payloads + [e.payload]))
      else Rechecking(n, sc)
    case Rechecking(n, sc) =>
      var now := match HighestBase(s, o) { case None => 0 case Some(b) => b };
      if now <= sc.at then Settled(sc.at, Fold(sc.img, sc.payloads))
      else if n + 1 < ATTEMPTS then ListBases(n + 1)
      else Raced
    case _ => r
  }

  // ----- one boat: prewrite every item, flip the outcome, or clear up

  datatype Item = Item(o: Obj, payload: Payload, expected: nat)

  datatype Pc =
    | Checking(r: Reader)
    | TryCreate
    | GetHolder
    | HolderOutcome(held: Entry)
    | AbortHolder(u: Txn)
    | AbortRecheck(u: Txn)
    | DropGet(u: Txn)
    | DropDelete(u: Txn)
    | CommitCreate
    | CommitRecheck
    | Landed
    | ClearCheck
    | ClearGet
    | ClearDelete
    | Sunk

  /** `i` items are prewritten; `j` of them are dealt with by the clean-up. */
  datatype Boat = Boat(items: seq<Item>, born: nat, ttl: nat, i: nat, tries: nat, j: nat, pc: Pc)

  const TRIES: nat := 64

  predicate Failing(b: Boat) {
    b.pc.ClearCheck? || b.pc.ClearGet? || b.pc.ClearDelete? || b.pc.Sunk?
  }

  /** Every error before the commit switch leads to the clean-up of what was prewritten. */
  function Fail(b: Boat): Boat {
    b.(j := 0, pc := ClearCheck)
  }

  function NextItem(b: Boat): Boat {
    b.(tries := 0, pc := if b.i < |b.items| then Checking(ListBases(0)) else CommitCreate)
  }

  function Launch(items: seq<Item>, born: nat, ttl: nat): Boat {
    NextItem(Boat(items, born, ttl, 0, 0, 0, Sunk))
  }

  function Prewritten(b: Boat): Boat {
    NextItem(b.(i := b.i + 1))
  }

  function Retry(b: Boat): Boat {
    if b.tries + 1 < TRIES then b.(tries := b.tries + 1, pc := TryCreate) else Fail(b)
  }

  /** The slot the boat is after. */
  function Slot(b: Boat): (Obj, nat)
    requires b.i < |b.items|
  {
    (b.items[b.i].o, b.items[b.i].expected + 1)
  }

  function ClearSlot(b: Boat): (Obj, nat)
    requires b.j < |b.items|
  {
    (b.items[b.j].o, b.items[b.j].expected + 1)
  }

  predicate AtItem(pc: Pc) {
    || pc.Checking? || pc.TryCreate? || pc.GetHolder? || pc.HolderOutcome? || pc.AbortHolder? || pc.AbortRecheck?
    || pc.DropGet? || pc.DropDelete?
  }

  /** The next store operation of prewriting the current item. */
  ghost function PrewriteStep(s: Store, t: Txn, b: Boat): (Store, Boat)
    requires AtItem(b.pc) && b.i < |b.items|
  {
    var item, k := b.items[b.i], Slot(b);
    match b.pc
    case Checking(r) =>
      if r.Settled? then (s, if r.at == item.expected then b.(pc := TryCreate) else Fail(b))
      else if r.Raced? then (s, Fail(b))
      else (s, b.(pc := Checking(ReaderStep(s, item.o, r))))
    case TryCreate =>
      if k in s.log then (s, b.(pc := GetHolder))
      else (s.(log := s.log[k := Entry(t, b.born, item.payload)]), Prewritten(b))
    case GetHolder =>
      if k !in s.log then (s, Retry(b))
      else if s.log[k].txn == t then (s, Prewritten(b))
      else (s, b.(pc := HolderOutcome(s.log[k])))
    case HolderOutcome(held) =>
      if Committed(s, held.txn) then (s, Fail(b))
      else if Aborted(s, held.txn) then (s, b.(pc := DropGet(held.txn)))
      else if b.born <= held.born + b.ttl then (s, Fail(b))
      else (s, b.(pc := AbortHolder(held.txn)))
    case AbortHolder(u) =>
      (Decide(s, u, false), b.(pc := if u in s.outcomes then AbortRecheck(u) else DropGet(u)))
    case AbortRecheck(u) => (s, if Aborted(s, u) then b.(pc := DropGet(u)) else Fail(b))
    case DropGet(u) => (s, if k in s.log && s.log[k].txn == u then b.(pc := DropDelete(u)) else Retry(b))
    case DropDelete(u) => (s.(log := s.log - {k}), Retry(b))
  }

  /** The next store operation of the commit switch or of the clean-up. */
  function FinishStep(s: Store, t: Txn, b: Boat): (Store, Boat)
    requires !AtItem(b.pc)
  {
    match b.pc
    case CommitCreate => (Decide(s, t, true), b.(pc := if t in s.outcomes then CommitRecheck else Landed))
    case CommitRecheck => (s, if Committed(s, t) then b.(pc := Landed) else Fail(b))
    case ClearCheck =>
      if b.j >= b.i || b.j >= |b.items| then (s, b.(pc := Sunk))
      else if Committed(s, t) then (s, b.(j := b.j + 1))
      else (s, b.(pc := ClearGet))
    case ClearGet =>
      if b.j < |b.items| && ClearSlot(b) in s.log && s.log[ClearSlot(b)].txn == t then (s, b.(pc := ClearDelete))
      else (s, b.(j := b.j + 1, pc := ClearCheck))
    case ClearDelete =>
      (if b.j < |b.items| then s.(log := s.log - {ClearSlot(b)}) else s, b.(j := b.j + 1, pc := ClearCheck))
    case _ => (s, b)
  }

  ghost function BoatStep(s: Store, t: Txn, b: Boat): (Store, Boat) {
    if AtItem(b.pc) then
      if b.i < |b.items| then PrewriteStep(s, t, b) else (s, b)
    else FinishStep(s, t, b)
  }

  /** The store operation reports failure and did not land. */
  function BoatFault(b: Boat): Boat {
    if b.pc.Landed? || b.pc.Sunk? then b
    else if Failing(b) then b.(j := b.j + 1, pc := ClearCheck)
    else Fail(b)
  }

  // ----- folds and compactions

  datatype Phase = Folding | SecondBase(at: nat, image: File) | Publishing(at: nat, image: File) | Finished

  /** A fold of `o`; when `publish` is set, a compaction that keeps `keep` entries.
      `since` remembers the committed sequence number at its start, for stating what it returns. */
  datatype Job = Job(o: Obj, publish: bool, keep: nat, r: Reader, phase: Phase, since: nat)

  ghost function JobStep(s: Store, c: Job): (Store, Job) {
    match c.phase
    case Folding =>
      if c.r.Settled? then
        if c.publish && c.r.image.Some? then (s, c.(phase := SecondBase(c.r.at, c.r.image.value)))
        else (s, c.(phase := Finished))
      else if c.r.Raced? then (s, c.(phase := Finished))
      else (s, c.(r := ReaderStep(s, c.o, c.r)))
    case SecondBase(at, image) =>
      var base := match HighestBase(s, c.o) { case None => 0 case Some(b) => b };
      (s, c.(phase := if at < base + c.keep then Finished else Publishing(at, image)))
    case Publishing(at, image) =>
      (if (c.o, at) in s.bases then s else s.(bases := s.bases[(c.o, at) := image]), c.(phase := Finished))
    case Finished => (s, c)
  }

  // ----- the whole system

  datatype World = World(s: Store, boats: map<Txn, Boat>, jobs: map<nat, Job>)

  const START: World := World(EMPTY, map[], map[])

  datatype Event =
    | Sail(t: Txn, items: seq<Item>, born: nat, ttl: nat)
    | Boats(t: Txn)
    | Fault(t: Txn)
    | StartJob(id: nat, o: Obj, publish: bool, keep: nat)
    | Jobs(id: nat)

  /** Items come sorted by object, one per object. */
  ghost predicate SortedItems(items: seq<Item>) {
    forall i, j :: 0 <= i < j < |items| ==> items[i].o < items[j].o
  }

  /** A boat gets a transaction id no other boat ever had. */
  ghost predicate Enabled(w: World, e: Event) {
    match e
    case Sail(t, items, born, ttl) => t !in w.boats && SortedItems(items)
    case Boats(t) => t in w.boats
    case Fault(t) => t in w.boats
    case StartJob(id, o, publish, keep) => id !in w.jobs
    case Jobs(id) => id in w.jobs
  }

  ghost function Apply(w: World, e: Event): World
    requires Enabled(w, e)
  {
    match e
    case Sail(t, items, born, ttl) => w.(boats := w.boats[t := Launch(items, born, ttl)])
    case Boats(t) =>
      var (s, b) := BoatStep(w.s, t, w.boats[t]);
      w.(s := s, boats := w.boats[t := b])
    case Fault(t) => w.(boats := w.boats[t := BoatFault(w.boats[t])])
    case StartJob(id, o, publish, keep) =>
      w.(jobs := w.jobs[id := Job(o, publish, keep, ListBases(0), Folding, RawSeq(w.s, o))])
    case Jobs(id) =>
      var (s, c) := JobStep(w.s, w.jobs[id]);
      w.(s := s, jobs := w.jobs[id := c])
  }

  // ----- the committed truth of the raw log, bases aside

  ghost predicate CommittedAt(s: Store, o: Obj, q: nat) {
    (o, q) in s.log && Committed(s, s.log[(o, q)].txn)
  }

  ghost function SeqsAbove(s: Store, o: Obj, at: nat): set<(Obj, nat)> {
    set k | k in s.log.Keys && k.0 == o && k.1 > at
  }

  ghost function RunFrom(s: Store, o: Obj, at: nat): (r: nat)
    ensures at <= r && !CommittedAt(s, o, r + 1)
    ensures forall q: nat :: at < q <= r ==> CommittedAt(s, o, q)
    decreases |SeqsAbove(s, o, at)|
  {
    if CommittedAt(s, o, at + 1) then
      Fewer(s, o, at);
      RunFrom(s, o, at + 1)
    else at
  }

  lemma Fewer(s: Store, o: Obj, at: nat)
    requires CommittedAt(s, o, at + 1)
    ensures |SeqsAbove(s, o, at + 1)| < |SeqsAbove(s, o, at)|
  {
    var a, b := SeqsAbove(s, o, at + 1), SeqsAbove(s, o, at);
    assert (o, at + 1) in b && (o, at + 1) !in a;
    assert b == a + (b - a);
  }

  /** The highest sequence number of `o` whose entries are all committed, from 1 on. */
  ghost function RawSeq(s: Store, o: Obj): (r: nat)
    ensures !CommittedAt(s, o, r + 1) && forall q: nat :: 0 < q <= r ==> CommittedAt(s, o, q)
  {
    RunFrom(s, o, 0)
  }

  /** The raw log folded up to `n`, nothing compacted. */
  ghost function RawFold(s: Store, o: Obj, n: nat): Option<File> {
    if n == 0 then Some([])
    else if (o, n) !in s.log then None
    else
      match RawFold(s, o, n - 1)
      case None => None
      case Some(img) => FoldOne(img, s.log[(o, n)].payload)
  }
}
