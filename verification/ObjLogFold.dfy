/** The read path of src/objlog.rs as loops over a store that keeps changing: `read_base`, the walk of the listed
    entries, `fold_committed` and `committed_seq`.

    `at(k)` is the store as the reader's k-th operation finds it.  Between two operations the rest of the world may
    have taken any number of steps. */
module ObjLogFold {
  import opened Bytes
  import opened PageDelta
  import opened LogEntry
  import opened ObjLog
  import opened ObjLogProof

  // ----- the world between two operations

  ghost predicate Evolves(w: World, w': World) {
    Inv(w) && Inv(w') && Grows(w.s, w'.s) && BoatsGrow(w.boats, w'.boats)
  }

  /** What any event of the system, its deletes being clean, does to a reader's world. */
  lemma EventEvolves(w: World, e: Event)
    requires Inv(w) && Enabled(w, e) && CleanDelete(w, e)
    ensures Evolves(w, Apply(w, e))
  {
    EventKeepsInv(w, e);
    EventGrowsBoats(w, e);
  }

  /** The stores a reader sees are those of one evolving world. */
  ghost predicate Timeline(ws: nat -> World, at: nat -> Store) {
    (forall k :: at(k) == ws(k).s) && forall k: nat :: Ticks(ws, k)
  }

  ghost predicate Ticks(ws: nat -> World, k: nat) {
    Evolves(ws(k), ws(k + 1))
  }

  ghost predicate Past(w: World, w': World) {
    Grows(w.s, w'.s) && BoatsGrow(w.boats, w'.boats)
  }

  lemma PastTrans(a: World, b: World, c: World)
    requires Past(a, b) && Past(b, c)
    ensures Past(a, c)
  {
  }

  lemma {:induction false} Later(ws: nat -> World, at: nat -> Store, j: nat, k: nat)
    requires Timeline(ws, at) && j <= k
    ensures Past(ws(j), ws(k))
    decreases k
  {
    if j < k {
      Later(ws, at, j, k - 1);
      TickPasses(ws, k - 1);
      PastTrans(ws(j), ws(k - 1), ws(k));
    }
  }

  lemma TickPasses(ws: nat -> World, k: nat)
    requires Ticks(ws, k)
    ensures Past(ws(k), ws(k + 1))
  {
  }

  // ----- read_base

  /** The image and its number are a faithful fold, now and later. */
  ghost predicate Folded(s: Store, o: Obj, image: File, n: nat) {
    n <= RawSeq(s, o) && RawFold(s, o, n) == Some(image)
  }

  lemma FoldedStays(s: Store, s': Store, o: Obj, image: File, n: nat)
    requires Grows(s, s') && Folded(s, o, image, n)
    ensures Folded(s', o, image, n)
  {
    RawSeqGrows(s, s', o);
    RawFoldGrows(s, s', o, n);
  }

  function BaseSeqs(s: Store, o: Obj): set<nat> {
    set k | k in s.bases.Keys && k.0 == o :: k.1
  }

  method Highest(seqs: set<nat>) returns (best: Option<nat>)
    ensures best.None? <==> seqs == {}
    ensures best.Some? ==> best.value in seqs && forall q :: q in seqs ==> q <= best.value
  {
    best := None;
    var todo := seqs;
    while todo != {}
      invariant todo <= seqs && (best.None? <==> todo == seqs)
      invariant best.Some? ==> best.value in seqs && forall q :: q in seqs && q !in todo ==> q <= best.value
      decreases todo
    {
      var q :| q in todo;
      todo := todo - {q};
      if best.None? || q > best.value { best := Some(q); }
    }
  }

  /** The highest published number, 0 without any. */
  ghost predicate IsTop(s: Store, o: Obj, base: nat) {
    (forall c: nat :: (o, c) in s.bases ==> c <= base) && (base == 0 || (o, base) in s.bases)
  }

  /** List the bases, then fetch the highest: two operations. */
  method ReadBase(at: nat -> Store, ghost ws: nat -> World, o: Obj, k: nat) returns (image: File, base: nat)
    requires Timeline(ws, at)
    ensures Folded(at(k + 2), o, image, base) && IsTop(at(k), o, base)
  {
    forall c: nat | (o, c) in at(k).bases ensures c in BaseSeqs(at(k), o) { assert (o, c) in at(k).bases.Keys; }
    var best := Highest(BaseSeqs(at(k), o));
    Later(ws, at, k, k + 1);
    Later(ws, at, k + 1, k + 2);
    if best.None? {
      return [], 0;
    }
    base := best.value;
    assert (o, base) in ws(k).s.bases;
    image := if (o, base) in at(k + 1).bases then at(k + 1).bases[(o, base)] else [];
    assert Ticks(ws, k) && BasesFaithful(ws(k + 1).s);
    FoldedStays(at(k + 1), at(k + 2), o, image, base);
  }

  // ----- the walk of the listed entries

  method Sorted(seqs: set<nat>) returns (keys: seq<nat>)
    ensures forall q :: q in keys <==> q in seqs
    ensures forall i, j :: 0 <= i < j < |keys| ==> keys[i] < keys[j]
  {
    keys := [];
    var todo := seqs;
    while todo != {}
      invariant forall q :: q in seqs <==> q in keys || q in todo
      invariant forall i, q :: 0 <= i < |keys| && q in todo ==> keys[i] < q
      invariant forall i, j :: 0 <= i < j < |keys| ==> keys[i] < keys[j]
      decreases todo
    {
      var least := Least(todo);
      keys, todo := keys + [least], todo - {least};
    }
  }

  method Least(seqs: set<nat>) returns (least: nat)
    requires seqs != {}
    ensures least in seqs && forall q :: q in seqs ==> least <= q
  {
    var q :| q in seqs;
    least := q;
    var todo := seqs - {q};
    while todo != {}
      invariant todo <= seqs && least in seqs && forall q :: q in seqs && q !in todo ==> least <= q
      decreases todo
    {
      var p :| p in todo;
      todo := todo - {p};
      if p < least { least := p; }
    }
  }

  function LogSeqs(s: Store, o: Obj): set<nat> {
    set k | k in s.log.Keys && k.0 == o :: k.1
  }

  /** How the walk stands at the k-th operation. */
  ghost predicate Stands(w: World, o: Obj, since: nat, sc: Scan) {
    ScanOk(w.s, o, since, sc)
  }

  lemma StandsOn(w: World, w': World, o: Obj, since: nat, sc: Scan)
    requires Evolves(w, w') && Stands(w, o, since, sc)
    ensures Stands(w', o, since, sc)
  {
    RawSeqGrows(w.s, w'.s, o);
    RawFoldGrows(w.s, w'.s, o, sc.at);
  }

  lemma SeenThenCommitted(w: World, w': World, o: Obj, q: nat, e: Entry)
    requires Evolves(w, w') && (o, q) in w.s.log && w.s.log[(o, q)] == e && Committed(w'.s, e.txn)
    ensures CommittedAt(w'.s, o, q) && w'.s.log[(o, q)].payload == e.payload
  {
    assert LogOwned(w.s, w.boats);
    assert ItemOf(w.boats, e, o, q);
    ItemOfGrows(w.boats, w'.boats, e, o, q);
    CommittedEntryInPlace(w', e, o, q);
  }

  /** An entry seen in its slot and then found committed extends the walk. */
  lemma Extends(w: World, w': World, o: Obj, since: nat, sc: Scan, e: Entry)
    requires Evolves(w, w') && Stands(w, o, since, sc)
    requires (o, sc.at + 1) in w.s.log && w.s.log[(o, sc.at + 1)] == e && Committed(w'.s, e.txn)
    ensures Stands(w', o, since, sc.(at := sc.at + 1, payloads := sc.payloads + [e.payload]))
  {
    StandsOn(w, w', o, since, sc);
    SeenThenCommitted(w, w', o, sc.at + 1, e);
    ScanExtends(w'.s, o, since, sc, e);
  }

  /** What was committed at the start is in its slot, and committed. */
  lemma StillCommitted(w: World, w': World, o: Obj, since: nat, sc: Scan)
    requires Evolves(w, w') && Stands(w, o, since, sc) && sc.at < since
    ensures (o, sc.at + 1) in w.s.log && Committed(w'.s, w.s.log[(o, sc.at + 1)].txn)
  {
    assert CommittedAt(w.s, o, sc.at + 1);
  }

  /** One more entry: fetched, and its outcome read; none if it is gone or not committed.  What was committed at the
      start is always found. */
  method TakeEntry(at: nat -> Store, ghost ws: nat -> World, o: Obj, q: nat, k: nat, ghost since: nat, ghost sc: Scan)
    returns (entry: Option<Entry>)
    requires Timeline(ws, at) && Stands(ws(k), o, since, sc) && q == sc.at + 1
    ensures entry.Some? ==> Stands(ws(k + 2), o, since, sc.(at := q, payloads := sc.payloads + [entry.value.payload]))
    ensures entry.None? ==> Stands(ws(k + 2), o, since, sc) && since <= sc.at
    ensures entry ==
              if (o, q) in at(k).log && Committed(at(k + 1), at(k).log[(o, q)].txn) then Some(at(k).log[(o, q)])
              else None
  {
    assert Ticks(ws, k) && Ticks(ws, k + 1);
    StandsOn(ws(k), ws(k + 1), o, since, sc);
    StandsOn(ws(k + 1), ws(k + 2), o, since, sc);
    if sc.at < since { StillCommitted(ws(k), ws(k + 1), o, since, sc); }
    if (o, q) !in at(k).log { return None; }
    var e := at(k).log[(o, q)];
    if !Committed(at(k + 1), e.txn) { return None; }
    Extends(ws(k), ws(k + 1), o, since, sc, e);
    StandsOn(ws(k + 1), ws(k + 2), o, since, sc.(at := q, payloads := sc.payloads + [e.payload]));
    entry := Some(e);
  }

  /** The walk got at least as far as what was committed at the start. */
  ghost predicate Reached(w: World, o: Obj, since: nat, sc: Scan) {
    Stands(w, o, since, sc) && since <= sc.at
  }

  /** List the log and walk it from the base. */
  method Walk(at: nat -> Store, ghost ws: nat -> World, o: Obj, image: File, base: nat, k: nat)
    returns (payloads: seq<Payload>, last: nat, next: nat)
    requires Timeline(ws, at) && Folded(at(k), o, image, base)
    ensures next > k && Reached(ws(next), o, RawSeq(at(k), o), Scan(image, base, LogSeqs(at(k), o), last, payloads))
  {
    var keys := Sorted(LogSeqs(at(k), o));
    Starts(ws, at, o, image, base, k);
    payloads, last, next :=
      WalkKeys(at, ws, o, keys, base, k + 1, at(k), Scan(image, base, LogSeqs(at(k), o), base, []));
  }

  /** Skip what the base covers; stop at the first gap or at the first entry that is not committed. */
  method WalkKeys(at: nat -> Store, ghost ws: nat -> World, o: Obj, keys: seq<nat>, base: nat, k: nat, ghost s: Store,
                  ghost sc: Scan)
    returns (payloads: seq<Payload>, last: nat, next: nat)
    requires Timeline(ws, at) && Sees(keys, s, o) && sc.base == sc.at == base && sc.payloads == []
    requires AtWalk(ws(k), s, o, keys, 0, sc, true)
    ensures next >= k && Reached(ws(next), o, RawSeq(s, o), sc.(at := last, payloads := payloads))
  {
    payloads, last, next := [], base, k;
    var walking, i := true, 0;
    while walking && i < |keys|
      invariant next >= k && AtWalk(ws(next), s, o, keys, i, sc.(at := last, payloads := payloads), walking)
      decreases |keys| - i, walking
    {
      if keys[i] <= base {
        PassedBy(keys, i, base, last);
        i := i + 1;
      } else if keys[i] != last + 1 {
        AtGap(s, o, keys, i, base, last);
        walking := false;
      } else {
        var entry := TakeEntry(at, ws, o, last + 1, next, RawSeq(s, o), sc.(at := last, payloads := payloads));
        next, walking := next + 2, entry.Some?;
        if walking {
          PassedBy(keys, i, base, last);
          payloads, last, i := payloads + [entry.value.payload], last + 1, i + 1;
        }
      }
    }
    if walking { AtGap(s, o, keys, i, base, last); }
  }

  ghost predicate Sees(keys: seq<nat>, s: Store, o: Obj) {
    forall q :: q in keys <==> q in LogSeqs(s, o)
  }

  /** The state of the walk at key `i`. */
  ghost predicate AtWalk(w: World, s: Store, o: Obj, keys: seq<nat>, i: nat, sc: Scan, walking: bool) {
    && i <= |keys| && Stands(w, o, RawSeq(s, o), sc)
    && (if walking then Passed(keys, i, sc.base, sc.at) else RawSeq(s, o) <= sc.at)
  }

  lemma Starts(ws: nat -> World, at: nat -> Store, o: Obj, image: File, base: nat, k: nat)
    requires Timeline(ws, at) && Folded(at(k), o, image, base)
    ensures Stands(ws(k + 1), o, RawSeq(at(k), o), Scan(image, base, LogSeqs(at(k), o), base, []))
  {
    assert Ticks(ws, k);
    StandsOn(ws(k), ws(k + 1), o, RawSeq(at(k), o), Scan(image, base, LogSeqs(at(k), o), base, []));
  }

  /** The first `i` keys are behind the walk; the last of them that is above the base is where it stands. */
  ghost predicate Passed(keys: seq<nat>, i: nat, base: nat, last: nat) {
    && i <= |keys| && base <= last
    && (forall a, b :: 0 <= a < b < |keys| ==> keys[a] < keys[b])
    && (forall j :: 0 <= j < i ==> keys[j] <= last)
    && (last == base || (i > 0 && keys[i - 1] == last))
  }

  lemma PassedBy(keys: seq<nat>, i: nat, base: nat, last: nat)
    requires Passed(keys, i, base, last) && i < |keys|
    ensures keys[i] <= base ==> Passed(keys, i + 1, base, last)
    ensures keys[i] == last + 1 ==> Passed(keys, i + 1, base, last + 1)
  {
  }

  lemma ListedIfCommitted(s: Store, o: Obj, q: nat)
    requires 0 < q <= RawSeq(s, o)
    ensures q in LogSeqs(s, o)
  {
    assert CommittedAt(s, o, q);
    assert (o, q) in s.log.Keys;
  }

  /** Where the listing has a gap or ends, the committed run had ended too. */
  lemma AtGap(s: Store, o: Obj, keys: seq<nat>, i: nat, base: nat, last: nat)
    requires Passed(keys, i, base, last) && Sees(keys, s, o)
    requires i < |keys| ==> keys[i] > base && keys[i] != last + 1
    ensures RawSeq(s, o) <= last
  {
    assert last + 1 !in keys;
    if RawSeq(s, o) > last { ListedIfCommitted(s, o, last + 1); }
  }

  // ----- fold_committed and committed_seq

  /** What a fold may return: the raw log folded up to a number that lies between the committed ones at its first and at
      its last operation. */
  ghost predicate IsFold(first: Store, last: Store, o: Obj, image: File, n: nat) {
    RawSeq(first, o) <= n && Folded(last, o, image, n)
  }

  /** A pass that started with the k-th operation: what it read, and when it looked at the bases again. */
  datatype Try = Try(k: nat, sc: Scan, walked: nat)

  ghost predicate IsTry(at: nat -> Store, ws: nat -> World, o: Obj, t: Try) {
    && t.walked >= t.k + 2 && t.sc.listed == LogSeqs(at(t.k + 2), o)
    && Reached(ws(t.walked), o, RawSeq(at(t.k + 2), o), t.sc)
  }

  /** A base had been published beyond where the walk ended. */
  ghost predicate WasRaced(at: nat -> Store, o: Obj, t: Try) {
    exists c: nat :: (o, c) in at(t.walked).bases && c > t.sc.at
  }

  /** One pass after the other, from the first operation on; only the last may not have been raced. */
  ghost predicate Tried(at: nat -> Store, ws: nat -> World, o: Obj, tries: seq<Try>, ops: nat) {
    && |tries| <= ATTEMPTS
    && (forall i :: 0 <= i < |tries| ==> IsTry(at, ws, o, tries[i]))
    && (forall i :: 0 <= i < |tries| - 1 ==> WasRaced(at, o, tries[i]) && tries[i + 1].k == tries[i].walked + 2)
    && (if tries == [] then ops == 0 else tries[0].k == 0 && ops == tries[|tries| - 1].walked + 2)
  }

  ghost predicate AllRaced(at: nat -> Store, o: Obj, tries: seq<Try>) {
    forall i :: 0 <= i < |tries| ==> WasRaced(at, o, tries[i])
  }

  lemma TriedOnce(at: nat -> Store, ws: nat -> World, o: Obj, tries: seq<Try>, ops: nat, t: Try)
    requires Tried(at, ws, o, tries, ops) && AllRaced(at, o, tries) && |tries| < ATTEMPTS && IsTry(at, ws, o, t)
        && t.k == ops
    ensures Tried(at, ws, o, tries + [t], t.walked + 2)
    ensures WasRaced(at, o, t) ==> AllRaced(at, o, tries + [t])
  {
    AllTries(at, ws, o, tries, t);
    var all := tries + [t];
    assert all[|all| - 1] == t && (tries != [] ==> all[0] == tries[0]);
    forall i | 0 <= i < |all| - 1 ensures WasRaced(at, o, all[i]) && all[i + 1].k == all[i].walked + 2 {
      assert WasRaced(at, o, tries[i]);
    }
  }

  lemma AllTries(at: nat -> Store, ws: nat -> World, o: Obj, tries: seq<Try>, t: Try)
    requires (forall i :: 0 <= i < |tries| ==> IsTry(at, ws, o, tries[i])) && IsTry(at, ws, o, t)
    ensures forall i :: 0 <= i < |tries + [t]| ==> IsTry(at, ws, o, (tries + [t])[i])
  {
  }

  /** Base, log, and the bases once more. */
  method Pass(at: nat -> Store, ghost ws: nat -> World, o: Obj, k: nat)
    returns (image: File, payloads: seq<Payload>, last: nat, moved: bool, walked: nat, ghost t: Try)
    requires Timeline(ws, at)
    ensures IsTry(at, ws, o, t) && t.k == k && t.walked == walked
    ensures t.sc.img == image && t.sc.payloads == payloads && t.sc.at == last
    ensures moved <==> WasRaced(at, o, t)
  {
    image, payloads, last, walked, t := ReadOnce(at, ws, o, k);
    moved := Recheck(at, ws, o, walked, last, t);
  }

  /** Base and log. */
  method ReadOnce(at: nat -> Store, ghost ws: nat -> World, o: Obj, k: nat)
    returns (image: File, payloads: seq<Payload>, last: nat, walked: nat, ghost t: Try)
    requires Timeline(ws, at)
    ensures IsTry(at, ws, o, t) && t.k == k && t.walked == walked
    ensures t.sc.img == image && t.sc.payloads == payloads && t.sc.at == last
  {
    var from;
    image, from := ReadBase(at, ws, o, k);
    payloads, last, walked := Walk(at, ws, o, image, from, k + 2);
    t := Try(k, Scan(image, from, LogSeqs(at(k + 2), o), last, payloads), walked);
  }

  /** The bases once more. */
  method Recheck(at: nat -> Store, ghost ws: nat -> World, o: Obj, walked: nat, last: nat, ghost t: Try)
    returns (moved: bool)
    requires Timeline(ws, at) && t.walked == walked && t.sc.at == last
    ensures moved <==> WasRaced(at, o, t)
  {
    var _, now := ReadBase(at, ws, o, walked);
    RacedBeyond(at, o, t, now);
    moved := now > last;
  }

  lemma RacedBeyond(at: nat -> Store, o: Obj, t: Try, now: nat)
    requires IsTop(at(t.walked), o, now)
    ensures WasRaced(at, o, t) <==> now > t.sc.at
  {
    if now > t.sc.at { assert (o, now) in at(t.walked).bases; }
  }

  /** One attempt; none if the entries do not fold, or if a base was published beyond where the walk ended. */
  method Attempt(at: nat -> Store, ghost ws: nat -> World, o: Obj, k: nat)
    returns (raced: bool, result: Option<(File, nat)>, next: nat, ghost t: Try)
    requires Timeline(ws, at)
    ensures IsTry(at, ws, o, t) && t.k == k && next == t.walked + 2
    ensures raced <==> WasRaced(at, o, t)
    ensures result.Some? ==> IsFold(at(k), at(next), o, result.value.0, result.value.1)
    ensures result.Some? <==> !raced && Fold(t.sc.img, t.sc.payloads).Some?
  {
    var image, payloads, last, moved, walked;
    image, payloads, last, moved, walked, t := Pass(at, ws, o, k);
    next, raced, result := walked + 2, moved, None;
    if !raced {
      var folded := FoldLoop(image, payloads);
      if folded.Some? {
        Assembles(ws, at, o, k, walked, t.sc, folded.value);
        result := Some((folded.value, last));
      }
    }
  }

  lemma Assembles(ws: nat -> World, at: nat -> Store, o: Obj, k: nat, walked: nat, sc: Scan, image: File)
    requires Timeline(ws, at) && k + 2 <= walked && Reached(ws(walked), o, RawSeq(at(k + 2), o), sc)
    requires Fold(sc.img, sc.payloads) == Some(image)
    ensures IsFold(at(k), at(walked + 2), o, image, sc.at)
  {
    Later(ws, at, k, k + 2);
    Later(ws, at, walked, walked + 2);
    RawSeqGrows(at(k), at(k + 2), o);
    FoldedStays(at(walked), at(walked + 2), o, image, sc.at);
  }

  /** Up to sixteen attempts.  There is no result exactly when all of them were raced by a compaction, or when what the
      first one that was not had read does not fold. */
  method FoldCommitted(at: nat -> Store, ghost ws: nat -> World, o: Obj)
    returns (result: Option<(File, nat)>, ops: nat, ghost tries: seq<Try>)
    requires Timeline(ws, at)
    ensures result.Some? ==> IsFold(at(0), at(ops), o, result.value.0, result.value.1)
    ensures Tried(at, ws, o, tries, ops) && tries != []
    ensures var t := tries[|tries| - 1];
            result.Some? <==> !WasRaced(at, o, t) && Fold(t.sc.img, t.sc.payloads).Some?
    ensures AllRaced(at, o, tries) ==> |tries| == ATTEMPTS
  {
    ops, tries := 0, [];
    for i := 0 to ATTEMPTS
      invariant Tried(at, ws, o, tries, ops) && AllRaced(at, o, tries) && |tries| == i
    {
      var raced, r, next;
      ghost var t;
      raced, r, next, t := Attempt(at, ws, o, ops);
      TriedOnce(at, ws, o, tries, ops, t);
      Later(ws, at, 0, ops);
      RawSeqGrows(at(0), at(ops), o);
      ops, tries := next, tries + [t];
      if !raced { return r, ops, tries; }
    }
    result := None;
  }

  /** One attempt at the number alone. */
  method SeqAttempt(at: nat -> Store, ghost ws: nat -> World, o: Obj, k: nat)
    returns (result: Option<nat>, next: nat, ghost t: Try)
    requires Timeline(ws, at)
    ensures IsTry(at, ws, o, t) && t.k == k && next == t.walked + 2
    ensures result == if WasRaced(at, o, t) then None else Some(t.sc.at)
    ensures RawSeq(at(0), o) <= t.sc.at <= RawSeq(at(next), o)
  {
    var image, payloads, last, moved, walked;
    image, payloads, last, moved, walked, t := Pass(at, ws, o, k);
    SeqInBetween(ws, at, o, k + 2, walked, t.sc);
    result, next := if moved then None else Some(last), walked + 2;
  }

  /** The same walk without folding what it finds: a number between the committed ones at its first and at its last
      operation, and none exactly when all attempts were raced. */
  method CommittedSeq(at: nat -> Store, ghost ws: nat -> World, o: Obj)
    returns (result: Option<nat>, ops: nat, ghost tries: seq<Try>)
    requires Timeline(ws, at)
    ensures result.Some? ==> RawSeq(at(0), o) <= result.value <= RawSeq(at(ops), o)
    ensures Tried(at, ws, o, tries, ops) && tries != []
    ensures result == if WasRaced(at, o, tries[|tries| - 1]) then None else Some(tries[|tries| - 1].sc.at)
    ensures AllRaced(at, o, tries) ==> |tries| == ATTEMPTS
  {
    ops, tries := 0, [];
    for i := 0 to ATTEMPTS
      invariant Tried(at, ws, o, tries, ops) && AllRaced(at, o, tries) && |tries| == i
    {
      var r, next;
      ghost var t;
      r, next, t := SeqAttempt(at, ws, o, ops);
      TriedOnce(at, ws, o, tries, ops, t);
      ops, tries := next, tries + [t];
      if r.Some? { return r, ops, tries; }
    }
    result := None;
  }

  lemma SeqInBetween(ws: nat -> World, at: nat -> Store, o: Obj, k: nat, walked: nat, sc: Scan)
    requires Timeline(ws, at) && k <= walked && Reached(ws(walked), o, RawSeq(at(k), o), sc)
    ensures RawSeq(at(0), o) <= sc.at <= RawSeq(at(walked + 2), o)
  {
    Later(ws, at, 0, k);
    Later(ws, at, walked, walked + 2);
    RawSeqGrows(at(0), at(k), o);
    RawSeqGrows(at(walked), at(walked + 2), o);
  }
}
