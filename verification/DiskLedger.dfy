/** The disk ledger (src/limits.rs): which local files exist, how big they are, and what goes when they are too many. */
module DiskLedger {
  import opened Bytes
  import opened Sums

  type Path = nat
  type Wid = nat

  datatype Entry = Entry(bytes: nat, live: bool, worker: Wid, touched: nat)
  type Files = map<Path, Entry>

  function Sizes(files: Files): (m: map<nat, nat>)
    ensures m.Keys == files.Keys
  {
    map p | p in files :: files[p].bytes
  }

  /** Bytes of all tracked files. */
  ghost function Total(files: Files): nat {
    SumOver(files.Keys, Sizes(files))
  }

  ghost function LiveOf(files: Files, w: Wid): set<Path> {
    set p | p in files && files[p].live && files[p].worker == w
  }

  /** Bytes of a worker's live files. */
  ghost function LiveBytes(files: Files, w: Wid): nat {
    SumOver(LiveOf(files, w), Sizes(files))
  }

  lemma TotalWithout(files: Files, p: Path)
    requires p in files
    ensures Total(files) == files[p].bytes + Total(files - {p})
  {
    SumRemove(files.Keys, Sizes(files), p);
    assert (files - {p}).Keys == files.Keys - {p};
    SumSame(files.Keys - {p}, Sizes(files), Sizes(files - {p}));
  }

  lemma TotalWith(files: Files, p: Path, e: Entry)
    ensures Total(files[p := e]) == e.bytes + Total(files - {p})
  {
    TotalWithout(files[p := e], p);
    assert files[p := e] - {p} == files - {p};
  }

  lemma TotalReplaced(files: Files, p: Path, e: Entry)
    ensures Total(files[p := e]) == e.bytes + Total(files) - if p in files then files[p].bytes else 0
    ensures p in files ==> files[p].bytes <= Total(files)
  {
    TotalWith(files, p, e);
    if p in files { TotalWithout(files, p); } else { assert files - {p} == files; }
  }

  // ----- what enforcement removes

  predicate IsCache(files: Files, p: Path) {
    p in files && !files[p].live
  }

  ghost predicate IsOldestCache(files: Files, p: Path) {
    IsCache(files, p) && forall q :: IsCache(files, q) ==> files[p].touched <= files[q].touched
  }

  /** `gone` is a run of cache files in least-recently-touched order: each was the oldest cache file when it went. */
  ghost predicate OldestFirst(files: Files, gone: seq<Path>)
    decreases |gone|
  {
    gone == [] || (IsOldestCache(files, gone[0]) && OldestFirst(files - {gone[0]}, gone[1..]))
  }

  function Without(files: Files, gone: seq<Path>): Files
    decreases |gone|
  {
    if gone == [] then files else Without(files - {gone[0]}, gone[1..])
  }

  lemma {:induction false} WithoutIs(files: Files, gone: seq<Path>)
    ensures Without(files, gone).Keys == files.Keys - (set p | p in gone)
    ensures forall p :: p in Without(files, gone) ==> Without(files, gone)[p] == files[p]
    decreases |gone|
  {
    if gone != [] {
      WithoutIs(files - {gone[0]}, gone[1..]);
      assert (set p | p in gone) == {gone[0]} + set p | p in gone[1..];
    }
  }

  lemma {:induction false} OneMoreGone(files: Files, gone: seq<Path>, p: Path)
    requires OldestFirst(files, gone) && IsOldestCache(Without(files, gone), p)
    ensures OldestFirst(files, gone + [p]) && Without(files, gone + [p]) == Without(files, gone) - {p}
    decreases |gone|
  {
    if gone == [] {
      assert gone + [p] == [p] && [p][1..] == [];
    } else {
      OneMoreGone(files - {gone[0]}, gone[1..], p);
      assert (gone + [p])[1..] == gone[1..] + [p];
    }
  }

  /** No live file goes, and nothing that stays in the cache is older than anything that goes. */
  lemma {:induction false} OnlyOldCaches(files: Files, gone: seq<Path>, p: Path)
    requires OldestFirst(files, gone) && p in gone
    ensures p in files && !files[p].live
    ensures forall q :: q in Without(files, gone) && !Without(files, gone)[q].live ==>
              q in files && Without(files, gone)[q] == files[q] && files[p].touched <= files[q].touched
    decreases |gone|
  {
    var rest := files - {gone[0]};
    WithoutIs(files, gone);
    assert forall q :: IsCache(Without(files, gone), q) <==> q in Without(files, gone) && !Without(files, gone)[q].live;
    assert forall q :: IsCache(Without(files, gone), q) ==> IsCache(files, q);
    if p != gone[0] {
      assert p in gone[1..];
      OnlyOldCaches(rest, gone[1..], p);
      assert IsCache(rest, p);
    }
  }

  /** The removals stop as early as they can: before each of them the total was over the budget. */
  ghost predicate NeverTooMany(files: Files, gone: seq<Path>, budget: nat) {
    forall i :: 0 <= i < |gone| ==> Total(Without(files, gone[..i])) > budget
  }

  lemma {:induction false} TotalFalls(files: Files, gone: seq<Path>)
    requires OldestFirst(files, gone)
    ensures Total(Without(files, gone)) <= Total(files)
    decreases |gone|
  {
    if gone != [] {
      TotalWithout(files, gone[0]);
      TotalFalls(files - {gone[0]}, gone[1..]);
    }
  }

  /** When more than nothing is live, some worker has a live file. */
  lemma SomeoneLive(files: Files)
    requires Total(files) > 0 && forall p :: !IsCache(files, p)
    ensures exists p :: p in files && files[p].live
  {
    assert files.Keys != {};
    var p :| p in files;
    assert !IsCache(files, p);
  }

  class Ledger {
    const budget: nat
    var used: nat
    var tick: nat
    var files: Files

    /** The count is the sum, and touch times are distinct and past. */
    ghost predicate Valid()
      reads this
    {
      && used == Total(files)
      && (forall p :: p in files ==> files[p].touched <= tick)
      && (forall p, q :: p in files && q in files && p != q ==> files[p].touched != files[q].touched)
    }

    constructor (budget: nat)
      ensures Valid() && this.budget == budget && files == map[]
    {
      this.budget := budget;
      used, tick, files := 0, 0, map[];
    }

    method Upsert(p: Path, bytes: nat, live: bool, worker: Wid)
      requires Valid()
      modifies this
      ensures Valid() && tick == old(tick) + 1
      ensures files == old(files)[p := Entry(bytes, live, worker, tick)]
    {
      tick := tick + 1;
      var e := Entry(bytes, live, worker, tick);
      TotalReplaced(files, p, e);
      if p in files { used := used - files[p].bytes; }
      files := files[p := e];
      used := used + bytes;
    }

    method SetLive(p: Path, bytes: nat, worker: Wid)
      requires Valid()
      modifies this
      ensures Valid() && files == old(files)[p := Entry(bytes, true, worker, tick)]
    {
      Upsert(p, bytes, true, worker);
    }

    /** `length` is the file's size, if it exists. */
    method SetCache(p: Path, length: Option<nat>, worker: Wid)
      requires Valid()
      modifies this
      ensures Valid()
      ensures files == if length.Some? then old(files)[p := Entry(length.value, false, worker, tick)]
          else old(files) - {p}
    {
      match length
      case Some(n) => Upsert(p, n, false, worker);
      case None => Remove(p);
    }

    method Touch(p: Path, bytes: nat)
      requires Valid()
      modifies this
      ensures Valid() && tick == old(tick) + 1
      ensures files == if p in old(files) then old(files)[p := old(files)[p].(bytes := bytes, touched := tick)]
          else old(files)
    {
      tick := tick + 1;
      if p in files {
        var e := files[p];
        TotalWithout(files, p);
        TotalWith(files, p, e.(bytes := bytes, touched := tick));
        used := used - e.bytes + bytes;
        files := files[p := e.(bytes := bytes, touched := tick)];
      }
    }

    method Remove(p: Path)
      requires Valid()
      modifies this
      ensures Valid() && files == old(files) - {p}
    {
      if p in files {
        TotalWithout(files, p);
        used := used - files[p].bytes;
      } else {
        assert files - {p} == files;
      }
      files := files - {p};
    }

    method OldestCache() returns (victim: Option<Path>)
      ensures victim.Some? ==> IsOldestCache(files, victim.value)
      ensures victim.None? ==> forall p :: !IsCache(files, p)
    {
      victim := None;
      var todo := files.Keys;
      while todo != {}
        invariant todo <= files.Keys
        invariant victim.Some? ==> IsCache(files, victim.value)
        invariant forall p :: IsCache(files, p) && p !in todo ==>
                victim.Some? && files[victim.value].touched <= files[p].touched
        decreases |todo|
      {
        var p :| p in todo;
        todo := todo - {p};
        if !files[p].live && (victim.None? || files[p].touched < files[victim.value].touched) { victim := Some(p); }
      }
    }

    /** Live bytes per worker. */
    method LiveByWorker() returns (m: map<Wid, nat>)
      ensures Tallied(files, files.Keys, m)
    {
      m := map[];
      var todo, done: set<Path> := files.Keys, {};
      while todo != {}
        invariant todo + done == files.Keys && todo !! done
        invariant Tallied(files, done, m)
        decreases |todo|
      {
        var p :| p in todo;
        TallyNext(files, done, m, p);
        todo, done := todo - {p}, done + {p};
        var e := files[p];
        if e.live { m := m[e.worker := (if e.worker in m then m[e.worker] else 0) + e.bytes]; }
      }
    }

    method RemoveVictim(p: Path) returns (bytes: nat)
      requires Valid() && p in files
      modifies `used, `files
      ensures Valid() && files == old(files) - {p} && bytes + used == old(used)
    {
      TotalWithout(files, p);
      bytes := files[p].bytes;
      used, files := used - bytes, files - {p};
    }

    /** Name a worker with the most live bytes. */
    method Heavy() returns (w: Option<Wid>)
      requires Valid() && used > 0 && forall p :: !IsCache(files, p)
      ensures w.Some? && LiveOf(files, w.value) != {} && forall v :: LiveBytes(files, v) <= LiveBytes(files, w.value)
    {
      SomeoneLive(files);
      var byWorker := LiveByWorker();
      var p :| p in files && files[p].live;
      assert p in LiveOf(files, files[p].worker);
      forall v ensures LiveOf(files, v) * files.Keys == LiveOf(files, v) {}
      w := Heaviest(byWorker);
      assert TalliedFor(files, files.Keys, byWorker, files[p].worker);
      assert TalliedFor(files, files.Keys, byWorker, w.value);
      forall v ensures LiveBytes(files, v) <= LiveBytes(files, w.value) {
        assert TalliedFor(files, files.Keys, byWorker, v);
        if v !in byWorker { assert LiveOf(files, v) == {}; }
      }
    }

    /** Delete the least recently touched cache files until the budget is met or none is left; still over it, name a
        worker with the most live bytes. */
    method Enforce() returns (deleted: nat, shed: Option<Wid>, ghost gone: seq<Path>)
      requires Valid()
      modifies `used, `files
      ensures Valid()
      ensures OldestFirst(old(files), gone) && files == Without(old(files), gone)
          && NeverTooMany(old(files), gone, budget)
      ensures used <= budget || forall p :: p in files ==> files[p].live
      ensures deleted + used == old(used)
      ensures shed.Some? <==> used > budget
      ensures shed.Some? ==>
              LiveOf(files, shed.value) != {} && forall w :: LiveBytes(files, w) <= LiveBytes(files, shed.value)
    {
      deleted, gone, shed := 0, [], None;
      var stuck := false;
      while used > budget && !stuck
        invariant Valid() && OldestFirst(old(files), gone) && files == Without(old(files), gone)
        invariant NeverTooMany(old(files), gone, budget) && deleted + used == old(used)
        invariant stuck ==> forall p :: !IsCache(files, p)
        decreases |files.Keys|, !stuck
      {
        var victim := OldestCache();
        if victim.None? {
          stuck := true;
        } else {
          var p := victim.value;
          OneMoreGone(old(files), gone, p);
          StillTooMany(old(files), gone, p, budget);
          gone := gone + [p];
          assert (files - {p}).Keys == files.Keys - {p};
          var bytes := RemoveVictim(p);
          deleted := deleted + bytes;
        }
      }
      assert stuck ==> forall p :: p in files ==> IsCache(files, p) || files[p].live;
      if used > budget {
        shed := Heavy();
      }
    }

    method Heaviest(m: map<Wid, nat>) returns (w: Option<Wid>)
      ensures w.Some? <==> m != map[]
      ensures w.Some? ==> w.value in m && forall v :: v in m ==> m[v] <= m[w.value]
    {
      w := None;
      var todo := m.Keys;
      while todo != {}
        invariant todo <= m.Keys && (w.None? ==> todo == m.Keys)
        invariant w.Some? ==> w.value in m && forall v :: v in m && v !in todo ==> m[v] <= m[w.value]
        decreases |todo|
      {
        var v :| v in todo;
        todo := todo - {v};
        if w.None? || m[v] >= m[w.value] { w := Some(v); }
      }
    }
  }

  /** `m` holds the live bytes, among the files in `done`, of exactly the workers that have live files there. */
  ghost predicate Tallied(files: Files, done: set<Path>, m: map<Wid, nat>) {
    forall w :: TalliedFor(files, done, m, w)
  }

  ghost predicate TalliedFor(files: Files, done: set<Path>, m: map<Wid, nat>, w: Wid) {
    (w in m <==> LiveOf(files, w) * done != {}) && (w in m ==> m[w] == SumOver(LiveOf(files, w) * done, Sizes(files)))
  }

  lemma TallyNext(files: Files, done: set<Path>, m: map<Wid, nat>, p: Path)
    requires Tallied(files, done, m) && p in files && p !in done
    ensures var e := files[p];
            Tallied(files, done + {p},
                    if e.live then m[e.worker := (if e.worker in m then m[e.worker] else 0) + e.bytes] else m)
  {
    var e := files[p];
    var m' := if e.live then m[e.worker := (if e.worker in m then m[e.worker] else 0) + e.bytes] else m;
    forall w ensures TalliedFor(files, done + {p}, m', w) {
      assert TalliedFor(files, done, m, w);
      if e.live && w == e.worker {
        assert LiveOf(files, w) * (done + {p}) == LiveOf(files, w) * done + {p};
        SumInsert(LiveOf(files, w) * done, Sizes(files), p);
      } else {
        assert LiveOf(files, w) * (done + {p}) == LiveOf(files, w) * done;
      }
    }
  }

  lemma StillTooMany(files: Files, gone: seq<Path>, p: Path, budget: nat)
    requires NeverTooMany(files, gone, budget) && Total(Without(files, gone)) > budget
    ensures NeverTooMany(files, gone + [p], budget)
  {
    var more := gone + [p];
    forall i | 0 <= i < |more| ensures Total(Without(files, more[..i])) > budget {
      if i < |gone| { assert more[..i] == gone[..i]; } else { assert more[..i] == gone; }
    }
  }
}
