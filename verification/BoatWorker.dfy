/** The worker that runs the boat pipeline (src/worker.rs): its fields are updated in place, and every method moves
    the whole state by one of the steps of `BoatRun`, or by two. */
module BoatWorker {
  import opened Bytes
  import opened Sums
  import opened TxnComponents
  import opened Boats
  import opened BoatSteps
  import opened BoatCut
  import opened BoatRun
  import opened BoatWholeRun

  // ----- the closure of a revert

  ghost predicate Covers(pending: seq<Applied>, seed: set<Obj>, r: set<Obj>) {
    seed <= r && Closed(pending, r)
  }

  /** The smallest set that holds the seed and, with any object of a pending transaction, all its objects. */
  ghost predicate LeastClosed(pending: seq<Applied>, seed: set<Obj>, r: set<Obj>) {
    Covers(pending, seed, r) && forall s :: Covers(pending, seed, s) ==> r <= s
  }

  function AnyIn(participants: seq<Obj>, r: set<Obj>): (b: bool)
    ensures b <==> exists i :: 0 <= i < |participants| && participants[i] in r
  {
    exists i :: 0 <= i < |participants| && participants[i] in r
  }

  lemma AnyMeets(t: Applied, r: set<Obj>)
    requires Wf(t)
    ensures AnyIn(t.participants, r) <==> Meets(t, r)
  {
    if Meets(t, r) {
      var o :| o in t.writes && o in r;
      assert o in t.participants;
    }
  }

  /** One pass over the pending transactions: the objects of those that touch the set join it. */
  method Spread(pending: seq<Applied>, ghost seed: set<Obj>, r: set<Obj>) returns (r': set<Obj>, grew: bool)
    requires AllWf(pending) && seed <= r && forall s :: Covers(pending, seed, s) ==> r <= s
    ensures r <= r' && forall s :: Covers(pending, seed, s) ==> r' <= s
    ensures r' <= r + Touched(pending)
    ensures grew <==> r != r'
    ensures !grew ==> Closed(pending, r')
  {
    r', grew := r, false;
    for p := 0 to |pending|
      invariant r <= r' <= r + Touched(pending) && (forall s :: Covers(pending, seed, s) ==> r' <= s)
      invariant grew <==> r != r'
      invariant !grew ==> forall q :: 0 <= q < p && Meets(pending[q], r') ==> pending[q].writes.Keys <= r'
    {
      var t := pending[p];
      AnyMeets(t, r');
      if AnyIn(t.participants, r') {
        var more := set o | o in t.participants;
        assert more == t.writes.Keys;
        forall o | o in more ensures o in Touched(pending) { TouchedMember(pending, o); assert Touches(pending[p], o); }
        forall s | Covers(pending, seed, s) ensures more <= s {
          var o :| o in t.writes && o in r';
          assert Meets(t, s) && t in pending;
        }
        grew := grew || !(more <= r');
        r' := r' + more;
      }
    }
  }

  method Closure(pending: seq<Applied>, seed: set<Obj>) returns (r: set<Obj>)
    requires AllWf(pending)
    ensures LeastClosed(pending, seed, r)
  {
    r := seed;
    var grew := true;
    while grew
      invariant seed <= r <= seed + Touched(pending) && (forall s :: Covers(pending, seed, s) ==> r <= s)
      invariant !grew ==> Closed(pending, r)
      decreases (seed + Touched(pending)) - r, grew
    {
      ghost var before := r;
      r, grew := Spread(pending, seed, r);
    }
  }

  lemma AnswerNext(txns: seq<Applied>, t: Applied, replies: map<nat, Reply>, r: Reply)
    ensures var before := Answer(replies, WaiterIds(txns), r);
            Answer(replies, WaiterIds(txns + [t]), r) == if t.waiter then before[t.id := r] else before
  {
    var before, after := WaiterIds(txns), WaiterIds(txns + [t]);
    assert after == if t.waiter then before + {t.id} else before by {
      forall i | i in before ensures i in after {
        var x :| x in txns && x.waiter && x.id == i;
        assert x in txns + [t];
      }
      if t.waiter { assert t in txns + [t]; }
    }
  }

  method AnswerAll(txns: seq<Applied>, replies: map<nat, Reply>, r: Reply) returns (replies': map<nat, Reply>)
    ensures replies' == Answer(replies, WaiterIds(txns), r)
  {
    replies' := replies;
    assert WaiterIds(txns[..0]) == {};
    for i := 0 to |txns|
      invariant replies' == Answer(replies, WaiterIds(txns[..i]), r)
    {
      assert txns[..i + 1] == txns[..i] + [txns[i]];
      AnswerNext(txns[..i], txns[i], replies, r);
      if txns[i].waiter { replies' := replies'[txns[i].id := r]; }
    }
    assert txns[..|txns|] == txns;
  }

  /** Keep what does not touch the reverted objects, and set the rest apart. */
  method Retain(pending: seq<Applied>, r: set<Obj>) returns (kept: seq<Applied>, dead: seq<Applied>)
    requires AllWf(pending)
    ensures kept == Filter(pending, Doomed(pending, r), false)
    ensures dead == Filter(pending, Doomed(pending, r), true)
  {
    kept, dead := [], [];
    for p := 0 to |pending|
      invariant kept + Filter(pending[p..], Doomed(pending[p..], r), false) ==
          Filter(pending, Doomed(pending, r), false)
      invariant dead + Filter(pending[p..], Doomed(pending[p..], r), true) == Filter(pending, Doomed(pending, r), true)
    {
      AnyMeets(pending[p], r);
      DoomedNext(pending, r, p, kept, dead);
      if AnyIn(pending[p].participants, r) {
        dead := dead + [pending[p]];
      } else {
        kept := kept + [pending[p]];
      }
    }
  }

  lemma DoomedNext(pending: seq<Applied>, r: set<Obj>, p: nat, kept: seq<Applied>, dead: seq<Applied>)
    requires p < |pending|
    ensures kept + Filter(pending[p..], Doomed(pending[p..], r), false) ==
              (if Meets(pending[p], r) then kept else kept + [pending[p]])
              + Filter(pending[p + 1..], Doomed(pending[p + 1..], r), false)
    ensures dead + Filter(pending[p..], Doomed(pending[p..], r), true) ==
              (if Meets(pending[p], r) then dead + [pending[p]] else dead)
              + Filter(pending[p + 1..], Doomed(pending[p + 1..], r), true)
  {
    DoomedHead(pending[p..], r);
    assert pending[p..][1..] == pending[p + 1..];
    var live := Filter(pending[p + 1..], Doomed(pending[p + 1..], r), false);
    var lost := Filter(pending[p + 1..], Doomed(pending[p + 1..], r), true);
    assert dead + ([pending[p]] + lost) == dead + [pending[p]] + lost && [] + live == live;
    assert kept + ([pending[p]] + live) == kept + [pending[p]] + live && [] + lost == lost;
  }

  lemma DoomedHead(txns: seq<Applied>, r: set<Obj>)
    requires txns != []
    ensures Doomed(txns, r)[1..] == Doomed(txns[1..], r)
    ensures Filter(txns, Doomed(txns, r), true)
         == (if Meets(txns[0], r) then [txns[0]] else []) + Filter(txns[1..], Doomed(txns[1..], r), true)
    ensures Filter(txns, Doomed(txns, r), false)
         == (if Meets(txns[0], r) then [] else [txns[0]]) + Filter(txns[1..], Doomed(txns[1..], r), false)
  {
  }

  // ----- the dirty ledger

  lemma SumDrop(dirty: map<Obj, nat>, o: Obj)
    requires o in dirty
    ensures SumOver(dirty.Keys, dirty) == dirty[o] + SumOver((dirty - {o}).Keys, dirty - {o})
  {
    SumRemove(dirty.Keys, dirty, o);
    assert (dirty - {o}).Keys == dirty.Keys - {o};
    SumSame(dirty.Keys - {o}, dirty, dirty - {o});
  }

  lemma SumEnter(dirty: map<Obj, nat>, o: Obj, n: nat)
    requires o !in dirty
    ensures SumOver(dirty[o := n].Keys, dirty[o := n]) == n + SumOver(dirty.Keys, dirty)
  {
    SumDrop(dirty[o := n], o);
    assert dirty[o := n] - {o} == dirty;
  }

  method DropOne(o: Obj, dirty: map<Obj, nat>, dirtyBytes: nat) returns (dirty': map<Obj, nat>, dirtyBytes': nat)
    requires dirtyBytes == SumOver(dirty.Keys, dirty)
    ensures dirty' == dirty - {o} && dirtyBytes' == SumOver(dirty'.Keys, dirty')
  {
    dirty', dirtyBytes' := dirty, dirtyBytes;
    if o in dirty {
      SumDrop(dirty, o);
      // The program's subtraction saturates at zero; the count never falls short, so it never has to.
      dirty', dirtyBytes' := dirty - {o}, dirtyBytes - dirty[o];
    }
  }

  /** Take objects out of the dirty ledger one by one, keeping the byte count. */
  method Undirty(objs: set<Obj>, dirty: map<Obj, nat>, dirtyBytes: nat)
    returns (dirty': map<Obj, nat>, dirtyBytes': nat)
    requires dirtyBytes == SumOver(dirty.Keys, dirty)
    ensures dirty' == dirty - objs && dirtyBytes' == SumOver(dirty.Keys - objs, dirty)
  {
    var todo := objs;
    ghost var gone: set<Obj> := {};
    dirty', dirtyBytes' := dirty, dirtyBytes;
    while todo != {}
      invariant gone + todo == objs
      invariant dirty' == dirty - gone
      invariant dirtyBytes' == SumOver(dirty'.Keys, dirty')
      decreases todo
    {
      var o :| o in todo;
      DropNext(dirty, gone, o);
      assert (gone + {o}) + (todo - {o}) == objs;
      dirty', dirtyBytes' := DropOne(o, dirty', dirtyBytes');
      todo, gone := todo - {o}, gone + {o};
    }
    assert gone == objs;
    Remaining(objs, dirty);
  }

  lemma DropNext(dirty: map<Obj, nat>, gone: set<Obj>, o: Obj)
    ensures dirty - (gone + {o}) == (dirty - gone) - {o}
  {
  }

  lemma Remaining(objs: set<Obj>, dirty: map<Obj, nat>)
    ensures SumOver((dirty - objs).Keys, dirty - objs) == SumOver(dirty.Keys - objs, dirty)
  {
    assert (dirty - objs).Keys == dirty.Keys - objs;
    SumSame(dirty.Keys - objs, dirty, dirty - objs);
  }

  ghost function Entered(dirty: map<Obj, nat>, writes: map<Obj, Image>, objs: seq<Obj>): map<Obj, nat> {
    dirty + (map o | o in writes && o in objs && o !in dirty :: |writes[o]|)
  }

  lemma EnterNext(dirty: map<Obj, nat>, writes: map<Obj, Image>, objs: seq<Obj>, o: Obj)
    ensures var before := Entered(dirty, writes, objs);
            Entered(dirty, writes, objs + [o]) ==
              if o in writes && o !in before then before[o := |writes[o]|] else before
  {
  }

  /** The changed objects in the order of the participants, entered in the dirty ledger at their file's length. */
  method Soil(participants: seq<Obj>, writes: map<Obj, Image>, dirty: map<Obj, nat>, dirtyBytes: nat)
    returns (changed: seq<Obj>, dirty': map<Obj, nat>, dirtyBytes': nat)
    requires writes.Keys <= (set o | o in participants) && dirtyBytes == SumOver(dirty.Keys, dirty)
    ensures forall o :: o in changed <==> o in writes
    ensures dirty' == dirty + (map o | o in writes && o !in dirty :: |writes[o]|)
    ensures dirtyBytes' == SumOver(dirty'.Keys, dirty')
  {
    changed, dirty', dirtyBytes' := [], dirty, dirtyBytes;
    for p := 0 to |participants|
      invariant forall o :: o in changed <==> o in writes && o in participants[..p]
      invariant dirty' == Entered(dirty, writes, participants[..p])
      invariant dirtyBytes' == SumOver(dirty'.Keys, dirty')
    {
      var o := participants[p];
      assert participants[..p + 1] == participants[..p] + [o];
      EnterNext(dirty, writes, participants[..p], o);
      if o in writes {
        changed := changed + [o];
        if o !in dirty' {
          SumEnter(dirty', o, |writes[o]|);
          dirty', dirtyBytes' := dirty'[o := |writes[o]|], dirtyBytes' + |writes[o]|;
        }
      }
    }
    assert participants[..|participants|] == participants;
    assert forall o :: o in writes ==> o in participants;
  }

  lemma CutNext(txns: seq<Applied>, flags: seq<bool>, i: nat, v: bool, done: seq<Applied>)
    requires i < |txns| == |flags|
    ensures done + Filter(txns[i..], flags[i..], v)
         == (if flags[i] == v then done + [txns[i]] else done) + Filter(txns[i + 1..], flags[i + 1..], v)
  {
    assert txns[i..][1..] == txns[i + 1..] && flags[i..][1..] == flags[i + 1..];
    var rest := Filter(txns[i + 1..], flags[i + 1..], v);
    if flags[i] == v {
      assert done + ([txns[i]] + rest) == done + [txns[i]] + rest;
    } else {
      assert [] + rest == rest;
    }
  }

  lemma LaunchedIs(w: W, v: W, flags: seq<bool>)
    requires |flags| == |w.pending| && LiveOk(w)
    requires var aboard := Filter(w.pending, flags, true);
             && Touched(aboard) <= w.live.Keys && v.pending == Filter(w.pending, flags, false)
             && v.dirty == w.dirty - Touched(aboard) && v.dirtyBytes == SumOver(w.dirty.Keys - Touched(aboard), w.dirty)
             && v.inflight == Some(Boat(aboard, Captured(w.live, Touched(aboard)), Sailing))
    requires v.live == w.live && v.durable == w.durable && v.replies == w.replies
    requires v.history == w.history && v.landed == w.landed && v.reverted == w.reverted && v.gone == w.gone
        && v.genesis == w.genesis
    ensures v == Launched(w, flags)
  {
  }

  lemma LaunchFailedIs(w: W, v: W, flags: seq<bool>)
    requires |flags| == |w.pending|
    requires var aboard := Filter(w.pending, flags, true);
             && v.pending == Filter(w.pending, flags, false) && v.live == w.live - Touched(aboard)
             && v.dirty == w.dirty - Touched(aboard) && v.dirtyBytes == SumOver(w.dirty.Keys - Touched(aboard), w.dirty)
             && v.replies == Answer(w.replies, WaiterIds(aboard), Refused) && v.reverted == w.reverted + Ids(aboard)
    requires v.inflight == w.inflight && v.durable == w.durable
    requires v.history == w.history && v.landed == w.landed && v.gone == w.gone && v.genesis == w.genesis
    ensures v == LaunchFailed(w, flags)
  {
  }

  lemma RanIs(w: W, v: W, t: Applied)
    requires v.live == w.live + t.writes && v.dirty == Dirtied(w, t.writes)
        && v.dirtyBytes == SumOver(v.dirty.Keys, v.dirty)
    requires v.pending == w.pending + [t] && v.history == w.history + [t] && v.gone == w.gone + [w.reverted]
    requires v.replies == if t.waiter then w.replies else w.replies[t.id := Acked]
    requires v.inflight == w.inflight && v.durable == w.durable && v.landed == w.landed
    requires v.reverted == w.reverted && v.genesis == w.genesis
    ensures v == Ran(w, t)
  {
  }

  datatype Outcome = Missing | RolledBack | NothingToShip | AppliedLocally

  function Held(participants: seq<Obj>): set<Obj> {
    set o | o in participants
  }

  /** What becomes of a transaction. */
  ghost function Judge(live: map<Obj, Image>, participants: seq<Obj>, program: Program): Outcome {
    if exists o :: o in participants && o !in live then Missing
    else if program(Seen(live, Held(participants))).None? then RolledBack
    else if Effect(program, Held(participants), live) == map[] then NothingToShip
    else AppliedLocally
  }

  class Worker {
    var live: map<Obj, Image>
    var dirty: map<Obj, nat>
    var dirtyBytes: nat
    var pending: seq<Applied>
    var inflight: Option<Boat>
    var durable: map<Obj, Image>
    var replies: map<nat, Reply>
    var nextTxn: nat
    const maxBoatBytes: nat
    const maxUnshipped: nat
    ghost var history: seq<Applied>
    ghost var landed: seq<Applied>
    ghost var reverted: set<nat>
    ghost var gone: seq<set<nat>>
    ghost const genesis: map<Obj, Image>

    ghost function View(): W
      reads this
    {
      W(live, dirty, dirtyBytes, pending, inflight, durable, replies, history, landed, reverted, gone, genesis)
    }

    function Bounds(): Limits {
      Limits(maxBoatBytes, maxUnshipped)
    }

    ghost predicate Valid()
      reads this
    {
      Inv(View()) && nextTxn == |history|
    }

    lemma PendingWf()
      requires Valid()
      ensures AllWf(pending)
    {
      forall i | 0 <= i < |pending| ensures Wf(pending[i]) {
        assert pending[i] in pending;
        StandingKnown(View(), pending[i]);
      }
    }

    constructor (store: map<Obj, Image>, maxBoatBytes: nat, maxUnshipped: nat)
      ensures Valid() && BoatRun.Fresh(View()) && Solid(View()) && durable == store
      ensures this.maxBoatBytes == maxBoatBytes && this.maxUnshipped == maxUnshipped
    {
      live, dirty, dirtyBytes, pending, inflight := map[], map[], 0, [], None;
      durable, replies, nextTxn := store, map[], 0;
      this.maxBoatBytes, this.maxUnshipped := maxBoatBytes, maxUnshipped;
      history, landed, reverted, gone, genesis := [], [], {}, [], store;
      new;
      FreshSolid(View());
    }

    /** Enter a transaction that has committed locally. */
    method Enter(participants: seq<Obj>, program: Program, writes: map<Obj, Image>, optimistic: bool)
      returns (ghost t: Applied)
      requires dirtyBytes == SumOver(dirty.Keys, dirty) && nextTxn == |history| && writes.Keys <= Held(participants)
          && writes != map[]
      modifies this
      ensures Wf(t) && t.id == |old(history)| && t.writes == writes && View() == Ran(old(View()), t)
      ensures t.program == program && t.held == Held(participants)
      ensures nextTxn == |history| && (t.waiter <==> !optimistic || dirtyBytes > maxUnshipped)
    {
      ghost var w := View();
      var changed, soiled, bytes := Soil(participants, writes, dirty, dirtyBytes);
      var waiter := !(optimistic && bytes <= maxUnshipped);
      var applied := Applied(nextTxn, Held(participants), program, changed, writes, waiter);
      t := applied;
      Book(applied, soiled, bytes);
      RanIs(w, View(), applied);
    }

    method Book(applied: Applied, soiled: map<Obj, nat>, bytes: nat)
      modifies `live, `pending, `dirty, `dirtyBytes, `replies, `nextTxn, `history, `gone
      ensures live == old(live) + applied.writes && dirty == soiled && dirtyBytes == bytes
      ensures pending == old(pending) + [applied] && nextTxn == old(nextTxn) + 1
      ensures replies == if applied.waiter then old(replies) else old(replies)[applied.id := Acked]
      ensures history == old(history) + [applied] && gone == old(gone) + [reverted]
    {
      live, pending, dirty, dirtyBytes := live + applied.writes, pending + [applied], soiled, bytes;
      if !applied.waiter { replies := replies[applied.id := Acked]; }
      nextTxn, history, gone := nextTxn + 1, history + [applied], gone + [reverted];
    }

    /** Run a write transaction on the live files of its participants.  An optimistic one is acknowledged at once while
        the backlog is small; any other waits for its boat. */
    method Apply(participants: seq<Obj>, program: Program, optimistic: bool)
      returns (outcome: Outcome, ghost t: Applied)
      requires Valid()
      modifies this
      ensures Valid()
      ensures outcome == Judge(old(live), participants, program)
      ensures outcome != AppliedLocally ==> View() == old(View())
      ensures outcome == AppliedLocally ==> CanRun(old(View()), t) && View() == Ran(old(View()), t)
      ensures outcome == AppliedLocally ==> t.program == program && t.held == Held(participants)
      ensures outcome == AppliedLocally ==> (t.waiter <==> !optimistic || dirtyBytes > maxUnshipped)
    {
      t := Applied(nextTxn, {}, program, [], map[], true);
      if exists i :: 0 <= i < |participants| && participants[i] !in live {
        return Missing, t;
      }
      var held := Held(participants);
      var out := program(Seen(live, held));
      if out.None? {
        return RolledBack, t;
      }
      var writes := map o | o in out.value && o in held :: out.value[o];
      if writes == map[] {
        return NothingToShip, t;
      }
      ghost var w := View();
      t := Enter(participants, program, writes, optimistic);
      RanInv(w, t);
      outcome := AppliedLocally;
    }

    /** Take the cut's transactions out of the backlog, and their objects out of the dirty ledger. */
    method LoadBoat(cut: seq<bool>) returns (aboard: seq<Applied>, objects: set<Obj>)
      requires DirtyOk(View()) && AllWf(pending) && |cut| == |pending|
      modifies `pending, `dirty, `dirtyBytes
      ensures aboard == Filter(old(pending), cut, true) && objects == Touched(aboard)
      ensures pending == Filter(old(pending), cut, false) && dirty == old(dirty) - objects
      ensures dirtyBytes == SumOver(old(dirty).Keys - objects, old(dirty))
    {
      var left;
      aboard, objects, left := Board(cut);
      pending := left;
      dirty, dirtyBytes := Undirty(objects, dirty, dirtyBytes);
    }

    method Abandon(aboard: seq<Applied>, objects: set<Obj>)
      modifies `live, `replies, `reverted
      ensures live == old(live) - objects && replies == Answer(old(replies), WaiterIds(aboard), Refused)
      ensures reverted == old(reverted) + Ids(aboard)
    {
      live := live - objects;
      replies := AnswerAll(aboard, replies, Refused);
      reverted := reverted + Ids(aboard);
    }

    /** Send the cut's transactions off.  `damaged` are the objects whose live file cannot be read; one of those aboard
        reverts them all. */
    method SendBoat(cut: seq<bool>, damaged: set<Obj>)
      requires DirtyOk(View()) && LiveOk(View()) && AllWf(pending) && |cut| == |pending|
      modifies this
      ensures nextTxn == old(nextTxn)
      ensures Touched(Filter(old(pending), cut, true)) !! damaged ==> View() == Launched(old(View()), cut)
      ensures !(Touched(Filter(old(pending), cut, true)) !! damaged) ==> View() == LaunchFailed(old(View()), cut)
    {
      ghost var w := View();
      assert Touched(Filter(pending, cut, true)) <= live.Keys by { FilterTouched(pending, cut, true); }
      var aboard, objects := LoadBoat(cut);
      var images, ok := Snapshot(objects, damaged);
      if ok {
        inflight := Some(Boat(aboard, images, Sailing));
        LaunchedIs(w, View(), cut);
      } else {
        Abandon(aboard, objects);
        LaunchFailedIs(w, View(), cut);
      }
    }

    /** Launch a boat if none is in flight and something is pending. */
    method MaybeLaunch(damaged: set<Obj>) returns (ghost flags: seq<bool>)
      requires Valid()
      modifies this
      ensures Valid()
      ensures old(inflight.Some? || pending == []) ==> View() == old(View()) && (inflight.Some? || dirty == map[])
      ensures old(inflight.None? && pending != []) ==>
                && CanLaunch(old(View()), flags) && GoodCut(old(pending), old(dirty), maxBoatBytes, flags)
                && if Touched(Filter(old(pending), flags, true)) !! damaged
                   then View() == Launched(old(View()), flags) else View() == LaunchFailed(old(View()), flags)
    {
      ghost var w := View();
      assert dirtyBytes == SumOver(dirty.Keys, dirty);
      if inflight.Some? || pending == [] {
        assert inflight.Some? || dirty.Keys == {};
        flags := [];
        return;
      }
      PendingWf();
      var cut := CutBoat(pending, dirty, maxBoatBytes);
      flags := cut;
      LaunchedInv(w, flags);
      LaunchFailedInv(w, flags);
      SendBoat(cut, damaged);
    }

    /** Split the pending transactions along the cut. */
    method Board(cut: seq<bool>) returns (aboard: seq<Applied>, objects: set<Obj>, left: seq<Applied>)
      requires |cut| == |pending| && AllWf(pending)
      ensures aboard == Filter(pending, cut, true) && left == Filter(pending, cut, false) && objects == Touched(aboard)
    {
      aboard, objects, left := [], {}, [];
      for i := 0 to |pending|
        invariant aboard + Filter(pending[i..], cut[i..], true) == Filter(pending, cut, true)
        invariant left + Filter(pending[i..], cut[i..], false) == Filter(pending, cut, false)
        invariant objects == Touched(aboard)
      {
        CutNext(pending, cut, i, true, aboard);
        CutNext(pending, cut, i, false, left);
        if cut[i] {
          TouchedAppend(aboard, [pending[i]]);
          OneTouches(pending[i]);
          assert Touched(aboard + [pending[i]]) == objects + set o | o in pending[i].participants;
          objects := objects + set o | o in pending[i].participants;
          aboard := aboard + [pending[i]];
        } else {
          left := left + [pending[i]];
        }
      }
    }

    /** Read the live files of the objects aboard, stopping at the first that cannot be read. */
    method Snapshot(objects: set<Obj>, damaged: set<Obj>) returns (images: map<Obj, Image>, ok: bool)
      requires objects <= live.Keys
      ensures ok <==> objects !! damaged
      ensures ok ==> images == Captured(live, objects)
    {
      images, ok := map[], true;
      var todo := objects;
      while todo != {} && ok
        invariant todo <= objects && (ok ==> (objects - todo) !! damaged) && (!ok ==> objects * damaged != {})
        invariant images == map o | o in objects && o !in todo :: live[o]
        decreases |todo|, ok
      {
        var o :| o in todo;
        if o in damaged {
          assert o in objects * damaged;
          ok := false;
        } else {
          images := images[o := live[o]];
          todo := todo - {o};
        }
      }
    }

    /** The boat's shipment reaches its commit switch: its images become durable and its waiters hear of it. */
    method ShipCommitted()
      requires Valid() && AtSea(View())
      modifies this
      ensures Valid() && View() == Landing(old(View()))
    {
      LandingInv(View());
      var boat := inflight.value;
      durable := durable + boat.images;
      replies := AnswerAll(boat.txns, replies, Acked);
      inflight := Some(boat.(phase := Committed));
      landed := landed + boat.txns;
    }

    /** The boat's shipment fails before its commit switch. */
    method ShipFailed()
      requires Valid() && AtSea(View())
      modifies this
      ensures Valid() && View() == Sinking(old(View()))
    {
      SinkingInv(View());
      var boat := inflight.value;
      replies := AnswerAll(boat.txns, replies, Refused);
      inflight := Some(boat.(phase := Failed));
    }

    /** Revert objects to their durable state together with everything connected to them through pending
        transactions: the smallest closed set, and no more. */
    method RevertClosure(seed: set<Obj>) returns (r: set<Obj>)
      requires DirtyOk(View()) && AllWf(pending)
      modifies `live, `dirty, `dirtyBytes, `pending, `replies, `reverted
      ensures LeastClosed(old(pending), seed, r)
      ensures live == old(live) - r && dirty == old(dirty) - r
      ensures dirtyBytes == SumOver(old(dirty).Keys - r, old(dirty))
      ensures pending == Filter(old(pending), Doomed(old(pending), r), false)
      ensures var dead := Filter(old(pending), Doomed(old(pending), r), true);
              replies == Answer(old(replies), WaiterIds(dead), Refused) && reverted == old(reverted) + Ids(dead)
    {
      r := Closure(pending, seed);
      reverted := reverted + Ids(Filter(pending, Doomed(pending, r), true));
      var dead;
      pending, dead := Retain(pending, r);
      replies := AnswerAll(dead, replies, Refused);
      live := live - r;
      dirty, dirtyBytes := Undirty(r, dirty, dirtyBytes);
    }

    /** The boat sank: revert what it carried and everything connected to it. */
    method RevertBoat() returns (ghost r: set<Obj>)
      requires DirtyOk(View()) && BoatOk(View()) && AllWf(pending) && inflight.Some? && inflight.value.phase.Failed?
      modifies this
      ensures nextTxn == old(nextTxn) && LeastClosed(old(pending), old(inflight.value.images.Keys), r)
      ensures View() == Reverts(old(View()), r)
    {
      var boat := inflight.value;
      ghost var lost := Ids(Afloat(View()));
      inflight := None;
      r := RevertClosure(boat.images.Keys);
      reverted := reverted + lost;
    }

    /** The worker hears that its boat landed or sank. */
    method HearOfShip() returns (ghost step: Step)
      requires Valid() && inflight.Some? && !inflight.value.phase.Sailing?
      modifies this
      ensures Valid() && Can(old(View()), step) && View() == Do(old(View()), step) && inflight.None?
      ensures old(inflight.value.phase.Committed?) ==> step == Clear
      ensures old(inflight.value.phase.Failed?) ==>
                step.Revert? && LeastClosed(old(pending), old(inflight.value.images.Keys), step.r)
    {
      ghost var w := View();
      if inflight.value.phase.Committed? {
        StepKeepsInv(w, Clear);
        inflight := None;
        step := Clear;
      } else {
        PendingWf();
        ghost var r := RevertBoat();
        step := Revert(r);
        StepKeepsInv(w, step);
      }
    }

    /** After that it tries to launch the next boat. */
    method OnShipDone(damaged: set<Obj>) returns (ghost first: Step, ghost next: Step)
      requires Valid() && inflight.Some? && !inflight.value.phase.Sailing?
      modifies this
      ensures Valid() && Can(old(View()), first)
      ensures old(inflight.value.phase.Committed?) ==> first == Clear
      ensures old(inflight.value.phase.Failed?) ==>
                first.Revert? && LeastClosed(old(pending), old(inflight.value.images.Keys), first.r)
      ensures var w := Do(old(View()), first);
              if w.pending == [] then View() == w
              else (next.Launch? || next.FailLaunch?) && Can(w, next) && View() == Do(w, next)
    {
      first := HearOfShip();
      next := Crash;
      ghost var waiting := pending;
      ghost var flags := MaybeLaunch(damaged);
      if waiting != [] {
        next := if inflight.Some? then Launch(flags) else FailLaunch(flags);
      }
    }

    /** Bring an object's durable image to life. */
    method Activate(o: Obj)
      requires Valid() && o !in live
      modifies `live
      ensures Valid() && View() == Do(old(View()), Step.Activate(o))
    {
      ActivatedInv(View(), o);
      live := live[o := if o in durable then durable[o] else []];
    }

    /** Forget an object whose live file holds nothing unshipped. */
    method ShedObject(o: Obj) returns (shed: bool)
      requires Valid()
      modifies `live
      ensures Valid() && shed == !Unshipped(old(View()), o)
      ensures View() == if shed then Do(old(View()), Step.Shed(o)) else old(View())
    {
      shed := !(o in dirty || (inflight.Some? && o in inflight.value.images));
      if shed {
        ShedInv(View(), o);
        live := live - {o};
      }
    }

    /** The node dies and starts again over the same store. */
    method CrashAndRestart()
      requires Valid()
      modifies this
      ensures Valid() && View() == Crashed(old(View()))
    {
      CrashedInv(View());
      LoseMemory();
    }

    method LoseMemory()
      modifies `reverted, `live, `dirty, `dirtyBytes, `pending, `inflight
      ensures View() == Crashed(old(View()))
    {
      reverted := reverted + Ids(Afloat(View())) + Ids(pending);
      live, dirty, dirtyBytes, pending, inflight := map[], map[], 0, [], None;
    }
  }

  // ----- any schedule

  /** What can happen next to a worker; whatever its state does not allow is passed over. */
  datatype Event =
    | Submit(participants: seq<Obj>, program: Program, optimistic: bool)
    | NeedLive(o: Obj)
    | OverBudget(o: Obj)
    | CommitLands
    | ShipSinks
    | ShipDone
    | NodeDies

  datatype Limits = Limits(boat: nat, unshipped: nat)

  /** The next boat: none if one is in flight or nothing is pending; otherwise a good cut is launched, or fails to leave
      when a live file aboard is damaged. */
  ghost predicate Departs(w: W, damaged: set<Obj>, cap: nat, steps: seq<Step>) {
    if w.inflight.Some? || w.pending == [] then steps == []
    else
      && |steps| == 1 && (steps[0].Launch? || steps[0].FailLaunch?)
      && GoodCut(w.pending, w.dirty, cap, steps[0].flags)
      && (steps[0].Launch? <==> Touched(Filter(w.pending, steps[0].flags, true)) !! damaged)
  }

  /** The transaction as it was submitted: its client waits for the boat unless it is optimistic and the backlog with it
      is within the watermark. */
  ghost predicate AsSubmitted(w: W, e: Event, limits: Limits, t: Applied)
    requires e.Submit?
  {
    && t.program == e.program && t.held == Held(e.participants) && t.id == |w.history|
    && (t.waiter <==> !e.optimistic || Ran(w, t).dirtyBytes > limits.unshipped)
  }

  /** The steps an event amounts to in a given state, when the disk loses the live files in `damaged`. */
  ghost predicate Answers(w: W, e: Event, damaged: set<Obj>, limits: Limits, steps: seq<Step>) {
    match e
    case Submit(participants, program, optimistic) =>
      if Judge(w.live, participants, program) != AppliedLocally then Departs(w, damaged, limits.boat, steps)
      else
        && steps != [] && steps[0].Run? && AsSubmitted(w, e, limits, steps[0].t)
        && Departs(Ran(w, steps[0].t), damaged, limits.boat, steps[1..])
    case NeedLive(o) => steps == if o in w.live then [] else [Activate(o)]
    case OverBudget(o) => steps == if Unshipped(w, o) then [] else [Shed(o)]
    case CommitLands => steps == if AtSea(w) then [Land] else []
    case ShipSinks => steps == if AtSea(w) then [Sink] else []
    case ShipDone =>
      if w.inflight.None? || AtSea(w) then steps == []
      else
        && steps != [] && Hears(w, steps[0])
        && Departs(Heard(w, steps[0]), damaged, limits.boat, steps[1..])
    case NodeDies => steps == [Crash]
  }

  /** A landed boat is cleared, a sunk one reverts the closure of its objects. */
  ghost predicate Hears(w: W, step: Step)
    requires w.inflight.Some?
  {
    if w.inflight.value.phase.Committed? then step == Clear
    else step.Revert? && LeastClosed(w.pending, w.inflight.value.images.Keys, step.r)
  }

  ghost function Heard(w: W, step: Step): W {
    if step.Revert? then Reverts(w, step.r) else w.(inflight := None)
  }

  /** What the client of a submission hears at once, apart from what `replies` has of it: an error when a participant is
      missing or an operation failed, success when there is nothing to ship. */
  ghost function Told(w: W, e: Event): Option<Reply> {
    if !e.Submit? then None
    else
      match Judge(w.live, e.participants, e.program)
      case Missing => Some(Refused)
      case RolledBack => Some(Refused)
      case NothingToShip => Some(Acked)
      case AppliedLocally => None
  }

  /** One event. */
  method Handle(worker: Worker, e: Event, damaged: set<Obj>) returns (told: Option<Reply>, ghost steps: seq<Step>)
    requires worker.Valid()
    modifies worker
    ensures worker.Valid() && Leads(old(worker.View()), steps, worker.View())
    ensures Answers(old(worker.View()), e, damaged, worker.Bounds(), steps) && told == Told(old(worker.View()), e)
  {
    ghost var w := worker.View();
    told, steps := None, [];
    match e
    case Submit(participants, program, optimistic) =>
      told, steps := Serve(worker, participants, program, optimistic, damaged);
    case NeedLive(o) =>
      if o !in worker.live {
        worker.Activate(o);
        OneStep(w, Activate(o));
        steps := [Activate(o)];
      }
    case OverBudget(o) =>
      var shed := worker.ShedObject(o);
      if shed {
        OneStep(w, Shed(o));
        steps := [Shed(o)];
      }
    case CommitLands =>
      if worker.inflight.Some? && worker.inflight.value.phase.Sailing? {
        worker.ShipCommitted();
        OneStep(w, Land);
        steps := [Land];
      }
    case ShipSinks =>
      if worker.inflight.Some? && worker.inflight.value.phase.Sailing? {
        worker.ShipFailed();
        OneStep(w, Sink);
        steps := [Sink];
      }
    case ShipDone =>
      if worker.inflight.Some? && !worker.inflight.value.phase.Sailing? { steps := Finish(worker, damaged); }
    case NodeDies =>
      worker.CrashAndRestart();
      OneStep(w, Crash);
      steps := [Crash];
  }

  /** The worker hears of its boat, and launches the next. */
  method Finish(worker: Worker, damaged: set<Obj>) returns (ghost steps: seq<Step>)
    requires worker.Valid() && worker.inflight.Some? && !worker.inflight.value.phase.Sailing?
    modifies worker
    ensures worker.Valid() && Leads(old(worker.View()), steps, worker.View())
    ensures Answers(old(worker.View()), ShipDone, damaged, worker.Bounds(), steps)
  {
    ghost var w := worker.View();
    ghost var step := worker.HearOfShip();
    ghost var v := worker.View();
    OneStep(w, step);
    ghost var more := Launch(worker, damaged);
    LeadsTrans(w, [step], v, more, worker.View());
    steps := [step] + more;
    assert steps[1..] == more;
  }

  /** A write transaction, and then the next boat. */
  method Serve(worker: Worker, participants: seq<Obj>, program: Program, optimistic: bool, damaged: set<Obj>)
    returns (told: Option<Reply>, ghost steps: seq<Step>)
    requires worker.Valid()
    modifies worker
    ensures worker.Valid() && Leads(old(worker.View()), steps, worker.View())
    ensures var e := Submit(participants, program, optimistic);
            && Answers(old(worker.View()), e, damaged, worker.Bounds(), steps) && told == Told(old(worker.View()), e)
  {
    ghost var w := worker.View();
    ghost var ran: Option<Applied>;
    told, ran := Accept(worker, participants, program, optimistic);
    ghost var more := Launch(worker, damaged);
    steps := more;
    if ran.Some? {
      steps := [Run(ran.value)] + more;
      Applies(w, Submit(participants, program, optimistic), ran.value, damaged, worker.Bounds(), more, worker.View());
    }
  }

  /** The transaction runs, if it does; its client may hear of it at once. */
  method Accept(worker: Worker, participants: seq<Obj>, program: Program, optimistic: bool)
    returns (told: Option<Reply>, ghost ran: Option<Applied>)
    requires worker.Valid()
    modifies worker
    ensures worker.Valid() && told == Told(old(worker.View()), Submit(participants, program, optimistic))
    ensures ran.Some? <==> Judge(old(worker.live), participants, program) == AppliedLocally
    ensures ran.None? ==> worker.View() == old(worker.View())
    ensures ran.Some? ==>
              && CanRun(old(worker.View()), ran.value) && worker.View() == Ran(old(worker.View()), ran.value)
              && AsSubmitted(old(worker.View()), Submit(participants, program, optimistic), worker.Bounds(), ran.value)
  {
    var outcome;
    ghost var t;
    outcome, t := worker.Apply(participants, program, optimistic);
    told := Respond(outcome);
    ran := if outcome == AppliedLocally then Some(t) else None;
  }

  lemma Applies(w: W, e: Event, t: Applied, damaged: set<Obj>, limits: Limits, more: seq<Step>, w': W)
    requires e.Submit? && CanRun(w, t) && AsSubmitted(w, e, limits, t)
    requires Judge(w.live, e.participants, e.program) == AppliedLocally
    requires Leads(Ran(w, t), more, w') && Departs(Ran(w, t), damaged, limits.boat, more)
    ensures Leads(w, [Run(t)] + more, w') && Answers(w, e, damaged, limits, [Run(t)] + more)
  {
    OneStep(w, Run(t));
    LeadsTrans(w, [Run(t)], Ran(w, t), more, w');
    assert ([Run(t)] + more)[0] == Run(t) && ([Run(t)] + more)[1..] == more;
  }

  function Respond(outcome: Outcome): Option<Reply> {
    match outcome
    case Missing => Some(Refused)
    case RolledBack => Some(Refused)
    case NothingToShip => Some(Acked)
    case AppliedLocally => None
  }

  method Launch(worker: Worker, damaged: set<Obj>) returns (ghost steps: seq<Step>)
    requires worker.Valid()
    modifies worker
    ensures worker.Valid() && Leads(old(worker.View()), steps, worker.View())
    ensures Departs(old(worker.View()), damaged, worker.maxBoatBytes, steps)
  {
    ghost var w := worker.View();
    ghost var flags := worker.MaybeLaunch(damaged);
    steps := [];
    if w.inflight.None? && w.pending != [] {
      ghost var s := if worker.inflight.Some? then Step.Launch(flags) else FailLaunch(flags);
      OneStep(w, s);
      steps := [s];
    }
  }

  /** The worker went from state to state, one event after the other, by the steps each event amounts to. */
  ghost predicate Tracks(states: seq<W>, events: seq<(Event, set<Obj>)>, limits: Limits, steps: seq<seq<Step>>) {
    && |states| == |events| + 1 && |steps| == |events|
    && forall i :: 0 <= i < |events| ==> Passes(states[i], events[i], limits, steps[i], states[i + 1])
  }

  ghost predicate Passes(w: W, e: (Event, set<Obj>), limits: Limits, steps: seq<Step>, w': W) {
    Leads(w, steps, w') && Answers(w, e.0, e.1, limits, steps)
  }

  ghost predicate AllSolid(states: seq<W>) {
    && (forall i :: 0 <= i < |states| ==> Solid(states[i]))
    && (forall i, j :: 0 <= i <= j < |states| ==> Later(states[i], states[j]))
  }

  lemma NextState(states: seq<W>, w: W)
    requires AllSolid(states) && states != [] && Solid(w) && Later(states[|states| - 1], w)
    ensures AllSolid(states + [w])
  {
    var all := states + [w];
    forall i, j | 0 <= i <= j < |all| ensures Later(all[i], all[j]) {
      if j < |states| {
        assert Later(states[i], states[j]);
      } else {
        LaterFrom(states, i, w);
      }
    }
  }

  lemma LaterFrom(states: seq<W>, i: nat, w: W)
    requires AllSolid(states) && i <= |states| && states != [] && Later(states[|states| - 1], w)
    ensures Later((states + [w])[i], w)
  {
    if i < |states| { LaterTrans(states[i], states[|states| - 1], w); }
  }

  lemma NextTracked(states: seq<W>, events: seq<(Event, set<Obj>)>, limits: Limits, steps: seq<seq<Step>>,
                    e: (Event, set<Obj>), more: seq<Step>, w: W)
    requires Tracks(states, events, limits, steps)
    requires Passes(states[|events|], e, limits, more, w)
    ensures Tracks(states + [w], events + [e], limits, steps + [more])
  {
    var states', events', steps' := states + [w], events + [e], steps + [more];
    forall i | 0 <= i < |events'| ensures Passes(states'[i], events'[i], limits, steps'[i], states'[i + 1]) {
      if i < |events| { assert Passes(states[i], events[i], limits, steps[i], states[i + 1]); }
    }
  }

  /** What has happened so far, up to `w`; each event comes with the live files the disk loses. */
  ghost predicate Logbook(states: seq<W>, events: seq<(Event, set<Obj>)>, limits: Limits, steps: seq<seq<Step>>, w: W) {
    Tracks(states, events, limits, steps) && AllSolid(states) && states[|events|] == w
  }

  lemma FirstEntry(w: W, limits: Limits)
    requires Solid(w)
    ensures Logbook([w], [], limits, [], w)
  {
  }

  lemma NextEntry(states: seq<W>, events: seq<(Event, set<Obj>)>, limits: Limits, steps: seq<seq<Step>>, w: W,
                  e: (Event, set<Obj>), more: seq<Step>, w': W,
                  states': seq<W>, events': seq<(Event, set<Obj>)>, steps': seq<seq<Step>>)
    requires Logbook(states, events, limits, steps, w) && Leads(w, more, w') && Answers(w, e.0, e.1, limits, more)
    requires states' == states + [w'] && events' == events + [e] && steps' == steps + [more]
    ensures Logbook(states', events', limits, steps', w') && states'[0] == states[0]
  {
    LeadsKeepsSolid(w, more, w');
    NextState(states, w');
    NextTracked(states, events, limits, steps, e, more, w');
  }

  /** What clients heard at once, event by event. */
  ghost predicate Heeded(states: seq<W>, events: seq<(Event, set<Obj>)>, told: seq<Option<Reply>>) {
    |told| == |events| < |states| && forall i :: 0 <= i < |events| ==> told[i] == Told(states[i], events[i].0)
  }

  /** The worker is sound, and the logbook leads from `first` to where it is now. */
  ghost predicate Logged(worker: Worker, first: W, states: seq<W>, events: seq<(Event, set<Obj>)>,
                         steps: seq<seq<Step>>, told: seq<Option<Reply>>)
    reads worker
  {
    worker.Valid() && Written(worker.Bounds(), worker.View(), first, states, events, steps, told)
  }

  ghost predicate Written(limits: Limits, w: W, first: W, states: seq<W>, events: seq<(Event, set<Obj>)>,
                          steps: seq<seq<Step>>, told: seq<Option<Reply>>) {
    Logbook(states, events, limits, steps, w) && states[0] == first && Heeded(states, events, told)
  }

  lemma WritesNext(limits: Limits, w: W, first: W, states: seq<W>, events: seq<(Event, set<Obj>)>,
                   steps: seq<seq<Step>>, told: seq<Option<Reply>>, e: (Event, set<Obj>), more: seq<Step>,
                   heard: Option<Reply>, w': W,
                   events': seq<(Event, set<Obj>)>)
    requires Written(limits, w, first, states, events, steps, told) && events' == events + [e]
    requires Leads(w, more, w') && Answers(w, e.0, e.1, limits, more) && heard == Told(w, e.0)
    ensures Written(limits, w', first, states + [w'], events', steps + [more], told + [heard])
  {
    NextEntry(states, events, limits, steps, w, e, more, w', states + [w'], events', steps + [more]);
    HeededMore(states, events, told, e, heard, w');
  }

  /** Whatever happens, in whatever order: every event takes the worker on by the steps it amounts to, every state is
      solid, nothing that landed is lost, and no client hears two different answers. */
  method Drive(worker: Worker, events: seq<(Event, set<Obj>)>)
    returns (told: seq<Option<Reply>>, ghost states: seq<W>, ghost steps: seq<seq<Step>>)
    requires worker.Valid() && Solid(worker.View())
    modifies worker
    ensures worker.Valid() && Logbook(states, events, worker.Bounds(), steps, worker.View())
    ensures states[0] == old(worker.View()) && Heeded(states, events, told)
  {
    ghost var first := worker.View();
    told := [];
    states, steps := Open(worker);
    assert events[..0] == [];
    for i := 0 to |events|
      invariant Logged(worker, first, states, events[..i], steps, told)
    {
      told, states, steps := Enter(worker, events, i, first, told, states, steps);
    }
    assert events[..|events|] == events;
  }

  ghost method Open(worker: Worker) returns (states: seq<W>, steps: seq<seq<Step>>)
    requires worker.Valid() && Solid(worker.View())
    ensures Logged(worker, worker.View(), states, [], steps, [])
  {
    FirstEntry(worker.View(), worker.Bounds());
    states, steps := [worker.View()], [];
  }

  method Enter(worker: Worker, events: seq<(Event, set<Obj>)>, i: nat, ghost first: W, told: seq<Option<Reply>>,
               ghost states: seq<W>, ghost steps: seq<seq<Step>>)
    returns (told': seq<Option<Reply>>, ghost states': seq<W>, ghost steps': seq<seq<Step>>)
    requires i < |events| && Logged(worker, first, states, events[..i], steps, told)
    modifies worker
    ensures Logged(worker, first, states', events[..i + 1], steps', told')
  {
    ghost var w := worker.View();
    var heard;
    ghost var more;
    heard, more := Handle(worker, events[i].0, events[i].1);
    assert events[..i + 1] == events[..i] + [events[i]];
    told', states', steps' := told + [heard], states + [worker.View()], steps + [more];
    WritesNext(worker.Bounds(), w, first, states, events[..i], steps, told, events[i], more, heard, worker.View(),
               events[..i + 1]);
  }

  lemma HeededMore(states: seq<W>, events: seq<(Event, set<Obj>)>, told: seq<Option<Reply>>, e: (Event, set<Obj>),
                   heard: Option<Reply>, w: W)
    requires Heeded(states, events, told) && |states| == |events| + 1 && heard == Told(states[|events|], e.0)
    ensures Heeded(states + [w], events + [e], told + [heard])
  {
  }

  // ----- what clients may rely on

  /** A submission that is applied enters the history as submitted. */
  lemma EntersHistory(w: W, e: Event, damaged: set<Obj>, limits: Limits, steps: seq<Step>, w': W)
    requires Solid(w) && Leads(w, steps, w') && Answers(w, e, damaged, limits, steps)
    requires e.Submit? && Judge(w.live, e.participants, e.program) == AppliedLocally
    ensures |w.history| < |w'.history| && AsSubmitted(w, e, limits, w'.history[|w.history|])
  {
    var t := steps[0].t;
    StepKeepsSolid(w, steps[0]);
    LeadsKeepsSolid(Ran(w, t), steps[1..], w');
    assert (w.history + [t])[|w.history|] == t;
  }

  /** The submission's transaction, as the history has it ever after. */
  lemma SubmittedIs(states: seq<W>, events: seq<(Event, set<Obj>)>, limits: Limits, steps: seq<seq<Step>>, w: W,
                    i: nat, j: nat)
    requires Logbook(states, events, limits, steps, w) && i < |events| && i < j < |states| && events[i].0.Submit?
    requires Judge(states[i].live, events[i].0.participants, events[i].0.program) == AppliedLocally
    ensures |states[i].history| < |states[j].history|
    ensures AsSubmitted(states[i], events[i].0, limits, states[j].history[|states[i].history|])
  {
    assert Passes(states[i], events[i], limits, steps[i], states[i + 1]);
    assert Solid(states[i]) && Later(states[i + 1], states[j]);
    EntersHistory(states[i], events[i].0, events[i].1, limits, steps[i], states[i + 1]);
  }

  /** A client whose transaction was submitted as pessimistic and who has been told that it succeeded can rely on it:
      the transaction has landed, then and ever after.  The same goes for an optimistic one submitted over the
      watermark. */
  lemma AckedHasLanded(states: seq<W>, events: seq<(Event, set<Obj>)>, limits: Limits, steps: seq<seq<Step>>, w: W,
                       i: nat, j: nat, k: nat)
    requires Logbook(states, events, limits, steps, w) && i < |events| && i < j <= k < |states| && events[i].0.Submit?
    requires Judge(states[i].live, events[i].0.participants, events[i].0.program) == AppliedLocally
    requires var id := |states[i].history|; id in states[j].replies && states[j].replies[id].Acked?
    requires !events[i].0.optimistic || states[i].dirtyBytes > limits.unshipped
    ensures var id := |states[i].history|;
            && id < |states[k].history| && states[k].history[id] in states[k].landed
            && states[k].history[id].program == events[i].0.program
            && states[k].history[id].held == Held(events[i].0.participants)
  {
    var id := |states[i].history|;
    SubmittedIs(states, events, limits, steps, w, i, j);
    SubmittedIs(states, events, limits, steps, w, i, k);
    var t := states[j].history[id];
    assert Solid(states[i]) && Solid(states[j]) && Later(states[j], states[k]);
    BacklogGrows(states[i], t);
    AckedMeansDurable(states[j], id, id);
    LandedStays(states[j], states[k], t);
  }

  lemma BacklogGrows(w: W, t: Applied)
    requires DirtyOk(w)
    ensures Ran(w, t).dirtyBytes >= w.dirtyBytes
  {
    var more := Dirtied(w, t.writes);
    SumSplit(w.dirty.Keys, more.Keys - w.dirty.Keys, more);
    assert w.dirty.Keys + (more.Keys - w.dirty.Keys) == more.Keys;
    SumSame(w.dirty.Keys, w.dirty, more);
  }

  lemma SumSplit(a: set<Obj>, b: set<Obj>, m: map<Obj, nat>)
    requires a !! b
    ensures SumOver(a + b, m) >= SumOver(a, m)
  {
    SumUnion(a, b, m);
  }
}
