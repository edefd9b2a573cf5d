/** Why `BoatSerial` has a guard: boats bind transactions by the objects they changed (src/worker.rs:1969-1974), so one
    that reads an unshipped object without changing it is not reverted with it. */
module BoatDirtyRead {
  import opened Bytes
  import opened Sums
  import opened TxnComponents
  import opened Boats
  import opened BoatSteps
  import opened BoatRun
  import opened BoatSerial
  import opened BoatReplay

  const NEWS: Image := [1]

  function Post(m: map<Obj, Image>): Option<map<Obj, Image>> {
    Some(map[0 := NEWS])
  }

  function Copy(m: map<Obj, Image>): Option<map<Obj, Image>> {
    Some(map[1 := if 0 in m then m[0] else []])
  }

  /** The first transaction writes object 0; the second copies object 0 into object 1. */
  const POSTED: Applied := Applied(0, {0}, Post, [0], map[0 := NEWS], true)
  const COPIED: Applied := Applied(1, {0, 1}, Copy, [1], map[1 := NEWS], true)

  const CARGO: Boat := Boat([POSTED], map[0 := NEWS], Sailing)
  const COPY_CARGO: Boat := Boat([COPIED], map[1 := NEWS], Sailing)

  const START: W := W(map[], map[], 0, [], None, map[], map[], [], [], {}, [], map[])
  const AWAKE: W := START.(live := map[0 := []])
  const WRITTEN: W := W(map[0 := NEWS], map[0 := 1], 1, [POSTED], None, map[], map[], [POSTED], [], {}, [{}], map[])
  const SAILING: W := W(map[0 := NEWS], map[], 0, [], Some(CARGO), map[], map[], [POSTED], [], {}, [{}], map[])
  const READY: W := SAILING.(live := map[0 := NEWS, 1 := []])
  const READ: W := W(map[0 := NEWS, 1 := NEWS], map[1 := 1], 1, [COPIED], Some(CARGO), map[], map[],
                     [POSTED, COPIED], [], {}, [{}, {}], map[])
  const SUNK: W := READ.(inflight := Some(CARGO.(phase := Failed)), replies := map[0 := Refused])
  const REVERTED: W := SUNK.(live := map[1 := NEWS], inflight := None, reverted := {0})
  const AGAIN: W := REVERTED.(dirty := map[], dirtyBytes := 0, pending := [], inflight := Some(COPY_CARGO))
  const LANDED: W := AGAIN.(durable := map[1 := NEWS], landed := [COPIED], replies := map[0 := Refused, 1 := Acked],
                            inflight := Some(COPY_CARGO.(phase := Committed)))

  lemma Alone(t: Applied)
    ensures Filter([t], [true], true) == [t] && Filter([t], [true], false) == []
    ensures Touched([t]) == t.writes.Keys && NeverSplits([t], [true])
    ensures Ids([t]) == {t.id} && WaiterIds([t]) == if t.waiter then {t.id} else {}
  {
    OneTouches(t);
    assert [t][1..] == [] && [true][1..] == [];
  }

  lemma SumOne(o: Obj, n: nat)
    ensures SumOver(map[o := n].Keys, map[o := n]) == n
  {
    SumRemove({o}, map[o := n], o);
    assert {o} - {o} == {} && map[o := n].Keys == {o};
  }

  lemma Activates()
    ensures Can(START, Activate(0)) && Do(START, Activate(0)) == AWAKE
    ensures Can(SAILING, Activate(1)) && Do(SAILING, Activate(1)) == READY
  {
  }

  lemma Posts()
    ensures Can(AWAKE, Run(POSTED)) && Do(AWAKE, Run(POSTED)) == WRITTEN
  {
    assert Effect(Post, {0}, AWAKE.live) == map[0 := NEWS];
    assert Dirtied(AWAKE, POSTED.writes) == map[0 := 1];
    SumOne(0, 1);
    assert AWAKE.live + POSTED.writes == map[0 := NEWS];
  }

  lemma Launches()
    ensures Can(WRITTEN, Launch([true])) && Do(WRITTEN, Launch([true])) == SAILING
  {
    Alone(POSTED);
    assert WRITTEN.dirty - {0} == map[] && WRITTEN.dirty.Keys - {0} == {};
    assert POSTED.writes.Keys == {0} && SumOver({}, WRITTEN.dirty) == 0;
    assert Captured(WRITTEN.live, {0}) == map[0 := NEWS];
  }

  lemma Copies()
    ensures Can(READY, Run(COPIED)) && Do(READY, Run(COPIED)) == READ
  {
    assert Effect(Copy, {0, 1}, READY.live) == map[1 := NEWS];
    assert Dirtied(READY, COPIED.writes) == map[1 := 1];
    SumOne(1, 1);
    assert READY.live + COPIED.writes == map[0 := NEWS, 1 := NEWS];
  }

  lemma Sinks()
    ensures Can(READ, Sink) && Do(READ, Sink) == SUNK
  {
    Alone(POSTED);
    assert Answer(map[], {0}, Refused) == map[0 := Refused];
  }

  lemma Reverts()
    ensures Can(SUNK, Revert({0})) && Do(SUNK, Revert({0})) == REVERTED
  {
    Alone(COPIED);
    Alone(POSTED);
    NothingMoreReverts(SUNK, {0});
    assert SUNK.live - {0} == map[1 := NEWS] && SUNK.dirty - {0} == SUNK.dirty && SUNK.dirty.Keys - {0} == {1};
    SumOne(1, 1);
    assert {} + {0} == {0};
  }

  lemma LaunchesAgain()
    ensures Can(REVERTED, Launch([true])) && Do(REVERTED, Launch([true])) == AGAIN
  {
    Alone(COPIED);
    assert REVERTED.dirty - {1} == map[] && REVERTED.dirty.Keys - {1} == {};
    assert COPIED.writes.Keys == {1} && SumOver({}, REVERTED.dirty) == 0;
    assert Captured(REVERTED.live, {1}) == map[1 := NEWS];
  }

  lemma Lands()
    ensures Can(AGAIN, Land) && Do(AGAIN, Land) == LANDED
  {
    Told();
    assert AGAIN.durable + COPY_CARGO.images == map[1 := NEWS];
    assert AGAIN.landed + COPY_CARGO.txns == [COPIED];
  }

  lemma Told()
    ensures Answer(map[0 := Refused], WaiterIds([COPIED]), Acked) == map[0 := Refused, 1 := Acked]
  {
    Alone(COPIED);
  }

  lemma AndThen(steps: seq<Step>, w: W, s: Step, w': W)
    requires Leads(START, steps, w) && Can(w, s) && Do(w, s) == w'
    ensures Leads(START, steps + [s], w')
  {
    OneStep(w, s);
    LeadsTrans(START, steps, w, [s], w');
  }

  lemma Story() returns (steps: seq<Step>)
    ensures Leads(START, steps, LANDED)
  {
    Activates();
    AndThen([], START, Activate(0), AWAKE);
    Posts();
    AndThen([Activate(0)], AWAKE, Run(POSTED), WRITTEN);
    steps := [Activate(0)] + [Run(POSTED)];
    Launches();
    AndThen(steps, WRITTEN, Launch([true]), SAILING);
    steps := steps + [Launch([true])];
    AndThen(steps, SAILING, Activate(1), READY);
    steps := steps + [Activate(1)];
    Copies();
    AndThen(steps, READY, Run(COPIED), READ);
    steps := Ending(steps + [Run(COPIED)]);
  }

  lemma Ending(before: seq<Step>) returns (steps: seq<Step>)
    requires Leads(START, before, READ)
    ensures Leads(START, steps, LANDED)
  {
    Sinks();
    AndThen(before, READ, Sink, SUNK);
    Reverts();
    AndThen(before + [Sink], SUNK, Revert({0}), REVERTED);
    steps := before + [Sink] + [Revert({0})];
    LaunchesAgain();
    AndThen(steps, REVERTED, Launch([true]), AGAIN);
    steps := steps + [Launch([true])];
    Lands();
    AndThen(steps, AGAIN, Land, LANDED);
    steps := steps + [Land];
  }

  lemma DurableHere()
    ensures Durable(LANDED) == [COPIED] && Of(Replay(map[], [COPIED]), 1) == []
  {
    var h, out := LANDED.history, Ashore(LANDED);
    assert h[0] != COPIED;
    assert out == {0} by {
      forall i ensures i in out <==> i == 0 {
        if i == 1 { assert LANDED.history[1] == COPIED; }
        if i == 0 { assert LANDED.history[0] == POSTED; }
      }
    }
    assert h[..1] == [POSTED] && h[..0] == [] && [POSTED][..0] == [];
    assert Without([POSTED], out) == [];
    assert Without(h, out) == [] + [COPIED];
    assert Replay(map[], [COPIED]) == Exec(Replay(map[], []), COPIED) by { assert [COPIED][..0] == []; }
    assert 0 in Seen(map[], {0, 1});
  }

  /** A run the worker takes: a transaction copies an object whose boat is at sea, the boat sinks, and the copy, though
      made from what was reverted, lands and is acknowledged.  On what has landed, its program leaves another image. */
  lemma ReadFromSunkBoat() returns (w: W, steps: seq<Step>, w': W)
    ensures Fresh(w) && Leads(w, steps, w')
    ensures w'.history == [POSTED, COPIED] && RanOn(w', 0, 1, true) && !Grounded(w', true)
    ensures 0 in w'.reverted && COPIED in w'.landed && w'.replies == map[0 := Refused, 1 := Acked]
    ensures Of(w'.durable, 1) == NEWS && Of(Replay(w'.genesis, Durable(w')), 1) == []
  {
    w, w' := START, LANDED;
    steps := Story();
    DurableHere();
    assert Under(POSTED, COPIED, true) by { assert 0 in POSTED.writes && 0 in COPIED.held; }
    assert RanOn(LANDED, 0, 1, true);
  }
}
