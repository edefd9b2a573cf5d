/** What the boat pipeline means for transactions as programs: in every state of every run whose transactions keep the
    guard of `BoatSerial`, the live images are those of a serial execution of what stands, and the durable images those
    of a serial execution of what has landed. */
module BoatReplay {
  import opened Bytes
  import opened Sums
  import opened TxnComponents
  import opened Boats
  import opened BoatSteps
  import opened BoatRun
  import opened BoatSerial
  import opened BoatFutures

  // ----- running programs one after the other

  function Exec(m: map<Obj, Image>, t: Applied): map<Obj, Image> {
    m + Effect(t.program, t.held, m)
  }

  /** The programs of the transactions, run anew in this order. */
  function Replay(m: map<Obj, Image>, txns: seq<Applied>): map<Obj, Image>
    decreases |txns|
  {
    if txns == [] then m else Exec(Replay(m, txns[..|txns| - 1]), txns[|txns| - 1])
  }

  ghost predicate SameImages(m: map<Obj, Image>, m': map<Obj, Image>) {
    forall o :: Of(m, o) == Of(m', o)
  }

  lemma {:induction false} ReplayAppend(m: map<Obj, Image>, a: seq<Applied>, b: seq<Applied>)
    ensures Replay(m, a + b) == Replay(Replay(m, a), b)
    decreases |b|
  {
    if b == [] {
      assert a + b == a;
    } else {
      var n := |b| - 1;
      assert (a + b)[..|a| + n] == a + b[..n] && (a + b)[|a| + n] == b[n];
      ReplayAppend(m, a, b[..n]);
    }
  }

  lemma ExecSame(m: map<Obj, Image>, m': map<Obj, Image>, t: Applied)
    requires SameImages(m, m')
    ensures SameImages(Exec(m, t), Exec(m', t))
  {
    SameEffect(t, m, m');
    forall o ensures Of(Exec(m, t), o) == Of(Exec(m', t), o) { assert Of(m, o) == Of(m', o); }
  }

  lemma {:induction false} ReplaySame(m: map<Obj, Image>, m': map<Obj, Image>, txns: seq<Applied>)
    requires SameImages(m, m')
    ensures SameImages(Replay(m, txns), Replay(m', txns))
    decreases |txns|
  {
    if txns != [] {
      var n := |txns| - 1;
      ReplaySame(m, m', txns[..n]);
      ExecSame(Replay(m, txns[..n]), Replay(m', txns[..n]), txns[n]);
    }
  }

  // ----- an order in which everybody finds again what they found

  /** The transactions before the p-th that changed an object it held are those that had when it ran. */
  ghost predicate InPlace(w: W, txns: seq<Applied>, p: nat)
    requires p < |txns|
  {
    var t := txns[p];
    && t.id < |w.history| && t.id < |w.gone| && w.history[t.id] == t
    && forall e: nat, o: Obj :: e < |w.history| && o in t.held && o in w.history[e].writes ==>
         (w.history[e] in txns[..p] <==> e < t.id && e !in w.gone[t.id])
  }

  ghost predicate AllInPlace(w: W, txns: seq<Applied>) {
    Ordered(txns) && forall p: nat :: p < |txns| ==> InPlace(w, txns, p)
  }

  lemma PrefixOrdered(txns: seq<Applied>, p: nat)
    requires Ordered(txns) && p <= |txns|
    ensures Ordered(txns[..p])
  {
    assert txns == txns[..p] + txns[p..];
    OrderedAppend(txns[..p], txns[p..]);
  }

  lemma PastMember(w: W, t: Applied, x: Applied)
    requires Accounted(w) && t.id < |w.history| && t.id < |w.gone|
    ensures x in Without(w.history[..t.id], w.gone[t.id]) <==>
            x.id < t.id && w.history[x.id] == x && x.id !in w.gone[t.id]
  {
    WithoutMembers(w.history[..t.id], w.gone[t.id], x);
    if x in w.history[..t.id] {
      var e: nat :| e < t.id && w.history[..t.id][e] == x;
      assert w.history[e].id == e;
    }
    if x.id < t.id && w.history[x.id] == x { assert w.history[..t.id][x.id] == x; }
  }

  /** What the p-th transaction found of an object: those that had changed it and stood. */
  lemma SamePast(w: W, txns: seq<Applied>, p: nat, o: Obj, x: Applied)
    requires Accounted(w) && AllInPlace(w, txns) && p < |txns| && InPlace(w, txns, p) && o in txns[p].held
        && o in x.writes
    ensures var t := txns[p]; x in txns[..p] <==> x in Without(w.history[..t.id], w.gone[t.id])
  {
    PastMember(w, txns[p], x);
    if x in txns[..p] {
      var q: nat :| q < p && txns[..p][q] == x;
      assert InPlace(w, txns, q);
    }
  }

  /** In such an order the p-th transaction finds the images it found. */
  lemma FoundAgain(w: W, txns: seq<Applied>, p: nat, o: Obj)
    requires Accounted(w) && AllInPlace(w, txns) && p < |txns| && InPlace(w, txns, p) && o in txns[p].held
    ensures After(Of(w.genesis, o), txns[..p], o) == Found(w, txns[p].id)[o]
  {
    var t := txns[p];
    var past := Without(w.history[..t.id], w.gone[t.id]);
    HistoryAscends(w, t.id);
    WithoutAscending(w.history[..t.id], w.gone[t.id]);
    PrefixOrdered(txns, p);
    forall x: Applied | o in x.writes ensures x in txns[..p] <==> x in past { SamePast(w, txns, p, o, x); }
    SameAfter(Of(w.genesis, o), txns[..p], past, o);
  }

  lemma SameExec(w: W, txns: seq<Applied>, p: nat, m: map<Obj, Image>)
    requires Accounted(w) && Recorded(w) && AllInPlace(w, txns) && p < |txns|
    requires forall o :: Of(m, o) == After(Of(w.genesis, o), txns[..p], o)
    ensures Effect(txns[p].program, txns[p].held, m) == txns[p].writes
  {
    var t := txns[p];
    assert InPlace(w, txns, p);
    assert Computed(w, t.id);
    forall o | o in t.held ensures Of(m, o) == Of(Found(w, t.id), o) { FoundAgain(w, txns, p, o); }
    SameEffect(t, m, Found(w, t.id));
  }

  /** Running the programs anew in such an order leaves the images that were recorded. */
  lemma {:induction false} ReplayIsAfter(w: W, txns: seq<Applied>, p: nat)
    requires Accounted(w) && Recorded(w) && AllInPlace(w, txns) && p <= |txns|
    ensures forall o :: Of(Replay(w.genesis, txns[..p]), o) == After(Of(w.genesis, o), txns[..p], o)
    decreases p
  {
    if p > 0 {
      var t, m := txns[p - 1], Replay(w.genesis, txns[..p - 1]);
      ReplayIsAfter(w, txns, p - 1);
      SameExec(w, txns, p - 1, m);
      assert txns[..p][..p - 1] == txns[..p - 1] && txns[..p] == txns[..p - 1] + [t];
      forall o ensures Of(m + t.writes, o) == After(Of(w.genesis, o), txns[..p], o) {
        AfterAppend(Of(w.genesis, o), txns[..p - 1], [t], o);
        OneTouches(t);
      }
    }
  }

  lemma ReplayAll(w: W, txns: seq<Applied>)
    requires Accounted(w) && Recorded(w) && AllInPlace(w, txns)
    ensures forall o :: Of(Replay(w.genesis, txns), o) == After(Of(w.genesis, o), txns, o)
  {
    ReplayIsAfter(w, txns, |txns|);
    assert txns[..|txns|] == txns;
  }

  // ----- the order of application

  /** Leaving out `out` leaves out nothing that what remains was computed from. */
  ghost predicate Rooted(w: W, out: set<nat>) {
    w.reverted <= out && forall e: nat, i: nat :: RanOn(w, e, i, true) && i !in out ==> e !in out
  }

  lemma RootedMember(w: W, out: set<nat>, t: Applied)
    requires Accounted(w)
    ensures t in Without(w.history, out) <==> t.id < |w.history| && w.history[t.id] == t && t.id !in out
  {
    WithoutMembers(w.history, out, t);
    if t in w.history {
      var i :| 0 <= i < |w.history| && w.history[i] == t;
      assert w.history[i].id == i;
    }
  }

  lemma RootedInPlace(w: W, out: set<nat>, p: nat)
    requires Accounted(w) && Recorded(w) && Rooted(w, out) && p < |Without(w.history, out)|
    requires Chronological(Without(w.history, out))
    ensures InPlace(w, Without(w.history, out), p)
  {
    var txns := Without(w.history, out);
    var t := txns[p];
    RootedMember(w, out, t);
    forall e: nat, o: Obj | e < |w.history| && o in t.held && o in w.history[e].writes
      ensures w.history[e] in txns[..p] <==> e < t.id && e !in w.gone[t.id]
    {
      RootedMember(w, out, w.history[e]);
      assert w.history[e].id == e;
      if w.history[e] in txns[..p] {
        var q: nat :| q < p && txns[..p][q] == w.history[e];
        assert txns[q].id < txns[p].id && w.history[e] in txns;
      }
      if e < t.id && e !in w.gone[t.id] {
        assert Under(w.history[e], t, true);
        assert RanOn(w, e, t.id, true);
        var q: nat :| q < |txns| && txns[q] == w.history[e];
        assert q < p;
        assert txns[..p][q] == w.history[e];
      }
    }
  }

  /** The transactions that remain, run anew in the order in which they were applied, leave the recorded images. */
  lemma RootedReplay(w: W, out: set<nat>)
    requires Accounted(w) && Recorded(w) && Rooted(w, out)
    ensures forall o ::
            Of(Replay(w.genesis, Without(w.history, out)), o) == After(Of(w.genesis, o), Without(w.history, out), o)
  {
    assert w.history[..|w.history|] == w.history;
    HistoryAscends(w, |w.history|);
    WithoutAscending(w.history, out);
    forall p: nat | p < |Without(w.history, out)| ensures InPlace(w, Without(w.history, out), p) {
      RootedInPlace(w, out, p);
    }
    ReplayAll(w, Without(w.history, out));
  }

  ghost function Ashore(w: W): set<nat> {
    set i | 0 <= i < |w.history| && w.history[i] !in w.landed
  }

  /** What stands, and what has landed, in the order of application. */
  ghost function Kept(w: W): seq<Applied> {
    Without(w.history, w.reverted)
  }

  ghost function Durable(w: W): seq<Applied> {
    Without(w.history, Ashore(w))
  }

  lemma LandedOrdered(w: W)
    requires Ordered(Standing(w))
    ensures Ordered(w.landed)
  {
    OrderedAppend(w.landed + Afloat(w), w.pending);
    OrderedAppend(w.landed, Afloat(w));
  }

  lemma DurableBehind(w: W, o: Obj)
    requires Inv(w)
    ensures After(Of(w.genesis, o), Durable(w), o) == Of(w.durable, o)
  {
    HistoryAscends(w, |w.history|);
    assert w.history[..|w.history|] == w.history;
    WithoutAscending(w.history, Ashore(w));
    LandedOrdered(w);
    forall t: Applied ensures t in w.landed <==> t in Durable(w) {
      RootedMember(w, Ashore(w), t);
      if t in w.landed { StandingKnown(w, t); }
    }
    SameAfter(Of(w.genesis, o), w.landed, Durable(w), o);
  }

  lemma DurableRooted(w: W)
    requires Accounted(w) && Grounded(w, true)
    ensures Rooted(w, w.reverted) && Rooted(w, Ashore(w))
  {
    forall i | i in w.reverted ensures i in Ashore(w) {
      assert w.history[i].id == i;
      if w.history[i] in w.landed { StandingKnown(w, w.history[i]); }
    }
    forall e: nat, i: nat | RanOn(w, e, i, true) && i !in Ashore(w) ensures e !in Ashore(w) {
      StandingKnown(w, w.history[i]);
      assert w.history[i].id == i;
    }
  }

  /** In a grounded state, everything live is a serial execution of what stands, and everything durable one of what has
      landed: the programs, run anew in the order of application. */
  lemma SerialState(w: W)
    requires Inv(w) && Recorded(w) && Grounded(w, true)
    ensures forall o :: o in w.live ==> w.live[o] == Of(Replay(w.genesis, Kept(w)), o)
    ensures forall o :: Of(w.durable, o) == Of(Replay(w.genesis, Durable(w)), o)
  {
    DurableRooted(w);
    RootedReplay(w, w.reverted);
    RootedReplay(w, Ashore(w));
    assert w.history[..|w.history|] == w.history;
    forall o | o in w.live ensures w.live[o] == Of(Replay(w.genesis, Kept(w)), o) { StandingBehind(w, o); }
    forall o ensures Of(w.durable, o) == Of(Replay(w.genesis, Durable(w)), o) { DurableBehind(w, o); }
  }

  // ----- the order of the boats

  /** What stands, up to some boat, with everything it was computed from. */
  ghost predicate BoatPrefix(w: W, txns: seq<Applied>) {
    && txns <= Standing(w)
    && forall e: nat, i: nat :: RanOn(w, e, i, false) && w.history[i] in txns ==> w.history[e] in txns
  }

  lemma StandingIndex(w: W, txns: seq<Applied>, t: Applied)
    requires Accounted(w) && txns <= Standing(w) && t in txns
    ensures t.id < |w.history| && w.history[t.id] == t && t.id !in w.reverted
  {
    assert t in Standing(w);
  }

  lemma BoatInPlace(w: W, txns: seq<Applied>, p: nat)
    requires Accounted(w) && Recorded(w) && BoatPrefix(w, txns) && Ordered(txns) && p < |txns|
    requires txns[p].held == txns[p].writes.Keys
    ensures InPlace(w, txns, p)
  {
    var t := txns[p];
    StandingIndex(w, txns, t);
    forall e: nat, o: Obj | e < |w.history| && o in t.held && o in w.history[e].writes
      ensures w.history[e] in txns[..p] <==> e < t.id && e !in w.gone[t.id]
    {
      assert Share(w.history[e], t) && w.history[e].id == e;
      if w.history[e] in txns[..p] {
        var q: nat :| q < p && txns[..p][q] == w.history[e];
        assert txns[q] == w.history[e];
        StandingIndex(w, txns, txns[q]);
      }
      if e < t.id && e !in w.gone[t.id] {
        assert Under(w.history[e], t, false);
        assert RanOn(w, e, t.id, false);
        var q: nat :| q < |txns| && txns[q] == w.history[e];
        assert Share(txns[p], txns[q]) && p != q;
        assert txns[..p][q] == w.history[e];
      }
    }
  }

  lemma BoatReplays(w: W, txns: seq<Applied>)
    requires Accounted(w) && Recorded(w) && BoatPrefix(w, txns) && Ordered(txns)
    requires forall t :: t in txns ==> t.held == t.writes.Keys
    ensures forall o :: Of(Replay(w.genesis, txns), o) == After(Of(w.genesis, o), txns, o)
  {
    forall p: nat | p < |txns| ensures InPlace(w, txns, p) {
      assert txns[p] in txns;
      BoatInPlace(w, txns, p);
    }
    ReplayAll(w, txns);
  }

  lemma BoatPrefixes(w: W)
    requires Accounted(w) && Grounded(w, false)
    ensures BoatPrefix(w, w.landed) && BoatPrefix(w, Standing(w))
  {
    assert w.landed <= Standing(w);
    forall e: nat, i: nat | RanOn(w, e, i, false) && w.history[i] in Standing(w) ensures w.history[e] in Standing(w) {
      StandingIndex(w, Standing(w), w.history[i]);
      assert w.history[i].id == i;
    }
    forall e: nat, i: nat | RanOn(w, e, i, false) && w.history[i] in w.landed ensures w.history[e] in w.landed {
      StandingIndex(w, w.landed, w.history[i]);
      assert w.history[i].id == i;
    }
  }

  /** The landed programs and the standing ones, run anew in the order of the boats, leave the recorded images. */
  lemma BoatReplaysBoth(w: W)
    requires Accounted(w) && Recorded(w) && Ordered(Standing(w)) && Grounded(w, false)
    requires forall t :: t in Standing(w) ==> t.held == t.writes.Keys
    ensures forall o :: Of(Replay(w.genesis, w.landed), o) == After(Of(w.genesis, o), w.landed, o)
    ensures forall o :: Of(Replay(w.genesis, Standing(w)), o) == After(Of(w.genesis, o), Standing(w), o)
  {
    BoatPrefixes(w);
    LandedOrdered(w);
    forall t | t in w.landed ensures t in Standing(w) {}
    BoatReplays(w, w.landed);
    BoatReplays(w, Standing(w));
  }

  lemma LiveStands(w: W, o: Obj)
    requires Refines(w) && DurableIsLanded(w) && o in w.live
    ensures w.live[o] == After(Of(w.genesis, o), Standing(w), o)
  {
    AfterAppend(Of(w.genesis, o), w.landed + Afloat(w), w.pending, o);
    AfterAppend(Of(w.genesis, o), w.landed, Afloat(w), o);
  }

  /** The rest run on the durable images is everything run from the start. */
  lemma RestOnDurable(w: W)
    requires SameImages(Replay(w.genesis, w.landed), w.durable)
    ensures SameImages(Replay(w.genesis, Standing(w)), Replay(w.durable, Afloat(w) + w.pending))
  {
    var rest := Afloat(w) + w.pending;
    assert Standing(w) == w.landed + rest;
    ReplayAppend(w.genesis, w.landed, rest);
    ReplaySame(Replay(w.genesis, w.landed), w.durable, rest);
  }

  /** When transactions hold only what they change, boats may be cut and land in any order: the durable images are the
      landed programs run in the order of landing, and the live images the floating and the pending ones run on top. */
  lemma BoatOrderState(w: W)
    requires Inv(w) && Recorded(w) && Grounded(w, false)
    requires forall t :: t in Standing(w) ==> t.held == t.writes.Keys
    ensures forall o :: Of(w.durable, o) == Of(Replay(w.genesis, w.landed), o)
    ensures forall o :: o in w.live ==> w.live[o] == Of(Replay(w.durable, Afloat(w) + w.pending), o)
  {
    BoatReplaysBoth(w);
    assert SameImages(Replay(w.genesis, w.landed), w.durable);
    RestOnDurable(w);
    forall o | o in w.live ensures w.live[o] == Of(Replay(w.durable, Afloat(w) + w.pending), o) { LiveStands(w, o); }
  }
}
