/** Handing objects from worker to worker (src/worker.rs `release`, `admit`, the Take handler and `take_task`;
    src/cluster.rs `durable_claim` and the reconciliation of checkpoints at boot).

    A worker keeps in memory which objects it owns and which it has sent on, each with the generation of the handoff.
    Both maps are written to its checkpoint as a whole, whenever any object makes it write.  Giving an object away
    must reach the checkpoint first; taking one in is written when the store allows.  The deed that carries an object
    to its new owner may be lost, duplicated or delayed without bound. */
module Ownership {
  import opened Bytes

  /** An object, by the hash of its name. */
  type Obj = nat
  type Wid = nat

  datatype Marker = Marker(to: Wid, gen: nat)
  /** A worker's memory of its claims, and the content of its checkpoint. */
  datatype Ledger = Ledger(owned: map<Obj, nat>, transit: map<Obj, Marker>)
  datatype Deed = Deed(o: Obj, to: Wid, gen: nat)
  datatype Claim = Owned(w: Wid, gen: nat) | InTransit(w: Wid, gen: nat) | Unclaimed

  const EMPTY := Ledger(map[], map[])

  /** The worker an object belongs to as long as nobody claims it. */
  function Home(o: Obj, workers: nat): Wid
    requires workers > 0
  {
    o % workers
  }

  // ----- one worker's ledger

  /** The highest generation a ledger knows for an object, or -1. */
  function Known(l: Ledger, o: Obj): int {
    var held := if o in l.owned then l.owned[o] else -1;
    var sent := if o in l.transit then l.transit[o].gen else -1;
    if held < sent then sent else held
  }

  /** The generation minted by giving the object away. */
  function Minting(l: Ledger, o: Obj): nat {
    if Known(l, o) < 0 then 1 else Known(l, o) + 1
  }

  function Released(l: Ledger, o: Obj, dest: Wid): Ledger {
    Ledger(l.owned - {o}, l.transit[o := Marker(dest, Minting(l, o))])
  }

  /** A deed is good only if it is newer than everything known. */
  predicate Accepts(l: Ledger, o: Obj, gen: nat) {
    Known(l, o) < gen
  }

  function Admitted(l: Ledger, o: Obj, gen: nat): Ledger {
    Ledger(l.owned[o := gen], l.transit - {o})
  }

  // ----- what the checkpoints say

  function Rank(c: Claim): (int, int) {
    match c
    case Unclaimed => (-1, 0)
    case Owned(_, g) => (g as int, 1)
    case InTransit(_, g) => (g as int, 0)
  }

  predicate Below(a: (int, int), b: (int, int)) {
    a.0 < b.0 || (a.0 == b.0 && a.1 < b.1)
  }

  /** Checkpoints as a reader saw them, one by one; `None` where there was none or it could not be read. */
  type View = seq<Option<Ledger>>

  predicate IsClaim(view: View, o: Obj, c: Claim) {
    match c
    case Owned(w, g) => w < |view| && view[w].Some? && o in view[w].value.owned && view[w].value.owned[o] == g
    case InTransit(to, g) =>
      exists w :: 0 <= w < |view| && view[w].Some? && o in view[w].value.transit
          && view[w].value.transit[o] == Marker(to, g)
    case Unclaimed => true
  }

  /** A claim no other outranks. */
  ghost predicate IsBest(view: View, o: Obj, c: Claim) {
    IsClaim(view, o, c) && forall d :: IsClaim(view, o, d) ==> !Below(Rank(c), Rank(d))
  }

  /** The generation at which a worker that was asked for an object it does not hold may take it over. */
  function Adoptable(w: Wid, workers: nat, o: Obj, c: Claim): Option<nat>
    requires workers > 0
  {
    match c
    case Owned(v, g) => if v == w then Some(g) else None
    case InTransit(to, g) => if to == w then Some(g) else None
    case Unclaimed => if Home(o, workers) == w then Some(1) else None
  }

  /** At boot a worker keeps what its checkpoint owns unless another checkpoint owns it at a higher generation, or at
      the same one under a lower number. */
  predicate Keeps(view: View, w: Wid, o: Obj, gen: nat) {
    forall v :: 0 <= v < |view| && v != w && view[v].Some? && o in view[v].value.owned ==>
      view[v].value.owned[o] < gen || (view[v].value.owned[o] == gen && w < v)
  }

  function Booted(view: View, w: Wid): Ledger {
    if w < |view| && view[w].Some? then
      var l := view[w].value;
      Ledger(map o | o in l.owned && Keeps(view, w, o, l.owned[o]) :: l.owned[o], l.transit)
    else EMPTY
  }

  // ----- all the workers

  /** `mem` and `dur` are the ledgers in memory and in the checkpoints, `past` all that a checkpoint ever held, `deeds`
      every deed ever sent, and `minted` the addressees of an object's generations 1, 2, ... */
  datatype State = State(mem: seq<Ledger>, dur: seq<Ledger>, past: seq<set<Ledger>>, deeds: set<Deed>,
                         minted: map<Obj, seq<Wid>>)

  function Mints(s: State, o: Obj): seq<Wid> {
    if o in s.minted then s.minted[o] else []
  }

  predicate Shaped(s: State) {
    |s.mem| > 0 && |s.dur| == |s.mem| && |s.past| == |s.mem|
  }

  function Write(s: State, w: Wid): State
    requires Shaped(s) && w < |s.mem|
  {
    s.(dur := s.dur[w := s.mem[w]], past := s.past[w := s.past[w] + {s.mem[w]}])
  }

  /** A view whose every checkpoint was current at some time, not necessarily the same. */
  ghost predicate Seen(s: State, view: View)
    requires Shaped(s)
  {
    |view| == |s.mem| && forall w :: 0 <= w < |view| && view[w].Some? ==> view[w].value in s.past[w]
  }

  datatype Event =
    | Release(w: Wid, o: Obj, dest: Wid, stored: bool)
    | Receive(w: Wid, deed: Deed, byTake: bool, stored: bool)
    | Heal(w: Wid, o: Obj, view: View, claim: Claim, stored: bool)
    | Rediscover(w: Wid, o: Obj, view: View, claim: Claim)
    | Checkpoint(w: Wid)
    | Restart(w: Wid, view: View)

  ghost predicate Can(s: State, e: Event)
    requires Shaped(s)
  {
    e.w < |s.mem| &&
    match e
    case Release(w, o, dest, stored) => o in s.mem[w].owned && dest < |s.mem|
    case Receive(w, deed, byTake, stored) => deed in s.deeds && deed.to == w
    case Heal(w, o, view, claim, stored) => o !in s.mem[w].owned && Seen(s, view) && IsBest(view, o, claim)
    case Rediscover(w, o, view, claim) => Seen(s, view) && IsBest(view, o, claim) && !claim.Unclaimed? && claim.w == w
    case Checkpoint(w) => true
    case Restart(w, view) => Seen(s, view) && view[w] == Some(s.dur[w])
  }

  function DoRelease(s: State, w: Wid, o: Obj, dest: Wid): State
    requires Shaped(s) && w < |s.mem|
  {
    var gen := Minting(s.mem[w], o);
    Write(s.(mem := s.mem[w := Released(s.mem[w], o, dest)]), w)
    .(deeds := s.deeds + {Deed(o, dest, gen)}, minted := s.minted[o := Mints(s, o) + [dest]])
  }

  function DoAdmit(s: State, w: Wid, o: Obj, gen: nat, stored: bool): State
    requires Shaped(s) && w < |s.mem|
  {
    if !Accepts(s.mem[w], o, gen) then s
    else
      var t := s.(mem := s.mem[w := Admitted(s.mem[w], o, gen)]);
      if stored then Write(t, w) else t
  }

  /** The first adoption by the home enters the generations at 1. */
  function Entered(s: State, w: Wid, o: Obj, claim: Claim): State {
    if claim.Unclaimed? && Mints(s, o) == [] then s.(minted := s.minted[o := [w]]) else s
  }

  ghost function Do(s: State, e: Event): State
    requires Shaped(s) && Can(s, e)
  {
    match e
    case Release(w, o, dest, stored) => if stored then DoRelease(s, w, o, dest) else s
    case Receive(w, deed, byTake, stored) =>
      if byTake && deed.o in s.mem[w].owned then s else DoAdmit(s, w, deed.o, deed.gen, stored)
    case Heal(w, o, view, claim, stored) =>
      (match Adoptable(w, |s.mem|, o, claim)
       case Some(gen) => DoAdmit(Entered(s, w, o, claim), w, o, gen, stored)
       case None => s)
    case Rediscover(w, o, view, claim) => s.(deeds := s.deeds + {Deed(o, w, claim.gen)})
    case Checkpoint(w) => Write(s, w)
    case Restart(w, view) => s.(mem := s.mem[w := Booted(view, w)])
  }

  ghost predicate Initial(s: State) {
    && Shaped(s) && s.deeds == {} && s.minted == map[]
    && forall w :: 0 <= w < |s.mem| ==> s.mem[w] == EMPTY && s.dur[w] == EMPTY && s.past[w] == {EMPTY}
  }

  ghost predicate Run(ss: seq<State>, es: seq<Event>) {
    && |ss| == |es| + 1 && Initial(ss[0])
    && forall i :: 0 <= i < |es| ==> Shaped(ss[i]) && Can(ss[i], es[i]) && ss[i + 1] == Do(ss[i], es[i])
  }
}
