/** Grouping pending transactions into components connected by shared participants
    (src/worker.rs, `txn_components`): an in-place union-find whose path-compressing `find`
    terminates although unions point both up and down the index order. */
module TxnComponents {
  type Obj = nat

  // ----- what is computed

  /** Transactions `i` and `j` share a participant. */
  ghost predicate Linked(ps: seq<seq<Obj>>, i: nat, j: nat) {
    i < |ps| && j < |ps| && exists o :: o in ps[i] && o in ps[j]
  }

  ghost predicate Chain(ps: seq<seq<Obj>>, path: seq<nat>) {
    && path != [] && (forall k :: 0 <= k < |path| ==> path[k] < |ps|)
    && forall k :: 0 <= k < |path| - 1 ==> Linked(ps, path[k], path[k + 1])
  }

  /** A chain of shared participants leads from `i` to `j`. */
  ghost predicate Connected(ps: seq<seq<Obj>>, i: nat, j: nat) {
    exists path :: Chain(ps, path) && path[0] == i && path[|path| - 1] == j
  }

  lemma ConnectedRefl(ps: seq<seq<Obj>>, i: nat)
    requires i < |ps|
    ensures Connected(ps, i, i)
  {
    assert Chain(ps, [i]);
  }

  lemma ConnectedLink(ps: seq<seq<Obj>>, i: nat, j: nat)
    requires Linked(ps, i, j)
    ensures Connected(ps, i, j) && Connected(ps, j, i)
  {
    assert Linked(ps, j, i);
    assert Chain(ps, [i, j]) && Chain(ps, [j, i]);
    assert [i, j][0] == i && [i, j][1] == j && [j, i][0] == j && [j, i][1] == i;
  }

  lemma ConnectedTrans(ps: seq<seq<Obj>>, i: nat, j: nat, k: nat)
    requires Connected(ps, i, j) && Connected(ps, j, k)
    ensures Connected(ps, i, k)
  {
    var p :| Chain(ps, p) && p[0] == i && p[|p| - 1] == j;
    var q :| Chain(ps, q) && q[0] == j && q[|q| - 1] == k;
    var r := p + q[1..];
    forall m | 0 <= m < |r| - 1 ensures Linked(ps, r[m], r[m + 1]) {
      if m < |p| - 1 { assert Linked(ps, p[m], p[m + 1]); } else { assert Linked(ps, q[m - |p| + 1], q[m - |p| + 2]); }
    }
    assert Chain(ps, r) && r[0] == i && r[|r| - 1] == k;
  }

  lemma ConnectedSym(ps: seq<seq<Obj>>, i: nat, j: nat)
    requires Connected(ps, i, j)
    ensures Connected(ps, j, i)
  {
    var p :| Chain(ps, p) && p[0] == i && p[|p| - 1] == j;
    var r := seq(|p|, (m: nat) requires m < |p| => p[|p| - 1 - m]);
    forall m | 0 <= m < |r| - 1 ensures Linked(ps, r[m], r[m + 1]) {
      assert Linked(ps, p[|p| - 2 - m], p[|p| - 1 - m]);
    }
    assert Chain(ps, r) && r[0] == j && r[|r| - 1] == i;
  }

  ghost predicate Ascending(c: seq<nat>) {
    forall a, b :: 0 <= a < b < |c| ==> c[a] < c[b]
  }

  ghost predicate Placed(comps: seq<seq<nat>>, i: nat) {
    exists k :: 0 <= k < |comps| && i in comps[k]
  }

  /** The components: they partition the indices, each ascending, in the order of their first members, and two
      transactions are in the same one exactly when they are connected. */
  ghost predicate AreComponents(ps: seq<seq<Obj>>, comps: seq<seq<nat>>) {
    && (forall k :: 0 <= k < |comps| ==> comps[k] != [] && Ascending(comps[k]))
    && (forall k, p :: 0 <= k < |comps| && 0 <= p < |comps[k]| ==> comps[k][p] < |ps|)
    && (forall i: nat :: i < |ps| ==> Placed(comps, i))
    && (forall k, l :: 0 <= k < l < |comps| ==> comps[k][0] < comps[l][0])
    && (forall k, l, p, q :: 0 <= k < |comps| && 0 <= l < |comps| && 0 <= p < |comps[k]| && 0 <= q < |comps[l]| ==>
          (k == l <==> Connected(ps, comps[k][p], comps[l][q])))
  }

  // ----- the union-find forest

  /** `rep` names every node's root; `dist` decreases along every parent link. */
  ghost predicate Forest(parent: seq<nat>, rep: seq<nat>, dist: seq<nat>) {
    && |rep| == |parent| && |dist| == |parent|
    && (forall i :: 0 <= i < |parent| ==> parent[i] < |parent| && rep[i] < |parent|)
    && (forall i :: 0 <= i < |parent| ==> rep[rep[i]] == rep[i] && rep[parent[i]] == rep[i])
    && (forall i :: 0 <= i < |parent| ==> (parent[i] == i <==> rep[i] == i))
    && (forall i :: 0 <= i < |parent| && parent[i] != i ==> dist[parent[i]] < dist[i])
  }

  /** A node may point straight at its root. */
  lemma Shortcut(parent: seq<nat>, rep: seq<nat>, dist: seq<nat>, i: nat)
    requires Forest(parent, rep, dist) && i < |parent|
    ensures Forest(parent[i := rep[i]], rep, dist)
  {
    RootBelow(parent, rep, dist, i);
  }

  /** Returns the root of `i` and points everything on the way straight at it. */
  method Find(parent: array<nat>, i: nat, ghost rep: seq<nat>, ghost dist: seq<nat>) returns (root: nat)
    requires Forest(parent[..], rep, dist) && i < parent.Length
    modifies parent
    ensures Forest(parent[..], rep, dist) && root == rep[i]
    ensures parent[i] == rep[i]
    decreases dist[i]
  {
    if parent[i] != i {
      root := Find(parent, parent[i], rep, dist);
      Shortcut(parent[..], rep, dist, i);
      ghost var before := parent[..];
      parent[i] := root;
      assert parent[..] == before[i := rep[i]];
    } else {
      root := i;
    }
  }

  lemma {:induction false} RootBelow(parent: seq<nat>, rep: seq<nat>, dist: seq<nat>, i: nat)
    requires Forest(parent, rep, dist) && i < |parent|
    ensures dist[rep[i]] <= dist[i] && (rep[i] != i ==> dist[rep[i]] < dist[i])
    decreases dist[i]
  {
    if parent[i] != i { RootBelow(parent, rep, dist, parent[i]); }
  }

  /** Hanging root `a` below root `b`: who is whose representative, and a measure for the new links. */
  ghost function Merged(rep: seq<nat>, a: nat, b: nat): (r: seq<nat>)
    ensures |r| == |rep|
  {
    seq(|rep|, (x: nat) requires x < |rep| => if rep[x] == a then b else rep[x])
  }

  ghost function Raised(rep: seq<nat>, dist: seq<nat>, a: nat, b: nat): (r: seq<nat>)
    requires |dist| == |rep| && b < |dist|
    ensures |r| == |rep|
  {
    seq(|rep|, (x: nat) requires x < |rep| => if rep[x] == a && a != b then dist[x] + dist[b] + 1 else dist[x])
  }

  lemma UnionForest(parent: seq<nat>, rep: seq<nat>, dist: seq<nat>, a: nat, b: nat)
    requires Forest(parent, rep, dist) && a < |parent| && b < |parent| && rep[a] == a && rep[b] == b
    ensures Forest(parent[a := b], Merged(rep, a, b), Raised(rep, dist, a, b))
  {
    var parent', rep', dist' := parent[a := b], Merged(rep, a, b), Raised(rep, dist, a, b);
    forall i | 0 <= i < |parent'|
      ensures parent'[i] < |parent'| && rep'[i] < |parent'| && rep'[rep'[i]] == rep'[i] && rep'[parent'[i]] == rep'[i]
      ensures (parent'[i] == i <==> rep'[i] == i) && (parent'[i] != i ==> dist'[parent'[i]] < dist'[i])
    {
      HangsOn(parent, rep, dist, a, b, i);
    }
  }

  /** What `Forest` says of one node. */
  ghost predicate HangsWell(parent: seq<nat>, rep: seq<nat>, dist: seq<nat>, i: nat)
    requires i < |parent| == |rep| == |dist|
  {
    && parent[i] < |parent| && rep[i] < |parent|
    && rep[rep[i]] == rep[i] && rep[parent[i]] == rep[i]
    && (parent[i] == i <==> rep[i] == i)
    && (parent[i] != i ==> dist[parent[i]] < dist[i])
  }

  lemma HangsOn(parent: seq<nat>, rep: seq<nat>, dist: seq<nat>, a: nat, b: nat, i: nat)
    requires Forest(parent, rep, dist) && a < |parent| && b < |parent| && rep[a] == a && rep[b] == b && i < |parent|
    ensures HangsWell(parent[a := b], Merged(rep, a, b), Raised(rep, dist, a, b), i)
  {
    assert HangsWell(parent, rep, dist, i);
    assert parent[b] == b && parent[a] == a;
    if i != a { assert parent[a := b][i] == parent[i] && rep[parent[i]] == rep[i]; }
  }

  // ----- soundness and completeness of the grouping

  ghost predicate Sound(ps: seq<seq<Obj>>, rep: seq<nat>) {
    |rep| == |ps| && forall i, j :: 0 <= i < |ps| && 0 <= j < |ps| && rep[i] == rep[j] ==> Connected(ps, i, j)
  }

  lemma UnionSound(ps: seq<seq<Obj>>, rep: seq<nat>, i: nat, j: nat)
    requires Sound(ps, rep) && Linked(ps, i, j)
    ensures Sound(ps, Merged(rep, rep[i], rep[j]))
  {
    var rep' := Merged(rep, rep[i], rep[j]);
    ConnectedLink(ps, i, j);
    forall x, y | 0 <= x < |ps| && 0 <= y < |ps| && rep'[x] == rep'[y] ensures Connected(ps, x, y) {
      if rep[x] != rep[y] {
        if rep[x] == rep[i] {
          ConnectedTrans(ps, x, i, j);
          ConnectedTrans(ps, x, j, y);
        } else {
          ConnectedTrans(ps, x, j, i);
          ConnectedTrans(ps, x, i, y);
        }
      }
    }
  }

  /** Every participant of the transactions handled so far leads to the first transaction that had it. */
  ghost predicate Registered(ps: seq<seq<Obj>>, first: map<Obj, nat>, rep: seq<nat>, i: nat, p: nat) {
    && i <= |ps| && |rep| == |ps| && (i < |ps| ==> p <= |ps[i]|)
    && (forall o :: o in first ==> first[o] < |ps| && first[o] <= i && o in ps[first[o]])
    && (forall k, o :: 0 <= k < i && o in ps[k] ==> o in first && rep[k] == rep[first[o]])
    && (i < |ps| ==> forall q :: 0 <= q < p ==> ps[i][q] in first && rep[i] == rep[first[ps[i][q]]])
  }

  lemma RegisteredMerged(ps: seq<seq<Obj>>, first: map<Obj, nat>, rep: seq<nat>, i: nat, p: nat)
    requires Registered(ps, first, rep, i, p) && i < |ps| && p < |ps[i]| && ps[i][p] in first
    ensures Registered(ps, first, Merged(rep, rep[i], rep[first[ps[i][p]]]), i, p + 1)
  {
  }

  lemma {:induction false} ChainGrouped(ps: seq<seq<Obj>>, first: map<Obj, nat>, rep: seq<nat>, path: seq<nat>)
    requires Registered(ps, first, rep, |ps|, 0) && Chain(ps, path)
    ensures rep[path[0]] == rep[path[|path| - 1]]
  {
    if |path| > 1 {
      assert Linked(ps, path[0], path[1]);
      var o :| o in ps[path[0]] && o in ps[path[1]];
      var rest := path[1..];
      assert rep[path[0]] == rep[first[o]] && rep[path[1]] == rep[first[o]];
      forall k | 0 <= k < |rest| - 1 ensures Linked(ps, rest[k], rest[k + 1]) {
        assert Linked(ps, path[k + 1], path[k + 2]);
      }
      assert Chain(ps, rest);
      ChainGrouped(ps, first, rep, rest);
    }
  }

  lemma Complete(ps: seq<seq<Obj>>, first: map<Obj, nat>, rep: seq<nat>, i: nat, j: nat)
    requires Registered(ps, first, rep, |ps|, 0) && Connected(ps, i, j)
    ensures i < |ps| && j < |ps| && rep[i] == rep[j]
  {
    var path :| Chain(ps, path) && path[0] == i && path[|path| - 1] == j;
    ChainGrouped(ps, first, rep, path);
  }

  lemma RegisteredNew(ps: seq<seq<Obj>>, first: map<Obj, nat>, rep: seq<nat>, i: nat, p: nat)
    requires Registered(ps, first, rep, i, p) && i < |ps| && p < |ps[i]| && ps[i][p] !in first
    ensures Registered(ps, first[ps[i][p] := i], rep, i, p + 1)
  {
  }

  /** Join transaction `i` with the first one that had its participant `p`. */
  method Join(ps: seq<seq<Obj>>, parent: array<nat>, first: map<Obj, nat>, i: nat, p: nat, ghost rep: seq<nat>,
              ghost dist: seq<nat>)
    returns (ghost rep': seq<nat>, ghost dist': seq<nat>)
    requires parent.Length == |ps| && i < |ps| && p < |ps[i]| && ps[i][p] in first
    requires Forest(parent[..], rep, dist) && Sound(ps, rep) && Registered(ps, first, rep, i, p)
    modifies parent
    ensures Forest(parent[..], rep', dist') && Sound(ps, rep') && Registered(ps, first, rep', i, p + 1)
  {
    var j := first[ps[i][p]];
    var a := Find(parent, i, rep, dist);
    var b := Find(parent, j, rep, dist);
    UnionForest(parent[..], rep, dist, a, b);
    assert Linked(ps, i, j);
    UnionSound(ps, rep, i, j);
    RegisteredMerged(ps, first, rep, i, p);
    parent[a] := b;
    rep', dist' := Merged(rep, a, b), Raised(rep, dist, a, b);
  }

  lemma RegisteredRow(ps: seq<seq<Obj>>, first: map<Obj, nat>, rep: seq<nat>, i: nat)
    requires i < |ps| && Registered(ps, first, rep, i, |ps[i]|)
    ensures Registered(ps, first, rep, i + 1, 0)
  {
  }

  /** Every participant of transaction `i`. */
  method UniteRow(ps: seq<seq<Obj>>, parent: array<nat>, firstWith: map<Obj, nat>, i: nat, ghost rep: seq<nat>,
                  ghost dist: seq<nat>)
    returns (first: map<Obj, nat>, ghost rep': seq<nat>, ghost dist': seq<nat>)
    requires parent.Length == |ps| && i < |ps|
    requires Forest(parent[..], rep, dist) && Sound(ps, rep) && Registered(ps, firstWith, rep, i, 0)
    modifies parent
    ensures Forest(parent[..], rep', dist') && Sound(ps, rep') && Registered(ps, first, rep', i + 1, 0)
  {
    first, rep', dist' := firstWith, rep, dist;
    for p := 0 to |ps[i]|
      invariant Forest(parent[..], rep', dist') && Sound(ps, rep') && Registered(ps, first, rep', i, p)
    {
      if ps[i][p] in first {
        rep', dist' := Join(ps, parent, first, i, p, rep', dist');
      } else {
        RegisteredNew(ps, first, rep', i, p);
        first := first[ps[i][p] := i];
      }
    }
    RegisteredRow(ps, first, rep', i);
  }

  /** The union phase. */
  method Unite(ps: seq<seq<Obj>>, parent: array<nat>)
    returns (ghost rep: seq<nat>, ghost dist: seq<nat>, ghost first: map<Obj, nat>)
    requires parent.Length == |ps| && forall i :: 0 <= i < |ps| ==> parent[i] == i
    modifies parent
    ensures Forest(parent[..], rep, dist) && Sound(ps, rep) && Registered(ps, first, rep, |ps|, 0)
  {
    rep := seq(|ps|, (i: nat) => i);
    dist := seq(|ps|, (i: nat) => 0);
    var firstWith: map<Obj, nat> := map[];
    forall i: nat | i < |ps| ensures Connected(ps, i, i) { ConnectedRefl(ps, i); }
    for i := 0 to |ps|
      invariant Forest(parent[..], rep, dist) && Sound(ps, rep) && Registered(ps, firstWith, rep, i, 0)
    {
      firstWith, rep, dist := UniteRow(ps, parent, firstWith, i, rep, dist);
    }
    first := firstWith;
  }

  // ----- the grouping phase

  /** The components of the first `n` transactions, with the slot of every root seen. */
  ghost predicate Grouped(n: nat, rep: seq<nat>, comps: seq<seq<nat>>, slotOf: map<nat, nat>) {
    && n <= |rep|
    && (forall k :: 0 <= k < |comps| ==> comps[k] != [] && Ascending(comps[k]))
    && (forall k, p :: 0 <= k < |comps| && 0 <= p < |comps[k]| ==>
          comps[k][p] < n && rep[comps[k][p]] in slotOf && slotOf[rep[comps[k][p]]] == k)
    && (forall i: nat :: i < n ==> rep[i] in slotOf && slotOf[rep[i]] < |comps| && i in comps[slotOf[rep[i]]])
    && (forall k, l :: 0 <= k < l < |comps| ==> comps[k][0] < comps[l][0])
    && (forall r :: r in slotOf ==> slotOf[r] < |comps|)
    && (forall r, s :: r in slotOf && s in slotOf && slotOf[r] == slotOf[s] ==> r == s)
  }

  lemma GroupOld(n: nat, rep: seq<nat>, comps: seq<seq<nat>>, slotOf: map<nat, nat>, k: nat)
    requires Grouped(n, rep, comps, slotOf) && n < |rep| && rep[n] in slotOf && k == slotOf[rep[n]]
    ensures Grouped(n + 1, rep, comps[k := comps[k] + [n]], slotOf)
  {
    var c := comps[k] + [n];
    var comps' := comps[k := c];
    assert Ascending(comps[k]) && Ascending(c);
    forall i: nat | i < n + 1 ensures i in comps'[slotOf[rep[i]]] {
      if i == n { assert c[|c| - 1] == n; }
    }
  }

  lemma GroupNew(n: nat, rep: seq<nat>, comps: seq<seq<nat>>, slotOf: map<nat, nat>)
    requires Grouped(n, rep, comps, slotOf) && n < |rep| && rep[n] !in slotOf
    ensures Grouped(n + 1, rep, comps + [[n]], slotOf[rep[n] := |comps|])
  {
    var comps' := comps + [[n]];
    assert comps'[|comps|] == [n] && Ascending([n]);
  }

  method AddTo(i: nat, root: nat, comps: seq<seq<nat>>, slotOf: map<nat, nat>, ghost rep: seq<nat>)
    returns (comps': seq<seq<nat>>, slotOf': map<nat, nat>)
    requires i < |rep| && root == rep[i] && Grouped(i, rep, comps, slotOf)
    ensures Grouped(i + 1, rep, comps', slotOf')
  {
    comps', slotOf' := comps, slotOf;
    if root in slotOf {
      GroupOld(i, rep, comps, slotOf, slotOf[root]);
      comps' := comps[slotOf[root] := comps[slotOf[root]] + [i]];
    } else {
      GroupNew(i, rep, comps, slotOf);
      slotOf' := slotOf[root := |comps|];
      comps' := comps + [[i]];
    }
  }

  method Group(parent: array<nat>, ghost rep: seq<nat>, ghost dist: seq<nat>)
    returns (comps: seq<seq<nat>>, ghost slots: map<nat, nat>)
    requires Forest(parent[..], rep, dist)
    modifies parent
    ensures Grouped(|rep|, rep, comps, slots)
  {
    comps := [];
    var slotOf: map<nat, nat> := map[];
    for i := 0 to parent.Length
      invariant Forest(parent[..], rep, dist) && Grouped(i, rep, comps, slotOf)
    {
      var root := Find(parent, i, rep, dist);
      comps, slotOf := AddTo(i, root, comps, slotOf, rep);
    }
    slots := slotOf;
  }

  lemma GroupsAreComponents(ps: seq<seq<Obj>>, first: map<Obj, nat>, rep: seq<nat>, comps: seq<seq<nat>>,
                            slotOf: map<nat, nat>)
    requires Sound(ps, rep) && Registered(ps, first, rep, |ps|, 0) && Grouped(|ps|, rep, comps, slotOf)
    ensures AreComponents(ps, comps)
  {
    forall i: nat | i < |ps| ensures Placed(comps, i) { assert i in comps[slotOf[rep[i]]]; }
    forall k, l, p, q | 0 <= k < |comps| && 0 <= l < |comps| && 0 <= p < |comps[k]| && 0 <= q < |comps[l]|
      ensures k == l <==> Connected(ps, comps[k][p], comps[l][q])
    {
      var i, j := comps[k][p], comps[l][q];
      assert slotOf[rep[i]] == k && slotOf[rep[j]] == l;
      if Connected(ps, i, j) { Complete(ps, first, rep, i, j); }
    }
  }

  /** Group transactions, given by their participants, into connected components. */
  method Components(ps: seq<seq<Obj>>) returns (comps: seq<seq<nat>>)
    ensures AreComponents(ps, comps)
  {
    var parent := new nat[|ps|](i => i);
    ghost var rep, dist, first := Unite(ps, parent);
    ghost var slots;
    comps, slots := Group(parent, rep, dist);
    GroupsAreComponents(ps, first, rep, comps, slots);
  }

  /** In any such grouping, transactions share a component exactly when they are connected. */
  lemma SameComponent(ps: seq<seq<Obj>>, comps: seq<seq<nat>>, i: nat, j: nat)
    requires AreComponents(ps, comps) && i < |ps| && j < |ps|
    ensures Connected(ps, i, j) <==> exists k :: 0 <= k < |comps| && i in comps[k] && j in comps[k]
  {
    assert Placed(comps, i) && Placed(comps, j);
    var k :| 0 <= k < |comps| && i in comps[k];
    var l :| 0 <= l < |comps| && j in comps[l];
    PlacedApart(ps, comps, k, i, l, j);
    if m :| 0 <= m < |comps| && i in comps[m] && j in comps[m] { PlacedApart(ps, comps, m, i, m, j); }
  }

  /** Two indices found in components are connected exactly when the components are the same. */
  lemma PlacedApart(ps: seq<seq<Obj>>, comps: seq<seq<nat>>, k: nat, i: nat, l: nat, j: nat)
    requires AreComponents(ps, comps) && k < |comps| && l < |comps| && i in comps[k] && j in comps[l]
    ensures Connected(ps, i, j) <==> k == l
  {
    var p :| 0 <= p < |comps[k]| && comps[k][p] == i;
    var q :| 0 <= q < |comps[l]| && comps[l][q] == j;
    assert Connected(ps, comps[k][p], comps[l][q]) <==> k == l;
  }
}
