/** Activating an object from its base blob and delta chain (src/object.rs, `fetch_image` on the base/delta engine),
    possibly starting from a local file left by an earlier tenure instead of the base. */
module FetchImage {
  import opened Bytes
  import opened PageDelta
  import opened DeltaWire
  import opened LogEntry

  /** The base's version, read straight from its header bytes; none if it is too short to have them. */
  function BaseCounter(base: Option<File>): Option<nat> {
    if base.Some? && |base.value| >= 28 then Widths(); Some(FromBE(base.value[24..28])) else None
  }

  /** How far durable state reaches: the base or a listed delta, and none of them is beyond it. */
  function MaxDurable(keys: seq<nat>, b: nat): (m: nat)
    ensures b <= m && forall i :: 0 <= i < |keys| ==> keys[i] <= m
    ensures m == b || m in keys
  {
    if keys == [] then b
    else
      var rest := MaxDurable(keys[..|keys| - 1], b);
      assert forall i :: 0 <= i < |keys| - 1 ==> keys[i] == keys[..|keys| - 1][i];
      assert rest in keys[..|keys| - 1] ==> rest in keys;
      if keys[|keys| - 1] > rest then keys[|keys| - 1] else rest
  }

  /** A local file is a checkpoint of the durable chain only within these bounds: below the base it is stale, beyond the
      last durable delta it holds writes that were never committed. */
  predicate Usable(cached: Option<File>, b: nat, m: nat) {
    cached.Some? && |cached.value| >= 100 && b <= ChangeCounter(cached.value) <= m
  }

  /** Apply, in order, the deltas above `low`; a delta that is gone or does not decode fails the activation. */
  function Chain(image: File, keys: seq<nat>, blobs: map<nat, seq<Byte>>, low: nat): Option<File>
    decreases |keys|
  {
    if keys == [] then Some(image)
    else if keys[0] <= low then Chain(image, keys[1..], blobs, low)
    else if keys[0] !in blobs || Decode(blobs[keys[0]]).None? then None
    else Chain(ApplyTo(image, Decode(blobs[keys[0]]).value), keys[1..], blobs, low)
  }

  /** What activation yields without any local file: the base and all newer deltas. */
  function Rebuild(base: Option<File>, keys: seq<nat>, blobs: map<nat, seq<Byte>>): Option<File> {
    match BaseCounter(base)
    case None => Some([])
    case Some(b) => Chain(base.value, keys, blobs, b)
  }

  function CountAbove(keys: seq<nat>, b: nat): nat {
    if keys == [] then 0 else CountAbove(keys[..|keys| - 1], b) + if keys[|keys| - 1] > b then 1 else 0
  }

  function Start(base: File, cached: Option<File>, b: nat, m: nat): File {
    if Usable(cached, b, m) then cached.value else base
  }

  function Above(b: nat, have: nat): nat {
    if have < b then b else have
  }

  /** What activation yields with the local file. */
  function Fetched(base: Option<File>, keys: seq<nat>, blobs: map<nat, seq<Byte>>, cached: Option<File>): Option<File> {
    match BaseCounter(base)
    case None => Some([])
    case Some(b) =>
      var start := Start(base.value, cached, b, MaxDurable(keys, b));
      Chain(start, keys, blobs, Above(b, ChangeCounter(start)))
  }

  /** `fetch_image`.  `keys` are the listed delta counters, `blobs` what can still be fetched of them. */
  method Fetch(base: Option<File>, keys: seq<nat>, blobs: map<nat, seq<Byte>>, cached: Option<File>)
    returns (image: Option<File>, chainTotal: nat)
    ensures image == Fetched(base, keys, blobs, cached)
    ensures image.Some? ==>
              chainTotal == match BaseCounter(base) { case None => 0 case Some(b) => CountAbove(keys, b) }
  {
    Widths();
    if base.None? || |base.value| < 28 {
      return Some([]), 0;
    }
    var b := FromBE(base.value[24..28]);
    var maxDurable := LastDurable(keys, b);
    var current := base.value;
    if cached.Some? && |cached.value| >= 100 && b <= ChangeCounter(cached.value) <= maxDurable {
      current := cached.value;
    }
    image, chainTotal := RollForward(current, keys, blobs, b);
  }

  method LastDurable(keys: seq<nat>, b: nat) returns (m: nat)
    ensures m == MaxDurable(keys, b)
  {
    m := b;
    for i := 0 to |keys|
      invariant m == MaxDurable(keys[..i], b)
    {
      assert keys[..i + 1][..i] == keys[..i];
      if keys[i] > b && keys[i] > m { m := keys[i]; }
    }
    assert keys[..|keys|] == keys;
  }

  /** Apply what the image does not have yet; count all that is above the base. */
  method RollForward(start: File, keys: seq<nat>, blobs: map<nat, seq<Byte>>, b: nat)
    returns (image: Option<File>, chainTotal: nat)
    ensures image == Chain(start, keys, blobs, Above(b, ChangeCounter(start)))
    ensures image.Some? ==> chainTotal == CountAbove(keys, b)
  {
    var have := ChangeCounter(start);
    ghost var low := Above(b, have);
    var current := start;
    chainTotal := 0;
    for i := 0 to |keys|
      invariant Chain(current, keys[i..], blobs, low) == Chain(start, keys, blobs, low)
      invariant chainTotal == CountAbove(keys[..i], b)
    {
      assert keys[i..][1..] == keys[i + 1..] && keys[..i + 1][..i] == keys[..i];
      if keys[i] > b {
        chainTotal := chainTotal + 1;
        if keys[i] > have {
          if keys[i] !in blobs { return None, chainTotal; }
          var d := DecodeDelta(blobs[keys[i]]);
          if d.None? { return None, chainTotal; }
          current := ApplyTo(current, d.value);
        }
      }
    }
    assert keys[..|keys|] == keys;
    image := Some(current);
  }

  // ----- the local file agrees with the plain rebuild

  ghost predicate Ascending(keys: seq<nat>) {
    forall i, j :: 0 <= i < j < |keys| ==> keys[i] < keys[j]
  }

  /** The state shipped at counter `c`: the base and the deltas up to it. */
  function ShippedAt(image: File, keys: seq<nat>, blobs: map<nat, seq<Byte>>, low: nat, c: nat): Option<File>
    decreases |keys|
  {
    if keys == [] || keys[0] > c then Some(image)
    else if keys[0] <= low then ShippedAt(image, keys[1..], blobs, low, c)
    else if keys[0] !in blobs || Decode(blobs[keys[0]]).None? then None
    else ShippedAt(ApplyTo(image, Decode(blobs[keys[0]]).value), keys[1..], blobs, low, c)
  }

  /** The rebuild goes through the state shipped at any counter on the way. */
  lemma {:induction false} ChainSplits(image: File, keys: seq<nat>, blobs: map<nat, seq<Byte>>, low: nat, c: nat)
    requires Ascending(keys) && low <= c && ShippedAt(image, keys, blobs, low, c).Some?
    ensures Chain(image, keys, blobs, low) == Chain(ShippedAt(image, keys, blobs, low, c).value, keys, blobs, c)
    decreases |keys|
  {
    if keys != [] {
      if keys[0] > c {
        SameAbove(image, keys, blobs, low, c);
      } else {
        var next := if keys[0] <= low then image else ApplyTo(image, Decode(blobs[keys[0]]).value);
        ChainSplits(next, keys[1..], blobs, low, c);
      }
    }
  }

  lemma {:induction false} SameAbove(image: File, keys: seq<nat>, blobs: map<nat, seq<Byte>>, low: nat, c: nat)
    requires forall i :: 0 <= i < |keys| ==> keys[i] > low && keys[i] > c
    ensures Chain(image, keys, blobs, low) == Chain(image, keys, blobs, c)
    decreases |keys|
  {
    if keys != [] && keys[0] in blobs && Decode(blobs[keys[0]]).Some? {
      SameAbove(ApplyTo(image, Decode(blobs[keys[0]]).value), keys[1..], blobs, low, c);
    }
  }

  /** With a local file that is, whenever it is used, the state shipped at its own counter, activation yields exactly
      the plain rebuild. */
  lemma CachedAgrees(base: Option<File>, keys: seq<nat>, blobs: map<nat, seq<Byte>>, cached: Option<File>)
    requires Ascending(keys) && BaseCounter(base).Some?
    requires var b := BaseCounter(base).value;
             Usable(cached, b, MaxDurable(keys, b)) ==>
               ShippedAt(base.value, keys, blobs, b, ChangeCounter(cached.value)) == Some(cached.value)
    ensures Fetched(base, keys, blobs, cached) == Rebuild(base, keys, blobs)
  {
    var b := BaseCounter(base).value;
    if Usable(cached, b, MaxDurable(keys, b)) {
      ChainSplits(base.value, keys, blobs, b, ChangeCounter(cached.value));
    }
  }

  /** A local file that is stale, ahead of durable state or too short has no influence: activation yields what it yields
      without one, the plain rebuild. */
  lemma OutsideIgnored(base: Option<File>, keys: seq<nat>, blobs: map<nat, seq<Byte>>, cached: Option<File>)
    requires BaseCounter(base).Some? && cached.Some? && |cached.value| >= 100 ==>
               var c := ChangeCounter(cached.value);
               || c < BaseCounter(base).value
               || (c > BaseCounter(base).value && forall k :: k in keys ==> c > k)
    ensures Fetched(base, keys, blobs, cached) == Fetched(base, keys, blobs, None) == Rebuild(base, keys, blobs)
  {
  }

  /** Any other local file is where activation starts: it is rolled forward by exactly the deltas above its counter. */
  lemma InsideUsed(base: Option<File>, keys: seq<nat>, blobs: map<nat, seq<Byte>>, cached: File)
    requires BaseCounter(base).Some? && |cached| >= 100 && BaseCounter(base).value <= ChangeCounter(cached)
    requires ChangeCounter(cached) == BaseCounter(base).value || exists k :: k in keys && ChangeCounter(cached) <= k
    ensures Fetched(base, keys, blobs, Some(cached)) == Chain(cached, keys, blobs, ChangeCounter(cached))
  {
    var b := BaseCounter(base).value;
    if ChangeCounter(cached) > b {
      var k :| k in keys && ChangeCounter(cached) <= k;
      var i :| 0 <= i < |keys| && keys[i] == k;
      assert k <= MaxDurable(keys, b);
    }
  }

  // ----- what was published is what is activated

  /** The versions shipped after `prev`, each as its diff from the one before, stored under its own counter. */
  ghost predicate Published(prev: File, m: Manifest, versions: seq<File>, keys: seq<nat>, blobs: map<nat, seq<Byte>>,
                            h: Hash)
    requires m.pageSize > 0
    decreases |versions|
  {
    && |keys| == |versions|
    && (versions != [] ==>
          && ChangeCounter(prev) < ChangeCounter(versions[0]) == keys[0]
          && 100 <= |versions[0]| < U32 && NoCollision(prev, versions[0], m.pageSize, h)
          && keys[0] in blobs && blobs[keys[0]] == Encode(DiffOf(m, versions[0], h))
          && Published(versions[0], AfterDiff(m, versions[0], h), versions[1..], keys[1..], blobs, h))
  }

  function Newest(prev: File, versions: seq<File>): File {
    if versions == [] then prev else versions[|versions| - 1]
  }

  lemma {:induction false} ChainRestores(prev: File, m: Manifest, versions: seq<File>, keys: seq<nat>,
                                         blobs: map<nat, seq<Byte>>, h: Hash, low: nat)
    requires 0 < m.pageSize < U32 && m.hashes == Hashes(prev, m.pageSize, h)
    requires Published(prev, m, versions, keys, blobs, h) && low <= ChangeCounter(prev)
    ensures Chain(prev, keys, blobs, low) == Some(Newest(prev, versions))
    decreases |versions|
  {
    if versions != [] {
      OneShipmentFolds(prev, m, versions[0], h);
      ChainRestores(versions[0], AfterDiff(m, versions[0], h), versions[1..], keys[1..], blobs, h, low);
    }
  }

  /** From any version in between the later deltas lead to the newest one. */
  lemma {:induction false} ChainResumes(prev: File, m: Manifest, versions: seq<File>, keys: seq<nat>,
                                        blobs: map<nat, seq<Byte>>, h: Hash, j: nat)
    requires 0 < m.pageSize < U32 && j < |versions| && Published(prev, m, versions, keys, blobs, h)
    ensures ChangeCounter(prev) < ChangeCounter(versions[j]) && ChangeCounter(versions[j]) in keys
    ensures 100 <= |versions[j]|
    ensures Chain(versions[j], keys, blobs, ChangeCounter(versions[j])) == Some(Newest(prev, versions))
    decreases |versions|
  {
    var m' := AfterDiff(m, versions[0], h);
    if j == 0 {
      ChainRestores(versions[0], m', versions[1..], keys[1..], blobs, h, keys[0]);
    } else {
      ChainResumes(versions[0], m', versions[1..], keys[1..], blobs, h, j - 1);
      assert versions[1..][j - 1] == versions[j];
    }
  }

  /** Deltas a compaction has superseded are passed over. */
  lemma {:induction false} ChainSkips(image: File, stale: seq<nat>, keys: seq<nat>, blobs: map<nat, seq<Byte>>,
                                      low: nat)
    requires forall i :: 0 <= i < |stale| ==> stale[i] <= low
    ensures Chain(image, stale + keys, blobs, low) == Chain(image, keys, blobs, low)
    decreases |stale|
  {
    if stale == [] {
      assert stale + keys == keys;
    } else {
      assert (stale + keys)[1..] == stale[1..] + keys && (stale + keys)[0] == stale[0];
      ChainSkips(image, stale[1..], keys, blobs, low);
    }
  }

  /** Activation gives back the newest published file, whatever superseded deltas are still listed, and whether it
      starts from the base, from a local file that is any published version, or from a base with a useless local file.
      */
  lemma ActivationRestores(base: File, h: Hash, versions: seq<File>, stale: seq<nat>, keys: seq<nat>,
                           blobs: map<nat, seq<Byte>>, cached: Option<File>)
    requires |base| >= 100 && Published(base, ManifestOf(base, 0, h), versions, keys, blobs, h)
    requires forall i :: 0 <= i < |stale| ==> stale[i] <= ChangeCounter(base)
    requires cached.Some? ==>
               || cached.value == base || cached.value in versions
               || |cached.value| < 100 || ChangeCounter(cached.value) < ChangeCounter(base)
               || (ChangeCounter(cached.value) > ChangeCounter(base) && forall k :: k in keys ==>
                     ChangeCounter(cached.value) > k)
    ensures Fetched(Some(base), stale + keys, blobs, cached) == Some(Newest(base, versions))
  {
    var m, b := ManifestOf(base, 0, h), ChangeCounter(base);
    assert BaseCounter(Some(base)) == Some(b);
    if cached.Some? && cached.value in versions {
      var c := ChangeCounter(cached.value);
      var j :| 0 <= j < |versions| && versions[j] == cached.value;
      ChainResumes(base, m, versions, keys, blobs, h, j);
      assert c in stale + keys by { assert c in keys; }
      InsideUsed(Some(base), stale + keys, blobs, cached.value);
      ChainSkips(cached.value, stale, keys, blobs, c);
    } else {
      ChainSkips(base, stale, keys, blobs, b);
      ChainRestores(base, m, versions, keys, blobs, h, b);
      if cached == Some(base) {
        InsideUsed(Some(base), stale + keys, blobs, base);
      } else {
        OutsideIgnored(Some(base), stale + keys, blobs, cached);
      }
    }
  }

  /** The count is that of the deltas above the base, in whatever order they are listed. */
  lemma {:induction false} CountsNewer(keys: seq<nat>, b: nat)
    requires forall i, j :: 0 <= i < j < |keys| ==> keys[i] != keys[j]
    ensures CountAbove(keys, b) == |set k | k in keys && k > b|
  {
    var above := set k | k in keys && k > b;
    if keys != [] {
      var init, last := keys[..|keys| - 1], keys[|keys| - 1];
      CountsNewer(init, b);
      var before := set k | k in init && k > b;
      assert keys == init + [last];
      assert above == if last > b then before + {last} else before;
    }
  }

  // ----- exactly which local files agree

  function ApplyAll(image: File, ds: seq<Delta>): File
    decreases |ds|
  {
    if ds == [] then image else ApplyAll(ApplyTo(image, ds[0]), ds[1..])
  }

  ghost predicate Covers(d: Delta, p: nat) {
    InPages(d.pages, d.pageSize, p)
  }

  ghost predicate InPage(page: (nat, File), ps: nat, p: nat) {
    page.0 * ps <= p < page.0 * ps + |page.1|
  }

  ghost predicate InPages(pages: seq<(nat, File)>, ps: nat, p: nat) {
    exists j :: 0 <= j < |pages| && InPage(pages[j], ps, p)
  }

  lemma InLast(pages: seq<(nat, File)>, ps: nat, p: nat)
    requires pages != []
    ensures InPages(pages, ps, p) <==> InPage(pages[|pages| - 1], ps, p) || InPages(pages[..|pages| - 1], ps, p)
  {
    var most := pages[..|pages| - 1];
    if InPages(most, ps, p) {
      var j :| 0 <= j < |most| && InPage(most[j], ps, p);
      assert InPage(pages[j], ps, p);
    }
    if InPages(pages, ps, p) && !InPage(pages[|pages| - 1], ps, p) {
      var j :| 0 <= j < |pages| && InPage(pages[j], ps, p);
      assert InPage(most[j], ps, p);
    }
  }

  lemma PutLast(x: File, y: File, pages: seq<(nat, File)>, ps: nat, p: nat)
    requires pages != [] && |x| == |y| && p < |x|
    ensures var most, last := pages[..|pages| - 1], pages[|pages| - 1];
            && PutPages(x, pages, ps)[p] ==
                (if InPage(last, ps, p) then last.1[p - last.0 * ps] else PutPages(x, most, ps)[p])
            && PutPages(y, pages, ps)[p] ==
                (if InPage(last, ps, p) then last.1[p - last.0 * ps] else PutPages(y, most, ps)[p])
  {
  }

  /** The byte at `p` of the starting image reaches the end: never cut off, never overwritten. */
  ghost predicate Survives(p: nat, ds: seq<Delta>) {
    forall i :: 0 <= i < |ds| ==> p < ds[i].fileLen && !Covers(ds[i], p)
  }

  function ByteAt(image: File, p: nat): Byte {
    if p < |image| then image[p] else 0
  }

  lemma {:induction false} PutBytes(x: File, y: File, pages: seq<(nat, File)>, ps: nat, p: nat)
    requires |x| == |y| && p < |x|
    ensures PutPages(x, pages, ps)[p] ==
            if InPages(pages, ps, p) then PutPages(y, pages, ps)[p] else x[p]
  {
    if pages != [] {
      var most := pages[..|pages| - 1];
      PutBytes(x, y, most, ps, p);
      InLast(pages, ps, p);
      PutLast(x, y, pages, ps, p);
    }
  }

  lemma ApplyByte(x: File, y: File, d: Delta, p: nat)
    requires p < d.fileLen
    ensures Covers(d, p) ==> ApplyTo(x, d)[p] == ApplyTo(y, d)[p]
    ensures !Covers(d, p) ==> ApplyTo(x, d)[p] == ByteAt(x, p)
  {
    PutBytes(Resize(x, d.fileLen), Resize(y, d.fileLen), d.pages, d.pageSize, p);
  }

  /** Two starting images lead to the same result exactly when they agree on every byte that survives the deltas. */
  lemma {:induction false} SameResult(x: File, y: File, ds: seq<Delta>)
    requires ds != []
    ensures ApplyAll(x, ds) == ApplyAll(y, ds) <==> forall p: nat :: Survives(p, ds) ==> ByteAt(x, p) == ByteAt(y, p)
    decreases |ds|
  {
    var d, rest := ds[0], ds[1..];
    var x', y' := ApplyTo(x, d), ApplyTo(y, d);
    assert |x'| == |y'| == d.fileLen;
    forall p: nat | Survives(p, rest) && p < d.fileLen
      ensures Survives(p, ds) <==> !Covers(d, p)
      ensures if Covers(d, p) then x'[p] == y'[p] else x'[p] == ByteAt(x, p) && y'[p] == ByteAt(y, p)
    {
      ApplyByte(x, y, d, p);
      ApplyByte(y, x, d, p);
      SurvivesBoth(p, ds);
    }
    forall p: nat | Survives(p, ds) ensures Survives(p, rest) && p < d.fileLen { SurvivesBoth(p, ds); }
    if rest == [] {
      assert ApplyAll(x, ds) == x' && ApplyAll(y, ds) == y';
      if forall p: nat :: Survives(p, ds) ==> ByteAt(x, p) == ByteAt(y, p) {
        forall p: nat | p < d.fileLen ensures x'[p] == y'[p] { assert Survives(p, rest); }
      }
    } else {
      SameResult(x', y', rest);
    }
  }

  lemma SurvivesBoth(p: nat, ds: seq<Delta>)
    requires ds != []
    ensures Survives(p, ds) <==> p < ds[0].fileLen && !Covers(ds[0], p) && Survives(p, ds[1..])
  {
    if p < ds[0].fileLen && !Covers(ds[0], p) && Survives(p, ds[1..]) {
      forall i | 0 <= i < |ds| ensures p < ds[i].fileLen && !Covers(ds[i], p) {
        if i > 0 { assert ds[1..][i - 1] == ds[i]; }
      }
    }
    if Survives(p, ds) {
      forall i | 0 <= i < |ds[1..]| ensures p < ds[1..][i].fileLen && !Covers(ds[1..][i], p) {
        assert ds[1..][i] == ds[i + 1];
      }
    }
  }

  /** The decoded deltas above `low`. */
  function Decoded(keys: seq<nat>, blobs: map<nat, seq<Byte>>, low: nat): Option<seq<Delta>>
    decreases |keys|
  {
    if keys == [] then Some([])
    else if keys[0] <= low then Decoded(keys[1..], blobs, low)
    else if keys[0] !in blobs || Decode(blobs[keys[0]]).None? then None
    else
      match Decoded(keys[1..], blobs, low)
      case None => None
      case Some(rest) => Some([Decode(blobs[keys[0]]).value] + rest)
  }

  lemma {:induction false} ChainDecoded(image: File, keys: seq<nat>, blobs: map<nat, seq<Byte>>, low: nat)
    ensures Chain(image, keys, blobs, low) ==
            match Decoded(keys, blobs, low) { case None => None case Some(ds) => Some(ApplyAll(image, ds)) }
    decreases |keys|
  {
    if keys != [] {
      if keys[0] <= low {
        ChainDecoded(image, keys[1..], blobs, low);
      } else if keys[0] in blobs && Decode(blobs[keys[0]]).Some? {
        var d := Decode(blobs[keys[0]]).value;
        ChainDecoded(ApplyTo(image, d), keys[1..], blobs, low);
        if Decoded(keys[1..], blobs, low).Some? {
          assert ([d] + Decoded(keys[1..], blobs, low).value)[1..] == Decoded(keys[1..], blobs, low).value;
        }
      }
    }
  }

  /** A usable local file yields the plain rebuild exactly when, with deltas still to come, it agrees with the state
      shipped at its counter on every byte they neither overwrite nor cut off; with none to come, when it is that
      state. */
  lemma CachedExact(base: File, keys: seq<nat>, blobs: map<nat, seq<Byte>>, b: nat, cache: File, shipped: File)
    requires Ascending(keys) && b <= ChangeCounter(cache)
    requires ShippedAt(base, keys, blobs, b, ChangeCounter(cache)) == Some(shipped)
    requires Decoded(keys, blobs, ChangeCounter(cache)).Some?
    ensures var ds := Decoded(keys, blobs, ChangeCounter(cache)).value;
            Chain(cache, keys, blobs, ChangeCounter(cache)) == Chain(base, keys, blobs, b) <==>
              if ds == [] then cache == shipped
              else forall p: nat :: Survives(p, ds) ==> ByteAt(cache, p) == ByteAt(shipped, p)
  {
    var c := ChangeCounter(cache);
    ChainSplits(base, keys, blobs, b, c);
    ChainDecoded(cache, keys, blobs, c);
    ChainDecoded(shipped, keys, blobs, c);
    var ds := Decoded(keys, blobs, c).value;
    if ds != [] { SameResult(cache, shipped, ds); }
  }
}
