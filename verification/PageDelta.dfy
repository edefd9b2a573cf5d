/** Page-level deltas (src/delta.rs): a manifest of page hashes, the diff of a file
    against it, the application of a delta to an image, and their exactness. */
module PageDelta {
  import opened Bytes

  type File = seq<Byte>

  const HEADER: nat := 100

  function PageSize(file: File): (r: nat)
    ensures 1 <= r <= 65536
  {
    if |file| < HEADER then 4096
    else
      var raw: int := 256 * (file[16] as int) + file[17];
      if raw == 1 then 65536 else if raw == 0 then 4096 else raw
  }

  /** The version of a file: SQLite's big-endian change counter. */
  function ChangeCounter(file: File): (r: nat)
    ensures r < U32
  {
    if |file| < HEADER then 0 else Widths(); FromBE(file[24..28])
  }

  /** A hash of pages; the source's is SipHash into 64 bits. */
  type Hash = seq<Byte> -> int

  // ----- pages

  function PageCount(len: nat, ps: nat): nat
    requires ps > 0
  {
    (len + ps - 1) / ps
  }

  /** Page `i` of a file; the last one may be short. */
  function Page(file: File, ps: nat, i: nat): File
    requires ps > 0 && i < PageCount(|file|, ps)
  {
    PageBounds(|file|, ps, i);
    file[i * ps..Min(i * ps + ps, |file|)]
  }

  lemma PageBounds(len: nat, ps: nat, i: nat)
    requires ps > 0 && i < PageCount(len, ps)
    ensures i * ps < len
  {
    var n := PageCount(len, ps);
    Quotient(len + ps - 1, ps);
    Scaled(i + 1, n, ps);
    assert (i + 1) * ps == i * ps + ps;
  }

  lemma Quotient(x: nat, ps: nat)
    requires ps > 0
    ensures x / ps * ps <= x < x / ps * ps + ps
  {
  }

  function Hashes(file: File, ps: nat, h: Hash): (r: seq<int>)
    requires ps > 0
    ensures |r| == PageCount(|file|, ps)
  {
    seq(PageCount(|file|, ps), (i: nat) requires i < PageCount(|file|, ps) => h(Page(file, ps, i)))
  }

  // ----- diff

  datatype Manifest = Manifest(pageSize: nat, hashes: seq<int>, chainLen: nat)

  function ManifestOf(file: File, chainLen: nat, h: Hash): (m: Manifest)
    ensures m.pageSize > 0
  {
    Manifest(PageSize(file), Hashes(file, PageSize(file), h), chainLen)
  }

  datatype Delta = Delta(counter: nat, fileLen: nat, pageSize: nat, pages: seq<(nat, File)>)

  predicate PageDiffers(hashes: seq<int>, file: File, ps: nat, h: Hash, i: nat)
    requires ps > 0
  {
    i < PageCount(|file|, ps) && !(i < |hashes| && hashes[i] == h(Page(file, ps, i)))
  }

  /** The pages among the first `n` whose hash the manifest does not list, numbered in 32 bits. */
  function ChangedPages(hashes: seq<int>, file: File, ps: nat, h: Hash, n: nat): seq<(nat, File)>
    requires ps > 0 && n <= PageCount(|file|, ps)
  {
    if n == 0 then []
    else
      ChangedPages(hashes, file, ps, h, n - 1) +
      if PageDiffers(hashes, file, ps, h, n - 1) then [((n - 1) % U32, Page(file, ps, n - 1))] else []
  }

  function DiffOf(m: Manifest, file: File, h: Hash): Delta
    requires m.pageSize > 0
  {
    Delta(ChangeCounter(file), |file|, m.pageSize,
        ChangedPages(m.hashes, file, m.pageSize, h, PageCount(|file|, m.pageSize)))
  }

  function AfterDiff(m: Manifest, file: File, h: Hash): Manifest
    requires m.pageSize > 0
  {
    m.(hashes := Hashes(file, m.pageSize, h))
  }

  // ----- apply

  function Resize(file: File, len: nat): (r: File)
    ensures |r| == len
    ensures forall k :: 0 <= k < len ==> r[k] == if k < |file| then file[k] else 0
  {
    if len <= |file| then file[..len] else file + seq(len - |file|, _ => 0)
  }

  /** Overwrite from `start`, cut off at the end of the file. */
  function PutAt(file: File, start: nat, bytes: File): (r: File)
    ensures |r| == |file|
    ensures forall k :: 0 <= k < |file| ==> r[k] == if start <= k < start + |bytes| then bytes[k - start] else file[k]
  {
    if start < |file| then
      var end := Min(start + |bytes|, |file|);
      file[..start] + bytes[..end - start] + file[end..]
    else file
  }

  function PutPages(file: File, pages: seq<(nat, File)>, ps: nat): (r: File)
    ensures |r| == |file|
  {
    if pages == [] then file
    else
      var last := pages[|pages| - 1];
      PutAt(PutPages(file, pages[..|pages| - 1], ps), last.0 * ps, last.1)
  }

  function ApplyTo(file: File, d: Delta): File {
    PutPages(Resize(file, d.fileLen), d.pages, d.pageSize)
  }

  // ----- exactness

  lemma PageByte(file: File, ps: nat, i: nat, k: nat)
    requires ps > 0 && i < PageCount(|file|, ps) && i * ps <= k < i * ps + ps && k < |file|
    ensures k - i * ps < |Page(file, ps, i)| && Page(file, ps, i)[k - i * ps] == file[k]
  {
    PageBounds(|file|, ps, i);
  }

  lemma PageOfByte(k: nat, ps: nat, len: nat)
    requires ps > 0 && k < len
    ensures k / ps < PageCount(len, ps) && k / ps * ps <= k < k / ps * ps + ps
  {
    var n := PageCount(len, ps);
    assert n * ps >= len by { assert len + ps - 1 < n * ps + ps; }
    assert k / ps * ps < n * ps;
    assert (n - k / ps) * ps > 0;
  }

  lemma SamePage(k: nat, ps: nat, i: nat)
    requires ps > 0 && i * ps <= k < i * ps + ps
    ensures k / ps == i
  {
    var q := k / ps;
    assert q * ps <= k < q * ps + ps;
    if q < i { Scaled(q + 1, i, ps); } else if i < q { Scaled(i + 1, q, ps); }
  }

  lemma Scaled(a: nat, b: nat, ps: nat)
    requires a <= b
    ensures a * ps <= b * ps
  {
  }

  lemma PagesCover(len: nat, ps: nat)
    requires ps > 0
    ensures len <= PageCount(len, ps) * ps
  {
    var x := len + ps - 1;
    assert x < x / ps * ps + ps;
  }

  lemma PutsPage(before: File, file: File, ps: nat, i: nat)
    requires ps > 0 && i < PageCount(|file|, ps) && |before| == |file|
    ensures forall k :: 0 <= k < |file| ==>
              PutAt(before, i * ps, Page(file, ps, i))[k] == if i * ps <= k < i * ps + ps then file[k] else before[k]
  {
    PageBounds(|file|, ps, i);
    var start := i * ps;
    assert Page(file, ps, i) == file[start..Min(start + ps, |file|)];
  }

  lemma NextPut(hashes: seq<int>, old_: File, file: File, ps: nat, h: Hash, i: nat)
    requires ps > 0 && i < PageCount(|file|, ps) && i < U32
    ensures var before := PutPages(Resize(old_, |file|), ChangedPages(hashes, file, ps, h, i), ps);
            PutPages(Resize(old_, |file|), ChangedPages(hashes, file, ps, h, i + 1), ps) ==
              if PageDiffers(hashes, file, ps, h, i) then PutAt(before, i * ps, Page(file, ps, i)) else before
  {
    var some := ChangedPages(hashes, file, ps, h, i);
    var more := ChangedPages(hashes, file, ps, h, i + 1);
    if PageDiffers(hashes, file, ps, h, i) {
      assert more == some + [(i, Page(file, ps, i))];
      assert more[..|more| - 1] == some;
    } else {
      assert more == some;
    }
  }

  lemma PatchedPage(hashes: seq<int>, old_: File, file: File, ps: nat, h: Hash, i: nat)
    requires ps > 0 && i < PageCount(|file|, ps) && i < U32
    ensures var before := PutPages(Resize(old_, |file|), ChangedPages(hashes, file, ps, h, i), ps);
            var after := PutPages(Resize(old_, |file|), ChangedPages(hashes, file, ps, h, i + 1), ps);
            forall k :: 0 <= k < |file| ==>
              after[k] == if i * ps <= k < i * ps + ps
                  && PageDiffers(hashes, file, ps, h, i) then file[k] else before[k]
  {
    NextPut(hashes, old_, file, ps, h, i);
    PutsPage(PutPages(Resize(old_, |file|), ChangedPages(hashes, file, ps, h, i), ps), file, ps, i);
  }

  /** After the first `n` pages: changed ones carry the new bytes, the others what the resized old image had. */
  ghost predicate Patched(hashes: seq<int>, old_: File, file: File, ps: nat, h: Hash, n: nat)
    requires ps > 0 && n <= PageCount(|file|, ps)
  {
    var r := PutPages(Resize(old_, |file|), ChangedPages(hashes, file, ps, h, n), ps);
    forall k :: 0 <= k < |file| ==>
      r[k] == if k < n * ps && PageDiffers(hashes, file, ps, h, k / ps) then file[k] else Resize(old_, |file|)[k]
  }

  lemma PatchedStep(hashes: seq<int>, old_: File, file: File, ps: nat, h: Hash, i: nat)
    requires ps > 0 && i < PageCount(|file|, ps) && i < U32 && Patched(hashes, old_, file, ps, h, i)
    ensures Patched(hashes, old_, file, ps, h, i + 1)
  {
    PatchedPage(hashes, old_, file, ps, h, i);
    assert (i + 1) * ps == i * ps + ps;
    forall k | i * ps <= k < i * ps + ps ensures k / ps == i { SamePage(k, ps, i); }
  }

  /** Byte by byte: changed pages carry the new bytes, the others what the resized old image had. */
  lemma {:induction false} PatchedPrefix(hashes: seq<int>, old_: File, file: File, ps: nat, h: Hash, n: nat)
    requires ps > 0 && n <= PageCount(|file|, ps) && n <= U32
    ensures Patched(hashes, old_, file, ps, h, n)
  {
    if n > 0 {
      var i := n - 1;
      PatchedPrefix(hashes, old_, file, ps, h, i);
      PatchedStep(hashes, old_, file, ps, h, i);
    }
  }

  /** Where the manifest's hash matches, the old image (resized) already holds the new page. */
  ghost predicate MatchesAreReal(hashes: seq<int>, old_: File, file: File, ps: nat, h: Hash)
    requires ps > 0
  {
    forall i: nat :: i < PageCount(|file|, ps) && !PageDiffers(hashes, file, ps, h, i) ==>
      Page(Resize(old_, |file|), ps, i) == Page(file, ps, i)
  }

  /** Reconstruction is exact precisely when no page whose hash matched had changed. */
  lemma DiffApplyExact(m: Manifest, old_: File, file: File, h: Hash)
    requires m.pageSize > 0 && PageCount(|file|, m.pageSize) <= U32
    ensures ApplyTo(old_, DiffOf(m, file, h)) == file <==> MatchesAreReal(m.hashes, old_, file, m.pageSize, h)
  {
    var ps, r := m.pageSize, ApplyTo(old_, DiffOf(m, file, h));
    var n := PageCount(|file|, ps);
    PatchedPrefix(m.hashes, old_, file, ps, h, n);
    PagesCover(|file|, ps);
    if MatchesAreReal(m.hashes, old_, file, ps, h) {
      forall k: nat | k < |file| ensures r[k] == file[k] { MatchedByte(m.hashes, old_, file, ps, h, k); }
    }
    if r == file {
      forall i: nat | i < n && !PageDiffers(m.hashes, file, ps, h, i)
        ensures Page(Resize(old_, |file|), ps, i) == Page(file, ps, i)
      {
        forall k | i * ps <= k < i * ps + ps && k < |file| ensures Resize(old_, |file|)[k] == file[k] {
          SamePage(k, ps, i);
          assert r[k] == file[k];
        }
        PagesAgree(Resize(old_, |file|), file, ps, i);
      }
    }
  }

  lemma PagesAgree(a: File, b: File, ps: nat, i: nat)
    requires ps > 0 && |a| == |b| && i < PageCount(|a|, ps)
    requires forall k :: i * ps <= k < i * ps + ps && k < |a| ==> a[k] == b[k]
    ensures Page(a, ps, i) == Page(b, ps, i)
  {
    PageBounds(|a|, ps, i);
    assert a[i * ps..Min(i * ps + ps, |a|)] == b[i * ps..Min(i * ps + ps, |b|)];
  }

  lemma MatchedByte(hashes: seq<int>, old_: File, file: File, ps: nat, h: Hash, k: nat)
    requires ps > 0 && k < |file| && MatchesAreReal(hashes, old_, file, ps, h)
    ensures !PageDiffers(hashes, file, ps, h, k / ps) ==> Resize(old_, |file|)[k] == file[k]
  {
    PageOfByte(k, ps, |file|);
    PageByte(Resize(old_, |file|), ps, k / ps, k);
    PageByte(file, ps, k / ps, k);
  }

  /** The hash tells apart the pages at equal positions of these two files. */
  ghost predicate NoCollision(a: File, b: File, ps: nat, h: Hash)
    requires ps > 0
  {
    forall i: nat :: i < PageCount(|a|, ps) && i < PageCount(|b|, ps) && h(Page(a, ps, i)) == h(Page(b, ps, i)) ==>
      Page(a, ps, i) == Page(b, ps, i)
  }

  /** With a hash that does not collide on them, any two files are reconstructed exactly: growth,
      shrinking and short last pages included. */
  lemma DiffApplyRoundTrip(old_: File, file: File, m: Manifest, h: Hash)
    requires m.pageSize > 0 && m.hashes == Hashes(old_, m.pageSize, h)
    requires NoCollision(old_, file, m.pageSize, h) && PageCount(|file|, m.pageSize) <= U32
    ensures ApplyTo(old_, DiffOf(m, file, h)) == file
  {
    var ps := m.pageSize;
    forall i: nat | i < PageCount(|file|, ps) && !PageDiffers(m.hashes, file, ps, h, i)
      ensures Page(Resize(old_, |file|), ps, i) == Page(file, ps, i)
    {
      PageBounds(|file|, ps, i);
      PageBounds(|old_|, ps, i);
      assert Page(old_, ps, i) == Page(file, ps, i);
      assert |Page(old_, ps, i)| == Min(i * ps + ps, |old_|) - i * ps;
      forall q | 0 <= q < |Page(file, ps, i)| ensures Page(Resize(old_, |file|), ps, i)[q] == Page(file, ps, i)[q] {
        assert Page(old_, ps, i)[q] == old_[i * ps + q];
      }
    }
    DiffApplyExact(m, old_, file, h);
  }

  /** Diffing leaves the manifest a fresh one would be exactly when the file kept its page size. */
  lemma DiffRefreshesManifest(m: Manifest, file: File, h: Hash)
    requires m.pageSize > 0
    ensures AfterDiff(m, file, h) == ManifestOf(file, m.chainLen, h) <==> PageSize(file) == m.pageSize
  {
  }

  // ----- what is shipped, and what a header says

  /** A diff carries, in ascending order, only pages that the old file lacks or has differently: a file that has not
      changed ships none. */
  lemma ShipsOnlyChanged(old_: File, file: File, m: Manifest, h: Hash)
    requires m.pageSize > 0 && m.hashes == Hashes(old_, m.pageSize, h) && PageCount(|file|, m.pageSize) <= U32
    ensures forall p :: p in DiffOf(m, file, h).pages ==>
              && p.0 < PageCount(|file|, m.pageSize) && p.1 == Page(file, m.pageSize, p.0)
              && (p.0 < PageCount(|old_|, m.pageSize) ==> p.1 != Page(old_, m.pageSize, p.0))
    ensures file == old_ ==> DiffOf(m, file, h).pages == []
  {
    ChangedOnly(old_, file, m.pageSize, h, PageCount(|file|, m.pageSize));
    var pages := DiffOf(m, file, h).pages;
    assert pages == [] || pages[0] in pages;
  }

  lemma {:induction false} ChangedOnly(old_: File, file: File, ps: nat, h: Hash, n: nat)
    requires ps > 0 && n <= PageCount(|file|, ps) <= U32
    ensures forall p :: p in ChangedPages(Hashes(old_, ps, h), file, ps, h, n) ==>
              && p.0 < n && p.1 == Page(file, ps, p.0)
              && (p.0 < PageCount(|old_|, ps) ==> p.1 != Page(old_, ps, p.0))
  {
    if n > 0 { ChangedOnly(old_, file, ps, h, n - 1); }
  }

  /** A header is read as SQLite writes it: the page size in the two bytes at 16, 64 KiB written as 1, and the version
      in the four bytes at 24, both with the most significant byte first. */
  lemma HeaderReads(file: File, ps: nat)
    requires |file| >= 100 && 1 < ps <= 65536
    requires file[16..18] == if ps == 65536 then [0, 1] else [ps / 256, ps % 256]
    ensures PageSize(file) == ps && ChangeCounter(file) == U32Of(file[27], file[26], file[25], file[24])
  {
    assert file[16] == file[16..18][0] && file[17] == file[16..18][1];
    FourBytes(Reversed(file[24..28]));
  }

  /** Without a header, or with none filled in, the defaults hold. */
  lemma HeaderMissing(file: File)
    requires |file| < 100 || file[16..18] == [0, 0]
    ensures PageSize(file) == 4096 && (|file| < 100 ==> ChangeCounter(file) == 0)
  {
    if |file| >= 100 { assert file[16] == file[16..18][0] && file[17] == file[16..18][1]; }
  }
}
