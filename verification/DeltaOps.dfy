/** The objects of src/delta.rs that are updated in place: a manifest that each diff
    brings up to date, and a file image that deltas overwrite. */
module DeltaOps {
  import opened Bytes
  import opened PageDelta

  class LiveManifest {
    const hash: Hash
    var pageSize: nat
    var hashes: seq<int>
    var chainLen: nat

    ghost function View(): Manifest
      reads this
    {
      Manifest(pageSize, hashes, chainLen)
    }

    constructor (file: File, chainLen: nat, h: Hash)
      ensures View() == ManifestOf(file, chainLen, h) && hash == h
    {
      hash, pageSize, hashes, this.chainLen := h, PageSize(file), Hashes(file, PageSize(file), h), chainLen;
    }

    /** Ship `file` against the last shipped state, which the manifest then forgets. */
    method Diff(file: File) returns (d: Delta)
      requires pageSize > 0
      modifies this`hashes
      ensures d == DiffOf(old(View()), file, hash) && View() == AfterDiff(old(View()), file, hash)
    {
      var n := PageCount(|file|, pageSize);
      var pages: seq<(nat, File)> := [];
      var newHashes: seq<int> := [];
      for i := 0 to n
        invariant pages == ChangedPages(hashes, file, pageSize, hash, i)
        invariant newHashes == Hashes(file, pageSize, hash)[..i]
      {
        var chunk := Page(file, pageSize, i);
        var hv := hash(chunk);
        newHashes := newHashes + [hv];
        if !(i < |hashes| && hashes[i] == hv) { pages := pages + [(i % U32, chunk)]; }
      }
      hashes := newHashes;
      d := Delta(ChangeCounter(file), |file|, pageSize, pages);
    }
  }

  class Image {
    var bytes: File

    constructor (b: File)
      ensures bytes == b
    {
      bytes := b;
    }

    /** Overwrite in place, cut off at the end of the image. */
    static method Overwrite(image: File, start: nat, body: File) returns (r: File)
      ensures r == PutAt(image, start, body)
    {
      var end := Min(start + |body|, |image|);
      r := image;
      if start < |image| {
        r := image[..start] + body[..end - start] + image[end..];
      }
    }

    /** Fix the length, then overwrite the shipped pages. */
    method Patch(d: Delta)
      modifies this
      ensures bytes == ApplyTo(old(bytes), d)
    {
      bytes := Resize(bytes, d.fileLen);
      ghost var base := bytes;
      for i := 0 to |d.pages|
        invariant bytes == PutPages(base, d.pages[..i], d.pageSize)
      {
        var (no, body) := d.pages[i];
        assert d.pages[..i + 1][..i] == d.pages[..i];
        bytes := Overwrite(bytes, no * d.pageSize, body);
      }
      assert d.pages[..|d.pages|] == d.pages;
    }
  }
}
