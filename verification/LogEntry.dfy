/** Log entries (src/objlog.rs): their payloads, their wire format, and the fold that
    turns a base image and a run of payloads into the current image. */
module LogEntry {
  import opened Bytes
  import opened PageDelta
  import opened DeltaWire

  datatype Payload = Snapshot(bytes: seq<Byte>) | DeltaBytes(bytes: seq<Byte>)

  // ----- fold

  /** One entry's effect; a delta that does not decode fails the fold. */
  function FoldOne(image: File, p: Payload): Option<File> {
    match p
    case Snapshot(b) => Some(b)
    case DeltaBytes(b) =>
      match Decode(b)
      case None => None
      case Some(d) => Some(ApplyTo(image, d))
  }

  function Fold(image: File, ps: seq<Payload>): Option<File>
    decreases |ps|
  {
    if ps == [] then Some(image)
    else
      match FoldOne(image, ps[0])
      case None => None
      case Some(next) => Fold(next, ps[1..])
  }

  lemma {:induction false} FoldAppend(image: File, a: seq<Payload>, b: seq<Payload>)
    ensures Fold(image, a + b) == match Fold(image, a) { case None => None case Some(mid) => Fold(mid, b) }
    decreases |a|
  {
    if a == [] {
      assert a + b == b;
    } else {
      assert (a + b)[1..] == a[1..] + b;
      match FoldOne(image, a[0]) {
        case None =>
        case Some(next) => FoldAppend(next, a[1..], b);
      }
    }
  }

  method FoldLoop(base: File, ps: seq<Payload>) returns (r: Option<File>)
    ensures r == Fold(base, ps)
  {
    var image := base;
    for i := 0 to |ps|
      invariant Fold(image, ps[i..]) == Fold(base, ps)
    {
      assert ps[i..][1..] == ps[i + 1..];
      match ps[i]
      case Snapshot(b) => image := b;
      case DeltaBytes(b) =>
        var d := DecodeDelta(b);
        if d.None? { return None; }
        image := ApplyTo(image, d.value);
    }
    return Some(image);
  }

  // ----- a run of shipments folds back to the last file

  /** What shipping the versions one after another leaves in the log: a snapshot where `snap` says so,
      else the diff against the manifest, which every shipment brings up to date. */
  function Shipments(m: Manifest, versions: seq<File>, snap: seq<bool>, h: Hash): (r: seq<Payload>)
    requires m.pageSize > 0 && |snap| == |versions|
    ensures |r| == |versions|
    decreases |versions|
  {
    if versions == [] then []
    else
      [if snap[0] then Snapshot(versions[0]) else DeltaBytes(Encode(DiffOf(m, versions[0], h)))] +
      Shipments(AfterDiff(m, versions[0], h), versions[1..], snap[1..], h)
  }

  /** Files the format can carry, each told apart from its predecessor by the hash. */
  ghost predicate Shippable(prev: File, versions: seq<File>, ps: nat, h: Hash)
    requires ps > 0
    decreases |versions|
  {
    versions == [] ||
    (NoCollision(prev, versions[0], ps, h) && |versions[0]| < U32 && Shippable(versions[0], versions[1..], ps, h))
  }

  lemma PageFits(file: File, ps: nat, i: nat)
    requires ps > 0 && i < PageCount(|file|, ps)
    ensures |Page(file, ps, i)| <= |file|
  {
    PageBounds(|file|, ps, i);
  }

  lemma {:induction false} ChangedPagesFit(hashes: seq<int>, file: File, ps: nat, h: Hash, n: nat)
    requires ps > 0 && n <= PageCount(|file|, ps) && |file| < U32
    ensures PagesFit(ChangedPages(hashes, file, ps, h, n)) && |ChangedPages(hashes, file, ps, h, n)| <= n
  {
    if n > 0 {
      ChangedPagesFit(hashes, file, ps, h, n - 1);
      PageFits(file, ps, n - 1);
    }
  }

  lemma PageCountAtMost(len: nat, ps: nat)
    requires ps > 0
    ensures PageCount(len, ps) <= len
  {
    var n := PageCount(len, ps);
    if n > 0 {
      PageBounds(len, ps, n - 1);
      Scaled(1, ps, n - 1);
      assert (n - 1) * ps >= n - 1 by { assert ps * (n - 1) == (n - 1) * ps; }
    }
  }

  lemma OneShipmentFolds(prev: File, m: Manifest, file: File, h: Hash)
    requires 0 < m.pageSize < U32 && m.hashes == Hashes(prev, m.pageSize, h)
    requires NoCollision(prev, file, m.pageSize, h) && |file| < U32
    ensures FoldOne(prev, DeltaBytes(Encode(DiffOf(m, file, h)))) == Some(file)
  {
    PageCountAtMost(|file|, m.pageSize);
    ChangedPagesFit(m.hashes, file, m.pageSize, h, PageCount(|file|, m.pageSize));
    DecodeEncode(DiffOf(m, file, h));
    DiffApplyRoundTrip(prev, file, m, h);
  }

  /** Folding any run of successive shipments over the first file yields the last file. */
  lemma {:induction false} ShipmentsFold(prev: File, m: Manifest, versions: seq<File>, snap: seq<bool>, h: Hash)
    requires 0 < m.pageSize < U32 && m.hashes == Hashes(prev, m.pageSize, h)
    requires |snap| == |versions| && Shippable(prev, versions, m.pageSize, h)
    ensures Fold(prev, Shipments(m, versions, snap, h)) ==
        Some(if versions == [] then prev else versions[|versions| - 1])
    decreases |versions|
  {
    if versions != [] {
      var file := versions[0];
      OneShipmentFolds(prev, m, file, h);
      var all := Shipments(m, versions, snap, h);
      assert all[1..] == Shipments(AfterDiff(m, file, h), versions[1..], snap[1..], h);
      ShipmentsFold(file, AfterDiff(m, file, h), versions[1..], snap[1..], h);
    }
  }

  // ----- the wire format of an entry
  // One byte says which kind of payload follows; then come eight bytes of birth time and two bytes for the length of
  // the transaction id, most significant byte first, the id itself, and the payload to the end.

  const TAG_SNAPSHOT: nat := 0
  const TAG_DELTA: nat := 1

  datatype Entry = Entry(txn: seq<Byte>, born: nat, payload: Payload)

  predicate Cont(b: seq<Byte>, i: nat) {
    i < |b| && 0x80 <= b[i] <= 0xBF
  }

  /** Well-formed UTF-8, as section 4 of RFC 3629 tabulates it. */
  predicate Utf8(b: seq<Byte>) {
    if b == [] then true
    else if b[0] <= 0x7F then Utf8(b[1..])
    else if 0xC2 <= b[0] <= 0xDF then Cont(b, 1) && Utf8(b[2..])
    else if 0xE0 <= b[0] <= 0xEF then
      Cont(b, 1) && Cont(b, 2) && (b[0] == 0xE0 ==> b[1] >= 0xA0) && (b[0] == 0xED ==> b[1] <= 0x9F) && Utf8(b[3..])
    else if 0xF0 <= b[0] <= 0xF4 then
      Cont(b, 1) && Cont(b, 2) && Cont(b, 3) && (b[0] == 0xF0 ==> b[1] >= 0x90) && (b[0] == 0xF4 ==> b[1] <= 0x8F) &&
      Utf8(b[4..])
    else false
  }

  /** A string of bytes, and a 64-bit birth time. */
  predicate Sound(e: Entry) {
    Utf8(e.txn) && e.born < U64
  }

  function EncodeEntry(e: Entry): seq<Byte> {
    [if e.payload.Snapshot? then TAG_SNAPSHOT else TAG_DELTA] + ToBE(e.born, 8) + ToBE(|e.txn|, 2) + e.txn
        + e.payload.bytes
  }

  function DecodeEntry(b: seq<Byte>): Option<Entry> {
    if |b| < 11 then None
    else
      var tlen := FromBE(b[9..11]);
      if |b| < 11 + tlen || !Utf8(b[11..11 + tlen]) then None
      else
        var body := b[11 + tlen..];
        if b[0] == TAG_SNAPSHOT then Some(Entry(b[11..11 + tlen], FromBE(b[1..9]), Snapshot(body)))
        else if b[0] == TAG_DELTA then Some(Entry(b[11..11 + tlen], FromBE(b[1..9]), DeltaBytes(body)))
        else None
  }

  lemma {:induction false} LowBytes(n: nat, k: nat)
    ensures FromLE(ToLE(n, k)) == n % Pow256(k)
  {
    if k > 0 {
      LowBytes(n / 256, k - 1);
      assert ToLE(n, k)[1..] == ToLE(n / 256, k - 1);
      SplitMod(n, Pow256(k - 1));
    }
  }

  lemma SplitMod(n: nat, p: nat)
    requires p > 0
    ensures n % (256 * p) == n % 256 + 256 * (n / 256 % p)
  {
    var q, r := n / 256, n % 256;
    var a, c := q / p, q % p;
    assert q == a * p + c;
    assert n == 256 * (a * p + c) + r;
    assert 256 * (a * p) == a * (256 * p);
    ModOf(n, 256 * p, a, 256 * c + r);
  }

  lemma ModOf(n: nat, d: nat, a: nat, r: nat)
    requires d > 0 && n == a * d + r && r < d
    ensures n % d == r
  {
    SamePage(n, d, a);
    assert n == n / d * d + n % d;
  }

  /** An entry survives the wire exactly when its txn id is shorter than 2^16 bytes. */
  lemma DecodeEncodeEntry(e: Entry)
    requires Sound(e)
    ensures DecodeEntry(EncodeEntry(e)) == Some(e) <==> |e.txn| < U16
  {
    EncodedHeader(e);
    if |e.txn| < U16 { EncodedBody(e); }
  }

  /** What the decoder reads in the header: the tag, the birth time, and the id's length modulo 2^16. */
  lemma EncodedHeader(e: Entry)
    requires e.born < U64
    ensures var b := EncodeEntry(e);
            && |b| == 11 + |e.txn| + |e.payload.bytes|
            && b[0] == (if e.payload.Snapshot? then TAG_SNAPSHOT else TAG_DELTA)
            && FromBE(b[1..9]) == e.born && FromBE(b[9..11]) == |e.txn| % U16
  {
    var b := EncodeEntry(e);
    Widths();
    FromToBE(e.born, 8);
    assert b[1..9] == ToBE(e.born, 8) && b[9..11] == ToBE(|e.txn|, 2);
    LowBytes(|e.txn|, 2);
    assert Reversed(ToBE(|e.txn|, 2)) == ToLE(|e.txn|, 2);
  }

  lemma EncodedBody(e: Entry)
    ensures var b := EncodeEntry(e); b[11..11 + |e.txn|] == e.txn && b[11 + |e.txn|..] == e.payload.bytes
  {
  }

  /** Whatever decodes re-encodes to exactly the bytes it came from. */
  lemma EncodeDecodedEntry(b: seq<Byte>)
    requires DecodeEntry(b).Some?
    ensures var e := DecodeEntry(b).value; Sound(e) && |e.txn| < U16 && EncodeEntry(e) == b
  {
    var e, tlen := DecodeEntry(b).value, FromBE(b[9..11]);
    Widths();
    ToFromBE(b[1..9]);
    ToFromBE(b[9..11]);
    assert ToBE(e.born, 8) == b[1..9] && ToBE(|e.txn|, 2) == b[9..11];
    Reassembled(b, tlen);
  }

  lemma Reassembled(b: seq<Byte>, tlen: nat)
    requires 11 + tlen <= |b|
    ensures b == [b[0]] + b[1..9] + b[9..11] + b[11..11 + tlen] + b[11 + tlen..]
  {
  }

  /** Where the fields stand, in which order their bytes come, and what the tags mean. */
  lemma EntryLayout(b: seq<Byte>)
    requires DecodeEntry(b).Some?
    ensures |b| >= 11
    ensures var e, len := DecodeEntry(b).value, 256 * (b[9] as int) + b[10];
            && e.born == U32Of(b[8], b[7], b[6], b[5]) + U32 * U32Of(b[4], b[3], b[2], b[1])
            && 11 + len <= |b| && e.txn == b[11..11 + len] && e.payload.bytes == b[11 + len..]
            && b[0] == if e.payload.Snapshot? then 0 else 1
  {
    EightBytes(Reversed(b[1..9]));
    var two := Reversed(b[9..11]);
    assert FromLE(two[1..]) == two[1] + 256 * FromLE(two[1..][1..]) == two[1];
  }
}
