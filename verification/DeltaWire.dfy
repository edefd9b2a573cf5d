/** The wire format of a delta (src/delta.rs), integers with their least significant byte first.  Twenty bytes of header
    give the version, the file length (8 bytes), the page size and the number of pages; each page is its number, its
    length, and its bytes. */
module DeltaWire {
  import opened Bytes
  import opened PageDelta

  function EncodePages(pages: seq<(nat, File)>): seq<Byte> {
    if pages == [] then []
    else ToLE(pages[0].0, 4) + ToLE(|pages[0].1|, 4) + pages[0].1 + EncodePages(pages[1..])
  }

  function Encode(d: Delta): seq<Byte> {
    ToLE(d.counter, 4) + ToLE(d.fileLen, 8) + ToLE(d.pageSize, 4) + ToLE(|d.pages|, 4) + EncodePages(d.pages)
  }

  /** Read `n` pages off the front; what follows them is ignored. */
  function DecodePages(b: seq<Byte>, n: nat): Option<seq<(nat, File)>>
    decreases n
  {
    if n == 0 then Some([])
    else if |b| < 8 then None
    else
      var pageNo, len := FromLE(b[0..4]), FromLE(b[4..8]);
      if |b| < 8 + len then None
      else
        match DecodePages(b[8 + len..], n - 1)
        case None => None
        case Some(rest) => Some([(pageNo, b[8..8 + len])] + rest)
  }

  function Decode(b: seq<Byte>): Option<Delta> {
    if |b| < 20 then None
    else
      var n := FromLE(b[16..20]);
      if n > (|b| - 20) / 8 then None
      else
        match DecodePages(b[20..], n)
        case None => None
        case Some(pages) => Some(Delta(FromLE(b[0..4]), FromLE(b[4..12]), FromLE(b[12..16]), pages))
  }

  // ----- the two directions

  predicate PagesFit(pages: seq<(nat, File)>) {
    forall i :: 0 <= i < |pages| ==> pages[i].0 < U32 && |pages[i].1| < U32
  }

  /** The fields fit the integers of the format. */
  predicate Fits(d: Delta) {
    d.counter < U32 && d.fileLen < U64 && d.pageSize < U32 && |d.pages| < U32 && PagesFit(d.pages)
  }

  function OnePage(no: nat, body: File): (b: seq<Byte>)
    ensures |b| == 8 + |body|
  {
    ToLE(no, 4) + ToLE(|body|, 4) + body
  }

  lemma OnePageParts(no: nat, body: File, rest: seq<Byte>)
    ensures var b := OnePage(no, body) + rest;
            b[0..4] == ToLE(no, 4) && b[4..8] == ToLE(|body|, 4) && b[8..8 + |body|] == body && b[8 + |body|..] == rest
  {
  }

  lemma {:induction false} DecodeEncodedPages(pages: seq<(nat, File)>, tail: seq<Byte>)
    requires PagesFit(pages)
    ensures DecodePages(EncodePages(pages) + tail, |pages|) == Some(pages)
    ensures 8 * |pages| <= |EncodePages(pages)|
  {
    if pages != [] {
      var (no, body) := pages[0];
      var rest := EncodePages(pages[1..]) + tail;
      Widths();
      FromToLE(no, 4);
      FromToLE(|body|, 4);
      assert EncodePages(pages) + tail == OnePage(no, body) + rest;
      OnePageParts(no, body, rest);
      DecodeEncodedPages(pages[1..], tail);
      assert pages == [pages[0]] + pages[1..];
    }
  }

  /** Decoding undoes encoding. */
  lemma DecodeEncode(d: Delta)
    requires Fits(d)
    ensures Decode(Encode(d)) == Some(d)
  {
    var b := Encode(d);
    Widths();
    FromToLE(d.counter, 4);
    FromToLE(d.fileLen, 8);
    FromToLE(d.pageSize, 4);
    FromToLE(|d.pages|, 4);
    assert b[0..4] == ToLE(d.counter, 4) && b[4..12] == ToLE(d.fileLen, 8);
    assert b[12..16] == ToLE(d.pageSize, 4) && b[16..20] == ToLE(|d.pages|, 4);
    assert b[20..] == EncodePages(d.pages) + [];
    DecodeEncodedPages(d.pages, []);
  }

  lemma {:induction false} EncodeDecodedPages(b: seq<Byte>, n: nat)
    requires DecodePages(b, n).Some?
    ensures var pages := DecodePages(b, n).value;
            |pages| == n && PagesFit(pages) && EncodePages(pages) <= b
  {
    if n > 0 {
      var len := FromLE(b[4..8]);
      Widths();
      EncodeDecodedPages(b[8 + len..], n - 1);
      var pages, rest := DecodePages(b, n).value, DecodePages(b[8 + len..], n - 1).value;
      assert pages == [(FromLE(b[0..4]), b[8..8 + len])] + rest;
      ConsPages((FromLE(b[0..4]), b[8..8 + len]), rest);
      OnePageBack(b, len);
      PrefixGrows(b, 8 + len, EncodePages(rest));
    }
  }

  lemma ConsPages(page: (nat, File), rest: seq<(nat, File)>)
    ensures EncodePages([page] + rest) == OnePage(page.0, page.1) + EncodePages(rest)
    ensures page.0 < U32 && |page.1| < U32 && PagesFit(rest) ==> PagesFit([page] + rest)
  {
    assert ([page] + rest)[1..] == rest;
  }

  lemma OnePageBack(b: seq<Byte>, len: nat)
    requires |b| >= 8 + len && len == FromLE(b[4..8])
    ensures OnePage(FromLE(b[0..4]), b[8..8 + len]) == b[..8 + len]
  {
    ToFromLE(b[0..4]);
    ToFromLE(b[4..8]);
    assert b[..8 + len] == b[0..4] + b[4..8] + b[8..8 + len];
  }

  lemma PrefixGrows(b: seq<Byte>, n: nat, e: seq<Byte>)
    requires n <= |b| && e <= b[n..]
    ensures b[..n] + e <= b
  {
  }

  /** Whatever is accepted re-encodes to a prefix of itself, and fits the format. */
  lemma EncodeDecode(b: seq<Byte>)
    requires Decode(b).Some?
    ensures Fits(Decode(b).value) && Encode(Decode(b).value) <= b
  {
    var n := FromLE(b[16..20]);
    Widths();
    ToFromLE(b[0..4]);
    ToFromLE(b[4..12]);
    ToFromLE(b[12..16]);
    ToFromLE(b[16..20]);
    EncodeDecodedPages(b[20..], n);
    var pages := DecodePages(b[20..], n).value;
    PrefixSplits(b, EncodePages(pages));
  }

  lemma PrefixSplits(b: seq<Byte>, e: seq<Byte>)
    requires |b| >= 20 && e <= b[20..]
    ensures b[0..4] + b[4..12] + b[12..16] + b[16..20] + e <= b
  {
    assert b[0..4] + b[4..12] + b[12..16] + b[16..20] + e == b[..20 + |e|];
  }

  /** Where the fields stand, in which order their bytes come, and that a count the rest cannot hold is refused. */
  lemma Layout(b: seq<Byte>)
    requires |b| >= 20
    ensures var n := U32Of(b[16], b[17], b[18], b[19]);
            && (n == 0 ==> Decode(b).Some?) && (20 + 8 * n > |b| ==> Decode(b).None?)
            && (Decode(b).Some? ==>
                  var d := Decode(b).value;
                  && d.counter == U32Of(b[0], b[1], b[2], b[3]) && |d.pages| == n
                  && d.fileLen == U32Of(b[4], b[5], b[6], b[7]) + U32 * U32Of(b[8], b[9], b[10], b[11])
                  && d.pageSize == U32Of(b[12], b[13], b[14], b[15]))
  {
    FourBytes(b[0..4]);
    EightBytes(b[4..12]);
    FourBytes(b[12..16]);
    FourBytes(b[16..20]);
    if Decode(b).Some? { EncodeDecodedPages(b[20..], FromLE(b[16..20])); }
  }

  /** A page is its number, its length and its bytes; the next follows at once. */
  lemma PageLayout(b: seq<Byte>, n: nat)
    requires n > 0 && DecodePages(b, n).Some?
    ensures |b| >= 8
    ensures var len := U32Of(b[4], b[5], b[6], b[7]);
            && 8 + len <= |b| && DecodePages(b[8 + len..], n - 1).Some?
            && DecodePages(b, n).value ==
               [(U32Of(b[0], b[1], b[2], b[3]), b[8..8 + len])] + DecodePages(b[8 + len..], n - 1).value
  {
    FourBytes(b[0..4]);
    FourBytes(b[4..8]);
  }

  // ----- the loops of the source

  method EncodeDelta(d: Delta) returns (out: seq<Byte>)
    ensures out == Encode(d)
    ensures Fits(d) ==> Decode(out) == Some(d)
  {
    if Fits(d) { DecodeEncode(d); }
    out := ToLE(d.counter, 4) + ToLE(d.fileLen, 8) + ToLE(d.pageSize, 4) + ToLE(|d.pages|, 4);
    for i := 0 to |d.pages|
      invariant out + EncodePages(d.pages[i..]) == Encode(d)
    {
      var (no, body) := d.pages[i];
      EncodeOneMore(out, d.pages, i);
      out := out + ToLE(no, 4) + ToLE(|body|, 4) + body;
    }
  }

  /** One page moves from the pages still to be written to the end of the buffer. */
  lemma EncodeOneMore(out: seq<Byte>, pages: seq<(nat, File)>, i: nat)
    requires i < |pages|
    ensures var (no, body) := pages[i];
            out + EncodePages(pages[i..]) == out + ToLE(no, 4) + ToLE(|body|, 4) + body + EncodePages(pages[i + 1..])
  {
    assert pages[i..][0] == pages[i] && pages[i..][1..] == pages[i + 1..];
  }

  /** Decoding from an offset, one page further. */
  lemma DecodeAt(b: seq<Byte>, at: nat, n: nat)
    requires at <= |b| && n > 0
    ensures |b| < at + 8 ==> DecodePages(b[at..], n).None?
    ensures |b| >= at + 8 ==>
              var pageNo, len := FromLE(b[at..at + 4]), FromLE(b[at + 4..at + 8]);
              DecodePages(b[at..], n) ==
                if |b| < at + 8 + len then None
                else
                  match DecodePages(b[at + 8 + len..], n - 1)
                  case None => None
                  case Some(rest) => Some([(pageNo, b[at + 8..at + 8 + len])] + rest)
  {
    var here := b[at..];
    if |b| >= at + 8 {
      var len := FromLE(b[at + 4..at + 8]);
      assert here[0..4] == b[at..at + 4] && here[4..8] == b[at + 4..at + 8];
      if |b| >= at + 8 + len {
        assert here[8..8 + len] == b[at + 8..at + 8 + len] && here[8 + len..] == b[at + 8 + len..];
      }
    }
  }

  function After(pages: seq<(nat, File)>, r: Option<seq<(nat, File)>>): Option<seq<(nat, File)>> {
    match r
    case None => None
    case Some(rest) => Some(pages + rest)
  }

  lemma AfterOneMore(pages: seq<(nat, File)>, page: (nat, File), r: Option<seq<(nat, File)>>)
    ensures After(pages + [page], r) == match r { case None => None case Some(rest) => Some(pages + ([page] + rest)) }
  {
    if r.Some? { assert pages + ([page] + r.value) == pages + [page] + r.value; }
  }

  /** One page at a moving offset, `m` being how many are still to be read. */
  method ReadPage(b: seq<Byte>, at: nat, ghost m: nat) returns (page: Option<(nat, File)>, next: nat)
    requires at <= |b| && m > 0
    ensures page.None? ==> DecodePages(b[at..], m).None?
    ensures page.Some? ==> at <= next <= |b|
    ensures forall done: seq<(nat, File)> :: page.Some? ==>
              After(done, DecodePages(b[at..], m)) == After(done + [page.value], DecodePages(b[next..], m - 1))
  {
    DecodeAt(b, at, m);
    next := at + 8;
    if |b| < next { return None, next; }
    var pageNo, len := FromLE(b[at..at + 4]), FromLE(b[at + 4..at + 8]);
    if |b| < next + len { return None, next; }
    page := Some((pageNo, b[next..next + len]));
    next := next + len;
    forall done: seq<(nat, File)>
      ensures After(done, DecodePages(b[at..], m)) == After(done + [page.value], DecodePages(b[next..], m - 1))
    {
      AfterOneMore(done, page.value, DecodePages(b[next..], m - 1));
    }
  }

  /** The page loop. */
  method ReadPages(b: seq<Byte>, n: nat) returns (r: Option<seq<(nat, File)>>)
    requires |b| >= 20
    ensures r == DecodePages(b[20..], n)
  {
    var pages: seq<(nat, File)> := [];
    var at := 20;
    AfterNothing(DecodePages(b[20..], n));
    for i := 0 to n
      invariant 20 <= at <= |b|
      invariant DecodePages(b[20..], n) == After(pages, DecodePages(b[at..], n - i))
    {
      var page, next := ReadPage(b, at, n - i);
      if page.None? { return None; }
      pages, at := pages + [page.value], next;
    }
    assert pages + [] == pages;
    return Some(pages);
  }

  lemma AfterNothing(r: Option<seq<(nat, File)>>)
    ensures After([], r) == r
  {
    if r.Some? { assert [] + r.value == r.value; }
  }

  method DecodeDelta(b: seq<Byte>) returns (r: Option<Delta>)
    ensures r == Decode(b)
    ensures r.Some? ==> Fits(r.value) && Encode(r.value) <= b
  {
    if Decode(b).Some? { EncodeDecode(b); }
    if |b| < 20 { return None; }
    var n := FromLE(b[16..20]);
    if n > (|b| - 20) / 8 { return None; }
    var pages := ReadPages(b, n);
    if pages.None? { return None; }
    return Some(Delta(FromLE(b[0..4]), FromLE(b[4..12]), FromLE(b[12..16]), pages.value));
  }
}
